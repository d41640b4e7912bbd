/**
 Agreement over whole runs of a network within one round. Honest nodes follow the player's
 voting rules; faulty accounts vote arbitrarily. A cert quorum locks its value for every
 later period, so no two nodes ensure different blocks.
 */
module Network {
  import opened AgreementTypes
  import opened Weights
  import opened Tally
  import opened HonestMajority
  import opened VotingRules
  import opened NodeProtocol

  datatype NetVote = NetVote(sender: Address, cast: Cast)

  datatype Ensured = Ensured(node: Address, value: ProposalValue)

  datatype Net = Net(votes: set<NetVote>, nodes: map<Address, Node>, ensured: set<Ensured>)

  /** The ballots of one voting step. */
  ghost function BallotsAt(votes: set<NetVote>, q: Period, s: Step): set<Ballot> {
    set v | v in votes && v.cast.period == q && v.cast.step == s :: Ballot(v.sender, v.cast.value)
  }

  ghost function MineOf(votes: set<NetVote>, me: Address): set<Cast> {
    set v | v in votes && v.sender == me :: v.cast
  }

  /** The quorums some tracker could report from some part of the votes cast so far. */
  ghost function Visible(pop: Population, votes: set<NetVote>): iset<Cast> {
    iset c: Cast | exists part :: part <= BallotsAt(votes, c.period, c.step) && Over(pop.At(c.step), part, c.value)
  }

  /** The quorums that honest voters stand behind. */
  ghost function Facts(pop: Population, votes: set<NetVote>): iset<Cast> {
    iset c: Cast | Backed(pop, c.step, BallotsAt(votes, c.period, c.step), c.value)
  }

  ghost function Voters(pop: Population, votes: set<NetVote>, c: Cast): set<Address> {
    HonestFor(pop, BallotsAt(votes, c.period, c.step), c.value)
  }

  ghost predicate Init(pop: Population, g: Net) {
    && g.votes == {} && g.ensured == {} && g.nodes.Keys == pop.honest
    && forall n :: n in g.nodes ==> g.nodes[n] == FRESH_NODE
  }

  ghost predicate FaultyStep(pop: Population, g: Net, g': Net, v: NetVote) {
    v.sender in pop.accounts && v.sender !in pop.honest && g' == g.(votes := g.votes + {v})
  }

  ghost predicate HonestStep(pop: Population, g: Net, g': Net, me: Address, e: Event) {
    && me in g.nodes
    && Enabled(MineOf(g.votes, me), Visible(pop, g.votes), g.nodes[me], e)
    && var r := React(g.nodes[me], e);
       g' == Net(if r.vote.None? then g.votes else g.votes + {NetVote(me, r.vote.value)},
                 g.nodes[me := r.node],
                 if r.ensured.None? then g.ensured else g.ensured + {Ensured(me, r.ensured.value)})
  }

  ghost predicate Next(pop: Population, g: Net, g': Net) {
    || (exists v :: FaultyStep(pop, g, g', v))
    || (exists me, e :: HonestStep(pop, g, g', me, e))
  }

  ghost predicate IsRun(pop: Population, run: seq<Net>) {
    && run != [] && Init(pop, run[0])
    && forall i :: 0 <= i < |run| - 1 ==> Next(pop, run[i], run[i + 1])
  }

  // ---------------------------------------------------------------- invariant

  /** The voters of a soft quorum who were prompted by a next quorum of the previous period. */
  ghost function PromptedVoters(pop: Population, g: Net, c: Cast): set<Address> {
    set n | n in Voters(pop, g.votes, c) && n in g.nodes && c.period in g.nodes[n].atSoft &&
            Prompted(g.nodes[n].atSoft[c.period], c)
  }

  /** A soft quorum owes nothing to voters that came after it. */
  ghost predicate SoftFirst(pop: Population, g: Net) {
    forall c: Cast :: c.step == SOFT && c in Facts(pop, g.votes) ==> PromptedBacked(pop, g, c)
  }

  ghost predicate PromptedBacked(pop: Population, g: Net, c: Cast) {
    Weight(PromptedVoters(pop, g, c), pop.weight) + pop.Faulty() >= Threshold(SOFT, pop.proto)
  }

  ghost predicate NodesOk(pop: Population, g: Net) {
    && g.nodes.Keys == pop.honest
    && forall n :: n in g.nodes ==> NodeInv(MineOf(g.votes, n), Facts(pop, g.votes), g.nodes[n])
  }

  ghost predicate VotesOk(pop: Population, g: Net) {
    && pop.Sound()
    && (forall v :: v in g.votes ==> v.sender in pop.accounts)
    && NodesOk(pop, g)
  }

  ghost predicate Inv(pop: Population, g: Net) {
    && VotesOk(pop, g) && SoftFirst(pop, g)
    && forall e :: e in g.ensured ==> exists q :: Cast(q, CERT, e.value) in Facts(pop, g.votes)
  }

  // ---------------------------------------------------------------- reading the invariant

  lemma VoterCast(pop: Population, votes: set<NetVote>, c: Cast, n: Address)
    requires n in Voters(pop, votes, c)
    ensures n in pop.honest && c in MineOf(votes, n)
  {
    var b :| b in BallotsAt(votes, c.period, c.step) && b.value == c.value && b.sender == n;
    var v :| v in votes && v.cast.period == c.period && v.cast.step == c.step && Ballot(v.sender, v.cast.value) == b;
    assert v.cast == c;
  }

  lemma VotersAreHonest(pop: Population, votes: set<NetVote>, c: Cast)
    ensures Voters(pop, votes, c) <= pop.honest
  {
  }

  lemma HonestVoteOnce(pop: Population, g: Net, q: Period, s: Step)
    requires VotesOk(pop, g)
    ensures HonestOnce(pop, BallotsAt(g.votes, q, s))
  {
    var b := BallotsAt(g.votes, q, s);
    forall n | n in pop.honest ensures !Equivocates(b, n) {
      assert Once(MineOf(g.votes, n));
      forall x, y | x in b && y in b && x.sender == n && y.sender == n ensures x.value == y.value {
        assert NetVote(n, Cast(q, s, x.value)) in g.votes && NetVote(n, Cast(q, s, y.value)) in g.votes;
        assert Cast(q, s, x.value) in MineOf(g.votes, n) && Cast(q, s, y.value) in MineOf(g.votes, n);
      }
    }
  }

  /** What a tracker reports, honest voters stand behind. */
  lemma VisibleIsFact(pop: Population, g: Net, c: Cast)
    requires Inv(pop, g) && c in Visible(pop, g.votes)
    ensures c in Facts(pop, g.votes)
  {
    var part :| part <= BallotsAt(g.votes, c.period, c.step) && Over(pop.At(c.step), part, c.value);
    HonestVoteOnce(pop, g, c.period, c.step);
    OverIsBacked(pop, c.step, part, BallotsAt(g.votes, c.period, c.step), c.value);
  }

  /** An honest node that voted as a backed quorum did. */
  lemma Witness(pop: Population, g: Net, c: Cast) returns (n: Address)
    requires Inv(pop, g) && c in Facts(pop, g.votes)
    ensures n in g.nodes && c in MineOf(g.votes, n)
    ensures NodeInv(MineOf(g.votes, n), Facts(pop, g.votes), g.nodes[n])
  {
    VotersAreHonest(pop, g.votes, c);
    n := SomeVoter(pop, Voters(pop, g.votes, c), c.step);
    VoterCast(pop, g.votes, c, n);
  }

  /** An honest node that voted with both of two backed quorums. */
  lemma CommonWitness(pop: Population, g: Net, c: Cast, d: Cast) returns (n: Address)
    requires Inv(pop, g) && c in Facts(pop, g.votes) && d in Facts(pop, g.votes)
    ensures n in g.nodes && c in MineOf(g.votes, n) && d in MineOf(g.votes, n)
    ensures NodeInv(MineOf(g.votes, n), Facts(pop, g.votes), g.nodes[n])
  {
    VotersAreHonest(pop, g.votes, c);
    VotersAreHonest(pop, g.votes, d);
    n := CommonVoter(pop, Voters(pop, g.votes, c), c.step, Voters(pop, g.votes, d), d.step);
    VoterCast(pop, g.votes, c, n);
    VoterCast(pop, g.votes, d, n);
  }

  /** An honest node that voted with a backed quorum and was among the prompted voters of a soft quorum. */
  lemma PromptedWitness(pop: Population, g: Net, c: Cast, soft: Cast) returns (n: Address)
    requires Inv(pop, g) && c in Facts(pop, g.votes) && soft in Facts(pop, g.votes) && soft.step == SOFT
    ensures n in g.nodes && c in MineOf(g.votes, n) && soft in MineOf(g.votes, n)
    ensures NodeInv(MineOf(g.votes, n), Facts(pop, g.votes), g.nodes[n])
    ensures soft.period in g.nodes[n].atSoft && Prompted(g.nodes[n].atSoft[soft.period], soft)
  {
    VotersAreHonest(pop, g.votes, c);
    VotersAreHonest(pop, g.votes, soft);
    assert PromptedBacked(pop, g, soft);
    n := CommonVoter(pop, Voters(pop, g.votes, c), c.step, PromptedVoters(pop, g, soft), SOFT);
    VoterCast(pop, g.votes, c, n);
    VoterCast(pop, g.votes, soft, n);
  }

  // ---------------------------------------------------------------- the facts are coherent

  lemma FactUnique(pop: Population, g: Net, q: Period, s: Step, x: ProposalValue, y: ProposalValue)
    requires VotesOk(pop, g) && Cast(q, s, x) in Facts(pop, g.votes) && Cast(q, s, y) in Facts(pop, g.votes)
    ensures x == y
  {
    HonestVoteOnce(pop, g, q, s);
    BackedUnique(pop, s, BallotsAt(g.votes, q, s), x, y);
  }

  lemma CertFollowsSoft(pop: Population, g: Net, q: Period, x: ProposalValue)
    requires Inv(pop, g) && Cast(q, CERT, x) in Facts(pop, g.votes)
    ensures Cast(q, SOFT, x) in Facts(pop, g.votes)
  {
    var n := Witness(pop, g, Cast(q, CERT, x));
    hide Facts;
  }

  /** A next quorum for a value in a period with a soft quorum is for the soft value. */
  lemma NextFollowsSoft(pop: Population, g: Net, q: Period, s: Step, x: ProposalValue, z: ProposalValue)
    requires Inv(pop, g) && s >= NEXT && x != BOTTOM
    requires Cast(q, s, x) in Facts(pop, g.votes) && Cast(q, SOFT, z) in Facts(pop, g.votes)
    ensures x == z
  {
    hide Facts;
    var c, soft := Cast(q, s, x), Cast(q, SOFT, z);
    var n := PromptedWitness(pop, g, c, soft);
    var node := g.nodes[n];
    assert NextReason(MineOf(g.votes, n), Facts(pop, g.votes), Before(node.cached, q), node.atSoft[q], c);
    assert Recorded(Facts(pop, g.votes), Before(node.cached, q), q, node.atSoft[q]);
    if Cast(q, SOFT, x) in Facts(pop, g.votes) {
      FactUnique(pop, g, q, SOFT, x, z);
    } else {
      assert SoftReason(Facts(pop, g.votes), node.atSoft, soft);
    }
  }

  /** Without a soft quorum, a next quorum for a value repeats a next quorum of the period before. */
  lemma NextFollowsNext(pop: Population, g: Net, q: Period, s: Step, x: ProposalValue)
    requires Inv(pop, g) && s >= NEXT && x != BOTTOM && Cast(q, s, x) in Facts(pop, g.votes)
    ensures Cast(q, SOFT, x) in Facts(pop, g.votes) || (q > 0 && NextSeen(Facts(pop, g.votes), q - 1, x))
  {
    hide Facts;
    var n := Witness(pop, g, Cast(q, s, x));
    var node := g.nodes[n];
    assert NextReason(MineOf(g.votes, n), Facts(pop, g.votes), Before(node.cached, q), node.atSoft[q], Cast(q, s, x));
  }

  lemma {:induction false} NextUnique(pop: Population, g: Net, q: Period, x: ProposalValue, y: ProposalValue)
    requires Inv(pop, g) && x != BOTTOM && y != BOTTOM
    requires NextSeen(Facts(pop, g.votes), q, x) && NextSeen(Facts(pop, g.votes), q, y)
    ensures x == y
    decreases q
  {
    hide Facts, Inv;
    var f := Facts(pop, g.votes);
    var s :| s >= NEXT && Cast(q, s, x) in f;
    var t :| t >= NEXT && Cast(q, t, y) in f;
    if z :| Cast(q, SOFT, z) in f {
      NextFollowsSoft(pop, g, q, s, x, z);
      NextFollowsSoft(pop, g, q, t, y, z);
    } else {
      NextFollowsNext(pop, g, q, s, x);
      NextFollowsNext(pop, g, q, t, y);
      NextUnique(pop, g, q - 1, x, y);
    }
  }

  lemma FactsCoherent(pop: Population, g: Net)
    requires Inv(pop, g)
    ensures Coherent(Facts(pop, g.votes))
  {
    hide Facts, VotesOk, SoftFirst, NextSeen;
    var f := Facts(pop, g.votes);
    forall q, x, y | Cast(q, SOFT, x) in f && Cast(q, SOFT, y) in f ensures x == y {
      FactUnique(pop, g, q, SOFT, x, y);
    }
    forall q, x | Cast(q, CERT, x) in f ensures Cast(q, SOFT, x) in f {
      CertFollowsSoft(pop, g, q, x);
    }
    forall q, x, y | NextSeen(f, q, x) && NextSeen(f, q, y) && x != BOTTOM && y != BOTTOM ensures x == y {
      NextUnique(pop, g, q, x, y);
    }
  }

  // ---------------------------------------------------------------- a cert quorum locks its value

  /** Every soft, cert and next quorum of the period is for `v`; in particular none is for bottom. */
  ghost predicate LockedAt(facts: iset<Cast>, q: Period, v: ProposalValue) {
    forall s, x :: s >= SOFT && Cast(q, s, x) in facts ==> x == v
  }

  lemma CertValue(pop: Population, g: Net, p: Period, v: ProposalValue)
    requires Inv(pop, g) && Cast(p, CERT, v) in Facts(pop, g.votes)
    ensures v != BOTTOM
  {
    hide Facts;
    var n := Witness(pop, g, Cast(p, CERT, v));
  }

  /** In the period of the cert quorum no honest cert voter next-votes anything else. */
  lemma LockedHere(pop: Population, g: Net, p: Period, v: ProposalValue, s: Step, x: ProposalValue)
    requires Inv(pop, g) && Cast(p, CERT, v) in Facts(pop, g.votes)
    requires s >= SOFT && Cast(p, s, x) in Facts(pop, g.votes)
    ensures x == v
  {
    hide Facts;
    CertFollowsSoft(pop, g, p, v);
    if s == SOFT || s == CERT {
      FactUnique(pop, g, p, s, x, v);
    } else {
      var cert, c := Cast(p, CERT, v), Cast(p, s, x);
      var n := CommonWitness(pop, g, cert, c);
      var node := g.nodes[n];
      assert NextReason(MineOf(g.votes, n), Facts(pop, g.votes), Before(node.cached, p), node.atSoft[p], c);
      assert Cast(p, SOFT, x) in Facts(pop, g.votes);
      FactUnique(pop, g, p, SOFT, x, v);
    }
  }

  /** The previous period being locked, a cache of it can show nothing but the locked value. */
  lemma LockedCache(facts: iset<Cast>, cached: map<Period, NextStatus>, q: Period, v: ProposalValue)
    requires CacheOk(facts, cached) && LockedAt(facts, q, v) && v != BOTTOM
    ensures !Before(cached, q + 1).bottom
    ensures Before(cached, q + 1).proposal == BOTTOM || Before(cached, q + 1).proposal == v
  {
  }

  lemma LockedSoft(pop: Population, g: Net, q: Period, v: ProposalValue, x: ProposalValue)
    requires Inv(pop, g) && LockedAt(Facts(pop, g.votes), q, v) && v != BOTTOM
    requires Cast(q + 1, SOFT, x) in Facts(pop, g.votes)
    ensures x == v
  {
    hide Facts, LockedAt;
    var soft := Cast(q + 1, SOFT, x);
    var n := PromptedWitness(pop, g, soft, soft);
    var node := g.nodes[n];
    LockedCache(Facts(pop, g.votes), node.cached, q, v);
    assert Recorded(Facts(pop, g.votes), Before(node.cached, q + 1), q + 1, node.atSoft[q + 1]);
    assert SoftReason(Facts(pop, g.votes), node.atSoft, soft);
  }

  lemma LockedNextValue(pop: Population, g: Net, q: Period, v: ProposalValue, s: Step, x: ProposalValue)
    requires Inv(pop, g) && LockedAt(Facts(pop, g.votes), q, v) && v != BOTTOM
    requires s >= NEXT && x != BOTTOM && Cast(q + 1, s, x) in Facts(pop, g.votes)
    ensures x == v
  {
    hide Facts, Inv;
    NextFollowsNext(pop, g, q + 1, s, x);
    if Cast(q + 1, SOFT, x) in Facts(pop, g.votes) { LockedSoft(pop, g, q, v, x); }
  }

  /** A next quorum for bottom repeats a next quorum for bottom of the period before. */
  lemma BottomFollowsBottom(pop: Population, g: Net, q: Period, s: Step)
    requires Inv(pop, g) && q > 0 && s >= NEXT && Cast(q, s, BOTTOM) in Facts(pop, g.votes)
    ensures NextSeen(Facts(pop, g.votes), q - 1, BOTTOM)
  {
    hide Facts;
    var f, c := Facts(pop, g.votes), Cast(q, s, BOTTOM);
    var n: Address;
    if SoftSeen(f, q) {
      var z :| Cast(q, SOFT, z) in f;
      n := PromptedWitness(pop, g, c, Cast(q, SOFT, z));
      assert SoftReason(f, g.nodes[n].atSoft, Cast(q, SOFT, z));
    } else {
      n := Witness(pop, g, c);
    }
    var node := g.nodes[n];
    assert NextReason(MineOf(g.votes, n), f, Before(node.cached, q), node.atSoft[q], c);
    assert Recorded(f, Before(node.cached, q), q, node.atSoft[q]);
  }

  /** A cert quorum for `v` in period `p` leaves no quorum for anything else in `p` or later. */
  lemma {:induction false} CertLocks(pop: Population, g: Net, p: Period, v: ProposalValue, q: Period)
    requires Inv(pop, g) && Cast(p, CERT, v) in Facts(pop, g.votes) && p <= q
    ensures LockedAt(Facts(pop, g.votes), q, v)
    decreases q
  {
    hide Facts, VotesOk, SoftFirst;
    var f := Facts(pop, g.votes);
    CertValue(pop, g, p, v);
    if q == p {
      forall s, x | s >= SOFT && Cast(q, s, x) in f ensures x == v { LockedHere(pop, g, p, v, s, x); }
    } else {
      CertLocks(pop, g, p, v, q - 1);
      forall s, x | s >= SOFT && Cast(q, s, x) in f ensures x == v {
        if s == CERT { CertFollowsSoft(pop, g, q, x); }
        if s <= CERT { LockedSoft(pop, g, q - 1, v, x); }
        else if x != BOTTOM { LockedNextValue(pop, g, q - 1, v, s, x); }
        else { BottomFollowsBottom(pop, g, q, s); }
      }
    }
  }

  // ---------------------------------------------------------------- every step keeps the invariant

  lemma BallotsGrow(votes: set<NetVote>, v: NetVote, q: Period, s: Step)
    ensures BallotsAt(votes + {v}, q, s) ==
            if v.cast.period == q && v.cast.step == s then BallotsAt(votes, q, s) + {Ballot(v.sender, v.cast.value)}
            else BallotsAt(votes, q, s)
  {
    var all := votes + {v};
    assert v in all;
  }

  lemma FactsGrow(pop: Population, votes: set<NetVote>, v: NetVote)
    ensures Facts(pop, votes) <= Facts(pop, votes + {v})
  {
    forall c | c in Facts(pop, votes) ensures c in Facts(pop, votes + {v}) {
      BallotsGrow(votes, v, c.period, c.step);
      BackedGrows(pop, c.step, BallotsAt(votes, c.period, c.step), BallotsAt(votes + {v}, c.period, c.step), c.value);
    }
  }

  lemma MineGrows(votes: set<NetVote>, v: NetVote, n: Address)
    ensures MineOf(votes + {v}, n) == if v.sender == n then MineOf(votes, n) + {v.cast} else MineOf(votes, n)
  {
    assert v in votes + {v};
  }

  /** Only an honest vote for the very same cast adds to its honest voters. */
  lemma VotersGrow(pop: Population, votes: set<NetVote>, v: NetVote, c: Cast)
    ensures Voters(pop, votes + {v}, c) ==
            if v.cast == c && v.sender in pop.honest then Voters(pop, votes, c) + {v.sender} else Voters(pop, votes, c)
  {
    BallotsGrow(votes, v, c.period, c.step);
    var b := Ballot(v.sender, v.cast.value);
    assert v.cast.period == c.period && v.cast.step == c.step ==> (v.cast == c <==> b.value == c.value);
  }

  lemma FaultyKeeps(pop: Population, g: Net, g': Net, v: NetVote)
    requires Inv(pop, g) && FaultyStep(pop, g, g', v)
    ensures Inv(pop, g')
  {
    assert Facts(pop, g'.votes) == Facts(pop, g.votes) by {
      forall c ensures c in Facts(pop, g'.votes) <==> c in Facts(pop, g.votes) { VotersGrow(pop, g.votes, v, c); }
    }
    hide Facts;
    forall n | n in g.nodes ensures MineOf(g'.votes, n) == MineOf(g.votes, n) { MineGrows(g.votes, v, n); }
    forall c: Cast | c.step == SOFT && c in Facts(pop, g'.votes) ensures PromptedBacked(pop, g', c) {
      assert PromptedBacked(pop, g, c);
      VotersGrow(pop, g.votes, v, c);
      assert PromptedVoters(pop, g', c) == PromptedVoters(pop, g, c);
    }
  }

  lemma EnabledByFacts(pop: Population, g: Net, me: Address, e: Event)
    requires Inv(pop, g) && me in g.nodes
    requires Enabled(MineOf(g.votes, me), Visible(pop, g.votes), g.nodes[me], e)
    ensures Enabled(MineOf(g.votes, me), Facts(pop, g.votes), g.nodes[me], e)
  {
    assert forall c :: c in Visible(pop, g.votes) ==> c in Facts(pop, g.votes) by {
      forall c | c in Visible(pop, g.votes) ensures c in Facts(pop, g.votes) { VisibleIsFact(pop, g, c); }
    }
    hide Facts, Visible, Inv;
  }

  /** What was recorded at soft time is never rewritten. */
  lemma RecordsStay(mine: set<Cast>, facts: iset<Cast>, n: Node, e: Event)
    requires NodeInv(mine, facts, n)
    ensures forall q :: q in n.atSoft ==> q in React(n, e).node.atSoft && React(n, e).node.atSoft[q] == n.atSoft[q]
  {
    hide VotesPlaced, Once, CacheOk, StagedOk, RecordsOk, EnteredOk, SoftVotesOk, CertVotesOk, NextVotesOk;
  }

  lemma HonestKeepsNodes(pop: Population, g: Net, g': Net, me: Address, e: Event)
    requires Inv(pop, g) && HonestStep(pop, g, g', me, e)
    ensures VotesOk(pop, g') && Facts(pop, g.votes) <= Facts(pop, g'.votes)
    ensures var r := React(g.nodes[me], e);
            NodeInv(After(MineOf(g.votes, me), r), Facts(pop, g.votes), r.node)
  {
    hide Facts, Visible, NodeInv, Enabled, SoftFirst;
    var r := React(g.nodes[me], e);
    FactsCoherent(pop, g);
    EnabledByFacts(pop, g, me, e);
    Kept(MineOf(g.votes, me), Facts(pop, g.votes), g.nodes[me], e);
    if r.vote.Some? { FactsGrow(pop, g.votes, NetVote(me, r.vote.value)); }
    forall n | n in g'.nodes ensures NodeInv(MineOf(g'.votes, n), Facts(pop, g'.votes), g'.nodes[n]) {
      if r.vote.Some? { MineGrows(g.votes, NetVote(me, r.vote.value), n); }
      NodeInvGrows(MineOf(g'.votes, n), Facts(pop, g.votes), Facts(pop, g'.votes), g'.nodes[n]);
    }
  }

  lemma PromptedStay(pop: Population, g: Net, g': Net, me: Address, e: Event, c: Cast)
    requires Inv(pop, g) && HonestStep(pop, g, g', me, e)
    ensures PromptedVoters(pop, g, c) <= PromptedVoters(pop, g', c)
  {
    hide Facts, Visible, Enabled, SoftFirst, React, Voters;
    RecordsStay(MineOf(g.votes, me), Facts(pop, g.votes), g.nodes[me], e);
    hide NodeInv;
    var r := React(g.nodes[me], e);
    if r.vote.Some? { VotersGrow(pop, g.votes, NetVote(me, r.vote.value), c); }
  }

  /** The first soft quorum of a period consists of prompted voters alone. */
  lemma FirstSoftQuorum(pop: Population, g: Net, g': Net, me: Address, e: Event, c: Cast)
    requires Inv(pop, g) && HonestStep(pop, g, g', me, e) && c.step == SOFT
    requires React(g.nodes[me], e).vote == Some(c)
    requires c in Facts(pop, g'.votes) && c !in Facts(pop, g.votes)
    ensures Voters(pop, g'.votes, c) <= PromptedVoters(pop, g', c)
  {
    hide Facts, Visible, Enabled, SoftFirst, React, Voters;
    HonestKeepsNodes(pop, g, g', me, e);
    var r := React(g.nodes[me], e);
    var f := Facts(pop, g.votes);
    assert !SoftSeen(f, c.period) by {
      forall y | Cast(c.period, SOFT, y) in f ensures false {
        FactUnique(pop, g', c.period, SOFT, y, c.value);
      }
    }
    VotersGrow(pop, g.votes, NetVote(me, c), c);
    forall n | n in Voters(pop, g'.votes, c) ensures n in PromptedVoters(pop, g', c) {
      if n == me {
        assert SoftReason(f, r.node.atSoft, c);
      } else {
        VoterCast(pop, g.votes, c, n);
        assert SoftReason(f, g.nodes[n].atSoft, c);
      }
    }
  }

  lemma HonestKeepsSoftFirst(pop: Population, g: Net, g': Net, me: Address, e: Event, c: Cast)
    requires Inv(pop, g) && HonestStep(pop, g, g', me, e)
    requires c.step == SOFT && c in Facts(pop, g'.votes)
    ensures PromptedBacked(pop, g', c)
  {
    hide Visible, Enabled, NodeInv, React;
    var r := React(g.nodes[me], e);
    if c in Facts(pop, g.votes) {
      assert PromptedBacked(pop, g, c);
      PromptedStay(pop, g, g', me, e, c);
      WeightSubset(PromptedVoters(pop, g, c), PromptedVoters(pop, g', c), pop.weight);
    } else {
      if r.vote.Some? { VotersGrow(pop, g.votes, NetVote(me, r.vote.value), c); }
      FirstSoftQuorum(pop, g, g', me, e, c);
      WeightSubset(Voters(pop, g'.votes, c), PromptedVoters(pop, g', c), pop.weight);
    }
  }

  lemma HonestKeeps(pop: Population, g: Net, g': Net, me: Address, e: Event)
    requires Inv(pop, g) && HonestStep(pop, g, g', me, e)
    ensures Inv(pop, g')
  {
    hide Facts, Visible, NodeInv, PromptedBacked;
    HonestKeepsNodes(pop, g, g', me, e);
    EnabledByFacts(pop, g, me, e);
    forall c: Cast | c.step == SOFT && c in Facts(pop, g'.votes) ensures PromptedBacked(pop, g', c) {
      HonestKeepsSoftFirst(pop, g, g', me, e, c);
    }
    forall x | x in g'.ensured ensures exists q :: Cast(q, CERT, x.value) in Facts(pop, g'.votes) {
      var q :| Cast(q, CERT, x.value) in Facts(pop, g.votes);
      assert Cast(q, CERT, x.value) in Facts(pop, g'.votes);
    }
  }

  // ---------------------------------------------------------------- whole runs

  lemma InitOk(pop: Population, g: Net)
    requires pop.Sound() && Init(pop, g)
    ensures Inv(pop, g)
  {
    forall n | n in g.nodes ensures NodeInv(MineOf(g.votes, n), Facts(pop, g.votes), g.nodes[n]) {
      FreshNode(Facts(pop, g.votes));
    }
    forall c: Cast | c.step == SOFT && c in Facts(pop, g.votes) ensures PromptedBacked(pop, g, c) {
      assert Voters(pop, g.votes, c) == {} == PromptedVoters(pop, g, c);
    }
  }

  lemma {:induction false} RunKeeps(pop: Population, run: seq<Net>, i: nat)
    requires pop.Sound() && IsRun(pop, run) && i < |run|
    ensures Inv(pop, run[i])
  {
    if i == 0 {
      InitOk(pop, run[0]);
    } else {
      RunKeeps(pop, run, i - 1);
      var g, g' := run[i - 1], run[i];
      hide Inv;
      assert Next(pop, g, g');
      if v :| FaultyStep(pop, g, g', v) {
        FaultyKeeps(pop, g, g', v);
      } else {
        var me, e :| HonestStep(pop, g, g', me, e);
        HonestKeeps(pop, g, g', me, e);
      }
    }
  }

  /**
   In every state of every run: once some node could see a cert quorum for `v` in period `p`,
   any soft, cert or next quorum a node can see in period `p` or later is for `v`.
   */
  lemma CertQuorumLocks(pop: Population, run: seq<Net>, i: nat, p: Period, v: ProposalValue,
                        q: Period, s: Step, x: ProposalValue)
    requires pop.Sound() && IsRun(pop, run) && i < |run|
    requires Cast(p, CERT, v) in Visible(pop, run[i].votes)
    requires p <= q && s >= SOFT && Cast(q, s, x) in Visible(pop, run[i].votes)
    ensures x == v && v != BOTTOM
  {
    RunKeeps(pop, run, i);
    hide Facts, Visible, Inv;
    VisibleIsFact(pop, run[i], Cast(p, CERT, v));
    VisibleIsFact(pop, run[i], Cast(q, s, x));
    CertLocks(pop, run[i], p, v, q);
    CertValue(pop, run[i], p, v);
  }

  /** No two nodes ever ensure different blocks for the round. */
  lemma Agreement(pop: Population, run: seq<Net>, i: nat, a: Ensured, b: Ensured)
    requires pop.Sound() && IsRun(pop, run) && i < |run|
    requires a in run[i].ensured && b in run[i].ensured
    ensures a.value == b.value
  {
    RunKeeps(pop, run, i);
    hide Facts;
    var f := Facts(pop, run[i].votes);
    var p :| Cast(p, CERT, a.value) in f;
    var q :| Cast(q, CERT, b.value) in f;
    hide Inv;
    if p <= q {
      CertLocks(pop, run[i], p, a.value, q);
    } else {
      CertLocks(pop, run[i], q, b.value, p);
    }
  }

  /** No honest node ever votes for two values in one (period, step), fast-recovery steps included. */
  lemma NoHonestEquivocation(pop: Population, run: seq<Net>, i: nat, n: Address, c: Cast, d: Cast)
    requires pop.Sound() && IsRun(pop, run) && i < |run| && n in pop.honest
    requires NetVote(n, c) in run[i].votes && NetVote(n, d) in run[i].votes
    requires c.period == d.period && c.step == d.step
    ensures c == d
  {
    RunKeeps(pop, run, i);
    assert c in MineOf(run[i].votes, n) && d in MineOf(run[i].votes, n);
  }

  /** In every run, a tracker fed any part of the votes of a step meets neither safety panic. */
  lemma TrackersStaySafe(pop: Population, run: seq<Net>, i: nat, q: Period, s: Step, part: set<Ballot>)
    requires pop.Sound() && IsRun(pop, run) && i < |run|
    requires part <= BallotsAt(run[i].votes, q, s)
    ensures Safe(pop.At(s), part)
  {
    RunKeeps(pop, run, i);
    HonestVoteOnce(pop, run[i], q, s);
    NoPanic(pop, s, BallotsAt(run[i].votes, q, s), part);
  }
}
