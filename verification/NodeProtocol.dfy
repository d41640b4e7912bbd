/**
 One honest node within a round, reacting to quorums, payloads and timeouts, and the
 facts every reaction keeps. Which quorums exist is given by a growing set of facts.
 */
module NodeProtocol {
  import opened AgreementTypes
  import opened VotingRules

  /** A vote without its sender; also the statement that a quorum stands behind one. */
  datatype Cast = Cast(period: Period, step: Step, value: ProposalValue)

  function Look(cached: map<Period, NextStatus>, q: Period): NextStatus {
    if q in cached then cached[q] else NOTHING_SEEN
  }

  /** The cache of the period before `q`; before period 0 there is none. */
  function Before(cached: map<Period, NextStatus>, q: Period): NextStatus {
    if q == 0 then NOTHING_SEEN else Look(cached, q - 1)
  }

  /**
   `cached` is the next-threshold cache of each period, `staged` the staging value of each
   period, `blocks` the values whose payload is assembled. `atSoft` records, for each
   period, the previous period's cache at the moment of the soft timeout.
   */
  datatype Node = Node(
    active: bool, period: Period, step: Step, napping: bool,
    cached: map<Period, NextStatus>, staged: map<Period, ProposalValue>, blocks: set<ProposalValue>,
    atSoft: map<Period, NextStatus>)
  {
    function Committable(): Option<ProposalValue> {
      if period in staged && staged[period] in blocks then Some(staged[period]) else None
    }

    function Enter(q: Period): Node {
      this.(period := q, step := SOFT, napping := false)
    }
  }

  const FRESH_NODE := Node(true, 0, SOFT, false, map[], map[], {}, map[])

  datatype Event =
    | SeeSoft(q: Period, x: ProposalValue)
    | SeeCert(q: Period, x: ProposalValue)
    | SeeNext(q: Period, s: Step, x: ProposalValue, freshest: bool)
    | Payload(x: ProposalValue, certified: bool)
    | Timeout(frozen: ProposalValue)
    | FastTimeout
    | Forget(x: ProposalValue)
    | Leave

  datatype Reaction = Reaction(node: Node, vote: Option<Cast>, ensured: Option<ProposalValue>)

  function CertVoteIf(n: Node, x: ProposalValue): Reaction {
    Reaction(n, if x in n.blocks && n.step <= CERT then Some(Cast(n.period, CERT, x)) else None, None)
  }

  function OnTimeout(n: Node, frozen: ProposalValue): Reaction {
    if n.step == SOFT then
      var choice := SoftChoice(n.period, frozen, Before(n.cached, n.period));
      Reaction(n.(step := CERT, atSoft := n.atSoft[n.period := Before(n.cached, n.period)]),
               if choice.None? then None else Some(Cast(n.period, SOFT, choice.value)), None)
    else if n.step == CERT then
      Reaction(n.(step := NEXT),
               Some(Cast(n.period, NEXT, NextChoice(n.Committable(), Before(n.cached, n.period)))), None)
    else if n.napping then
      Reaction(n.(napping := false),
               Some(Cast(n.period, n.step, NextChoice(n.Committable(), Before(n.cached, n.period)))), None)
    else
      Reaction(n.(step := n.step + 1, napping := true), None, None)
  }

  function React(n: Node, e: Event): Reaction {
    match e
    case SeeSoft(q, x) =>
      if n.period > q then Reaction(n, None, None)
      else
        var m := if n.period < q then n.Enter(q) else n;
        CertVoteIf(m.(staged := m.staged[q := x]), x)
    case SeeCert(q, x) =>
      var m := n.(staged := n.staged[q := x]);
      if x in n.blocks then Reaction(m.(active := false), None, Some(x))
      else Reaction(if n.period < q then m.Enter(q) else m, None, None)
    case SeeNext(q, s, x, freshest) =>
      var m := n.(cached := n.cached[q := Cache(Look(n.cached, q), x)]);
      Reaction(if freshest && n.period <= q then m.Enter(q + 1) else m, None, None)
    case Payload(x, certified) =>
      var m := n.(blocks := n.blocks + {x});
      if certified then Reaction(m.(active := false), None, Some(x))
      else if n.period in n.staged && n.staged[n.period] == x then CertVoteIf(m, x)
      else Reaction(m, None, None)
    case Timeout(frozen) => OnTimeout(n, frozen)
    case FastTimeout =>
      var (s, x) := FastChoice(n.Committable(), Before(n.cached, n.period));
      Reaction(n, Some(Cast(n.period, s, x)), None)
    case Forget(x) => Reaction(n.(blocks := n.blocks - {x}), None, None)
    case Leave => Reaction(n.(active := false), None, None)
  }

  /**
   When a node with votes `mine` may react: the quorum it sees exists, steps stay below the
   fast-recovery steps, fast recovery starts after the deadline, and the block of a cert vote
   of the current period is kept.
   */
  ghost predicate Enabled(mine: set<Cast>, facts: iset<Cast>, n: Node, e: Event) {
    n.active &&
    match e
    case SeeSoft(q, x) => Cast(q, SOFT, x) in facts
    case SeeCert(q, x) => Cast(q, CERT, x) in facts
    case SeeNext(q, s, x, _) => s >= NEXT && Cast(q, s, x) in facts
    case Payload(x, certified) => x != BOTTOM && (certified ==> exists q :: Cast(q, CERT, x) in facts)
    case Timeout(_) => n.step + 1 < LATE
    case FastTimeout => n.step >= NEXT
    case Forget(x) => Cast(n.period, CERT, x) !in mine
    case Leave => true
  }

  /** A node is done with the round exactly when it ensures a block or leaves: nothing is enabled for it any more. */
  lemma DoneIff(mine: set<Cast>, facts: iset<Cast>, n: Node, e: Event)
    requires Enabled(mine, facts, n, e)
    ensures var r := React(n, e);
            (e.Leave? || r.ensured.Some?) <==> forall mine', facts', e' :: !Enabled(mine', facts', r.node, e')
  {
    if React(n, e).node.active {
      assert Enabled({}, iset{}, React(n, e).node, Leave);
    }
  }

  // ---------------------------------------------------------------- what the facts promise

  ghost predicate SoftSeen(facts: iset<Cast>, q: Period) {
    exists x :: Cast(q, SOFT, x) in facts
  }

  ghost predicate NextSeen(facts: iset<Cast>, q: Period, x: ProposalValue) {
    exists s :: s >= NEXT && Cast(q, s, x) in facts
  }

  /** Soft quorums are unique, cert quorums follow soft quorums, next quorums agree on the value. */
  ghost predicate Coherent(facts: iset<Cast>) {
    && (forall q, x, y :: Cast(q, SOFT, x) in facts && Cast(q, SOFT, y) in facts ==> x == y)
    && (forall q, x :: Cast(q, CERT, x) in facts ==> Cast(q, SOFT, x) in facts)
    && (forall q, x, y :: NextSeen(facts, q, x) && NextSeen(facts, q, y) && x != BOTTOM && y != BOTTOM ==> x == y)
  }

  // ---------------------------------------------------------------- node invariant

  /** Where a node stands: period, step and napping flag, and the periods whose soft timeout has passed. */
  ghost predicate StandsOk(period: Period, step: Step, napping: bool, atSoft: map<Period, NextStatus>) {
    && SOFT <= step < LATE && (napping ==> step > NEXT)
    && (step >= CERT ==> period in atSoft)
    && forall q :: q in atSoft ==> q <= period && (q == period ==> step >= CERT)
  }

  /** Where the node may have voted already, given where it stands. */
  ghost predicate VotesPlaced(mine: set<Cast>, period: Period, step: Step, napping: bool,
                              atSoft: map<Period, NextStatus>) {
    forall v :: v in mine ==> VotePlaced(v, period, step, napping, atSoft)
  }

  ghost predicate VotePlaced(v: Cast, period: Period, step: Step, napping: bool, atSoft: map<Period, NextStatus>) {
    && v.step >= SOFT && v.period <= period
    && (v.step != CERT ==> v.period in atSoft)
    && (v.step >= NEXT && v.period == period ==> step >= NEXT)
    && (NEXT <= v.step < LATE && v.period == period ==> v.step <= step && (v.step == step ==> !napping))
  }

  /** One vote per (period, step). */
  ghost predicate Once(mine: set<Cast>) {
    forall v, w :: v in mine && w in mine && v.period == w.period && v.step == w.step ==> v == w
  }

  /** What the node remembers was a quorum. */
  ghost predicate CacheOk(facts: iset<Cast>, cached: map<Period, NextStatus>) {
    forall q :: q in cached ==>
      && (cached[q].bottom ==> NextSeen(facts, q, BOTTOM))
      && (cached[q].proposal != BOTTOM ==> NextSeen(facts, q, cached[q].proposal))
  }

  ghost predicate StagedOk(facts: iset<Cast>, staged: map<Period, ProposalValue>) {
    forall q :: q in staged ==> Cast(q, SOFT, staged[q]) in facts
  }

  /** What the node recorded at soft time it still remembers. */
  ghost predicate RecordsOk(facts: iset<Cast>, cached: map<Period, NextStatus>, atSoft: map<Period, NextStatus>) {
    forall q :: q in atSoft ==> Recorded(facts, Before(cached, q), q, atSoft[q])
  }

  ghost predicate Recorded(facts: iset<Cast>, before: NextStatus, q: Period, r: NextStatus) {
    && (r.bottom ==> before.bottom)
    && (r.proposal != BOTTOM ==> before.proposal == r.proposal)
    && (q > 0 && r == NOTHING_SEEN ==> SoftSeen(facts, q))
  }

  /** A node in a later period saw a next quorum of the previous one, or a soft quorum of this one. */
  ghost predicate EnteredOk(facts: iset<Cast>, cached: map<Period, NextStatus>, period: Period) {
    period > 0 && Before(cached, period) == NOTHING_SEEN ==> SoftSeen(facts, period)
  }

  /** The soft vote followed a next quorum of the previous period, or came after a soft quorum. */
  ghost predicate SoftReason(facts: iset<Cast>, atSoft: map<Period, NextStatus>, v: Cast) {
    && v.value != BOTTOM && v.period in atSoft
    && (Prompted(atSoft[v.period], v) || SoftSeen(facts, v.period))
  }

  predicate Prompted(r: NextStatus, v: Cast) {
    v.period == 0 || r.bottom || r.proposal == v.value
  }

  /** A cert vote follows a soft quorum; within its period the value stays committable. */
  ghost predicate CertReason(facts: iset<Cast>, period: Period, committable: Option<ProposalValue>, v: Cast) {
    && v.value != BOTTOM && Cast(v.period, SOFT, v.value) in facts
    && (v.period == period ==> committable == Some(v.value))
  }

  ghost predicate NoCertVote(mine: set<Cast>, q: Period) {
    forall v :: v in mine ==> !(v.period == q && v.step == CERT)
  }

  /** The three grounds of a next vote: a soft quorum, the previous period's value, or neither. */
  ghost predicate NextReason(mine: set<Cast>, facts: iset<Cast>, before: NextStatus, r: NextStatus, v: Cast) {
    || (v.value != BOTTOM && v.step != REDO && v.step != DOWN && Cast(v.period, SOFT, v.value) in facts)
    || (v.value != BOTTOM && v.step != LATE && v.step != DOWN && before.proposal == v.value
        && !r.bottom && NoCertVote(mine, v.period))
    || (v.value == BOTTOM && v.step != LATE && v.step != REDO && NoCertVote(mine, v.period)
        && (before.bottom || r.proposal == BOTTOM))
  }

  ghost predicate SoftVotesOk(mine: set<Cast>, facts: iset<Cast>, atSoft: map<Period, NextStatus>) {
    forall v :: v in mine && v.step == SOFT ==> SoftReason(facts, atSoft, v)
  }

  ghost predicate CertVotesOk(mine: set<Cast>, facts: iset<Cast>, period: Period, committable: Option<ProposalValue>) {
    forall v :: v in mine && v.step == CERT ==> CertReason(facts, period, committable, v)
  }

  ghost predicate NextVotesOk(mine: set<Cast>, facts: iset<Cast>, cached: map<Period, NextStatus>,
                              atSoft: map<Period, NextStatus>)
  {
    forall v :: v in mine && v.step >= NEXT ==>
      v.period in atSoft && NextReason(mine, facts, Before(cached, v.period), atSoft[v.period], v)
  }

  ghost predicate NodeInv(mine: set<Cast>, facts: iset<Cast>, n: Node) {
    && StandsOk(n.period, n.step, n.napping, n.atSoft)
    && VotesPlaced(mine, n.period, n.step, n.napping, n.atSoft) && Once(mine) && BOTTOM !in n.blocks
    && CacheOk(facts, n.cached) && StagedOk(facts, n.staged)
    && RecordsOk(facts, n.cached, n.atSoft) && EnteredOk(facts, n.cached, n.period)
    && SoftVotesOk(mine, facts, n.atSoft)
    && CertVotesOk(mine, facts, n.period, n.Committable())
    && NextVotesOk(mine, facts, n.cached, n.atSoft)
  }

  lemma FreshNode(facts: iset<Cast>)
    ensures NodeInv({}, facts, FRESH_NODE)
  {
  }

  /** More quorums never hurt. */
  lemma NodeInvGrows(mine: set<Cast>, facts: iset<Cast>, more: iset<Cast>, n: Node)
    requires NodeInv(mine, facts, n) && facts <= more
    ensures NodeInv(mine, more, n)
  {
    forall q | SoftSeen(facts, q) ensures SoftSeen(more, q) {}
    forall q, x | NextSeen(facts, q, x) ensures NextSeen(more, q, x) {
      var s :| s >= NEXT && Cast(q, s, x) in facts;
      assert Cast(q, s, x) in more;
    }
  }

  // ---------------------------------------------------------------- every reaction keeps it

  ghost function After(mine: set<Cast>, r: Reaction): set<Cast> {
    if r.vote.None? then mine else mine + {r.vote.value}
  }

  /** Staging the value of a soft quorum. */
  lemma KeptByStaging(mine: set<Cast>, facts: iset<Cast>, n: Node, q: Period, x: ProposalValue)
    requires NodeInv(mine, facts, n) && Coherent(facts) && Cast(q, SOFT, x) in facts
    ensures NodeInv(mine, facts, n.(staged := n.staged[q := x]))
  {
    hide StandsOk, VotesPlaced, Once, CacheOk, RecordsOk, EnteredOk, SoftVotesOk, NextVotesOk;
    var m := n.(staged := n.staged[q := x]);
    if q in n.staged { assert n.staged[q] == x; }
    forall v | v in mine && v.step == CERT ensures CertReason(facts, m.period, m.Committable(), v) {
      assert CertReason(facts, n.period, n.Committable(), v);
    }
  }

  /** Entering a later period for which a quorum was seen. */
  lemma KeptByEntering(mine: set<Cast>, facts: iset<Cast>, n: Node, q: Period)
    requires NodeInv(mine, facts, n) && n.period < q && EnteredOk(facts, n.cached, q)
    ensures NodeInv(mine, facts, n.Enter(q))
  {
    hide Once, CacheOk, RecordsOk, EnteredOk, SoftVotesOk, NextVotesOk, StagedOk;
    forall v | v in mine
      ensures VotePlaced(v, q, SOFT, false, n.atSoft)
      ensures v.step == CERT ==> CertReason(facts, q, n.Enter(q).Committable(), v)
    {
      assert VotePlaced(v, n.period, n.step, n.napping, n.atSoft);
    }
  }

  /** Casting a cert vote for a committable value before the deadline. */
  lemma KeptByCertVote(mine: set<Cast>, facts: iset<Cast>, n: Node, x: ProposalValue)
    requires NodeInv(mine, facts, n) && Coherent(facts) && n.step <= CERT && n.Committable() == Some(x)
    ensures NodeInv(mine + {Cast(n.period, CERT, x)}, facts, n)
  {
    hide StandsOk, CacheOk, RecordsOk, EnteredOk;
    var c := Cast(n.period, CERT, x);
    var all := mine + {c};
    assert Cast(n.period, SOFT, x) in facts;
    forall v | v in mine && v.period == c.period && v.step == CERT ensures v == c {
      assert CertReason(facts, n.period, n.Committable(), v);
    }
    forall v | v in all && v.step >= NEXT
      ensures v.period in n.atSoft && NextReason(all, facts, Before(n.cached, v.period), n.atSoft[v.period], v)
    {
      assert VotePlaced(v, n.period, n.step, n.napping, n.atSoft);
      assert NoCertVote(mine, v.period) ==> NoCertVote(all, v.period);
    }
  }

  /** Remembering a next quorum. */
  lemma KeptByCaching(mine: set<Cast>, facts: iset<Cast>, n: Node, q: Period, s: Step, x: ProposalValue)
    requires NodeInv(mine, facts, n) && Coherent(facts) && s >= NEXT && Cast(q, s, x) in facts
    ensures NodeInv(mine, facts, n.(cached := n.cached[q := Cache(Look(n.cached, q), x)]))
  {
    hide StandsOk, VotesPlaced, Once, StagedOk, SoftVotesOk, CertVotesOk;
    var m := n.(cached := n.cached[q := Cache(Look(n.cached, q), x)]);
    assert NextSeen(facts, q, x);
    forall r ensures Refines(Before(n.cached, r), Before(m.cached, r)) {}
    forall v | v in mine && v.step >= NEXT
      ensures NextReason(mine, facts, Before(m.cached, v.period), n.atSoft[v.period], v)
    {
      assert Refines(Before(n.cached, v.period), Before(m.cached, v.period));
    }
    forall r | r in n.atSoft ensures Recorded(facts, Before(m.cached, r), r, n.atSoft[r]) {
      assert Refines(Before(n.cached, r), Before(m.cached, r));
    }
  }

  /** The later cache still shows everything the earlier one did. */
  predicate Refines(a: NextStatus, b: NextStatus) {
    (a.bottom ==> b.bottom) && (a.proposal != BOTTOM ==> b.proposal == a.proposal)
  }

  /** Gaining a block, or dropping one that no cert vote of this period needs. */
  lemma KeptByBlocks(mine: set<Cast>, facts: iset<Cast>, n: Node, blocks: set<ProposalValue>)
    requires NodeInv(mine, facts, n) && BOTTOM !in blocks
    requires forall x :: x in n.blocks && x !in blocks ==> Cast(n.period, CERT, x) !in mine
    ensures NodeInv(mine, facts, n.(blocks := blocks))
  {
    hide StandsOk, VotesPlaced, Once, CacheOk, StagedOk, RecordsOk, EnteredOk, SoftVotesOk, NextVotesOk;
    var m := n.(blocks := blocks);
    forall v | v in mine && v.step == CERT ensures CertReason(facts, m.period, m.Committable(), v) {
      assert CertReason(facts, n.period, n.Committable(), v);
      assert v == Cast(v.period, CERT, v.value);
    }
  }

  /** Moving to a later step of the same period, once the soft timeout has passed. */
  lemma KeptByStep(mine: set<Cast>, facts: iset<Cast>, n: Node, step: Step, napping: bool)
    requires NodeInv(mine, facts, n) && CERT <= n.step && NEXT <= step < LATE
    requires n.step < step || (n.step == step && !napping)
    requires napping ==> step > NEXT
    ensures NodeInv(mine, facts, n.(step := step, napping := napping))
    ensures !napping && (n.step < step || n.napping) ==>
              forall v :: v in mine && v.period == n.period ==> v.step != step
  {
    hide Once, CacheOk, StagedOk, RecordsOk, EnteredOk, SoftVotesOk, CertVotesOk, NextVotesOk;
    forall v | v in mine
      ensures VotePlaced(v, n.period, step, napping, n.atSoft)
      ensures !napping && (n.step < step || n.napping) && v.period == n.period ==> v.step != step
    {
      assert VotePlaced(v, n.period, n.step, n.napping, n.atSoft);
    }
  }

  /** Casting a grounded vote of a next step, or repeating one. */
  lemma KeptByNextVote(mine: set<Cast>, facts: iset<Cast>, n: Node, c: Cast)
    requires NodeInv(mine, facts, n) && c.period == n.period && c.step >= NEXT && n.period in n.atSoft
    requires VotePlaced(c, n.period, n.step, n.napping, n.atSoft)
    requires NextReason(mine, facts, Before(n.cached, c.period), n.atSoft[c.period], c)
    requires forall v :: v in mine && v.period == c.period && v.step == c.step ==> v == c
    ensures NodeInv(mine + {c}, facts, n)
  {
    hide StandsOk, CacheOk, StagedOk, RecordsOk, EnteredOk;
    var all := mine + {c};
    forall v | v in all && v.step >= NEXT
      ensures v.period in n.atSoft && NextReason(all, facts, Before(n.cached, v.period), n.atSoft[v.period], v)
    {
      assert NoCertVote(mine, v.period) ==> NoCertVote(all, v.period);
    }
  }

  /** The value a next vote takes is always grounded. */
  lemma NextGround(mine: set<Cast>, facts: iset<Cast>, n: Node, s: Step)
    requires NodeInv(mine, facts, n) && n.period in n.atSoft && NEXT <= s
    ensures var x := NextChoice(n.Committable(), Before(n.cached, n.period));
            && (s < LATE ==>
                  NextReason(mine, facts, Before(n.cached, n.period), n.atSoft[n.period], Cast(n.period, s, x)))
            && (x == BOTTOM ==>
                  NextReason(mine, facts, Before(n.cached, n.period), n.atSoft[n.period], Cast(n.period, DOWN, BOTTOM)))
            && (n.Committable().Some? ==>
                  NextReason(mine, facts, Before(n.cached, n.period), n.atSoft[n.period], Cast(n.period, LATE, x)))
            && (n.Committable().None? && x != BOTTOM ==>
                  NextReason(mine, facts, Before(n.cached, n.period), n.atSoft[n.period], Cast(n.period, REDO, x)))
  {
    hide StandsOk, VotesPlaced, Once, CacheOk, EnteredOk, SoftVotesOk, NextVotesOk;
    assert Recorded(facts, Before(n.cached, n.period), n.period, n.atSoft[n.period]);
    if n.Committable().None? {
      assert NoCertVote(mine, n.period) by {
        forall v | v in mine && v.step == CERT ensures v.period != n.period {
          assert CertReason(facts, n.period, n.Committable(), v);
        }
      }
    }
  }

  /** The soft timeout: record the cache, then vote by the soft rule. */
  lemma KeptBySoftTimeout(mine: set<Cast>, facts: iset<Cast>, n: Node, frozen: ProposalValue)
    requires NodeInv(mine, facts, n) && n.step == SOFT
    ensures NodeInv(After(mine, OnTimeout(n, frozen)), facts, OnTimeout(n, frozen).node)
  {
    var r := OnTimeout(n, frozen);
    var before := Before(n.cached, n.period);
    SoftStands(mine, facts, n, before);
    if r.vote.Some? {
      hide StandsOk, CacheOk, StagedOk, CertReason, NextReason;
      var c := r.vote.value;
      assert SoftReason(facts, r.node.atSoft, c);
      forall v | v in mine ensures !(v.period == c.period && v.step == SOFT) {
        assert VotePlaced(v, n.period, n.step, n.napping, n.atSoft);
      }
      KeptBySoftVote(mine, facts, r.node, c);
    }
  }

  lemma SoftStands(mine: set<Cast>, facts: iset<Cast>, n: Node, before: NextStatus)
    requires NodeInv(mine, facts, n) && n.step == SOFT && before == Before(n.cached, n.period)
    ensures NodeInv(mine, facts, n.(step := CERT, atSoft := n.atSoft[n.period := before]))
  {
    hide Once, CacheOk, StagedOk, CertVotesOk;
    var atSoft := n.atSoft[n.period := before];
    assert n.period !in n.atSoft;
    forall v | v in mine
      ensures VotePlaced(v, n.period, CERT, n.napping, atSoft)
      ensures v.step == SOFT ==> SoftReason(facts, atSoft, v)
      ensures v.step >= NEXT ==>
                v.period in atSoft && NextReason(mine, facts, Before(n.cached, v.period), atSoft[v.period], v)
    {
      assert VotePlaced(v, n.period, n.step, n.napping, n.atSoft);
    }
    assert Recorded(facts, before, n.period, before);
  }

  lemma KeptBySoftVote(mine: set<Cast>, facts: iset<Cast>, n: Node, c: Cast)
    requires NodeInv(mine, facts, n) && c.step == SOFT && c.period == n.period && n.step == CERT
    requires SoftReason(facts, n.atSoft, c)
    requires forall v :: v in mine ==> !(v.period == c.period && v.step == SOFT)
    ensures NodeInv(mine + {c}, facts, n)
  {
    hide StandsOk, CacheOk, StagedOk, RecordsOk, EnteredOk;
    var all := mine + {c};
    forall v | v in all && v.step >= NEXT
      ensures v.period in n.atSoft && NextReason(all, facts, Before(n.cached, v.period), n.atSoft[v.period], v)
    {
      assert NoCertVote(mine, v.period) ==> NoCertVote(all, v.period);
    }
  }

  lemma KeptByTimeout(mine: set<Cast>, facts: iset<Cast>, n: Node, frozen: ProposalValue)
    requires NodeInv(mine, facts, n) && n.step + 1 < LATE
    ensures NodeInv(After(mine, OnTimeout(n, frozen)), facts, OnTimeout(n, frozen).node)
  {
    var r := OnTimeout(n, frozen);
    if n.step == SOFT {
      KeptBySoftTimeout(mine, facts, n, frozen);
    } else {
      assert n.step >= CERT && n.period in n.atSoft;
      KeptByStep(mine, facts, n, r.node.step, r.node.napping);
      if r.vote.Some? {
        NextGround(mine, facts, r.node, r.node.step);
        hide NodeInv, NextReason;
        KeptByNextVote(mine, facts, r.node, r.vote.value);
      }
    }
  }

  lemma KeptByFastTimeout(mine: set<Cast>, facts: iset<Cast>, n: Node)
    requires NodeInv(mine, facts, n) && Coherent(facts) && n.step >= NEXT
    ensures NodeInv(After(mine, React(n, FastTimeout)), facts, n)
  {
    var c := React(n, FastTimeout).vote.value;
    assert n.period in n.atSoft;
    NextGround(mine, facts, n, NEXT);
    forall v | v in mine && v.period == c.period && v.step == c.step ensures v == c {
      assert NextReason(mine, facts, Before(n.cached, v.period), n.atSoft[v.period], v);
    }
    hide NextReason;
    KeptByNextVote(mine, facts, n, c);
  }

  lemma KeptBySeeSoft(mine: set<Cast>, facts: iset<Cast>, n: Node, q: Period, x: ProposalValue)
    requires NodeInv(mine, facts, n) && Coherent(facts) && Cast(q, SOFT, x) in facts
    ensures var r := React(n, SeeSoft(q, x)); NodeInv(After(mine, r), facts, r.node)
  {
    hide NodeInv;
    var m := n;
    if n.period < q {
      assert SoftSeen(facts, q);
      KeptByEntering(mine, facts, n, q);
      m := n.Enter(q);
    }
    if n.period <= q {
      KeptByStaging(mine, facts, m, q, x);
      m := m.(staged := m.staged[q := x]);
      if x in m.blocks && m.step <= CERT { KeptByCertVote(mine, facts, m, x); }
    }
  }

  lemma KeptBySeeCert(mine: set<Cast>, facts: iset<Cast>, n: Node, q: Period, x: ProposalValue)
    requires NodeInv(mine, facts, n) && Coherent(facts) && Cast(q, CERT, x) in facts
    ensures var r := React(n, SeeCert(q, x)); NodeInv(After(mine, r), facts, r.node)
  {
    KeptByStaging(mine, facts, n, q, x);
    var m := n.(staged := n.staged[q := x]);
    if x in n.blocks {
      KeptByLeaving(mine, facts, m);
    } else if n.period < q {
      assert SoftSeen(facts, q);
      KeptByEntering(mine, facts, m, q);
    }
  }

  lemma KeptByLeaving(mine: set<Cast>, facts: iset<Cast>, n: Node)
    requires NodeInv(mine, facts, n)
    ensures NodeInv(mine, facts, n.(active := false))
  {
    assert n.(active := false).Committable() == n.Committable();
  }

  lemma KeptBySeeNext(mine: set<Cast>, facts: iset<Cast>, n: Node, q: Period, s: Step, x: ProposalValue, freshest: bool)
    requires NodeInv(mine, facts, n) && Coherent(facts) && s >= NEXT && Cast(q, s, x) in facts
    ensures var r := React(n, SeeNext(q, s, x, freshest)); NodeInv(After(mine, r), facts, r.node)
  {
    hide NodeInv;
    KeptByCaching(mine, facts, n, q, s, x);
    var m := n.(cached := n.cached[q := Cache(Look(n.cached, q), x)]);
    if freshest && n.period <= q {
      assert Before(m.cached, q + 1) == Cache(Look(n.cached, q), x) != NOTHING_SEEN;
      KeptByEntering(mine, facts, m, q + 1);
    }
  }

  lemma KeptByPayload(mine: set<Cast>, facts: iset<Cast>, n: Node, x: ProposalValue, certified: bool)
    requires NodeInv(mine, facts, n) && Coherent(facts) && x != BOTTOM
    ensures var r := React(n, Payload(x, certified)); NodeInv(After(mine, r), facts, r.node)
  {
    KeptByBlocks(mine, facts, n, n.blocks + {x});
    hide NodeInv;
    var m := n.(blocks := n.blocks + {x});
    if certified {
      KeptByLeaving(mine, facts, m);
    } else if n.period in n.staged && n.staged[n.period] == x && m.step <= CERT {
      KeptByCertVote(mine, facts, m, x);
    }
  }

  /** Every enabled reaction keeps the node invariant. */
  lemma Kept(mine: set<Cast>, facts: iset<Cast>, n: Node, e: Event)
    requires NodeInv(mine, facts, n) && Coherent(facts) && Enabled(mine, facts, n, e)
    ensures NodeInv(After(mine, React(n, e)), facts, React(n, e).node)
  {
    match e
    case SeeSoft(q, x) => KeptBySeeSoft(mine, facts, n, q, x);
    case SeeCert(q, x) => KeptBySeeCert(mine, facts, n, q, x);
    case SeeNext(q, s, x, freshest) => KeptBySeeNext(mine, facts, n, q, s, x, freshest);
    case Payload(x, certified) => KeptByPayload(mine, facts, n, x, certified);
    case Timeout(frozen) => KeptByTimeout(mine, facts, n, frozen);
    case FastTimeout => KeptByFastTimeout(mine, facts, n);
    case Forget(x) => KeptByBlocks(mine, facts, n, n.blocks - {x});
    case Leave => KeptByLeaving(mine, facts, n);
  }
}
