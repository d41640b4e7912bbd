/**
 Delivering many votes to a tracker: whole runs, order independence, and the replay of
 a verified bundle.
 */
module VoteAggregation {
  import opened AgreementTypes
  import opened Weights
  import opened Tally
  import opened TallyMaps
  import opened Bundles
  import opened BundleGeneration
  import opened VoteTracking

  ghost function BallotsOf(vs: seq<Vote>): set<Ballot> {
    set v | v in vs :: BallotOf(v)
  }

  lemma BallotsOfPrefix(vs: seq<Vote>, i: nat)
    requires i < |vs|
    ensures BallotsOf(vs[..i + 1]) == BallotsOf(vs[..i]) + {BallotOf(vs[i])}
  {
    assert vs[..i + 1] == vs[..i] + [vs[i]];
  }

  /** What a run of deliveries came to: a safety panic, or the event it produced, if any. */
  datatype RunResult = Halted | Finished(event: Option<ThresholdEvent>)

  /**
   Delivers votes one by one. Whether the run halts, which tally it leaves and whether it
   produced the event depend on the set of ballots alone, not on their order.
   */
  method DeliverAll(t: VoteTracker, proto: ConsensusParams, votes: seq<Vote>) returns (r: RunResult)
    requires t.Valid() && proto == t.k.c.proto
    requires forall i :: 0 <= i < |votes| ==> t.k.Acceptable(votes[i])
    modifies t
    ensures r.Halted? <==> !Safe(t.k.c, old(t.seen) + BallotsOf(votes))
    ensures r.Finished? ==> t.Valid() && t.seen == old(t.seen) + BallotsOf(votes)
    ensures r.Finished? ==> (r.event.Some? <==> AnyOver(t.k.c, t.seen) && !AnyOver(t.k.c, old(t.seen)))
    ensures r.Finished? && r.event.Some? ==> t.emitted == [r.event.value.proposal]
  {
    hide Safe, AnyOver, Over, Reported;
    var event: Option<ThresholdEvent> := None;
    ghost var start, all := t.seen, t.seen + BallotsOf(votes);
    var i := 0;
    while i < |votes|
      invariant 0 <= i <= |votes|
      invariant t.Valid() && t.seen == start + BallotsOf(votes[..i])
      invariant event.Some? <==> AnyOver(t.k.c, t.seen) && !AnyOver(t.k.c, start)
      invariant event.Some? ==> t.emitted == [event.value.proposal]
    {
      ghost var before := t.seen;
      BallotsOfPrefix(votes, i);
      var o := t.HandleVote(proto, votes[i]);
      assert t.seen == start + BallotsOf(votes[..i + 1]);
      assert t.seen <= all;
      if o.Panicked() {
        assert !Safe(t.k.c, all) by { if Safe(t.k.c, all) { SafeInherits(t.k.c, t.seen, all); } }
        return Halted;
      }
      StillOver(t.k.c, start, before);
      StillOver(t.k.c, before, t.seen);
      if o.Emitted? {
        event := Some(o.event);
      } else {
        ReportedPersists(t.k.c, before, t.seen);
      }
      i := i + 1;
    }
    assert votes[..i] == votes;
    return Finished(event);
  }

  lemma StillOver(c: Committee, a: set<Ballot>, b: set<Ballot>)
    requires a <= b && Safe(c, b)
    ensures AnyOver(c, a) ==> AnyOver(c, b)
  {
    hide Weight, Supporters, Equivocators;
    if p :| Over(c, a, p) { OverPersists(c, a, b, p); }
  }

  /** Two trackers that saw the same ballots, in whatever orders, hold the same tally and reported the same. */
  lemma OrderIndependent(a: VoteTracker, b: VoteTracker)
    requires a.Valid() && b.Valid() && a.k == b.k && a.seen == b.seen
    ensures a.voters.Keys == b.voters.Keys && a.equivocators.Keys == b.equivocators.Keys
    ensures a.equivocatorsCount == b.equivocatorsCount && a.counts.Keys == b.counts.Keys
    ensures forall p :: p in a.counts ==> a.counts[p].count == b.counts[p].count &&
                                          a.counts[p].votes.Keys == b.counts[p].votes.Keys
    ensures a.emitted == b.emitted
  {
    hide Weight, Supporters, Equivocators, Senders, Safe, StoredVotesOk, StoredPairsOk;
    forall p ensures p in a.counts <==> p in b.counts {}
    forall p | p in a.counts
      ensures a.counts[p].count == b.counts[p].count && a.counts[p].votes.Keys == b.counts[p].votes.Keys
    {
      assert CounterOk(a.k.c.weight, Supporters(a.seen, p), a.voters, a.counts[p]);
      assert CounterOk(b.k.c.weight, Supporters(b.seen, p), b.voters, b.counts[p]);
    }
  }

  // ---------------------------------------------------------------- bundle replay

  /** The votes of a bundle in delivery order: plain votes, then both members of each pair. */
  function Unpacked(pairs: seq<EquivocationVote>): seq<Vote> {
    if pairs == [] then [] else Unpacked(pairs[..|pairs| - 1]) + [pairs[|pairs| - 1].V0(), pairs[|pairs| - 1].V1()]
  }

  lemma {:induction false} UnpackedHas(pairs: seq<EquivocationVote>, i: nat)
    requires i < |pairs|
    ensures pairs[i].V0() in Unpacked(pairs) && pairs[i].V1() in Unpacked(pairs)
  {
    if i < |pairs| - 1 { UnpackedHas(pairs[..|pairs| - 1], i); }
  }

  lemma {:induction false} UnpackedFrom(pairs: seq<EquivocationVote>, v: Vote) returns (i: nat)
    requires v in Unpacked(pairs)
    ensures i < |pairs| && (v == pairs[i].V0() || v == pairs[i].V1())
  {
    var n := |pairs| - 1;
    if v in Unpacked(pairs[..n]) { i := UnpackedFrom(pairs[..n], v); } else { i := n; }
  }

  ghost function VoteSenders(vs: seq<Vote>): seq<Address> {
    seq(|vs|, i requires 0 <= i < |vs| => vs[i].r.sender)
  }

  ghost function PairSenders(es: seq<EquivocationVote>): seq<Address> {
    seq(|es|, i requires 0 <= i < |es| => es[i].sender)
  }

  /** Votes of distinct senders weigh together what their senders weigh. */
  lemma VotesWeigh(vs: seq<Vote>, w: Address -> nat)
    requires forall i :: 0 <= i < |vs| ==> vs[i].cred.weight == w(vs[i].r.sender)
    requires Distinct(VoteSenders(vs))
    ensures VoteWeight(vs) == Weight(FirstOf(VoteSenders(vs), |vs|), w)
  {
    VoteWeightIsSum(vs, VoteSenders(vs), w, |vs|);
    SumToIsWeight(VoteSenders(vs), |vs|, w);
    assert vs[..|vs|] == vs;
  }

  lemma PairsWeigh(es: seq<EquivocationVote>, w: Address -> nat)
    requires forall i :: 0 <= i < |es| ==> es[i].cred.weight == w(es[i].sender)
    requires Distinct(PairSenders(es))
    ensures PairWeight(es) == Weight(FirstOf(PairSenders(es), |es|), w)
  {
    PairWeightIsSum(es, PairSenders(es), w, |es|);
    SumToIsWeight(PairSenders(es), |es|, w);
    assert es[..|es|] == es;
  }

  /** Every vote and both members of every pair are among the ballots. */
  ghost predicate Contains(b: set<Ballot>, p: ProposalValue, vs: seq<Vote>, es: seq<EquivocationVote>) {
    && (forall i :: 0 <= i < |vs| ==> Ballot(vs[i].r.sender, p) in b)
    && (forall i :: 0 <= i < |es| ==>
          Ballot(es[i].sender, es[i].proposal0) in b && Ballot(es[i].sender, es[i].proposal1) in b &&
          es[i].proposal0 != es[i].proposal1)
  }

  lemma ContainedSenders(b: set<Ballot>, p: ProposalValue, vs: seq<Vote>, es: seq<EquivocationVote>)
    requires Contains(b, p, vs, es)
    ensures FirstOf(VoteSenders(vs), |vs|) <= Supporters(b, p) + Equivocators(b)
    ensures FirstOf(PairSenders(es), |es|) <= Equivocators(b)
  {
    forall a | a in FirstOf(VoteSenders(vs), |vs|) ensures a in Supporters(b, p) + Equivocators(b) {
      assert Ballot(a, p) in b;
    }
    forall a | a in FirstOf(PairSenders(es), |es|) ensures a in Equivocators(b) {
      var i :| 0 <= i < |es| && es[i].sender == a;
      assert Ballot(a, es[i].proposal0) in b && Ballot(a, es[i].proposal1) in b;
      assert Equivocates(b, a);
    }
  }

  /** A tally that contains a proving bundle weighs at least the bundle for its proposal. */
  lemma ContainedWeight(c: Committee, b: set<Ballot>, p: ProposalValue, vs: seq<Vote>, es: seq<EquivocationVote>)
    requires Contains(b, p, vs, es)
    requires forall i :: 0 <= i < |vs| ==> vs[i].cred.weight == c.weight(vs[i].r.sender)
    requires forall i :: 0 <= i < |es| ==> es[i].cred.weight == c.weight(es[i].sender)
    requires Distinct(VoteSenders(vs)) && Distinct(PairSenders(es))
    requires FirstOf(VoteSenders(vs), |vs|) !! FirstOf(PairSenders(es), |es|)
    ensures VoteWeight(vs) + PairWeight(es) <= TotalFor(c, b, p)
  {
    ContainedSenders(b, p, vs, es);
    assert Supporters(b, p) !! Equivocators(b);
    hide Supporters, Equivocators, Weight, FirstOf, VoteSenders, PairSenders, Contains;
    VotesWeigh(vs, c.weight);
    PairsWeigh(es, c.weight);
    var v, e := FirstOf(VoteSenders(vs), |vs|), FirstOf(PairSenders(es), |es|);
    WeightDisjoint(v, e, c.weight);
    WeightDisjoint(Supporters(b, p), Equivocators(b), c.weight);
    WeightSubset(v + e, Supporters(b, p) + Equivocators(b), c.weight);
  }

  /** A verified bundle of this tracker's step whose votes carry the weights the step assigns. */
  ghost predicate Replayable(k: Setting, b: Bundle) {
    && b.u.round == k.round && b.u.period == k.period && b.u.step == k.c.step
    && Proves(k.vf, k.c.proto, b.u, b.votes, b.pairs)
    && (forall i :: 0 <= i < |b.votes| ==> k.Acceptable(b.votes[i]))
    && (forall i :: 0 <= i < |b.pairs| ==> k.Acceptable(b.pairs[i].V0()) && k.Acceptable(b.pairs[i].V1()))
  }

  /** The bundle's authenticated votes and pairs have the senders and proposals of its authenticators. */
  lemma ReplayableShape(k: Setting, b: Bundle)
    requires Replayable(k, b)
    ensures forall i :: 0 <= i < |b.votes| ==>
              b.votes[i].r.sender == b.u.votes[i].sender && b.votes[i].r.proposal == b.u.proposal
    ensures forall i :: 0 <= i < |b.pairs| ==>
              b.pairs[i].sender == b.u.pairs[i].sender && b.pairs[i].proposal0 != b.pairs[i].proposal1
  {
  }

  lemma ReplayableDistinct(k: Setting, b: Bundle)
    requires Replayable(k, b)
    ensures Distinct(VoteSenders(b.votes)) && Distinct(PairSenders(b.pairs))
    ensures FirstOf(VoteSenders(b.votes), |b.votes|) !! FirstOf(PairSenders(b.pairs), |b.pairs|)
  {
    ReplayableShape(k, b);
    hide Replayable;
    assert DistinctSenders(b.u);
  }

  ghost function BundleBallots(b: Bundle): set<Ballot> {
    BallotsOf(b.votes + Unpacked(b.pairs))
  }

  lemma BundleContained(k: Setting, b: Bundle, seen: set<Ballot>)
    requires Replayable(k, b) && BundleBallots(b) <= seen
    ensures Contains(seen, b.u.proposal, b.votes, b.pairs)
  {
    ReplayableShape(k, b);
    hide Replayable;
    var all := b.votes + Unpacked(b.pairs);
    forall i | 0 <= i < |b.votes| ensures Ballot(b.votes[i].r.sender, b.u.proposal) in seen {
      assert b.votes[i] in all;
    }
    forall i | 0 <= i < |b.pairs|
      ensures Ballot(b.pairs[i].sender, b.pairs[i].proposal0) in seen
      ensures Ballot(b.pairs[i].sender, b.pairs[i].proposal1) in seen
    {
      UnpackedHas(b.pairs, i);
      assert b.pairs[i].V0() in all && b.pairs[i].V1() in all;
    }
  }

  /** A safe tally that contains a verified bundle is over quorum for the bundle's proposal. */
  lemma BundleDecides(k: Setting, b: Bundle, seen: set<Ballot>)
    requires Replayable(k, b) && BundleBallots(b) <= seen && Safe(k.c, seen)
    ensures Over(k.c, seen, b.u.proposal)
  {
    BundleContained(k, b, seen);
    ReplayableDistinct(k, b);
    hide Supporters, Equivocators, Equivocates, VoteSenders, PairSenders, FirstOf, Distinct, Contains;
    ContainedWeight(k.c, seen, b.u.proposal, b.votes, b.pairs);
  }

  method Unpack(b: Bundle) returns (votes: seq<Vote>)
    ensures votes == b.votes + Unpacked(b.pairs)
  {
    votes := b.votes;
    var i := 0;
    while i < |b.pairs|
      invariant 0 <= i <= |b.pairs|
      invariant votes == b.votes + Unpacked(b.pairs[..i])
    {
      assert b.pairs[..i + 1][..i] == b.pairs[..i];
      votes := votes + [b.pairs[i].V0(), b.pairs[i].V1()];
      i := i + 1;
    }
    assert b.pairs[..i] == b.pairs;
  }

  /**
   Replays a verified bundle into a tracker in any reachable state. Unless a safety panic
   stops it, the tracker ends over quorum for the bundle's proposal, having reported that
   proposal exactly once in its life: now, or before if some value was over already.
   */
  method ReplayBundle(t: VoteTracker, proto: ConsensusParams, b: Bundle) returns (r: RunResult)
    requires t.Valid() && proto == t.k.c.proto && Replayable(t.k, b)
    modifies t
    ensures r.Halted? <==> !Safe(t.k.c, old(t.seen) + BundleBallots(b))
    ensures r.Finished? ==>
              && t.Valid() && t.seen == old(t.seen) + BundleBallots(b)
              && Over(t.k.c, t.seen, b.u.proposal) && t.emitted == [b.u.proposal]
              && (r.event.Some? <==> !AnyOver(t.k.c, old(t.seen)))
              && (r.event.Some? ==> r.event.value.proposal == b.u.proposal)
  {
    hide Replayable, Unpacked, Countable, Over, EquivocatorWeight;
    var votes := Unpack(b);
    AllAcceptable(t.k, b);
    r := DeliverAll(t, proto, votes);
    if r.Finished? {
      BundleDecides(t.k, b, t.seen);
      assert t.emitted == Reported(t.k.c, t.seen);
    }
  }

  lemma AllAcceptable(k: Setting, b: Bundle)
    requires Replayable(k, b)
    ensures var vs := b.votes + Unpacked(b.pairs); forall j :: 0 <= j < |vs| ==> k.Acceptable(vs[j])
  {
    var vs := b.votes + Unpacked(b.pairs);
    forall j | 0 <= j < |vs| ensures k.Acceptable(vs[j]) {
      if j >= |b.votes| {
        assert vs[j] in Unpacked(b.pairs);
        var i := UnpackedFrom(b.pairs, vs[j]);
      }
    }
  }
}
