/**
 Packing a quorum into a bundle: supporters heaviest first, then equivocation pairs
 heaviest first, stopping as soon as the quorum is reached.
 */
module BundleGeneration {
  import opened AgreementTypes
  import opened Weights
  import opened Bundles

  /** What every packed vote has in common. */
  datatype Target = Target(
    round: Round, period: Period, step: Step, proposal: ProposalValue,
    vf: Verifier, weight: Address -> nat)

  predicate Countable(t: Target, v: Vote) {
    && v.r.round == t.round && v.r.period == t.period && v.r.step == t.step
    && v.cred.weight == t.weight(v.r.sender) && v.cred.weight >= 1
    && Authentic(t.vf, v)
  }

  ghost predicate VotesFor(t: Target, votes: map<Address, Vote>) {
    forall a :: a in votes ==>
      votes[a].r.sender == a && votes[a].r.proposal == t.proposal && Countable(t, votes[a])
  }

  ghost predicate PairsFor(t: Target, pairs: map<Address, EquivocationVote>) {
    forall a :: a in pairs ==>
      && pairs[a].sender == a && pairs[a].proposal0 != pairs[a].proposal1
      && Countable(t, pairs[a].V0()) && Countable(t, pairs[a].V1())
  }

  /** The bundle is drawn from the given votes and pairs and passes verification. */
  ghost predicate Drawn(t: Target, proto: ConsensusParams, votes: map<Address, Vote>,
                        pairs: map<Address, EquivocationVote>, b: UnauthenticatedBundle)
  {
    && b.round == t.round && b.period == t.period && b.step == t.step && b.proposal == t.proposal
    && (forall i :: 0 <= i < |b.votes| ==>
          b.votes[i].sender in votes && b.votes[i] == AuthOf(votes[b.votes[i].sender]))
    && (forall i :: 0 <= i < |b.pairs| ==>
          b.pairs[i].sender in pairs && b.pairs[i] == PairAuthOf(pairs[b.pairs[i].sender]))
    && exists vs, es :: Proves(t.vf, proto, b, vs, es)
  }

  /** No equivocation pair is used unless all votes together fall short; alone, votes are as few as can be. */
  ghost predicate Thrifty(t: Target, proto: ConsensusParams, supporters: set<Address>, b: UnauthenticatedBundle) {
    && (b.pairs != [] ==>
          |b.votes| == |supporters| && !ReachesQuorum(t.step, proto, Weight(supporters, t.weight)))
    && (b.pairs == [] ==>
          forall s :: s <= supporters && ReachesQuorum(t.step, proto, Weight(s, t.weight)) ==> |b.votes| <= |s|)
  }

  // ---------------------------------------------------------------- listings

  predicate Within(order: seq<Address>, keys: set<Address>) {
    forall i :: 0 <= i < |order| ==> order[i] in keys
  }

  function InOrder<T>(m: map<Address, T>, order: seq<Address>): (r: seq<T>)
    requires Within(order, m.Keys)
    ensures |r| == |order| && forall i :: 0 <= i < |r| ==> r[i] == m[order[i]]
  {
    seq(|order|, i requires 0 <= i < |order| => m[order[i]])
  }

  /** Lists the keys heaviest first. */
  method Listing(weights: map<Address, nat>, ghost w: Address -> nat) returns (order: seq<Address>)
    requires forall a :: a in weights ==> weights[a] == w(a)
    ensures Distinct(order) && Within(order, weights.Keys)
    ensures FirstOf(order, |order|) == weights.Keys && |order| == |weights.Keys|
    ensures NonIncreasing(order, |order|, w)
    ensures SumTo(order, |order|, w) == Weight(weights.Keys, w)
  {
    order := SortSenders(weights);
    assert forall i, j :: 0 <= i < j < |order| ==> Before(weights, order[i], order[j]);
    DescendingIsNonIncreasing(weights, order, |order|, w);
    SumToIsWeight(order, |order|, w);
  }

  lemma {:induction false} VoteWeightIsSum(vs: seq<Vote>, order: seq<Address>, w: Address -> nat, k: nat)
    requires k <= |order| == |vs|
    requires forall i :: 0 <= i < |vs| ==> vs[i].cred.weight == w(order[i])
    ensures VoteWeight(vs[..k]) == SumTo(order, k, w)
  {
    if k > 0 {
      VoteWeightIsSum(vs, order, w, k - 1);
      assert vs[..k][..k - 1] == vs[..k - 1];
    }
  }

  lemma {:induction false} PairWeightIsSum(es: seq<EquivocationVote>, order: seq<Address>, w: Address -> nat, k: nat)
    requires k <= |order| == |es|
    requires forall i :: 0 <= i < |es| ==> es[i].cred.weight == w(order[i])
    ensures PairWeight(es[..k]) == SumTo(order, k, w)
  {
    if k > 0 {
      PairWeightIsSum(es, order, w, k - 1);
      assert es[..k][..k - 1] == es[..k - 1];
    }
  }

  lemma {:induction false} SumToAtLeast(order: seq<Address>, k: nat, w: Address -> nat)
    requires k <= |order|
    requires forall i :: 0 <= i < |order| ==> w(order[i]) >= 1
    ensures k <= SumTo(order, k, w)
  {
    if k > 0 { SumToAtLeast(order, k - 1, w); }
  }

  lemma {:induction false} SumToGrows(order: seq<Address>, k: nat, n: nat, w: Address -> nat)
    requires k <= n <= |order|
    ensures SumTo(order, k, w) <= SumTo(order, n, w)
  {
    if k < n { SumToGrows(order, k, n - 1, w); }
  }

  // ---------------------------------------------------------------- exact prefixes

  /** The first `n` accounts of one listing and `m` of the other reach the quorum, and none is spare. */
  ghost predicate Exact(step: Step, proto: ConsensusParams, w: Address -> nat, order: seq<Address>, n: nat,
                        pairOrder: seq<Address>, m: nat)
  {
    && n <= |order| && m <= |pairOrder|
    && ReachesQuorum(step, proto, SumTo(order, n, w) + SumTo(pairOrder, m, w))
    && (n > 0 ==> !ReachesQuorum(step, proto, SumTo(order, n - 1, w)))
    && (m > 0 ==> n == |order| && !ReachesQuorum(step, proto, SumTo(order, n, w) + SumTo(pairOrder, m - 1, w)))
  }

  lemma ExactIsSmall(step: Step, proto: ConsensusParams, w: Address -> nat, order: seq<Address>, n: nat,
                     pairOrder: seq<Address>, m: nat)
    requires Exact(step, proto, w, order, n, pairOrder, m) && step != PROPOSE
    requires forall i :: 0 <= i < |order| ==> w(order[i]) >= 1
    requires forall i :: 0 <= i < |pairOrder| ==> w(pairOrder[i]) >= 1
    ensures n + m <= Threshold(step, proto)
  {
    SumToAtLeast(order, n, w);
    if n > 0 { SumToAtLeast(order, n - 1, w); }
    if m > 0 { SumToAtLeast(pairOrder, m - 1, w); }
  }

  lemma ExactIsThrifty(t: Target, proto: ConsensusParams, order: seq<Address>, pairOrder: seq<Address>,
                       supporters: set<Address>, b: UnauthenticatedBundle)
    requires Exact(t.step, proto, t.weight, order, |b.votes|, pairOrder, |b.pairs|)
    requires NonIncreasing(order, |order|, t.weight)
    requires FirstOf(order, |order|) == supporters && |order| == |supporters|
    requires SumTo(order, |order|, t.weight) == Weight(supporters, t.weight)
    ensures Thrifty(t, proto, supporters, b)
  {
    var n := |b.votes|;
    forall s | b.pairs == [] && s <= supporters && ReachesQuorum(t.step, proto, Weight(s, t.weight))
      ensures n <= |s|
    {
      HeaviestFirst(order, |order|, t.weight, s, |s|);
      if |s| < n { SumToGrows(order, |s|, n - 1, t.weight); }
    }
  }

  // ---------------------------------------------------------------- drawn bundles

  /** `b` lists the votes and pairs of the first accounts of the two listings. */
  ghost predicate Prefixes(t: Target, votes: map<Address, Vote>, order: seq<Address>,
                           pairs: map<Address, EquivocationVote>, pairOrder: seq<Address>, b: UnauthenticatedBundle)
  {
    && b.round == t.round && b.period == t.period && b.step == t.step && b.proposal == t.proposal
    && |b.votes| <= |order| && |b.pairs| <= |pairOrder|
    && Within(order, votes.Keys) && Within(pairOrder, pairs.Keys)
    && (forall i :: 0 <= i < |b.votes| ==> b.votes[i] == AuthOf(votes[order[i]]))
    && (forall i :: 0 <= i < |b.pairs| ==> b.pairs[i] == PairAuthOf(pairs[pairOrder[i]]))
  }

  lemma PrefixesAuthenticate(t: Target, votes: map<Address, Vote>, order: seq<Address>,
                             pairs: map<Address, EquivocationVote>, pairOrder: seq<Address>, b: UnauthenticatedBundle)
    requires VotesFor(t, votes) && PairsFor(t, pairs)
    requires Prefixes(t, votes, order, pairs, pairOrder, b)
    ensures Authenticates(t.vf, b, InOrder(votes, order)[..|b.votes|], InOrder(pairs, pairOrder)[..|b.pairs|])
  {
    var vs, es := InOrder(votes, order)[..|b.votes|], InOrder(pairs, pairOrder)[..|b.pairs|];
    forall i | 0 <= i < |es| ensures VerifyPair(t.vf, b.round, b.period, b.step, b.pairs[i]) == Some(es[i]) {
      assert es[i] == pairs[pairOrder[i]];
      assert Countable(t, es[i].V0()) && Countable(t, es[i].V1());
    }
    forall i | 0 <= i < |vs|
      ensures VerifyVote(t.vf, RawVote(b.votes[i].sender, b.round, b.period, b.step, b.proposal),
                         b.votes[i].proof, b.votes[i].sig) == Some(vs[i])
    {
      assert vs[i] == votes[order[i]];
    }
  }

  lemma PrefixesAreDistinct(t: Target, votes: map<Address, Vote>, order: seq<Address>,
                            pairs: map<Address, EquivocationVote>, pairOrder: seq<Address>, b: UnauthenticatedBundle)
    requires VotesFor(t, votes) && PairsFor(t, pairs) && votes.Keys !! pairs.Keys
    requires Prefixes(t, votes, order, pairs, pairOrder, b)
    requires Distinct(order) && Distinct(pairOrder)
    ensures DistinctSenders(b)
  {
    assert forall i :: 0 <= i < |b.votes| ==> b.votes[i].sender == order[i];
    assert forall i :: 0 <= i < |b.pairs| ==> b.pairs[i].sender == pairOrder[i];
  }

  lemma PrefixesWeigh(t: Target, votes: map<Address, Vote>, order: seq<Address>, n: nat,
                      pairs: map<Address, EquivocationVote>, pairOrder: seq<Address>, m: nat)
    requires VotesFor(t, votes) && PairsFor(t, pairs)
    requires Within(order, votes.Keys) && Within(pairOrder, pairs.Keys)
    requires n <= |order| && m <= |pairOrder|
    ensures VoteWeight(InOrder(votes, order)[..n]) == SumTo(order, n, t.weight)
    ensures PairWeight(InOrder(pairs, pairOrder)[..m]) == SumTo(pairOrder, m, t.weight)
    ensures forall i :: 0 <= i < |order| ==> t.weight(order[i]) >= 1
    ensures forall i :: 0 <= i < |pairOrder| ==> t.weight(pairOrder[i]) >= 1
  {
    forall i | 0 <= i < |pairOrder|
      ensures pairs[pairOrder[i]].cred.weight == t.weight(pairOrder[i]) >= 1
    {
      assert Countable(t, pairs[pairOrder[i]].V0());
    }
    VoteWeightIsSum(InOrder(votes, order), order, t.weight, n);
    PairWeightIsSum(InOrder(pairs, pairOrder), pairOrder, t.weight, m);
  }

  lemma PrefixesProve(t: Target, proto: ConsensusParams, votes: map<Address, Vote>, order: seq<Address>,
                      pairs: map<Address, EquivocationVote>, pairOrder: seq<Address>, b: UnauthenticatedBundle)
    requires VotesFor(t, votes) && PairsFor(t, pairs) && t.step != PROPOSE
    requires Prefixes(t, votes, order, pairs, pairOrder, b) && DistinctSenders(b)
    requires Exact(t.step, proto, t.weight, order, |b.votes|, pairOrder, |b.pairs|)
    ensures Proves(t.vf, proto, b, InOrder(votes, order)[..|b.votes|], InOrder(pairs, pairOrder)[..|b.pairs|])
  {
    hide VotesFor, PairsFor, Authenticates, DistinctSenders, VoteWeight, PairWeight, SumTo, Exact;
    PrefixesAuthenticate(t, votes, order, pairs, pairOrder, b);
    PrefixesWeigh(t, votes, order, |b.votes|, pairs, pairOrder, |b.pairs|);
    ExactIsSmall(t.step, proto, t.weight, order, |b.votes|, pairOrder, |b.pairs|);
    ExactReaches(t.step, proto, t.weight, order, |b.votes|, pairOrder, |b.pairs|);
  }

  lemma ExactReaches(step: Step, proto: ConsensusParams, w: Address -> nat, order: seq<Address>, n: nat,
                     pairOrder: seq<Address>, m: nat)
    requires Exact(step, proto, w, order, n, pairOrder, m)
    ensures n <= |order| && m <= |pairOrder| && ReachesQuorum(step, proto, SumTo(order, n, w) + SumTo(pairOrder, m, w))
  {
  }

  lemma PrefixesAreDrawn(t: Target, proto: ConsensusParams, votes: map<Address, Vote>, order: seq<Address>,
                         pairs: map<Address, EquivocationVote>, pairOrder: seq<Address>, b: UnauthenticatedBundle)
    requires VotesFor(t, votes) && PairsFor(t, pairs) && t.step != PROPOSE
    requires Prefixes(t, votes, order, pairs, pairOrder, b) && DistinctSenders(b)
    requires Exact(t.step, proto, t.weight, order, |b.votes|, pairOrder, |b.pairs|)
    ensures Drawn(t, proto, votes, pairs, b)
  {
    hide Proves, DistinctSenders, Exact, Countable;
    PrefixesProve(t, proto, votes, order, pairs, pairOrder, b);
    assert forall i :: 0 <= i < |b.votes| ==> votes[order[i]].r.sender == order[i];
    assert forall i :: 0 <= i < |b.pairs| ==> pairs[pairOrder[i]].sender == pairOrder[i];
  }

  // ---------------------------------------------------------------- generation

  /** What MakeBundle keeps of two cut listings is exact with respect to the whole listings. */
  lemma CutsAreExact(proto: ConsensusParams, t: Target, votes: map<Address, Vote>, order: seq<Address>, cut: nat,
                     pairs: map<Address, EquivocationVote>, pairOrder: seq<Address>, pairCut: nat, n: nat, m: nat)
    requires VotesFor(t, votes) && PairsFor(t, pairs) && t.step != PROPOSE
    requires Within(order, votes.Keys) && Within(pairOrder, pairs.Keys)
    requires n <= cut <= |order| && m <= pairCut <= |pairOrder|
    requires cut < |order| ==> ReachesQuorum(t.step, proto, SumTo(order, cut, t.weight))
    requires var vs, es := InOrder(votes, order)[..cut], InOrder(pairs, pairOrder)[..pairCut];
             && ShortestVotes(t.step, proto, vs, n)
             && ShortestPairs(t.step, proto, VoteWeight(vs[..n]), es, m)
             && ReachesQuorum(t.step, proto, VoteWeight(vs[..n]) + PairWeight(es[..m]))
    ensures Exact(t.step, proto, t.weight, order, n, pairOrder, m)
  {
    hide VotesFor, PairsFor, VoteWeight, PairWeight, SumTo;
    var vs, es := InOrder(votes, order), InOrder(pairs, pairOrder);
    assert vs[..cut][..n] == vs[..n] && es[..pairCut][..m] == es[..m];
    PrefixesWeigh(t, votes, order, n, pairs, pairOrder, m);
    if n > 0 {
      assert vs[..cut][..n - 1] == vs[..n - 1];
      PrefixesWeigh(t, votes, order, n - 1, pairs, pairOrder, m);
    }
    if m > 0 {
      assert es[..pairCut][..m - 1] == es[..m - 1];
      PrefixesWeigh(t, votes, order, n, pairs, pairOrder, m - 1);
    }
  }

  method CutVotes(proto: ConsensusParams, votes: map<Address, Vote>, order: seq<Address>, vs: seq<Vote>,
                  ghost t: Target)
    returns (cut: nat)
    requires VotesFor(t, votes) && Within(order, votes.Keys) && vs == InOrder(votes, order) && vs != []
    requires t.step != PROPOSE && Threshold(t.step, proto) >= 1
    ensures 1 <= cut <= |vs|
    ensures cut < |vs| ==> ReachesQuorum(t.step, proto, SumTo(order, cut, t.weight))
  {
    cut := 0;
    var weight := 0;
    while !ReachesQuorum(vs[0].r.step, proto, weight) && cut < |vs|
      invariant cut <= |vs| && weight == SumTo(order, cut, t.weight)
    {
      weight := weight + vs[cut].cred.weight;
      cut := cut + 1;
    }
  }

  method CutPairs(proto: ConsensusParams, step: Step, base: nat, pairs: map<Address, EquivocationVote>,
                  order: seq<Address>, es: seq<EquivocationVote>, ghost t: Target)
    returns (cut: nat)
    requires PairsFor(t, pairs) && Within(order, pairs.Keys) && es == InOrder(pairs, order)
    ensures cut <= |es|
    ensures cut < |es| ==> ReachesQuorum(step, proto, base + SumTo(order, cut, t.weight))
  {
    cut := 0;
    var weight := base;
    while !ReachesQuorum(step, proto, weight) && cut < |es|
      invariant cut <= |es| && weight == base + SumTo(order, cut, t.weight)
    {
      assert es[cut].cred == es[cut].V0().cred;
      weight := weight + es[cut].cred.weight;
      cut := cut + 1;
    }
  }

  method Listings(votes: map<Address, Vote>, pairs: map<Address, EquivocationVote>, ghost t: Target)
    returns (order: seq<Address>, pairOrder: seq<Address>)
    requires VotesFor(t, votes) && PairsFor(t, pairs)
    ensures Distinct(order) && Within(order, votes.Keys) && FirstOf(order, |order|) == votes.Keys
    ensures Distinct(pairOrder) && Within(pairOrder, pairs.Keys)
    ensures |order| == |votes.Keys| && NonIncreasing(order, |order|, t.weight)
    ensures SumTo(order, |order|, t.weight) == Weight(votes.Keys, t.weight)
    ensures SumTo(pairOrder, |pairOrder|, t.weight) == Weight(pairs.Keys, t.weight)
  {
    var ws := map a | a in votes :: votes[a].cred.weight;
    assert ws.Keys == votes.Keys;
    order := Listing(ws, t.weight);
    var ps := map a | a in pairs :: pairs[a].cred.weight;
    assert ps.Keys == pairs.Keys;
    assert forall a :: a in pairs ==> pairs[a].cred == pairs[a].V0().cred;
    pairOrder := Listing(ps, t.weight);
  }

  method GenBundle(proto: ConsensusParams, votes: map<Address, Vote>, pairs: map<Address, EquivocationVote>,
                   ghost t: Target)
    returns (b: UnauthenticatedBundle)
    requires VotesFor(t, votes) && PairsFor(t, pairs) && votes.Keys !! pairs.Keys
    requires votes.Keys != {} && t.step != PROPOSE && Threshold(t.step, proto) >= 1
    requires ReachesQuorum(t.step, proto, Weight(votes.Keys, t.weight) + Weight(pairs.Keys, t.weight))
    ensures Drawn(t, proto, votes, pairs, b)
    ensures Thrifty(t, proto, votes.Keys, b)
  {
    hide VotesFor, PairsFor, Prefixes, Exact, Drawn, Thrifty, Distinct, Within, DistinctSenders, SumTo, Weight,
         NonIncreasing;
    var order, pairOrder := Listings(votes, pairs, t);
    b := Pack(proto, votes, order, pairs, pairOrder, t);
    PrefixesAreDistinct(t, votes, order, pairs, pairOrder, b);
    PrefixesAreDrawn(t, proto, votes, order, pairs, pairOrder, b);
    ExactIsThrifty(t, proto, order, pairOrder, votes.Keys, b);
  }

  /** The part of generation after sorting: cut both listings at the quorum and bundle them. */
  method Pack(proto: ConsensusParams, votes: map<Address, Vote>, order: seq<Address>,
              pairs: map<Address, EquivocationVote>, pairOrder: seq<Address>, ghost t: Target)
    returns (b: UnauthenticatedBundle)
    requires VotesFor(t, votes) && PairsFor(t, pairs) && order != []
    requires t.step != PROPOSE && Threshold(t.step, proto) >= 1
    requires Within(order, votes.Keys) && Within(pairOrder, pairs.Keys)
    requires ReachesQuorum(t.step, proto, SumTo(order, |order|, t.weight) + SumTo(pairOrder, |pairOrder|, t.weight))
    ensures Prefixes(t, votes, order, pairs, pairOrder, b)
    ensures Exact(t.step, proto, t.weight, order, |b.votes|, pairOrder, |b.pairs|)
  {
    hide PairsFor, Exact, VoteWeight, PairWeight, SumTo;
    var vs, es := InOrder(votes, order), InOrder(pairs, pairOrder);
    assert vs[0] == votes[order[0]];
    var cut := CutVotes(proto, votes, order, vs, t);
    var pairCut := CutPairs(proto, vs[0].r.step, VoteWeight(vs[..cut]), pairs, pairOrder, es, t);
    PrefixesWeigh(t, votes, order, cut, pairs, pairOrder, pairCut);
    b := PackCut(proto, vs[0].r.proposal, vs[..cut], es[..pairCut]);
    CutsAreExact(proto, t, votes, order, cut, pairs, pairOrder, pairCut, |b.votes|, |b.pairs|);
    hide VotesFor;
  }

  /** The first `n` votes and `m` pairs reach the quorum, and no shorter prefixes do. */
  ghost predicate JustReaches(step: Step, proto: ConsensusParams, vs: seq<Vote>, n: nat, es: seq<EquivocationVote>,
                              m: nat)
    requires n <= |vs| && m <= |es|
  {
    && ShortestVotes(step, proto, vs, n)
    && ShortestPairs(step, proto, VoteWeight(vs[..n]), es, m)
    && ReachesQuorum(step, proto, VoteWeight(vs[..n]) + PairWeight(es[..m]))
  }

  /** Bundling what was cut cannot fail. */
  method PackCut(proto: ConsensusParams, proposal: ProposalValue, vs: seq<Vote>, es: seq<EquivocationVote>)
    returns (b: UnauthenticatedBundle)
    requires vs != [] && forall i :: 0 <= i < |vs| ==> vs[i].r.proposal == proposal
    requires ReachesQuorum(vs[0].r.step, proto, VoteWeight(vs) + PairWeight(es))
    ensures b.round == vs[0].r.round && b.period == vs[0].r.period && b.step == vs[0].r.step && b.proposal == proposal
    ensures |b.votes| <= |vs| && forall i :: 0 <= i < |b.votes| ==> b.votes[i] == AuthOf(vs[i])
    ensures |b.pairs| <= |es| && forall i :: 0 <= i < |b.pairs| ==> b.pairs[i] == PairAuthOf(es[i])
    ensures JustReaches(b.step, proto, vs, |b.votes|, es, |b.pairs|)
  {
    hide VoteWeight, PairWeight, ShortestVotes, ShortestPairs;
    var r := MakeBundle(proto, proposal, vs, es);
    b := r.value;
  }
}
