/**
 Bundles: the compressed quorum proofs that a tracker emits and another node verifies.
 Signature and credential checks are deterministic oracles.
 */
module Bundles {
  import opened AgreementTypes
  import opened Weights

  datatype Result<+T, +E> = Ok(value: T) | Err(error: E)

  datatype VoteAuthenticator = VoteAuthenticator(sender: Address, proof: Proof, sig: Signature)

  datatype PairAuthenticator = PairAuthenticator(
    sender: Address, proof: Proof, sig0: Signature, sig1: Signature,
    proposal0: ProposalValue, proposal1: ProposalValue)

  datatype UnauthenticatedBundle = UnauthenticatedBundle(
    round: Round, period: Period, step: Step, proposal: ProposalValue,
    votes: seq<VoteAuthenticator>, pairs: seq<PairAuthenticator>)

  datatype Bundle = Bundle(u: UnauthenticatedBundle, votes: seq<Vote>, pairs: seq<EquivocationVote>)

  function AuthOf(v: Vote): VoteAuthenticator {
    VoteAuthenticator(v.r.sender, v.cred.proof, v.sig)
  }

  function PairAuthOf(e: EquivocationVote): PairAuthenticator {
    PairAuthenticator(e.sender, e.cred.proof, e.sig0, e.sig1, e.proposal0, e.proposal1)
  }

  // ---------------------------------------------------------------- authentication

  /** The signature and VRF checks of a ledger. */
  datatype Verifier = Verifier(
    sigOk: (RawVote, Signature) -> bool,
    credWeight: (Address, Round, Period, Step, Proof) -> Option<nat>)

  predicate WellShaped(rv: RawVote) {
    && (rv.step == PROPOSE ==>
          && (rv.period == rv.proposal.originalPeriod ==> rv.sender == rv.proposal.originalProposer)
          && rv.proposal.originalPeriod <= rv.period)
    && (rv.step <= CERT ==> rv.proposal != BOTTOM)
  }

  function VerifyVote(vf: Verifier, rv: RawVote, proof: Proof, sig: Signature): Option<Vote> {
    var weight := vf.credWeight(rv.sender, rv.round, rv.period, rv.step, proof);
    if WellShaped(rv) && vf.sigOk(rv, sig) && weight.Some?
    then Some(Vote(rv, Credential(weight.value, proof), sig))
    else None
  }

  function VerifyPair(vf: Verifier, round: Round, period: Period, step: Step, a: PairAuthenticator)
    : Option<EquivocationVote>
  {
    var v0 := VerifyVote(vf, RawVote(a.sender, round, period, step, a.proposal0), a.proof, a.sig0);
    var v1 := VerifyVote(vf, RawVote(a.sender, round, period, step, a.proposal1), a.proof, a.sig1);
    if a.proposal0 != a.proposal1 && v0.Some? && v1.Some?
    then Some(EquivocationVote(a.sender, round, period, step, v0.value.cred,
                               a.proposal0, a.proposal1, a.sig0, a.sig1))
    else None
  }

  predicate Authentic(vf: Verifier, v: Vote) {
    VerifyVote(vf, v.r, v.cred.proof, v.sig) == Some(v)
  }

  // ---------------------------------------------------------------- verification

  function VoteWeight(vs: seq<Vote>): nat {
    if vs == [] then 0 else VoteWeight(vs[..|vs| - 1]) + vs[|vs| - 1].cred.weight
  }

  function PairWeight(es: seq<EquivocationVote>): nat {
    if es == [] then 0 else PairWeight(es[..|es| - 1]) + es[|es| - 1].cred.weight
  }

  predicate DistinctSenders(b: UnauthenticatedBundle) {
    && (forall i, j :: 0 <= i < j < |b.votes| ==> b.votes[i].sender != b.votes[j].sender)
    && (forall i, j :: 0 <= i < j < |b.pairs| ==> b.pairs[i].sender != b.pairs[j].sender)
    && (forall i, j :: 0 <= i < |b.votes| && 0 <= j < |b.pairs| ==> b.votes[i].sender != b.pairs[j].sender)
  }

  /**
   What a vote must be to verify, the oracles apart: a proposal-vote is for a value of no later
   period, by its proposer if it is of this period; bottom is voted for in next steps only.
   */
  lemma VerifiesIff(vf: Verifier, rv: RawVote, proof: Proof, sig: Signature)
    ensures var w := vf.credWeight(rv.sender, rv.round, rv.period, rv.step, proof);
            if vf.sigOk(rv, sig) && w.Some?
               && (rv.proposal == BOTTOM ==> rv.step > CERT)
               && (rv.step == PROPOSE ==>
                     rv.proposal.originalPeriod < rv.period ||
                     (rv.proposal.originalPeriod == rv.period && rv.sender == rv.proposal.originalProposer))
            then VerifyVote(vf, rv, proof, sig) == Some(Vote(rv, Credential(w.value, proof), sig))
            else VerifyVote(vf, rv, proof, sig) == None
  {
  }

  /** A pair verifies exactly if both its votes do, for different values. */
  lemma PairVerifiesIff(vf: Verifier, round: Round, period: Period, step: Step, a: PairAuthenticator)
    ensures VerifyPair(vf, round, period, step, a).Some? <==>
            && a.proposal0 != a.proposal1
            && VerifyVote(vf, RawVote(a.sender, round, period, step, a.proposal0), a.proof, a.sig0).Some?
            && VerifyVote(vf, RawVote(a.sender, round, period, step, a.proposal1), a.proof, a.sig1).Some?
  {
  }

  /** `vs` and `es` are what the oracles make of the authenticators of `b`. */
  predicate Authenticates(vf: Verifier, b: UnauthenticatedBundle, vs: seq<Vote>, es: seq<EquivocationVote>) {
    && |vs| == |b.votes| && |es| == |b.pairs|
    && (forall i :: 0 <= i < |vs| ==>
          VerifyVote(vf, RawVote(b.votes[i].sender, b.round, b.period, b.step, b.proposal),
                     b.votes[i].proof, b.votes[i].sig) == Some(vs[i]))
    && (forall i :: 0 <= i < |es| ==>
          VerifyPair(vf, b.round, b.period, b.step, b.pairs[i]) == Some(es[i]))
  }

  /** What a verified bundle is: distinct senders, small, and a quorum of authentic votes. */
  ghost predicate Proves(vf: Verifier, proto: ConsensusParams, b: UnauthenticatedBundle,
                         vs: seq<Vote>, es: seq<EquivocationVote>)
  {
    && b.step != PROPOSE
    && |b.votes| + |b.pairs| <= Threshold(b.step, proto)
    && DistinctSenders(b)
    && Authenticates(vf, b, vs, es)
    && ReachesQuorum(b.step, proto, VoteWeight(vs) + PairWeight(es))
  }

  /** The weight and the size of a verified bundle, step by step. */
  lemma ProvesByStep(vf: Verifier, proto: ConsensusParams, b: UnauthenticatedBundle, vs: seq<Vote>,
                     es: seq<EquivocationVote>, weight: nat, size: nat)
    requires weight == VoteWeight(vs) + PairWeight(es) && size == |b.votes| + |b.pairs|
    requires DistinctSenders(b) && Authenticates(vf, b, vs, es)
    ensures b.step == PROPOSE ==> !Proves(vf, proto, b, vs, es)
    ensures b.step == SOFT ==> (Proves(vf, proto, b, vs, es) <==> size <= proto.soft <= weight)
    ensures b.step == CERT ==> (Proves(vf, proto, b, vs, es) <==> size <= proto.cert <= weight)
    ensures b.step == LATE ==> (Proves(vf, proto, b, vs, es) <==> size <= proto.late <= weight)
    ensures b.step == REDO ==> (Proves(vf, proto, b, vs, es) <==> size <= proto.redo <= weight)
    ensures b.step == DOWN ==> (Proves(vf, proto, b, vs, es) <==> size <= proto.down <= weight)
    ensures NEXT <= b.step < LATE || b.step > DOWN ==> (Proves(vf, proto, b, vs, es) <==> size <= proto.next <= weight)
  {
    hide DistinctSenders, Authenticates, VoteWeight, PairWeight;
    QuorumByStep(b.step, proto, weight);
  }

  datatype BundleError = BadStep | UnknownVersion | Cancelled | TooLarge | Duplicated | InvalidVote | NotEnoughVotes

  /** `params` are the round's parameters, if known; `done` says whether the context is cancelled at each check. */
  method Verify(vf: Verifier, params: Option<ConsensusParams>, done: nat -> bool, b: UnauthenticatedBundle)
    returns (r: Result<Bundle, BundleError>)
    ensures r.Ok? ==> params.Some? && r.value.u == b && Proves(vf, params.value, b, r.value.votes, r.value.pairs)
    ensures r == Err(UnknownVersion) <==> b.step != PROPOSE && params.None?
    ensures r == Err(Cancelled) ==> exists i: nat :: done(i)
    ensures r.Err? && r.error != Cancelled && params.Some? ==> forall vs, es :: !Proves(vf, params.value, b, vs, es)
  {
    if b.step == PROPOSE {
      return Err(BadStep);
    }
    if params.None? {
      return Err(UnknownVersion);
    }
    r := VerifyWith(vf, params.value, done, b);
  }

  method VerifyWith(vf: Verifier, proto: ConsensusParams, done: nat -> bool, b: UnauthenticatedBundle)
    returns (r: Result<Bundle, BundleError>)
    requires b.step != PROPOSE
    ensures r.Ok? ==> r.value.u == b && Proves(vf, proto, b, r.value.votes, r.value.pairs)
    ensures r == Err(Cancelled) ==> exists i: nat :: done(i)
    ensures r.Err? && r.error != Cancelled ==> forall vs, es :: !Proves(vf, proto, b, vs, es)
    ensures r.Err? ==> r.error != UnknownVersion
  {
    if |b.votes| + |b.pairs| > Threshold(b.step, proto) {
      return Err(TooLarge);
    }
    var distinct := CheckDistinct(b);
    if !distinct {
      return Err(Duplicated);
    }
    for i := 0 to 2 * (|b.votes| + |b.pairs|) {
      if done(i) {
        return Err(Cancelled);
      }
    }
    var votes, pairs, weight := [], [], 0;
    for i := 0 to |b.votes|
      invariant |votes| == i && weight == VoteWeight(votes)
      invariant forall k :: 0 <= k < i ==>
                  VerifyVote(vf, RawVote(b.votes[k].sender, b.round, b.period, b.step, b.proposal),
                             b.votes[k].proof, b.votes[k].sig) == Some(votes[k])
    {
      var v := VerifyVote(vf, RawVote(b.votes[i].sender, b.round, b.period, b.step, b.proposal),
                          b.votes[i].proof, b.votes[i].sig);
      if v.None? {
        return Err(InvalidVote);
      }
      assert (votes + [v.value])[..i] == votes;
      votes, weight := votes + [v.value], weight + v.value.cred.weight;
    }
    for i := 0 to |b.pairs|
      invariant |pairs| == i && weight == VoteWeight(votes) + PairWeight(pairs)
      invariant forall k :: 0 <= k < i ==> VerifyPair(vf, b.round, b.period, b.step, b.pairs[k]) == Some(pairs[k])
    {
      var e := VerifyPair(vf, b.round, b.period, b.step, b.pairs[i]);
      if e.None? {
        return Err(InvalidVote);
      }
      assert (pairs + [e.value])[..i] == pairs;
      pairs, weight := pairs + [e.value], weight + e.value.cred.weight;
    }
    if !ReachesQuorum(b.step, proto, weight) {
      forall vs, es | Authenticates(vf, b, vs, es) ensures vs == votes && es == pairs {}
      return Err(NotEnoughVotes);
    }
    return Ok(Bundle(b, votes, pairs));
  }

  method CheckDistinct(b: UnauthenticatedBundle) returns (distinct: bool)
    ensures distinct <==> DistinctSenders(b)
  {
    var voters: set<Address> := {};
    for i := 0 to |b.votes|
      invariant forall a :: a in voters <==> exists k :: 0 <= k < i && b.votes[k].sender == a
      invariant forall j, k :: 0 <= j < k < i ==> b.votes[j].sender != b.votes[k].sender
    {
      if b.votes[i].sender in voters {
        return false;
      }
      voters := voters + {b.votes[i].sender};
    }
    for i := 0 to |b.pairs|
      invariant forall a :: a in voters <==>
                  (exists k :: 0 <= k < |b.votes| && b.votes[k].sender == a) ||
                  (exists k :: 0 <= k < i && b.pairs[k].sender == a)
      invariant forall j, k :: 0 <= j < k < i ==> b.pairs[j].sender != b.pairs[k].sender
      invariant forall j, k :: 0 <= j < |b.votes| && 0 <= k < i ==> b.votes[j].sender != b.pairs[k].sender
    {
      if b.pairs[i].sender in voters {
        return false;
      }
      voters := voters + {b.pairs[i].sender};
    }
    return true;
  }

  // ---------------------------------------------------------------- packing

  datatype PackError = NoVotes | WrongProposal | Short

  /** `k` votes are the shortest prefix of `vs` that lifts `base` to a quorum, or all of them. */
  predicate ShortestVotes(step: Step, proto: ConsensusParams, vs: seq<Vote>, k: nat) {
    && k <= |vs|
    && (k > 0 ==> !ReachesQuorum(step, proto, VoteWeight(vs[..k - 1])))
    && (k < |vs| ==> ReachesQuorum(step, proto, VoteWeight(vs[..k])))
  }

  predicate ShortestPairs(step: Step, proto: ConsensusParams, base: nat, es: seq<EquivocationVote>, k: nat) {
    && k <= |es|
    && (k > 0 ==> !ReachesQuorum(step, proto, base + PairWeight(es[..k - 1])))
    && (k < |es| ==> ReachesQuorum(step, proto, base + PairWeight(es[..k])))
  }

  function AuthsOf(vs: seq<Vote>): seq<VoteAuthenticator> {
    seq(|vs|, i requires 0 <= i < |vs| => AuthOf(vs[i]))
  }

  function PairAuthsOf(es: seq<EquivocationVote>): seq<PairAuthenticator> {
    seq(|es|, i requires 0 <= i < |es| => PairAuthOf(es[i]))
  }

  /** A panic is an error result here; each error has its exact condition. */
  method MakeBundle(proto: ConsensusParams, target: ProposalValue, votes: seq<Vote>, pairs: seq<EquivocationVote>)
    returns (r: Result<UnauthenticatedBundle, PackError>)
    ensures r == Err(NoVotes) <==> votes == []
    ensures r == Err(WrongProposal) <==> votes != [] && exists i :: 0 <= i < |votes| && votes[i].r.proposal != target
    ensures votes != [] && (forall i :: 0 <= i < |votes| ==> votes[i].r.proposal == target) ==>
              (r.Ok? <==> ReachesQuorum(votes[0].r.step, proto, VoteWeight(votes) + PairWeight(pairs)))
    ensures r.Ok? ==>
              && votes != []
              && |r.value.votes| <= |votes| && |r.value.pairs| <= |pairs|
              && r.value == UnauthenticatedBundle(
                   votes[0].r.round, votes[0].r.period, votes[0].r.step, target,
                   AuthsOf(votes[..|r.value.votes|]), PairAuthsOf(pairs[..|r.value.pairs|]))
              && ShortestVotes(votes[0].r.step, proto, votes, |r.value.votes|)
              && ShortestPairs(votes[0].r.step, proto, VoteWeight(votes[..|r.value.votes|]), pairs, |r.value.pairs|)
              && ReachesQuorum(votes[0].r.step, proto,
                   VoteWeight(votes[..|r.value.votes|]) + PairWeight(pairs[..|r.value.pairs|]))
  {
    if |votes| == 0 {
      return Err(NoVotes);
    }
    for i := 0 to |votes|
      invariant forall k :: 0 <= k < i ==> votes[k].r.proposal == target
    {
      if votes[i].r.proposal != target {
        return Err(WrongProposal);
      }
    }
    var step := votes[0].r.step;
    var certVotes, packed := PackVotes(step, proto, votes);
    var n := |certVotes|;
    var certPairs, total := PackPairs(step, proto, packed, pairs);
    VoteWeightPrefix(votes, n);
    PairWeightPrefix(pairs, |certPairs|);
    assert votes[..|votes|] == votes && pairs[..|pairs|] == pairs;
    if !ReachesQuorum(step, proto, total) {
      return Err(Short);
    }
    return Ok(UnauthenticatedBundle(votes[0].r.round, votes[0].r.period, votes[0].r.step, target,
                                    certVotes, certPairs));
  }

  /** Takes votes until the quorum is reached or none is left. */
  method PackVotes(step: Step, proto: ConsensusParams, votes: seq<Vote>)
    returns (certVotes: seq<VoteAuthenticator>, packed: nat)
    ensures |certVotes| <= |votes| && certVotes == AuthsOf(votes[..|certVotes|])
    ensures packed == VoteWeight(votes[..|certVotes|]) && ShortestVotes(step, proto, votes, |certVotes|)
  {
    certVotes, packed := [], 0;
    var n := 0;
    while n < |votes| && !ReachesQuorum(step, proto, packed)
      invariant n <= |votes|
      invariant certVotes == AuthsOf(votes[..n])
      invariant packed == VoteWeight(votes[..n])
      invariant n > 0 ==> !ReachesQuorum(step, proto, VoteWeight(votes[..n - 1]))
    {
      assert votes[..n + 1][..n] == votes[..n];
      certVotes, packed, n := certVotes + [AuthOf(votes[n])], packed + votes[n].cred.weight, n + 1;
    }
  }

  /** Then takes pairs in the same way, on top of the votes' weight. */
  method PackPairs(step: Step, proto: ConsensusParams, base: nat, pairs: seq<EquivocationVote>)
    returns (certPairs: seq<PairAuthenticator>, packed: nat)
    ensures |certPairs| <= |pairs| && certPairs == PairAuthsOf(pairs[..|certPairs|])
    ensures packed == base + PairWeight(pairs[..|certPairs|]) && ShortestPairs(step, proto, base, pairs, |certPairs|)
  {
    certPairs, packed := [], base;
    var m := 0;
    while m < |pairs| && !ReachesQuorum(step, proto, packed)
      invariant m <= |pairs|
      invariant certPairs == PairAuthsOf(pairs[..m])
      invariant packed == base + PairWeight(pairs[..m])
      invariant m > 0 ==> !ReachesQuorum(step, proto, base + PairWeight(pairs[..m - 1]))
    {
      assert pairs[..m + 1][..m] == pairs[..m];
      certPairs, packed, m := certPairs + [PairAuthOf(pairs[m])], packed + pairs[m].cred.weight, m + 1;
    }
  }

  lemma {:induction false} VoteWeightPrefix(vs: seq<Vote>, k: nat)
    requires k <= |vs|
    ensures VoteWeight(vs[..k]) <= VoteWeight(vs)
  {
    if k < |vs| {
      VoteWeightPrefix(vs[..|vs| - 1], k);
      assert vs[..|vs| - 1][..k] == vs[..k];
    } else {
      assert vs[..k] == vs;
    }
  }

  lemma {:induction false} PairWeightPrefix(es: seq<EquivocationVote>, k: nat)
    requires k <= |es|
    ensures PairWeight(es[..k]) <= PairWeight(es)
  {
    if k < |es| {
      PairWeightPrefix(es[..|es| - 1], k);
      assert es[..|es| - 1][..k] == es[..k];
    } else {
      assert es[..k] == es;
    }
  }

  // ---------------------------------------------------------------- descending order

  /** Heavier first; on equal weight the larger address first. */
  predicate Before(weight: map<Address, nat>, a: Address, b: Address)
    requires a in weight && b in weight
  {
    weight[a] > weight[b] || (weight[a] == weight[b] && a > b)
  }

  predicate Descending(weight: map<Address, nat>, order: seq<Address>) {
    && (forall i :: 0 <= i < |order| ==> order[i] in weight)
    && (forall i, j :: 0 <= i < j < |order| ==> Before(weight, order[i], order[j]))
  }

  /** Heaviest first; of equal weights, the larger address first. */
  lemma DescendingMeans(weight: map<Address, nat>, order: seq<Address>, i: nat, j: nat)
    requires Descending(weight, order) && i < j < |order|
    ensures weight[order[i]] > weight[order[j]] || (weight[order[i]] == weight[order[j]] && order[i] > order[j])
  {
    assert Before(weight, order[i], order[j]);
  }

  method SortSenders(weight: map<Address, nat>) returns (order: seq<Address>)
    ensures Descending(weight, order)
    ensures FirstOf(order, |order|) == weight.Keys
  {
    order := [];
    var rest := weight.Keys;
    while rest != {}
      invariant rest <= weight.Keys
      invariant Descending(weight, order)
      invariant forall a :: a in weight.Keys <==> a in order || a in rest
      invariant forall a :: a in rest ==> a !in order
    {
      var a :| a in rest;
      order := Insert(weight, order, a);
      rest := rest - {a};
    }
  }

  method Insert(weight: map<Address, nat>, order: seq<Address>, a: Address) returns (r: seq<Address>)
    requires Descending(weight, order) && a in weight && a !in order
    ensures Descending(weight, r)
    ensures forall x :: x in r <==> x in order || x == a
  {
    var k := 0;
    while k < |order| && Before(weight, order[k], a)
      invariant k <= |order|
      invariant forall i :: 0 <= i < k ==> Before(weight, order[i], a)
    {
      k := k + 1;
    }
    r := order[..k] + [a] + order[k..];
    assert order == order[..k] + order[k..];
  }

  // ---------------------------------------------------------------- greedy packing is minimal

  function SumTo(order: seq<Address>, n: nat, w: Address -> nat): nat
    requires n <= |order|
  {
    if n == 0 then 0 else SumTo(order, n - 1, w) + w(order[n - 1])
  }

  ghost function FirstOf(order: seq<Address>, n: nat): set<Address>
    requires n <= |order|
  {
    set i | 0 <= i < n :: order[i]
  }

  /** The first `n` accounts are listed by non-increasing weight. */
  ghost predicate NonIncreasing(order: seq<Address>, n: nat, w: Address -> nat)
    requires n <= |order|
  {
    n <= 1 || (w(order[n - 2]) >= w(order[n - 1]) && NonIncreasing(order, n - 1, w))
  }

  lemma {:induction false} LastIsLightest(order: seq<Address>, n: nat, w: Address -> nat, k: nat)
    requires k < n <= |order| && NonIncreasing(order, n, w)
    ensures w(order[n - 1]) <= w(order[k])
  {
    if k < n - 1 {
      LastIsLightest(order, n - 1, w, k);
    }
  }

  lemma {:induction false} DescendingIsNonIncreasing(
    weight: map<Address, nat>, order: seq<Address>, n: nat, w: Address -> nat)
    requires n <= |order| && Descending(weight, order)
    requires forall a :: a in weight ==> weight[a] == w(a)
    ensures NonIncreasing(order, n, w)
  {
    if n > 1 {
      assert Before(weight, order[n - 2], order[n - 1]);
      DescendingIsNonIncreasing(weight, order, n - 1, w);
    }
  }

  lemma FirstOfNext(order: seq<Address>, n: nat)
    requires n < |order|
    requires forall i, j :: 0 <= i < j < |order| ==> order[i] != order[j]
    ensures FirstOf(order, n + 1) == FirstOf(order, n) + {order[n]}
    ensures order[n] !in FirstOf(order, n)
  {
  }

  lemma {:induction false} SumToIsWeight(order: seq<Address>, n: nat, w: Address -> nat)
    requires n <= |order|
    requires forall i, j :: 0 <= i < j < |order| ==> order[i] != order[j]
    ensures SumTo(order, n, w) == Weight(FirstOf(order, n), w)
    ensures |FirstOf(order, n)| == n
  {
    if n > 0 {
      SumToIsWeight(order, n - 1, w);
      FirstOfNext(order, n - 1);
      WeightAdd(FirstOf(order, n - 1), order[n - 1], w);
    }
  }

  lemma FirstOfStep(order: seq<Address>, n: nat, w: Address -> nat)
    requires 1 <= n <= |order|
    ensures FirstOf(order, n) == FirstOf(order, n - 1) + {order[n - 1]}
    ensures NonIncreasing(order, n, w) ==> NonIncreasing(order, n - 1, w)
    ensures forall m: nat :: 1 <= m <= |order| ==> SumTo(order, m, w) == SumTo(order, m - 1, w) + w(order[m - 1])
  {
  }

  /** No set of m accounts outweighs the first m of a heaviest-first listing. */
  lemma {:induction false} HeaviestFirst(order: seq<Address>, n: nat, w: Address -> nat, s: set<Address>, m: nat)
    requires n <= |order| && NonIncreasing(order, n, w)
    requires s <= FirstOf(order, n) && |s| == m
    ensures m <= n
    ensures Weight(s, w) <= SumTo(order, m, w)
    decreases n
  {
    if n == 0 {
      assert s == {};
    } else {
      hide FirstOf, NonIncreasing, SumTo, Weight;
      var last := order[n - 1];
      FirstOfStep(order, n, w);
      if last in s {
        HeaviestFirst(order, n - 1, w, s - {last}, m - 1);
        WeightRemove(s, last, w);
        LastIsLightest(order, n, w, m - 1);
      } else {
        HeaviestFirst(order, n - 1, w, s, m);
      }
    }
  }
}
