/**
 The six thresholds of one consensus version, all different: how heavy one vote must be, step by
 step, for a tracker to report it and for its bundle to verify.
 */
module ThresholdExample {
  import opened AgreementTypes
  import opened Weights
  import opened Tally
  import opened Bundles
  import opened BundleGeneration
  import opened VoteTracking

  const V10 := ConsensusParams(2267, 1112, 3838, 320, 1768, 4560)
  const VALUE := ProposalValue(0, 1, 1, 1)

  /** Every signature is good and every credential has the given weight. */
  function Weighing(weight: nat): Verifier {
    Verifier((_, _) => true, (_, _, _, _, _) => Some(weight))
  }

  function OnlyVote(s: Step, weight: nat): Vote {
    Vote(RawVote(1, 0, 0, s, VALUE), Credential(weight, 0), 0)
  }

  function OnlyBundle(s: Step, weight: nat): UnauthenticatedBundle {
    UnauthenticatedBundle(0, 0, s, VALUE, [AuthOf(OnlyVote(s, weight))], [])
  }

  /** One ballot is over exactly if its sender alone is a quorum. */
  lemma OneBallot(c: Committee)
    requires !c.Quorum(0)
    ensures !AnyOver(c, {}) && Safe(c, {Ballot(1, VALUE)})
    ensures AnyOver(c, {Ballot(1, VALUE)}) <==> c.Quorum(c.weight(1))
  {
    var b := {Ballot(1, VALUE)};
    forall p ensures Supporters({}, p) == {} {}
    assert Supporters(b, VALUE) == {1} && Equivocators(b) == {};
    forall p | p != VALUE ensures Supporters(b, p) == {} {}
    WeightRemove({1}, 1, c.weight);
    assert Over(c, b, VALUE) <==> c.Quorum(c.weight(1));
  }

  lemma OneProves(s: Step, weight: nat)
    requires s != PROPOSE
    ensures (exists vs, es :: Proves(Weighing(weight), V10, OnlyBundle(s, weight), vs, es)) <==>
            ReachesQuorum(s, V10, weight)
  {
    var b, vf, v := OnlyBundle(s, weight), Weighing(weight), OnlyVote(s, weight);
    forall vs, es | Authenticates(vf, b, vs, es) ensures vs == [v] && es == [] {}
    assert [v][..0] == [];
    assert VoteWeight([v]) == weight;
    if ReachesQuorum(s, V10, weight) {
      assert Authenticates(vf, b, [v], []);
      assert Proves(vf, V10, b, [v], []);
    }
  }

  /** The tracker of the step is given the vote, and the bundle of that vote is verified. */
  method OneVote(s: Step, weight: nat) returns (reported: bool, verified: bool)
    requires s != PROPOSE && weight >= 1
    ensures reported == verified
    ensures s == SOFT ==> (verified <==> weight >= 2267)
    ensures s == CERT ==> (verified <==> weight >= 1112)
    ensures s == LATE ==> (verified <==> weight >= 320)
    ensures s == REDO ==> (verified <==> weight >= 1768)
    ensures s == DOWN ==> (verified <==> weight >= 4560)
    ensures NEXT <= s < LATE || s > DOWN ==> (verified <==> weight >= 3838)
  {
    hide Over, Safe, Proves, Drawn, Thrifty, VoteTracker.EventOk;
    var c := Committee(s, V10, _ => weight);
    var v := OnlyVote(s, weight);
    QuorumByStep(s, V10, 0);
    QuorumByStep(s, V10, weight);
    OneBallot(c);
    var t := new VoteTracker(Setting(0, 0, c, Weighing(weight)));
    var o := t.HandleVote(V10, v);
    assert {} + {BallotOf(v)} == {Ballot(1, VALUE)};
    reported := o.Emitted?;
    OneProves(s, weight);
    var r := Verify(Weighing(weight), Some(V10), _ => false, OnlyBundle(s, weight));
    verified := r.Ok?;
  }
}
