/**
 Values shared by every machine of the agreement protocol: accounts, proposal-values,
 steps, committee thresholds and votes.
 */
module AgreementTypes {

  datatype Option<+T> = None | Some(value: T)

  predicate Distinct<T(==)>(s: seq<T>) {
    forall i, j :: 0 <= i < j < |s| ==> s[i] != s[j]
  }

  lemma OnlyMember<T>(s: set<T>, x: T)
    requires x in s && |s| <= 1
    ensures s == {x}
  {
    assert |s - {x}| == 0;
    assert s == {x} + (s - {x});
  }

  const UINT64 := 0x1_0000_0000_0000_0000

  /** A 32-byte address read as a big-endian number, so that byte-wise comparison is `<`. */
  type Address = nat

  type Round = nat
  type Period = nat
  type Step = nat

  const PROPOSE: Step := 0
  const SOFT: Step := 1
  const CERT: Step := 2
  const NEXT: Step := 3
  const LATE: Step := 253
  const REDO: Step := 254
  const DOWN: Step := 255

  datatype ProposalValue = ProposalValue(
    originalPeriod: Period, originalProposer: Address, blockDigest: nat, encodingDigest: nat)

  /** The zero proposal-value. */
  const BOTTOM := ProposalValue(0, 0, 0, 0)

  /** The committee thresholds of a consensus version. */
  datatype ConsensusParams = ConsensusParams(
    soft: nat, cert: nat, next: nat, late: nat, redo: nat, down: nat)

  function Threshold(s: Step, proto: ConsensusParams): nat {
    if s == PROPOSE then 0
    else if s == SOFT then proto.soft
    else if s == CERT then proto.cert
    else if s == LATE then proto.late
    else if s == REDO then proto.redo
    else if s == DOWN then proto.down
    else proto.next
  }

  predicate ReachesQuorum(s: Step, proto: ConsensusParams, weight: nat) {
    s != PROPOSE && weight >= Threshold(s, proto)
  }

  /** Each step has its own threshold; every step that is not named is a next step. */
  lemma QuorumByStep(s: Step, proto: ConsensusParams, weight: nat)
    ensures s == PROPOSE ==> !ReachesQuorum(s, proto, weight)
    ensures s == SOFT ==> (ReachesQuorum(s, proto, weight) <==> weight >= proto.soft)
    ensures s == CERT ==> (ReachesQuorum(s, proto, weight) <==> weight >= proto.cert)
    ensures s == LATE ==> (ReachesQuorum(s, proto, weight) <==> weight >= proto.late)
    ensures s == REDO ==> (ReachesQuorum(s, proto, weight) <==> weight >= proto.redo)
    ensures s == DOWN ==> (ReachesQuorum(s, proto, weight) <==> weight >= proto.down)
    ensures NEXT <= s < LATE || s > DOWN ==> (ReachesQuorum(s, proto, weight) <==> weight >= proto.next)
  {
  }

  datatype RawVote = RawVote(sender: Address, round: Round, period: Period, step: Step, proposal: ProposalValue)

  type Proof = nat
  type Signature = nat

  /** An authenticated credential: the VRF proof and the weight it was found to carry. */
  datatype Credential = Credential(weight: nat, proof: Proof)

  datatype Vote = Vote(r: RawVote, cred: Credential, sig: Signature)

  datatype EquivocationVote = EquivocationVote(
    sender: Address, round: Round, period: Period, step: Step, cred: Credential,
    proposal0: ProposalValue, proposal1: ProposalValue, sig0: Signature, sig1: Signature)
  {
    /** The first member of the pair. */
    function V0(): Vote {
      Vote(RawVote(sender, round, period, step, proposal0), cred, sig0)
    }

    /** The second member of the pair; it carries the credential of the first. */
    function V1(): Vote {
      Vote(RawVote(sender, round, period, step, proposal1), cred, sig1)
    }
  }
}
