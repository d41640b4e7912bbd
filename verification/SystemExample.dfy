/**
 A schedule of the composed system that reaches a decision: one honest account proposes, votes,
 hears its own votes and ensures its block.
 */
module SystemExample {
  import opened AgreementTypes
  import opened Weights
  import opened Tally
  import opened Bundles
  import opened VoteTracking
  import opened HonestMajority
  import opened NodeProtocol
  import opened ProposalStorage
  import opened PlayerView
  import opened PlayerActions
  import opened PlayerMachine
  import opened Network
  import opened PlayerWorld
  import opened PlayerSystem
  import opened PlayerForks
  import NetworkExample

  function Pops(r: Round): Population {
    NetworkExample.Alone()
  }

  /** Every signature is good and every credential weighs 1. */
  const TRUSTING := Verifier((_, _) => true, (_, _, _, _, _) => Some(1))

  function OwnVote(s: Step): Vote {
    Vote(RawVote(1, 0, 0, s, KEPT), Credential(1, 0), 0)
  }

  ghost predicate OnlyPlayer(sys: System, p: Player)
    reads sys, sys.players.Values, sys.trackers.Values
  {
    sys.Valid() && sys.players == map[1 := p] && sys.pops == Pops && sys.vf == TRUSTING
  }

  /** One ballot of the one account is a quorum for its value and no other. */
  lemma OneBallot(s: Step, b: Ballot)
    requires s != PROPOSE && b.sender == 1
    ensures var c := NetworkExample.Alone().At(s);
            AnyOver(c, {} + {b}) && !AnyOver(c, {}) && forall x :: Over(c, {} + {b}, x) ==> x == b.value
  {
    var c, one := NetworkExample.Alone().At(s), {b};
    assert {} + {b} == one;
    assert !Equivocates(one, 1) && Supporters(one, b.value) == {1};
    WeightRemove({1}, 1, c.weight);
    assert Over(c, one, b.value);
    forall x ensures Supporters({}, x) == {} {}
  }

  /** A vote that the account attested reaches its own tracker. */
  lemma OwnVoteDeliverable(sys: System, p: Player, s: Step)
    requires OnlyPlayer(sys, p) && p.round == 0 && s != PROPOSE && NetVote(1, Cast(0, s, KEPT)) in SentAt(sys.sent, 0)
    ensures sys.Deliverable(1, OwnVote(s))
  {
    hide System.Valid;
  }

  /** What is attested is there to be delivered. */
  lemma AttestedSent(sent: map<Round, set<NetVote>>, actions: seq<Action>, c: Cast)
    requires Attest(0, c.period, c.step, c.value) in actions
    ensures NetVote(1, c) in SentAt(Sending(sent, 1, actions), 0)
  {
    var a := Attest(0, c.period, c.step, c.value);
    assert a.round == 0;
    assert NetVote(1, Cast(a.period, a.step, a.value)) in SentBy(1, actions, 0);
  }

  lemma SentStays(sent: map<Round, set<NetVote>>, actions: seq<Action>, v: NetVote)
    requires v in SentAt(sent, 0)
    ensures v in SentAt(Sending(sent, 1, actions), 0)
  {
  }

  /** The proposal-vote arrives. */
  method Propose(sys: System, p: Player)
    requires OnlyPlayer(sys, p) && Starts(p) && sys.sent == map[] && sys.trackers == map[]
    modifies sys, p
    ensures OnlyPlayer(sys, p) && Stands(p, 0, SOFT, false, None, map[]) && SawFirst(p.StoreOf(0), false)
    ensures sys.trackers == map[]
  {
    hide System.Valid, Player.Valid, StoreAfter, StoreInv, StagedIn, BlocksIn;
    FirstVote(FIRST);
    assert sys.CertVoted(1) == {};
    var actions := sys.Reach(GiveProposalVote(1, FIRST));
  }

  /** The soft timeout: the player soft-votes. */
  method SoftVote(sys: System, p: Player)
    requires OnlyPlayer(sys, p) && Stands(p, 0, SOFT, false, None, map[]) && SawFirst(p.StoreOf(0), false)
    requires sys.trackers == map[]
    modifies sys, p
    ensures OnlyPlayer(sys, p) && Stands(p, 0, CERT, false, None, map[]) && SawFirst(p.StoreOf(0), true)
    ensures sys.trackers == map[] && NetVote(1, Cast(0, SOFT, KEPT)) in SentAt(sys.sent, 0)
  {
    hide System.Valid, Player.Valid, StoreAfter, StoreInv, StagedIn, BlocksIn, Votes, Sending, SentAt;
    SawFirstView(p.StoreOf(0), false);
    FreezeTracker(p.StoreOf(0), 0);
    StoreKept(ByProof, p.StoreOf(0), 0, Freeze(0));
    ghost var sent := sys.sent;
    var actions := sys.Reach(FireTimeout(1, 0));
    EnsuresHas(actions, Attest(0, 0, SOFT, KEPT));
    AttestedSent(sent, actions, Cast(0, SOFT, KEPT));
  }

  /** The payload arrives. */
  method Assembled(sys: System, p: Player)
    requires OnlyPlayer(sys, p) && Stands(p, 0, CERT, false, None, map[]) && SawFirst(p.StoreOf(0), true)
    requires sys.trackers == map[] && NetVote(1, Cast(0, SOFT, KEPT)) in SentAt(sys.sent, 0)
    modifies sys, p
    ensures OnlyPlayer(sys, p) && Stands(p, 0, CERT, false, None, map[]) && p.Abs().blocks == {KEPT}
    ensures sys.trackers == map[] && NetVote(1, Cast(0, SOFT, KEPT)) in SentAt(sys.sent, 0)
  {
    hide System.Valid, Player.Valid, StoreAfter, StoreInv, StagedIn, BlocksIn, Votes, Sending, SentAt;
    SawFirstView(p.StoreOf(0), true);
    ghost var sent := sys.sent;
    var actions := sys.Reach(GivePayload(1, BlockOf(KEPT)));
    SentStays(sent, actions, NetVote(1, Cast(0, SOFT, KEPT)));
  }

  /** The one event that the account's own vote completes. */
  lemma OwnEvent(sys: System, s: Step, event: Option<ThresholdEvent>)
    requires sys.pops == Pops && s != PROPOSE
    requires sys.Completes(KeyOf(1, OwnVote(s)), {}, BallotOf(OwnVote(s)), event)
    ensures event.Some? && event.value.round == 0 && event.value.period == 0 && event.value.step == s
    ensures event.value.kind == KindOf(s) && event.value.proposal == KEPT
  {
    hide Over;
    OneBallot(s, BallotOf(OwnVote(s)));
  }

  /** The soft vote is a quorum: the player cert-votes. */
  method VoteForCert(sys: System, p: Player)
    requires OnlyPlayer(sys, p) && Stands(p, 0, CERT, false, None, map[]) && p.Abs().blocks == {KEPT}
    requires sys.trackers == map[] && NetVote(1, Cast(0, SOFT, KEPT)) in SentAt(sys.sent, 0)
    modifies sys, p
    ensures OnlyPlayer(sys, p) && p.round == 0 && p.Abs().blocks == {KEPT}
    ensures 0 in p.freshest && p.freshest[0].round == 0 && p.freshest[0].kind.SoftThreshold?
    ensures forall j :: j in sys.trackers ==> fresh(sys.trackers[j])
    ensures sys.Heard(KeyOf(1, OwnVote(CERT))) == {} && NetVote(1, Cast(0, CERT, KEPT)) in SentAt(sys.sent, 0)
  {
    hide System.Valid, Player.Valid, StagedIn, BlocksIn, Votes, Ensures, Sending, SentAt, System.Completes,
         System.Deliverable;
    OwnVoteDeliverable(sys, p, SOFT);
    ghost var sent := sys.sent;
    var event, actions := sys.GiveVote(1, OwnVote(SOFT));
    OwnEvent(sys, SOFT, event);
    EnsuresHas(actions, Attest(0, 0, CERT, KEPT));
    AttestedSent(sent, actions, Cast(0, CERT, KEPT));
  }

  /** The cert vote is a quorum: the player ensures its block. */
  method EnsureBlock(sys: System, p: Player)
    requires OnlyPlayer(sys, p) && p.round == 0 && p.Abs().blocks == {KEPT}
    requires 0 in p.freshest && p.freshest[0].round == 0 && p.freshest[0].kind.SoftThreshold?
    requires sys.Heard(KeyOf(1, OwnVote(CERT))) == {} && NetVote(1, Cast(0, CERT, KEPT)) in SentAt(sys.sent, 0)
    modifies sys, p, sys.trackers.Values
    ensures OnlyPlayer(sys, p)
    ensures exists d :: d in sys.did && d.me == 1 && Certifies(d.action, 0) && d.action.payload.value == KEPT
  {
    hide System.Valid, Player.Valid, StagedIn, BlocksIn, Votes, Ensures, Sending, SentAt, System.Completes,
         System.Deliverable;
    OwnVoteDeliverable(sys, p, CERT);
    var event, actions := sys.GiveVote(1, OwnVote(CERT));
    OwnEvent(sys, CERT, event);
    var a := Ensures(actions)[0];
    EnsuresHas(actions, a);
    OnRecordBy(sys.did, old(sys.did), actions, a);
  }

  lemma OnRecordBy(did: seq<Did>, before: seq<Did>, actions: seq<Action>, a: Action)
    requires did == before + By(1, actions) && a in actions
    ensures Did.Did(1, a) in did
  {
    var i :| 0 <= i < |actions| && actions[i] == a;
    assert did[|before| + i] == Did.Did(1, a);
  }

  /** Five deliveries from the start after which an ensure is on record. */
  method SomeScheduleEnsures() returns (did: seq<Did>)
    ensures exists d :: d in did && d.me == 1 && Certifies(d.action, 0) && d.action.payload.value == KEPT
    ensures OneBlockPerRound(did) && AllAuthentic(Pops, TRUSTING, did)
  {
    hide System.Valid, Player.Valid, Population.Sound, OneBlockPerRound, AllAuthentic;
    NetworkExample.AloneIsSound();
    var p := new Player(ByProof, 0, 0, 0);
    var sys := new System(Pops, TRUSTING, map[1 := p]);
    Propose(sys, p);
    SoftVote(sys, p);
    Assembled(sys, p);
    VoteForCert(sys, p);
    EnsureBlock(sys, p);
    sys.RecordsAgree();
    did := sys.did;
  }

  /** The proposal-vote behind the fork is one the composed system refuses: it costs a cert-voted block. */
  lemma ForkRefused(p: Player)
    requires HasCertVoted(p)
    ensures !KeepsAll(p.output, p.StoreOf(0), p.period, LATE_LOWER, {KEPT})
  {
    hide Player.Valid, StoreAfter;
    var s := p.StoreOf(0);
    StagedBlockLost(ByProof, s, 1, 1, 0, LATE_LOWER, KEPT);
    SurvivesIff(ByProof, s, 1, VoteVerified(LATE_LOWER), KEPT);
  }
}
