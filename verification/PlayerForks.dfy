/**
 Why a cert voter must keep its block. Three honest players of equal weight, where any two are
 a quorum, given nothing but quorums of attestations they made, payloads, proposal-votes and
 timeouts: one of them loses a block it has cert-voted to a late proposal-vote, votes on for
 bottom, and two different blocks are ensured for one round.
 */
module PlayerForks {
  import opened AgreementTypes
  import opened Bundles
  import opened VoteTracking
  import opened Freshness
  import opened VotingRules
  import opened NodeProtocol
  import opened ProposalStorage
  import opened PlayerView
  import opened PlayerActions
  import opened PlayerMachine
  import opened PlayerRuns
  import opened HonestMajority
  import opened Network
  import opened PlayerNetwork
  import NetworkExample

  // ---------------------------------------------------------------- one input

  /** A player in round 0 and in a period of it, with the freshest event and the caches of that round. */
  ghost predicate Stands(p: Player, q: Period, s: Step, napping: bool, f: Option<ThresholdEvent>,
                         cached: map<Period, NextStatus>)
    reads p
  {
    && p.output == ByProof && p.round == 0 && p.period == q && p.step == s && p.napping == napping
    && p.FreshestOf(0) == f && p.CachedOf(0) == cached
  }

  function TimeoutEvent(p: Player): Event
    reads p
  {
    Timeout(p.Frozen())
  }

  /** A timeout: the node reacts exactly as the model does. */
  method Tick(p: Player) returns (actions: seq<Action>)
    requires p.Valid() && p.round == 0 && p.step <= NEXT + 3
    modifies p
    ensures p.Valid() && p.round == 0 && p.freshest == old(p.freshest) && p.cached == old(p.cached)
    ensures p.Abs() == old(React(p.Abs(), TimeoutEvent(p)).node)
    ensures Votes(actions) == VoteSeq(0, old(React(p.Abs(), TimeoutEvent(p)).vote)) && Ensures(actions) == []
    ensures p.StoreOf(0) == if old(p.step) == SOFT
                            then StoreAfter(p.output, old(p.StoreOf(0)), p.period, Freeze(p.period))
                            else old(p.StoreOf(0))
  {
    hide Player.Valid, Certified, OnFreshest, Places, Votes, Ensures, StoreAfter, StagedIn, BlocksIn, VoteSeq;
    var _, done := Handle(p, TimeoutInput(0));
    actions := done;
  }

  /** A soft or next quorum fresher than what the player has. */
  method Hear(p: Player, e: ThresholdEvent) returns (actions: seq<Action>)
    requires p.Valid() && p.round == 0 && e.round == 0 && Votable(e) && !e.kind.CertThreshold?
    requires FresherThan(Some(e), p.FreshestOf(0))
    modifies p
    ensures p.Valid() && p.round == 0 && p.freshest == old(p.freshest)[0 := e]
    ensures p.cached == WithQuorum(old(p.cached), e)
    ensures Follows(old(p.Abs()), Seen(e, true), p.Abs())
    ensures Votes(actions) == VoteSeq(0, React(old(p.Abs()), Seen(e, true)).vote) && Ensures(actions) == []
    ensures p.StoreOf(0) == Handling(p.output, old(p.StoreOf(0)), old(p.period), e)
  {
    hide Player.Valid, Certified, OnFreshest, Places, Votes, Ensures, StoreAfter, StagedIn, BlocksIn, VoteSeq,
         Follows;
    ghost var a := p.View();
    Fresh(p, e);
    var _, done := Handle(p, QuorumInput(e));
    actions := done;
    NeverLeaves(a.node, e);
  }

  lemma Fresh(p: Player, e: ThresholdEvent)
    requires p.Valid() && FresherThan(Some(e), p.FreshestOf(e.round))
    ensures p.Fresher(e)
  {
  }

  lemma NeverLeaves(n: Node, e: ThresholdEvent)
    requires !e.kind.CertThreshold?
    ensures React(n, Seen(e, true)).ensured.None?
  {
  }

  /** A certificate, the first, whose block the player holds. */
  ghost predicate Concludable(p: Player, e: ThresholdEvent)
    reads p
  {
    && p.Valid() && p.round == 0 && e.round == 0 && Votable(e) && e.kind.CertThreshold? && e.proposal in p.Abs().blocks
    && (p.FreshestOf(0).Some? ==> p.FreshestOf(0).value.round == 0 && !p.FreshestOf(0).value.kind.CertThreshold?)
  }

  method Certify(p: Player, e: ThresholdEvent) returns (actions: seq<Action>)
    requires Concludable(p, e)
    modifies p
    ensures p.round == 1 && Votes(actions) == []
    ensures |Ensures(actions)| == 1 && Certifies(Ensures(actions)[0], 0) && Ensures(actions)[0].cert == e
  {
    hide Player.Valid, Certified, OnFreshest, Places, Votes, Ensures, StoreAfter, StagedIn, BlocksIn, VoteSeq,
         Follows;
    Fresh(p, e);
    NoVote(0);
    ModelCertified(p.Abs(), e.period, e.proposal);
    var _, done := Handle(p, QuorumInput(e));
    actions := done;
  }

  /** A proposal-vote of round 0. */
  method Offer(p: Player, v: Vote) returns (actions: seq<Action>)
    requires p.Valid() && p.round == 0 && v.r.round == 0 && ProposalFresh(0, p.period, 0, v.r.period)
    modifies p
    ensures p.Valid() && p.round == 0 && p.freshest == old(p.freshest) && p.cached == old(p.cached) && actions == []
    ensures p.Abs() == old(p.Abs()).(blocks := BlocksIn(p.StoreOf(0)))
    ensures p.StoreOf(0) == StoreAfter(p.output, old(p.StoreOf(0)), p.period, VoteVerified(v))
  {
    hide Player.Valid, Certified, OnFreshest, Places, Votes, Ensures, StoreAfter, StagedIn, BlocksIn;
    var _, done := Handle(p, ProposalVoteInput(v));
    actions := done;
  }

  function BlockOf(x: ProposalValue): ProposalStorage.Payload {
    ProposalStorage.Payload.Payload(x, 0)
  }

  /** The payload of a tracked value that is not staged in the current period. */
  method Receive(p: Player, x: ProposalValue) returns (actions: seq<Action>)
    requires p.Valid() && p.round == 0 && x in p.StoreOf(0).Tracked() && !p.StoreOf(0).Holds(x) && x != BOTTOM
    requires p.StoreOf(0).Staged(p.period) != x && (0 in p.freshest ==> !p.freshest[0].kind.CertThreshold?)
    modifies p
    ensures p.Valid() && p.round == 0 && p.freshest == old(p.freshest) && p.cached == old(p.cached)
    ensures p.Abs() == old(p.Abs()).(blocks := old(p.Abs()).blocks + {x}) && Votes(actions) == []
    ensures Ensures(actions) == []
    ensures p.StoreOf(0) == StoreAfter(p.output, old(p.StoreOf(0)), p.period, PayloadVerified(BlockOf(x)))
  {
    hide Player.Valid, Certified, OnFreshest, Places, Votes, Ensures, StoreAfter, StagedIn, BlocksIn, Store.Holds,
         Store.Tracked;
    StagedIff(p.StoreOf(0), p.period, x);
    var _, done := Handle(p, VerifiedInput(BlockOf(x)));
    actions := done;
  }

  // ---------------------------------------------------------------- the values and quorums of the run

  const OTHER := ProposalValue(2, 1, 3, 3)

  function QuorumOf(q: Period, s: Step, x: ProposalValue): ThresholdEvent {
    ThresholdEvent(KindOf(s), 0, q, s, x, UnauthenticatedBundle(0, q, s, x, [], []))
  }

  const SOFT0 := QuorumOf(0, SOFT, KEPT)
  const NEXT0_BOTTOM := QuorumOf(0, NEXT, BOTTOM)
  const NEXT0_KEPT := QuorumOf(0, NEXT + 1, KEPT)
  const SOFT1 := QuorumOf(1, SOFT, KEPT)
  const CERT1 := QuorumOf(1, CERT, KEPT)
  const NEXT1_BOTTOM := QuorumOf(1, NEXT, BOTTOM)
  const SOFT2 := QuorumOf(2, SOFT, OTHER)
  const CERT2 := QuorumOf(2, CERT, OTHER)

  const FIRST := ProposalVote(1, 0, KEPT, 7)
  const LATE_LOWER := ProposalVote(2, 0, LOWER, 3)
  const SECOND := ProposalVote(1, 2, OTHER, 5)

  ghost predicate Starts(p: Player)
    reads p
  {
    p.Valid() && Stands(p, 0, SOFT, false, None, map[]) && p.StoreOf(0) == EMPTY_STORE
  }

  /** One input to a player and what the player did. */
  datatype Turn = Turn(me: Address, i: Input, actions: seq<Action>)

  /** An input and the vote it brings about. */
  datatype Line = Line(i: Input, vote: Option<Cast>)

  ghost predicate Plays(turns: seq<Turn>, me: Address, script: seq<Line>) {
    |turns| == |script| && forall k :: 0 <= k < |turns| ==> Says(turns[k], me, script[k])
  }

  ghost predicate Says(t: Turn, me: Address, l: Line) {
    t.me == me && t.i == l.i && Votes(t.actions) == VoteSeq(0, l.vote)
  }

  /** The store of a player that has seen one proposal-vote, of period 0. */
  ghost predicate SawFirst(s: Store, frozen: bool) {
    && StoreInv(s) && s.relevant == map[0 := KEPT] && s.pinned == BOTTOM
    && s.trackers == map[0 := Tracker({1}, Some(FIRST), frozen, BOTTOM)]
    && KEPT in s.assemblers && s.At(KEPT).payload == None
  }

  lemma SawFirstView(s: Store, frozen: bool)
    requires SawFirst(s, frozen)
    ensures KEPT in s.Tracked() && !s.Holds(KEPT) && StagedIn(s) == map[] && BlocksIn(s) == {}
  {
    assert s.relevant[0] == KEPT;
    TrackedIff(s, KEPT);
    forall v | v in s.assemblers ensures v == KEPT {}
  }

  method SeeProposal(p: Player, me: Address) returns (t: Turn)
    requires Starts(p)
    modifies p
    ensures p.Valid() && Stands(p, 0, SOFT, false, None, map[]) && SawFirst(p.StoreOf(0), false)
    ensures Says(t, me, Line(ProposalVoteInput(FIRST), None))
  {
    hide Player.Valid, StoreAfter, StoreInv, StagedIn, BlocksIn;
    FirstVote(FIRST);
    var actions := Offer(p, FIRST);
    t := Turn(me, ProposalVoteInput(FIRST), actions);
  }

  // ---------------------------------------------------------------- the player that loses its block

  const ENTERING := [
    Line(ProposalVoteInput(FIRST), None), Line(VerifiedInput(BlockOf(KEPT)), None),
    Line(QuorumInput(NEXT0_BOTTOM), None)]

  /** A block held, relevant in period 0 only, which is still open to proposal-votes. */
  ghost predicate Exposed(s: Store) {
    && StoreInv(s) && s.Holds(KEPT) && s.relevant == map[0 := KEPT] && s.pinned == BOTTOM
    && s.TrackerAt(0) == Tracker({1}, Some(FIRST), false, BOTTOM)
  }

  ghost predicate HasEntered(p: Player)
    reads p
  {
    && p.Valid() && Stands(p, 1, SOFT, false, Some(NEXT0_BOTTOM), map[0 := NextStatus(true, BOTTOM)])
    && Exposed(p.StoreOf(0)) && p.StoreOf(0).trackers.Keys == {0} && p.Abs().blocks <= {KEPT}
  }

  /** It holds the block and enters period 1 without a soft timeout in period 0. */
  method EnterOnBottom(p: Player, me: Address) returns (turns: seq<Turn>)
    requires Starts(p)
    modifies p
    ensures HasEntered(p) && Plays(turns, me, ENTERING)
  {
    hide Player.Valid, StoreAfter, StoreInv, StagedIn, BlocksIn, Votes;
    var t := SeeProposal(p, me);
    SawFirstView(p.StoreOf(0), false);
    KeptAssembled(p.StoreOf(0));
    StoreKept(ByProof, p.StoreOf(0), 0, PayloadVerified(BlockOf(KEPT)));
    var a1 := Receive(p, KEPT);
    EnterBottom(p.StoreOf(0));
    var a2 := Hear(p, NEXT0_BOTTOM);
    turns := [t, Turn(me, VerifiedInput(BlockOf(KEPT)), a1), Turn(me, QuorumInput(NEXT0_BOTTOM), a2)];
  }

  ghost predicate HasCertVoted(p: Player)
    reads p
  {
    && p.Valid() && Stands(p, 1, SOFT, false, Some(SOFT1), map[0 := NextStatus(true, BOTTOM)])
    && Exposed(p.StoreOf(0)) && p.StoreOf(0).trackers.Keys == {0, 1} && p.Abs().blocks <= {KEPT}
    && p.StoreOf(0).TrackerAt(1) == ZERO_TRACKER.(staging := KEPT)
  }

  const DECIDING := [Line(QuorumInput(SOFT1), Some(Cast(1, CERT, KEPT)))]

  /** The soft quorum of period 1 is for a block it holds: it cert-votes, and the block is relevant nowhere new. */
  method CertVote(p: Player, me: Address) returns (turns: seq<Turn>)
    requires HasEntered(p)
    modifies p
    ensures HasCertVoted(p) && Plays(turns, me, DECIDING)
  {
    hide Player.Valid, StoreAfter, StoreInv, StagedIn, BlocksIn, Votes;
    var s := p.StoreOf(0);
    BlockIff(s, KEPT);
    ThresholdForHeldValue(ByProof, s, 1, 1, KEPT);
    StoreKept(ByProof, s, 1, Threshold(1, KEPT));
    HeldThreshold(s);
    var a := Hear(p, SOFT1);
    turns := [Turn(me, QuorumInput(SOFT1), a)];
  }

  lemma HeldThreshold(s: Store)
    requires s.Holds(KEPT)
    ensures var s' := StoreAfter(ByProof, s, 1, Threshold(1, KEPT));
            s'.Holds(KEPT) && s'.trackers == s.trackers[1 := s.TrackerAt(1).(staging := KEPT)]
  {
  }

  /** It has next-voted in period 1, and nothing is known of period 2. */
  ghost predicate HasNextVoted(p: Player, f: ThresholdEvent, c: NextStatus)
    reads p
  {
    && p.Valid() && Stands(p, 1, NEXT, false, Some(f), map[0 := c])
    && p.Abs().blocks <= {KEPT} && p.StoreOf(0).TrackerAt(2) == ZERO_TRACKER
  }

  const FORGETTING := [
    Line(ProposalVoteInput(LATE_LOWER), None), Line(TimeoutInput(0), None),
    Line(TimeoutInput(0), Some(Cast(1, NEXT, BOTTOM)))]

  /** A late proposal-vote of period 0 costs it the block, and its next vote is for bottom. */
  method LoseBlock(p: Player, me: Address) returns (turns: seq<Turn>)
    requires HasCertVoted(p)
    modifies p
    ensures HasNextVoted(p, SOFT1, NextStatus(true, BOTTOM)) && Plays(turns, me, FORGETTING)
    ensures p.StoreOf(0).Staged(1) == KEPT && KEPT !in p.Abs().blocks
  {
    hide Player.Valid, StoreAfter, StoreInv, StagedIn, BlocksIn, Votes;
    var s := p.StoreOf(0);
    StagedBlockLost(ByProof, s, 1, 1, 0, LATE_LOWER, KEPT);
    LostTrackers(s);
    BlocksShrink(ByProof, s, 1, VoteVerified(LATE_LOWER));
    var a0 := Offer(p, LATE_LOWER);
    BlockIff(p.StoreOf(0), KEPT);
    StagedIff(p.StoreOf(0), 1, KEPT);
    FreezeTracker(p.StoreOf(0), 1);
    NoVote(0);
    var a1 := Tick(p);
    var a2 := Tick(p);
    turns := [Turn(me, ProposalVoteInput(LATE_LOWER), a0), Turn(me, TimeoutInput(0), a1),
              Turn(me, TimeoutInput(0), a2)];
  }

  lemma LostTrackers(s: Store)
    requires s.trackers.Keys == {0, 1}
    ensures var s' := StoreAfter(ByProof, s, 1, VoteVerified(LATE_LOWER));
            s'.TrackerAt(1) == s.TrackerAt(1) && s'.TrackerAt(2) == ZERO_TRACKER
  {
  }

  lemma FreezeTracker(s: Store, q: Period)
    ensures StoreAfter(ByProof, s, q, Freeze(q)) == s.(trackers := s.trackers[q := s.TrackerAt(q).(frozen := true)])
  {
  }

  const LOSING := ENTERING + DECIDING + FORGETTING

  lemma PlaysOn(a: seq<Turn>, b: seq<Turn>, me: Address, x: seq<Line>, y: seq<Line>)
    requires Plays(a, me, x) && Plays(b, me, y)
    ensures Plays(a + b, me, x + y)
  {
  }

  /** A whole run of one player: it cert-votes a block in period 1 and next-votes bottom in that period. */
  method CertVoterForgets(p: Player, me: Address) returns (turns: seq<Turn>)
    requires Starts(p)
    modifies p
    ensures Plays(turns, me, LOSING)
    ensures p.Valid() && p.round == 0 && p.period == 1 && p.StoreOf(0).Staged(1) == KEPT && KEPT !in p.Abs().blocks
  {
    hide Plays, HasEntered, HasCertVoted, Player.Abs;
    var a := EnterOnBottom(p, me);
    var b := CertVote(p, me);
    PlaysOn(a, b, me, ENTERING, DECIDING);
    var c := LoseBlock(p, me);
    PlaysOn(a + b, c, me, ENTERING + DECIDING, FORGETTING);
    turns := a + b + c;
  }

  // ---------------------------------------------------------------- the two players that keep the value alive

  const EARLY := [
    Line(ProposalVoteInput(FIRST), None), Line(TimeoutInput(0), Some(Cast(0, SOFT, KEPT))),
    Line(TimeoutInput(0), Some(Cast(0, NEXT, BOTTOM)))]

  /** It soft-votes the proposal it saw and, without a soft quorum, next-votes bottom. */
  method VoteEarly(p: Player, me: Address) returns (turns: seq<Turn>)
    requires Starts(p)
    modifies p
    ensures p.Valid() && Stands(p, 0, NEXT, false, None, map[]) && SawFirst(p.StoreOf(0), true)
    ensures Plays(turns, me, EARLY)
  {
    hide Player.Valid, StoreAfter, StoreInv, StagedIn, BlocksIn, Votes;
    var t := SeeProposal(p, me);
    SawFirstView(p.StoreOf(0), false);
    FreezeTracker(p.StoreOf(0), 0);
    StoreKept(ByProof, p.StoreOf(0), 0, Freeze(0));
    var a1 := Tick(p);
    var a2 := Tick(p);
    turns := [t, Turn(me, TimeoutInput(0), a1), Turn(me, TimeoutInput(0), a2)];
  }

  ghost predicate HasBlock(p: Player)
    reads p
  {
    && p.Valid() && Stands(p, 0, NEXT + 1, false, Some(SOFT0), map[])
    && p.Abs().blocks == {KEPT} && p.Abs().staged == map[0 := KEPT] && p.StoreOf(0).trackers.Keys == {0}
  }

  const LATE_VOTE := [
    Line(VerifiedInput(BlockOf(KEPT)), None), Line(QuorumInput(SOFT0), None), Line(TimeoutInput(0), None),
    Line(TimeoutInput(0), Some(Cast(0, NEXT + 1, KEPT)))]

  /** The block and the soft quorum arrive late: no cert vote, but the following next vote is for the value. */
  method VoteLate(p: Player, me: Address) returns (turns: seq<Turn>)
    requires p.Valid() && Stands(p, 0, NEXT, false, None, map[]) && SawFirst(p.StoreOf(0), true)
    modifies p
    ensures HasBlock(p) && Plays(turns, me, LATE_VOTE)
  {
    hide Player.Valid, StoreAfter, StoreInv, StagedIn, BlocksIn, Votes;
    SawFirstView(p.StoreOf(0), true);
    KeptAssembled(p.StoreOf(0));
    var a0 := Receive(p, KEPT);
    ThresholdKeys(p.StoreOf(0), 0, 0, KEPT);
    var a1 := Hear(p, SOFT0);
    var a2 := Tick(p);
    var a3 := Tick(p);
    turns := [Turn(me, VerifiedInput(BlockOf(KEPT)), a0), Turn(me, QuorumInput(SOFT0), a1),
              Turn(me, TimeoutInput(0), a2), Turn(me, TimeoutInput(0), a3)];
  }

  lemma ThresholdKeys(s: Store, cur: Period, q: Period, x: ProposalValue)
    ensures StoreAfter(ByProof, s, cur, Threshold(q, x)).trackers.Keys == s.trackers.Keys + {q}
  {
  }

  ghost predicate HasRejoined(p: Player)
    reads p
  {
    && p.Valid() && Stands(p, 1, CERT, false, Some(NEXT0_KEPT), map[0 := NextStatus(false, KEPT)])
    && p.Abs().blocks == {KEPT} && p.Abs().staged == map[0 := KEPT] && p.StoreOf(0).trackers.Keys == {0, 1}
  }

  const REJOINING := [Line(QuorumInput(NEXT0_KEPT), None), Line(TimeoutInput(0), Some(Cast(1, SOFT, KEPT)))]

  /** The next quorum for the value leads it to period 1, where it soft-votes the value. */
  method Rejoin(p: Player, me: Address) returns (turns: seq<Turn>)
    requires HasBlock(p)
    modifies p
    ensures HasRejoined(p) && Plays(turns, me, REJOINING)
  {
    hide Player.Valid, StoreAfter, StoreInv, StagedIn, BlocksIn, Votes;
    StoreGood(p);
    ViewNewPeriod(ByProof, p.StoreOf(0), 0, 1, KEPT);
    PeriodTrackers(p.StoreOf(0), 0, 1, KEPT);
    var a0 := Hear(p, NEXT0_KEPT);
    FreezeTracker(p.StoreOf(0), 1);
    var a1 := Tick(p);
    turns := [Turn(me, QuorumInput(NEXT0_KEPT), a0), Turn(me, TimeoutInput(0), a1)];
  }

  lemma PeriodTrackers(s: Store, cur: Period, target: Period, x: ProposalValue)
    ensures StoreAfter(ByProof, s, cur, NewPeriod(target, x)).trackers == s.trackers
  {
  }

  lemma StoreGood(p: Player)
    requires p.Valid()
    ensures StoreInv(p.StoreOf(p.round))
  {
    p.StoreOk(p.round);
  }

  /** The soft quorum of period 1 finds it with the block: it cert-votes. */
  method VoteCert(p: Player, me: Address) returns (turns: seq<Turn>)
    requires HasRejoined(p)
    modifies p
    ensures Concludable(p, CERT1) && Plays(turns, me, DECIDING)
  {
    hide Player.Valid, StoreAfter, StoreInv, StagedIn, BlocksIn, Votes;
    var a := Hear(p, SOFT1);
    turns := [Turn(me, QuorumInput(SOFT1), a)];
  }

  const GIVING_UP := [Line(QuorumInput(NEXT0_BOTTOM), None), Line(TimeoutInput(0), Some(Cast(1, NEXT, BOTTOM)))]

  /** Without the soft quorum of period 1 it learns that bottom had a next quorum too, and next-votes bottom. */
  method GiveUp(p: Player, me: Address) returns (turns: seq<Turn>)
    requires HasRejoined(p)
    modifies p
    ensures HasNextVoted(p, NEXT0_BOTTOM, NextStatus(true, KEPT)) && Plays(turns, me, GIVING_UP)
  {
    hide Player.Valid, StoreAfter, StoreInv, StagedIn, BlocksIn, Votes;
    var a0 := Hear(p, NEXT0_BOTTOM);
    var a1 := Tick(p);
    turns := [Turn(me, QuorumInput(NEXT0_BOTTOM), a0), Turn(me, TimeoutInput(0), a1)];
  }

  // ---------------------------------------------------------------- the next period decides anew

  /** It has soft-voted the other block in period 2, and waits for it. */
  ghost predicate HasRetried(p: Player)
    reads p
  {
    && p.Valid() && Stands(p, 2, CERT, false, Some(NEXT1_BOTTOM), p.CachedOf(0))
    && OTHER in p.StoreOf(0).Tracked() && !p.StoreOf(0).Holds(OTHER) && p.StoreOf(0).Staged(2) == BOTTOM
  }

  const RETRYING := [
    Line(QuorumInput(NEXT1_BOTTOM), None), Line(ProposalVoteInput(SECOND), None),
    Line(TimeoutInput(0), Some(Cast(2, SOFT, OTHER)))]

  /** The next quorum for bottom leads to period 2, where another block is proposed and soft-voted. */
  method Retry(p: Player, me: Address, ghost f: ThresholdEvent, ghost c: NextStatus) returns (turns: seq<Turn>)
    requires HasNextVoted(p, f, c) && (f == SOFT1 || f == NEXT0_BOTTOM)
    modifies p
    ensures HasRetried(p) && Plays(turns, me, RETRYING)
  {
    hide HasNextVoted, HasRetried, Player.Valid, Stands, Player.Abs, Votes, VoteSeq;
    var t := MoveOn(p, me, f, c);
    var more := SoftVoteOther(p, me, map[0 := c, 1 := NextStatus(true, BOTTOM)]);
    turns := [t] + more;
  }

  method MoveOn(p: Player, me: Address, ghost f: ThresholdEvent, ghost c: NextStatus) returns (t: Turn)
    requires HasNextVoted(p, f, c) && (f == SOFT1 || f == NEXT0_BOTTOM)
    modifies p
    ensures p.Valid() && Stands(p, 2, SOFT, false, Some(NEXT1_BOTTOM), map[0 := c, 1 := NextStatus(true, BOTTOM)])
    ensures OTHER !in p.Abs().blocks && p.StoreOf(0).TrackerAt(2) == ZERO_TRACKER
    ensures Says(t, me, Line(QuorumInput(NEXT1_BOTTOM), None))
  {
    hide Player.Valid, StoreAfter, StagedIn, BlocksIn, Votes;
    PeriodTrackers(p.StoreOf(0), 1, 2, BOTTOM);
    var a := Hear(p, NEXT1_BOTTOM);
    t := Turn(me, QuorumInput(NEXT1_BOTTOM), a);
  }

  method SoftVoteOther(p: Player, me: Address, ghost cached: map<Period, NextStatus>) returns (turns: seq<Turn>)
    requires p.Valid() && Stands(p, 2, SOFT, false, Some(NEXT1_BOTTOM), cached)
    requires NodeProtocol.Before(cached, 2) == NextStatus(true, BOTTOM)
    requires OTHER !in p.Abs().blocks && p.StoreOf(0).TrackerAt(2) == ZERO_TRACKER
    modifies p
    ensures HasRetried(p) && Plays(turns, me, RETRYING[1..])
  {
    hide Player.Valid, StoreAfter, StoreInv, StagedIn, BlocksIn, Votes;
    StoreGood(p);
    SecondVote(p.StoreOf(0));
    var a1 := Offer(p, SECOND);
    FreezeTracker(p.StoreOf(0), 2);
    NoVote(0);
    var a2 := Tick(p);
    turns := [Turn(me, ProposalVoteInput(SECOND), a1), Turn(me, TimeoutInput(0), a2)];
  }

  lemma SecondVote(s: Store)
    requires StoreInv(s) && s.TrackerAt(2) == ZERO_TRACKER && OTHER !in BlocksIn(s)
    ensures var s' := StoreAfter(ByProof, s, 2, VoteVerified(SECOND));
            && OTHER in s'.Tracked() && !s'.Holds(OTHER)
            && s'.TrackerAt(2) == Tracker({1}, Some(SECOND), false, BOTTOM)
  {
    AcceptedVote(ByProof, s, 2, SECOND);
    var s' := StoreAfter(ByProof, s, 2, VoteVerified(SECOND));
    assert s'.relevant[2] == OTHER;
    TrackedIff(s', OTHER);
    BlocksShrink(ByProof, s, 2, VoteVerified(SECOND));
    BlockIff(s', OTHER);
  }

  const SETTLING := [Line(VerifiedInput(BlockOf(OTHER)), None), Line(QuorumInput(SOFT2), Some(Cast(2, CERT, OTHER)))]

  /** The other block arrives, and its soft quorum: it cert-votes. */
  method Settle(p: Player, me: Address) returns (turns: seq<Turn>)
    requires HasRetried(p)
    modifies p
    ensures Concludable(p, CERT2) && Plays(turns, me, SETTLING)
  {
    hide Player.Valid, StoreAfter, StoreInv, StagedIn, BlocksIn, Votes, Store.Tracked, Store.Holds;
    var a0 := Receive(p, OTHER);
    var a1 := Hear(p, SOFT2);
    turns := [Turn(me, VerifiedInput(BlockOf(OTHER)), a0), Turn(me, QuorumInput(SOFT2), a1)];
  }

  // ---------------------------------------------------------------- the run of all three

  /** Player `n` made this attestation of round 0. */
  ghost predicate Attested(record: seq<Turn>, n: Address, c: Cast) {
    exists t :: t in record && t.me == n && Attest(0, c.period, c.step, c.value) in t.actions
  }

  ghost function VotesIn(record: seq<Turn>): set<NetVote> {
    set t, a | t in record && a in t.actions && a.Attest? && a.round == 0 ::
      NetVote(t.me, Cast(a.period, a.step, a.value))
  }

  /** The attestations made so far bear out this quorum. */
  ghost predicate Supported(record: seq<Turn>, e: ThresholdEvent) {
    && e == QuorumOf(e.period, e.step, e.proposal)
    && Cast(e.period, e.step, e.proposal) in Visible(NetworkExample.Three(), VotesIn(record))
  }

  /** Every quorum given is of attestations made before. */
  ghost predicate Genuine(record: seq<Turn>) {
    forall k :: 0 <= k < |record| && record[k].i.QuorumInput? ==> Supported(record[..k], record[k].i.e)
  }

  /** Player `n` ensured the block of this value for round 0. */
  ghost predicate HasEnsured(record: seq<Turn>, n: Address, x: ProposalValue) {
    exists t, a :: t in record && t.me == n && a in t.actions && Certifies(a, 0) && a.payload.value == x
  }

  lemma AttestedIn(record: seq<Turn>, more: seq<Turn>, n: Address, c: Cast)
    requires Attested(record, n, c) && forall t :: t in record ==> t in more
    ensures Attested(more, n, c)
  {
  }

  lemma EnsuredIn(record: seq<Turn>, more: seq<Turn>, n: Address, x: ProposalValue)
    requires HasEnsured(record, n, x)
    ensures HasEnsured(record + more, n, x)
  {
    var t, a :| t in record && t.me == n && a in t.actions && Certifies(a, 0) && a.payload.value == x;
    assert t in record + more;
  }

  lemma SupportedIn(record: seq<Turn>, more: seq<Turn>, e: ThresholdEvent)
    requires Supported(record, e) && forall t :: t in record ==> t in more
    ensures Supported(more, e)
  {
    hide Visible;
    VisibleGrows(NetworkExample.Three(), VotesIn(record), VotesIn(more), Cast(e.period, e.step, e.proposal));
  }

  /** Any two of the three players are a quorum. */
  lemma TwoSupport(record: seq<Turn>, m: Address, n: Address, e: ThresholdEvent)
    requires m != n && {m, n} <= {1, 2, 3} && e == QuorumOf(e.period, e.step, e.proposal) && e.step != PROPOSE
    requires Attested(record, m, Cast(e.period, e.step, e.proposal))
    requires Attested(record, n, Cast(e.period, e.step, e.proposal))
    ensures Supported(record, e)
  {
    hide Visible;
    var c := Cast(e.period, e.step, e.proposal);
    VoteIn(record, m, c);
    VoteIn(record, n, c);
    NetworkExample.PairQuorum(VotesIn(record), m, n, c);
  }

  lemma VoteIn(record: seq<Turn>, n: Address, c: Cast)
    requires Attested(record, n, c)
    ensures NetVote(n, c) in VotesIn(record)
  {
    var t :| t in record && t.me == n && Attest(0, c.period, c.step, c.value) in t.actions;
    var a := Attest(0, c.period, c.step, c.value);
    assert a in t.actions && NetVote(t.me, Cast(a.period, a.step, a.value)) == NetVote(n, c);
  }

  /** The quorums of a script are of attestations already made. */
  ghost predicate Ready(record: seq<Turn>, script: seq<Line>) {
    forall k :: 0 <= k < |script| && script[k].i.QuorumInput? ==> Supported(record, script[k].i.e)
  }

  lemma GoOn(record: seq<Turn>, turns: seq<Turn>, me: Address, script: seq<Line>)
    requires Genuine(record) && Plays(turns, me, script) && Ready(record, script)
    ensures Genuine(record + turns)
    ensures forall k :: 0 <= k < |script| && script[k].vote.Some? ==> Attested(record + turns, me, script[k].vote.value)
    ensures forall n, c :: Attested(record, n, c) ==> Attested(record + turns, n, c)
  {
    hide Supported, Votes;
    var longer := record + turns;
    forall k | 0 <= k < |longer| && longer[k].i.QuorumInput? ensures Supported(longer[..k], longer[k].i.e) {
      if k < |record| {
        assert longer[..k] == record[..k];
      } else {
        assert Says(turns[k - |record|], me, script[k - |record|]);
        assert longer[..|record|] == record;
        SupportedIn(record, longer[..k], longer[k].i.e);
      }
    }
    forall k | 0 <= k < |script| && script[k].vote.Some? ensures Attested(longer, me, script[k].vote.value) {
      assert Says(turns[k], me, script[k]);
      var c := script[k].vote.value;
      EnsuresHas(turns[k].actions, Attest(0, c.period, c.step, c.value));
      assert longer[|record| + k] == turns[k];
    }
    forall n, c | Attested(record, n, c) ensures Attested(longer, n, c) {
      AttestedIn(record, longer, n, c);
    }
  }

  /** Players 1 and 3 vote early for bottom and late for the value. */
  method Opening(a: Player, c: Player) returns (record: seq<Turn>)
    requires Starts(a) && Starts(c) && a != c
    modifies a, c
    ensures Genuine(record)
    ensures Attested(record, 1, Cast(0, NEXT, BOTTOM)) && Attested(record, 3, Cast(0, NEXT, BOTTOM))
    ensures Attested(record, 1, Cast(0, NEXT + 1, KEPT)) && Attested(record, 3, Cast(0, NEXT + 1, KEPT))
    ensures HasBlock(a) && HasBlock(c)
  {
    hide Plays, Genuine, Attested, Supported, Player.Valid, Stands, SawFirst, HasBlock;
    record := Empty();
    var t := VoteEarly(a, 1);
    GoOn(record, t, 1, EARLY);
    record := record + t;
    assert Attested(record, 1, EARLY[1].vote.value) && Attested(record, 1, EARLY[2].vote.value);
    t := VoteEarly(c, 3);
    GoOn(record, t, 3, EARLY);
    record := record + t;
    assert Attested(record, 3, EARLY[1].vote.value) && Attested(record, 3, EARLY[2].vote.value);
    TwoSupport(record, 1, 3, SOFT0);
    t := VoteLate(a, 1);
    GoOn(record, t, 1, LATE_VOTE);
    record := record + t;
    assert Attested(record, 1, LATE_VOTE[3].vote.value);
    TwoSupport(record, 1, 3, SOFT0);
    t := VoteLate(c, 3);
    GoOn(record, t, 3, LATE_VOTE);
    record := record + t;
    assert Attested(record, 3, LATE_VOTE[3].vote.value);
  }

  method Empty() returns (record: seq<Turn>)
    ensures record == [] && Genuine(record)
  {
    record := [];
  }

  /** A cert quorum whose block the player holds. */
  method Conclude(p: Player, me: Address, e: ThresholdEvent, before: seq<Turn>) returns (record: seq<Turn>)
    requires Concludable(p, e) && Genuine(before) && Supported(before, e)
    modifies p
    ensures p.round == 1 && Genuine(record) && HasEnsured(record, me, e.proposal)
    ensures forall n, x :: HasEnsured(before, n, x) ==> HasEnsured(record, n, x)
    ensures forall n, c :: Attested(before, n, c) ==> Attested(record, n, c)
  {
    hide Genuine, Attested, Supported, Concludable, Votes, Ensures;
    var actions := Certify(p, e);
    var t := Turn(me, QuorumInput(e), actions);
    GoOn(before, [t], me, [Line(QuorumInput(e), None)]);
    record := before + [t];
    EnsuresHas(actions, Ensures(actions)[0]);
    assert t in record && Ensures(actions)[0] in t.actions;
  }

  /** Player 2 enters period 1 on bottom, the others on the value; 1 and 2 cert-vote it, and 1 ensures it. */
  method Decision(a: Player, b: Player, c: Player, before: seq<Turn>) returns (record: seq<Turn>)
    requires a != b && b != c && a != c && Starts(b)
    requires Genuine(before)
    requires Attested(before, 1, Cast(0, NEXT, BOTTOM)) && Attested(before, 3, Cast(0, NEXT, BOTTOM))
    requires Attested(before, 1, Cast(0, NEXT + 1, KEPT)) && Attested(before, 3, Cast(0, NEXT + 1, KEPT))
    requires HasBlock(a) && HasBlock(c)
    modifies a, b, c
    ensures a.round == 1 && Genuine(record) && HasEnsured(record, 1, KEPT)
    ensures Attested(record, 1, Cast(0, NEXT, BOTTOM)) && Attested(record, 3, Cast(0, NEXT, BOTTOM))
    ensures HasCertVoted(b) && HasRejoined(c)
  {
    hide Plays, Genuine, Attested, Supported, Starts, HasEntered, HasCertVoted, HasBlock, HasRejoined, Concludable;
    record := before;
    TwoSupport(record, 1, 3, NEXT0_BOTTOM);
    var t := EnterOnBottom(b, 2);
    GoOn(record, t, 2, ENTERING);
    record := record + t;
    TwoSupport(record, 1, 3, NEXT0_KEPT);
    t := Rejoin(a, 1);
    GoOn(record, t, 1, REJOINING);
    record := record + t;
    assert Attested(record, 1, REJOINING[1].vote.value);
    TwoSupport(record, 1, 3, NEXT0_KEPT);
    t := Rejoin(c, 3);
    GoOn(record, t, 3, REJOINING);
    record := record + t;
    assert Attested(record, 3, REJOINING[1].vote.value);
    TwoSupport(record, 1, 3, SOFT1);
    t := VoteCert(a, 1);
    GoOn(record, t, 1, DECIDING);
    record := record + t;
    assert Attested(record, 1, DECIDING[0].vote.value);
    TwoSupport(record, 1, 3, SOFT1);
    t := CertVote(b, 2);
    GoOn(record, t, 2, DECIDING);
    record := record + t;
    assert Attested(record, 2, DECIDING[0].vote.value);
    TwoSupport(record, 1, 2, CERT1);
    record := Conclude(a, 1, CERT1, record);
  }

  /** Players 2 and 3 next-vote bottom in period 1, start over in period 2 and decide another block. */
  method Reversal(b: Player, c: Player, before: seq<Turn>) returns (record: seq<Turn>)
    requires b != c && Genuine(before) && HasEnsured(before, 1, KEPT)
    requires Attested(before, 1, Cast(0, NEXT, BOTTOM)) && Attested(before, 3, Cast(0, NEXT, BOTTOM))
    requires HasCertVoted(b) && HasRejoined(c)
    modifies b, c
    ensures b.round == 1 && Genuine(record) && HasEnsured(record, 1, KEPT) && HasEnsured(record, 2, OTHER)
  {
    hide Plays, Genuine, Attested, Supported, HasEnsured, HasCertVoted, HasNextVoted, HasRejoined, HasRetried;
    record := before;
    var t := LoseBlock(b, 2);
    GoOn(record, t, 2, FORGETTING);
    EnsuredIn(record, t, 1, KEPT);
    record := record + t;
    assert Attested(record, 2, FORGETTING[2].vote.value);
    TwoSupport(record, 1, 3, NEXT0_BOTTOM);
    t := GiveUp(c, 3);
    GoOn(record, t, 3, GIVING_UP);
    EnsuredIn(record, t, 1, KEPT);
    record := record + t;
    assert Attested(record, 3, GIVING_UP[1].vote.value);
    TwoSupport(record, 2, 3, NEXT1_BOTTOM);
    t := Retry(b, 2, SOFT1, NextStatus(true, BOTTOM));
    GoOn(record, t, 2, RETRYING);
    EnsuredIn(record, t, 1, KEPT);
    record := record + t;
    assert Attested(record, 2, RETRYING[2].vote.value);
    TwoSupport(record, 2, 3, NEXT1_BOTTOM);
    t := Retry(c, 3, NEXT0_BOTTOM, NextStatus(true, KEPT));
    GoOn(record, t, 3, RETRYING);
    EnsuredIn(record, t, 1, KEPT);
    record := record + t;
    assert Attested(record, 3, RETRYING[2].vote.value);
    record := Finish(b, c, record);
  }

  method Finish(b: Player, c: Player, before: seq<Turn>) returns (record: seq<Turn>)
    requires b != c && Genuine(before) && HasEnsured(before, 1, KEPT)
    requires Attested(before, 2, Cast(2, SOFT, OTHER)) && Attested(before, 3, Cast(2, SOFT, OTHER))
    requires HasRetried(b) && HasRetried(c)
    modifies b, c
    ensures b.round == 1 && Genuine(record) && HasEnsured(record, 1, KEPT) && HasEnsured(record, 2, OTHER)
  {
    hide Plays, Genuine, Attested, Supported, HasEnsured, HasRetried, Concludable;
    record := before;
    TwoSupport(record, 2, 3, SOFT2);
    var t := Settle(b, 2);
    GoOn(record, t, 2, SETTLING);
    EnsuredIn(record, t, 1, KEPT);
    record := record + t;
    assert Attested(record, 2, SETTLING[1].vote.value);
    TwoSupport(record, 2, 3, SOFT2);
    t := Settle(c, 3);
    GoOn(record, t, 3, SETTLING);
    EnsuredIn(record, t, 1, KEPT);
    record := record + t;
    assert Attested(record, 3, SETTLING[1].vote.value);
    TwoSupport(record, 2, 3, CERT2);
    record := Conclude(b, 2, CERT2, record);
  }

  /**
   Three fresh honest players end up with two different blocks ensured for round 0: every quorum
   they are given is of attestations made before, and nothing else is out of the ordinary but the
   proposal-vote that costs player 2 its cert-voted block.
   */
  method Fork(a: Player, b: Player, c: Player) returns (record: seq<Turn>)
    requires a != b && b != c && a != c && Starts(a) && Starts(b) && Starts(c)
    modifies a, b, c
    ensures NetworkExample.Three().Sound() && Genuine(record)
    ensures HasEnsured(record, 1, KEPT) && HasEnsured(record, 2, OTHER) && KEPT != OTHER
    ensures a.round == 1 && b.round == 1
  {
    hide Genuine, Attested, HasEnsured, Starts, HasBlock, HasCertVoted, HasRejoined, Population.Sound;
    NetworkExample.ThreeIsSound();
    record := Opening(a, c);
    record := Decision(a, b, c, record);
    record := Reversal(b, c, record);
  }
}
