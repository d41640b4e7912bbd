/**
 What the player tells the rest of the node to do, and what a handler's actions mean in the
 network model: the vote it casts, the block it ensures and the node it becomes.
 */
module PlayerActions {
  import opened AgreementTypes
  import opened VoteTracking
  import opened VotingRules
  import opened NodeProtocol
  import opened ProposalStorage
  import opened PlayerView

  datatype Action =
    | Attest(round: Round, period: Period, step: Step, value: ProposalValue)
    | Assemble(round: Round, period: Period)
    | Repropose(round: Round, period: Period, value: ProposalValue)
    | Rezero(round: Round)
    | Ensure(payload: ProposalStorage.Payload, cert: ThresholdEvent)
    | StageDigest(cert: ThresholdEvent)
    | VerifyPayload(round: Round, up: ProposalStorage.Payload)
    | BroadcastBundle(event: ThresholdEvent)
    | BroadcastPayload(payload: ProposalStorage.Payload)

  /** Where an attestation was made. */
  datatype Place = Place(round: Round, period: Period, step: Step)

  // ---------------------------------------------------------------- votes and ensures among actions

  /** The attestations, in order. */
  function Votes(actions: seq<Action>): seq<Action> {
    if actions == [] then []
    else Votes(actions[..|actions| - 1]) + if actions[|actions| - 1].Attest? then [actions[|actions| - 1]] else []
  }

  /** The ensures, in order. */
  function Ensures(actions: seq<Action>): seq<Action> {
    if actions == [] then []
    else Ensures(actions[..|actions| - 1]) + if actions[|actions| - 1].Ensure? then [actions[|actions| - 1]] else []
  }

  predicate SoftOrNext(s: Step) {
    s == SOFT || NEXT <= s < LATE
  }

  /** Where the soft and next attestations were made, in order. */
  function Places(actions: seq<Action>): seq<Place> {
    if actions == [] then []
    else
      var a := actions[|actions| - 1];
      Places(actions[..|actions| - 1]) +
      if a.Attest? && SoftOrNext(a.step) then [Place(a.round, a.period, a.step)] else []
  }

  lemma {:induction false} VotesJoin(a: seq<Action>, b: seq<Action>)
    ensures Votes(a + b) == Votes(a) + Votes(b)
  {
    if b == [] {
      assert a + b == a;
    } else {
      var n := |b| - 1;
      VotesJoin(a, b[..n]);
      assert (a + b)[..|a + b| - 1] == a + b[..n] && (a + b)[|a + b| - 1] == b[n];
    }
  }

  lemma {:induction false} EnsuresJoin(a: seq<Action>, b: seq<Action>)
    ensures Ensures(a + b) == Ensures(a) + Ensures(b)
  {
    if b == [] {
      assert a + b == a;
    } else {
      var n := |b| - 1;
      EnsuresJoin(a, b[..n]);
      assert (a + b)[..|a + b| - 1] == a + b[..n] && (a + b)[|a + b| - 1] == b[n];
    }
  }

  lemma {:induction false} PlacesJoin(a: seq<Action>, b: seq<Action>)
    ensures Places(a + b) == Places(a) + Places(b)
  {
    if b == [] {
      assert a + b == a;
    } else {
      var n := |b| - 1;
      PlacesJoin(a, b[..n]);
      assert (a + b)[..|a + b| - 1] == a + b[..n] && (a + b)[|a + b| - 1] == b[n];
    }
  }

  lemma Joined(a: seq<Action>, b: seq<Action>)
    ensures Votes(a + b) == Votes(a) + Votes(b) && Ensures(a + b) == Ensures(a) + Ensures(b)
    ensures Places(a + b) == Places(a) + Places(b)
  {
    VotesJoin(a, b);
    EnsuresJoin(a, b);
    PlacesJoin(a, b);
  }

  lemma {:induction false} EnsuresHas(actions: seq<Action>, a: Action)
    ensures a in Ensures(actions) <==> a in actions && a.Ensure?
    ensures a in Votes(actions) <==> a in actions && a.Attest?
  {
    if actions != [] {
      var n := |actions| - 1;
      assert actions == actions[..n] + [actions[n]];
      EnsuresHas(actions[..n], a);
    }
  }

  /** Nothing that votes or ensures. */
  predicate Quiet(actions: seq<Action>) {
    forall a :: a in actions ==> !a.Attest? && !a.Ensure?
  }

  lemma {:induction false} QuietSays(actions: seq<Action>)
    requires Quiet(actions)
    ensures Votes(actions) == [] && Ensures(actions) == [] && Places(actions) == []
  {
    if actions != [] {
      assert forall a :: a in actions[..|actions| - 1] ==> a in actions;
      QuietSays(actions[..|actions| - 1]);
    }
  }

  function VoteSeq(r: Round, vote: Option<Cast>): seq<Action> {
    if vote.None? then [] else [Attest(r, vote.value.period, vote.value.step, vote.value.value)]
  }

  /** Quiet actions around at most one vote. */
  lemma OneVote(before: seq<Action>, r: Round, vote: Option<Cast>, after: seq<Action>)
    requires Quiet(before) && Quiet(after)
    ensures var actions := before + VoteSeq(r, vote) + after;
            Votes(actions) == VoteSeq(r, vote) && Ensures(actions) == [] && Places(actions) == Places(VoteSeq(r, vote))
  {
    QuietSays(before);
    QuietSays(after);
    Joined(before, VoteSeq(r, vote));
    Joined(before + VoteSeq(r, vote), after);
    OnlyVote(r, vote);
  }

  lemma OnlyVote(r: Round, vote: Option<Cast>)
    ensures Votes(VoteSeq(r, vote)) == VoteSeq(r, vote) && Ensures(VoteSeq(r, vote)) == []
    ensures Places(VoteSeq(r, vote)) ==
            if vote.Some? && SoftOrNext(vote.value.step) then [Place(r, vote.value.period, vote.value.step)] else []
  {
    if vote.Some? {
      assert VoteSeq(r, vote)[..0] == [];
    }
  }

  /** One ensure, then quiet actions. */
  lemma OneEnsure(a: Action, rest: seq<Action>)
    requires a.Ensure? && Quiet(rest)
    ensures Votes([a] + rest) == [] && Ensures([a] + rest) == [a] && Places([a] + rest) == []
  {
    assert [a][..0] == [];
    QuietSays(rest);
    Joined([a], rest);
  }

  /** An ensure for round `r`: a cert-step certificate of that round and the payload it names. */
  predicate Certifies(a: Action, r: Round) {
    a.Ensure? && a.cert.round == r && a.cert.kind.CertThreshold? && a.payload.value == a.cert.proposal
  }

  /** Every ensure is certified, for a round being left. */
  ghost predicate Certified(actions: seq<Action>, from: Round, to: Round) {
    forall a :: a in actions && a.Ensure? ==> from <= a.cert.round < to && Certifies(a, a.cert.round)
  }

  /** Every ensure is on the freshest event of its round. */
  ghost predicate OnFreshest(actions: seq<Action>, freshest: map<Round, ThresholdEvent>) {
    forall a :: a in actions && a.Ensure? ==> a.cert.round in freshest && freshest[a.cert.round] == a.cert
  }

  // ---------------------------------------------------------------- when to propose

  /** Nothing that proposes a block. */
  ghost predicate Unproposing(actions: seq<Action>) {
    forall a :: a in actions ==> !a.Assemble? && !a.Repropose?
  }

  /**
   Exactly these proposals for round `r`: a new block if the round starts and, where `e` is a
   next-threshold, in the period after it the value it is for, or a new block if it is for bottom.
   */
  ghost predicate Proposals(actions: seq<Action>, r: Round, e: Option<ThresholdEvent>, starts: bool) {
    && (forall q, p :: Assemble(q, p) in actions <==>
          q == r && ((starts && p == 0) || (e.Some? && Prompts(e.value, p) && e.value.proposal == BOTTOM)))
    && (forall q, p, v :: Repropose(q, p, v) in actions <==>
          q == r && e.Some? && Prompts(e.value, p) && e.value.proposal == v && v != BOTTOM)
  }

  predicate Prompts(e: ThresholdEvent, p: Period) {
    e.kind.NextThreshold? && e.period + 1 == p
  }

  /** Every proposal is of a round that starts, or what the freshest event of its round calls for. */
  ghost predicate ProposesOn(actions: seq<Action>, freshest: map<Round, ThresholdEvent>) {
    && (forall q, p :: Assemble(q, p) in actions ==>
          p == 0 || (q in freshest && Prompts(freshest[q], p) && freshest[q].proposal == BOTTOM))
    && (forall q, p, v :: Repropose(q, p, v) in actions ==>
          q in freshest && Prompts(freshest[q], p) && freshest[q].proposal == v && v != BOTTOM)
  }

  lemma ProposalsAreOn(actions: seq<Action>, r: Round, e: Option<ThresholdEvent>, starts: bool,
                       freshest: map<Round, ThresholdEvent>)
    requires Proposals(actions, r, e, starts) && (e.Some? ==> r in freshest && freshest[r] == e.value)
    ensures ProposesOn(actions, freshest)
  {
  }

  lemma NoProposals(actions: seq<Action>, r: Round)
    requires Unproposing(actions)
    ensures Proposals(actions, r, None, false) && forall f :: ProposesOn(actions, f)
  {
  }

  lemma ProposalsAfter(before: seq<Action>, actions: seq<Action>, r: Round, e: Option<ThresholdEvent>)
    requires Unproposing(before) && Proposals(actions, r, e, false)
    ensures Proposals(before + actions, r, e, false)
  {
  }

  lemma ProposalsOfRound(before: seq<Action>, actions: seq<Action>, r: Round, e: Option<ThresholdEvent>)
    requires Proposals(before, r, None, true) && Proposals(actions, r, e, false)
    ensures Proposals(before + actions, r, e, true)
  {
  }

  // ---------------------------------------------------------------- when to vote

  /** A next quorum for this value was seen in the period before. */
  ghost predicate ValueSeen(cached: map<Period, NextStatus>, period: Period, v: ProposalValue) {
    v != BOTTOM && period > 0 && period - 1 in cached && cached[period - 1].proposal == v
  }

  /** A next quorum for bottom was seen in the period before. */
  ghost predicate BottomSeen(cached: map<Period, NextStatus>, period: Period) {
    period > 0 && period - 1 in cached && cached[period - 1].bottom
  }

  /** The proposal-vote with the lowest credential of the period is for this value. */
  ghost predicate Wins(s: Store, period: Period, v: ProposalValue) {
    && v != BOTTOM && period in s.trackers && s.trackers[period].lowest.Some?
    && s.trackers[period].lowest.value.r.proposal == v
  }

  ghost predicate HasBlock(s: Store, v: ProposalValue) {
    v in s.assemblers && s.assemblers[v].payload.Some?
  }

  ghost predicate StagedAs(s: Store, period: Period, v: ProposalValue) {
    v != BOTTOM && period in s.trackers && s.trackers[period].staging == v
  }

  /** This value is staged in the period and its block assembled. */
  ghost predicate Ready(s: Store, period: Period, v: ProposalValue) {
    StagedAs(s, period, v) && HasBlock(s, v)
  }

  /**
   The starting value, if no bottom was seen before; otherwise the winning proposal, if it is
   original to the period or had a next quorum before, bottom seen or not.
   */
  ghost predicate SoftVoteDue(cached: map<Period, NextStatus>, s: Store, period: Period, v: ProposalValue) {
    if exists u :: ValueSeen(cached, period, u) && !BottomSeen(cached, period) then ValueSeen(cached, period, v)
    else Wins(s, period, v) && (v.originalPeriod >= period || ValueSeen(cached, period, v))
  }

  /** A committable value, else the starting value unless bottom was seen before, else bottom. */
  ghost predicate NextVoteDue(cached: map<Period, NextStatus>, s: Store, period: Period, v: ProposalValue) {
    if exists u :: Ready(s, period, u) then Ready(s, period, v)
    else if exists u :: ValueSeen(cached, period, u) && !BottomSeen(cached, period) then ValueSeen(cached, period, v)
    else v == BOTTOM
  }

  /** The same values, each with its own step of fast recovery. */
  ghost predicate FastVoteDue(cached: map<Period, NextStatus>, s: Store, period: Period, step: Step, v: ProposalValue) {
    if exists u :: Ready(s, period, u) then step == LATE && Ready(s, period, v)
    else if exists u :: ValueSeen(cached, period, u) && !BottomSeen(cached, period)
    then step == REDO && ValueSeen(cached, period, v)
    else step == DOWN && v == BOTTOM
  }

  /** Every attestation is of this round and period. */
  ghost predicate AttestsAt(actions: seq<Action>, r: Round, period: Period) {
    forall a :: a in actions && a.Attest? ==> a.round == r && a.period == period
  }

  ghost predicate SoftVoted(actions: seq<Action>, r: Round, cached: map<Period, NextStatus>, s: Store, period: Period) {
    && AttestsAt(actions, r, period)
    && forall step, v :: Attest(r, period, step, v) in actions <==> step == SOFT && SoftVoteDue(cached, s, period, v)
  }

  ghost predicate NextVoted(actions: seq<Action>, r: Round, cached: map<Period, NextStatus>, s: Store, period: Period,
                            cur: Step)
  {
    && AttestsAt(actions, r, period)
    && forall step, v :: Attest(r, period, step, v) in actions <==> step == cur && NextVoteDue(cached, s, period, v)
  }

  ghost predicate FastVoted(actions: seq<Action>, r: Round, cached: map<Period, NextStatus>, s: Store, period: Period) {
    && AttestsAt(actions, r, period)
    && forall step, v :: Attest(r, period, step, v) in actions <==> FastVoteDue(cached, s, period, step, v)
  }

  /** A cert vote for this value if it is due, and no other vote. */
  ghost predicate CertVotedIf(actions: seq<Action>, r: Round, period: Period, v: ProposalValue, due: bool) {
    forall a :: a in actions && a.Attest? <==> due && a == Attest(r, period, CERT, v)
  }

  lemma VotesAre(actions: seq<Action>, r: Round, vote: Option<Cast>)
    requires Votes(actions) == VoteSeq(r, vote)
    ensures forall a :: a in actions && a.Attest? <==>
              vote.Some? && a == Attest(r, vote.value.period, vote.value.step, vote.value.value)
  {
    hide Votes;
    forall a ensures a in actions && a.Attest? <==> a in VoteSeq(r, vote) {
      EnsuresHas(actions, a);
    }
  }

  /** The soft rule is what is due. */
  lemma SoftIsDue(cached: map<Period, NextStatus>, s: Store, period: Period, v: ProposalValue)
    ensures SoftVoteDue(cached, s, period, v) <==>
            SoftChoice(period, FrozenValue(s.TrackerAt(period)), Before(cached, period)) == Some(v)
  {
    if u :| ValueSeen(cached, period, u) && !BottomSeen(cached, period) {
      assert Before(cached, period).proposal == u;
    } else if period > 0 && period - 1 in cached {
      assert !ValueSeen(cached, period, cached[period - 1].proposal) || BottomSeen(cached, period);
    }
  }

  /** The next rule is what is due. */
  lemma NextIsDue(cached: map<Period, NextStatus>, s: Store, period: Period, v: ProposalValue)
    requires StoreInv(s)
    ensures NextVoteDue(cached, s, period, v) <==> NextChoice(CommittableIn(s, period), Before(cached, period)) == v
  {
    ReadyIs(s, period);
    SeenIs(cached, period);
  }

  lemma FastIsDue(cached: map<Period, NextStatus>, s: Store, period: Period, step: Step, v: ProposalValue)
    requires StoreInv(s)
    ensures FastVoteDue(cached, s, period, step, v) <==>
            FastChoice(CommittableIn(s, period), Before(cached, period)) == (step, v)
  {
    ReadyIs(s, period);
    SeenIs(cached, period);
  }

  lemma ReadyIs(s: Store, period: Period)
    requires StoreInv(s)
    ensures forall v :: Ready(s, period, v) <==> CommittableIn(s, period) == Some(v)
    ensures (exists u :: Ready(s, period, u)) <==> CommittableIn(s, period).Some?
    ensures CommittableIn(s, period) != Some(BOTTOM)
  {
    if CommittableIn(s, period).Some? {
      assert Ready(s, period, CommittableIn(s, period).value);
    }
  }

  lemma SeenIs(cached: map<Period, NextStatus>, period: Period)
    ensures forall v :: ValueSeen(cached, period, v) <==> v != BOTTOM && Before(cached, period).proposal == v
    ensures BottomSeen(cached, period) <==> Before(cached, period).bottom
    ensures (exists u :: ValueSeen(cached, period, u)) <==> Before(cached, period).proposal != BOTTOM
  {
    if Before(cached, period).proposal != BOTTOM {
      assert ValueSeen(cached, period, Before(cached, period).proposal);
    }
  }

  lemma SoftSays(actions: seq<Action>, r: Round, cached: map<Period, NextStatus>, s: Store, period: Period)
    requires var c := SoftChoice(period, FrozenValue(s.TrackerAt(period)), Before(cached, period));
             actions == VoteSeq(r, if c.None? then None else Some(Cast(period, SOFT, c.value)))
    ensures SoftVoted(actions, r, cached, s, period) && Unproposing(actions)
  {
    hide SoftChoice, SoftVoteDue;
    forall v ensures Attest(r, period, SOFT, v) in actions <==> SoftVoteDue(cached, s, period, v) {
      SoftIsDue(cached, s, period, v);
    }
  }

  lemma NextSays(actions: seq<Action>, r: Round, cached: map<Period, NextStatus>, s: Store, period: Period, cur: Step)
    requires StoreInv(s)
    requires var v := NextChoice(CommittableIn(s, period), Before(cached, period));
             Votes(actions) == VoteSeq(r, Some(Cast(period, cur, v)))
    ensures NextVoted(actions, r, cached, s, period, cur)
  {
    hide Votes, NextChoice, CommittableIn, NextVoteDue, StoreInv;
    VotesAre(actions, r, Some(Cast(period, cur, NextChoice(CommittableIn(s, period), Before(cached, period)))));
    forall v ensures Attest(r, period, cur, v) in actions <==> NextVoteDue(cached, s, period, v) {
      NextIsDue(cached, s, period, v);
    }
  }

  lemma FastSaysWhich(actions: seq<Action>, r: Round, cached: map<Period, NextStatus>, s: Store, period: Period)
    requires StoreInv(s)
    requires var (step, v) := FastChoice(CommittableIn(s, period), Before(cached, period));
             Votes(actions) == VoteSeq(r, Some(Cast(period, step, v)))
    ensures FastVoted(actions, r, cached, s, period)
  {
    hide Votes, FastChoice, CommittableIn, FastVoteDue, StoreInv;
    var c := FastChoice(CommittableIn(s, period), Before(cached, period));
    VotesAre(actions, r, Some(Cast(period, c.0, c.1)));
    forall step, v ensures Attest(r, period, step, v) in actions <==> FastVoteDue(cached, s, period, step, v) {
      FastIsDue(cached, s, period, step, v);
    }
  }

  lemma BlocksAre(s: Store, v: ProposalValue)
    ensures HasBlock(s, v) <==> v in BlocksIn(s)
  {
  }

  // ---------------------------------------------------------------- certified ensures

  lemma CertifiedOnes(actions: seq<Action>, from: Round, to: Round)
    requires forall a :: a in Ensures(actions) ==> Certifies(a, from)
    requires Ensures(actions) != [] ==> from < to
    ensures Certified(actions, from, to)
  {
    forall a | a in actions && a.Ensure? ensures from <= a.cert.round < to && Certifies(a, a.cert.round) {
      EnsuresHas(actions, a);
    }
  }

  // ---------------------------------------------------------------- the player in the network model

  /** What the network sees of a player: its node, and what waits for the rounds ahead. */
  datatype Snap = Snap(
    round: Round, node: Node, freshest: map<Round, ThresholdEvent>, cached: map<Round, map<Period, NextStatus>>)

  function CachedIn(cached: map<Round, map<Period, NextStatus>>, r: Round): map<Period, NextStatus> {
    if r in cached then cached[r] else map[]
  }

  /** The node of a round not entered yet: fresh, but for the next-thresholds cached early. */
  function Future(cached: map<Round, map<Period, NextStatus>>, r: Round): Node {
    FRESH_NODE.(cached := CachedIn(cached, r))
  }

  /** The event the network model sees for a threshold. */
  function Seen(e: ThresholdEvent, freshest: bool): Event {
    match e.kind
    case SoftThreshold => SeeSoft(e.period, e.proposal)
    case CertThreshold => SeeCert(e.period, e.proposal)
    case NextThreshold => SeeNext(e.period, e.step, e.proposal, freshest)
  }

  /** Caching a next-threshold again changes nothing. */
  ghost predicate Remembered(cached: map<Period, NextStatus>, e: ThresholdEvent) {
    e.kind.NextThreshold? ==>
      e.period in cached && Cache(cached[e.period], e.proposal) == cached[e.period]
  }

  /** A next-threshold left its mark in its period's cache. */
  ghost predicate Noted(cached: map<Period, NextStatus>, e: ThresholdEvent) {
    e.kind.NextThreshold? ==>
      && e.period in cached
      && if e.proposal == BOTTOM then cached[e.period].bottom else cached[e.period].proposal != BOTTOM
  }

  /** A round just entered: the fresh node, or what it makes of the event that waited there. */
  ghost predicate Entered(b: Snap) {
    var n := Future(b.cached, b.round);
    if b.round !in b.freshest then b.node == n
    else Remembered(n.cached, b.freshest[b.round]) ==> Follows(n, Seen(b.freshest[b.round], true), b.node)
  }

  /**
   The player handled event `e`: it cast the model's vote, and followed it or left with an
   ensure on the freshest event of the round being left.
   */
  ghost predicate Moves(a: Snap, e: Event, b: Snap, actions: seq<Action>) {
    var r := React(a.node, e);
    && Votes(actions) == VoteSeq(a.round, r.vote)
    && if b.round == a.round then Follows(a.node, e, b.node) && r.ensured.None? && Ensures(actions) == []
       else
         && b.round == a.round + 1 && Entered(b) && r.ensured.Some?
         && |Ensures(actions)| == 1 && Certifies(Ensures(actions)[0], a.round)
         && Ensures(actions)[0].payload.value == r.ensured.value
         && a.round in b.freshest && Ensures(actions)[0].cert == b.freshest[a.round]
  }

  lemma StayMoves(a: Snap, e: Event, b: Snap, actions: seq<Action>)
    requires Follows(a.node, e, b.node) && b.round == a.round && React(a.node, e).ensured.None?
    requires Votes(actions) == VoteSeq(a.round, React(a.node, e).vote) && Ensures(actions) == []
    ensures Moves(a, e, b, actions)
  {
  }

  lemma LeaveMoves(a: Snap, e: Event, b: Snap, actions: seq<Action>, pp: ProposalStorage.Payload, cert: ThresholdEvent)
    requires b.round == a.round + 1 && Entered(b) && React(a.node, e).ensured == Some(pp.value)
    requires Votes(actions) == VoteSeq(a.round, React(a.node, e).vote) && Ensures(actions) == [Ensure(pp, cert)]
    requires Certifies(Ensure(pp, cert), a.round) && a.round in b.freshest && b.freshest[a.round] == cert
    ensures Moves(a, e, b, actions)
  {
  }

  lemma MovesSame(a: Snap, a': Snap, e: Event, b: Snap, actions: seq<Action>)
    requires Moves(a', e, b, actions) && a.round == a'.round && React(a.node, e) == React(a'.node, e)
    requires b.round == a.round ==> DropsOnly(a.node, e, b.node)
    ensures Moves(a, e, b, actions)
  {
  }

  // ---------------------------------------------------------------- reactions of the model, case by case

  /** The soft timeout. */
  lemma ModelSoft(n: Node, f: ProposalValue)
    requires n.step == SOFT && n.active
    ensures Follows(n, Timeout(f), n.(step := CERT, atSoft := n.atSoft[n.period := Before(n.cached, n.period)]))
    ensures var c := SoftChoice(n.period, f, Before(n.cached, n.period));
            React(n, Timeout(f)).vote == if c.None? then None else Some(Cast(n.period, SOFT, c.value))
    ensures React(n, Timeout(f)).ensured.None?
  {
  }

  /** The timeouts that cast a next vote. */
  lemma ModelNext(n: Node, f: ProposalValue)
    requires n.active && n.step >= CERT && (n.step == CERT <==> !n.napping)
    ensures var s := if n.step == CERT then NEXT else n.step;
            && Follows(n, Timeout(f), n.(step := s, napping := false))
            && React(n, Timeout(f)).vote ==
               Some(Cast(n.period, s, NextChoice(n.Committable(), Before(n.cached, n.period))))
            && React(n, Timeout(f)).ensured.None?
  {
  }

  /** The timeout that enters a next step. */
  lemma ModelNap(n: Node, f: ProposalValue)
    requires n.active && n.step >= NEXT && !n.napping
    ensures Follows(n, Timeout(f), n.(step := n.step + 1, napping := true))
    ensures React(n, Timeout(f)).vote.None? && React(n, Timeout(f)).ensured.None?
  {
  }

  /** A soft-threshold in the current period. */
  lemma ModelStage(n: Node, n': Node, x: ProposalValue)
    requires n.active && n'.blocks <= n.blocks && n' == n.(staged := n.staged[n.period := x], blocks := n'.blocks)
    requires x in n.blocks ==> x in n'.blocks
    ensures Follows(n, SeeSoft(n.period, x), n')
    ensures React(n, SeeSoft(n.period, x)).vote ==
            if x in n.blocks && n.step <= CERT then Some(Cast(n.period, CERT, x)) else None
    ensures React(n, SeeSoft(n.period, x)).ensured.None?
  {
  }

  /** A threshold that leads to a later period. */
  lemma ModelEnter(n: Node, n': Node, e: ThresholdEvent)
    requires n.active && n'.blocks <= n.blocks && n.period <= e.period
    requires !e.kind.NextThreshold? ==> n.period < e.period
    requires e.kind.CertThreshold? ==> e.proposal !in n.blocks
    requires e.proposal in n.blocks ==> e.proposal in n'.blocks
    requires var m := n.Enter(if e.kind.NextThreshold? then e.period + 1 else e.period);
             n' == m.(staged := if e.kind.NextThreshold? then m.staged else m.staged[e.period := e.proposal],
                      blocks := n'.blocks)
    ensures Remembered(n.cached, e) ==> Follows(n, Seen(e, true), n')
    ensures React(n, Seen(e, true)).vote ==
            if e.kind.SoftThreshold? && e.proposal in n.blocks then Some(Cast(e.period, CERT, e.proposal)) else None
    ensures React(n, Seen(e, true)).ensured.None?
  {
    if e.kind.NextThreshold? && Remembered(n.cached, e) {
      assert n.cached[e.period := Cache(Look(n.cached, e.period), e.proposal)] == n.cached;
    }
  }

  /** A threshold that leaves the period: a stale one, or a certificate without its block. */
  lemma ModelStay(n: Node, n': Node, e: ThresholdEvent)
    requires n.active && n'.blocks <= n.blocks
    requires if e.kind.CertThreshold? then n.period >= e.period && e.proposal !in n.blocks else n.period > e.period
    requires n' == if e.kind.CertThreshold?
                   then n.(staged := n.staged[e.period := e.proposal], blocks := n'.blocks) else n
    ensures Remembered(n.cached, e) ==> Follows(n, Seen(e, true), n')
    ensures React(n, Seen(e, true)).vote.None? && React(n, Seen(e, true)).ensured.None?
  {
    if e.kind.NextThreshold? && Remembered(n.cached, e) {
      assert n.cached[e.period := Cache(Look(n.cached, e.period), e.proposal)] == n.cached;
    }
  }

  /** A certificate with its block. */
  lemma ModelCertified(n: Node, q: Period, x: ProposalValue)
    requires n.active && x in n.blocks
    ensures React(n, SeeCert(q, x)).vote.None? && React(n, SeeCert(q, x)).ensured == Some(x)
  {
  }

  lemma ModelPayload(n: Node, n': Node, x: ProposalValue)
    requires n.active && n' == n.(blocks := n.blocks + {x})
    ensures Follows(n, Event.Payload(x, false), n')
    ensures React(n, Event.Payload(x, false)).ensured.None?
    ensures React(n, Event.Payload(x, false)).vote ==
            if n.period in n.staged && n.staged[n.period] == x && n.step <= CERT
            then Some(Cast(n.period, CERT, x)) else None
  {
  }

  lemma ModelLatePayload(n: Node, x: ProposalValue)
    ensures React(n, Event.Payload(x, true)).vote.None? && React(n, Event.Payload(x, true)).ensured == Some(x)
  {
  }

  /** The vote on a threshold is the cert vote that a soft quorum calls for. */
  lemma CertSays(actions: seq<Action>, r: Round, n: Node, e: ThresholdEvent, s: Store)
    requires Votes(actions) == VoteSeq(r, React(n, Seen(e, true)).vote) && n.blocks == BlocksIn(s)
    ensures CertVotedIf(actions, r, e.period, e.proposal,
                        && e.kind.SoftThreshold? && HasBlock(s, e.proposal)
                        && (n.period < e.period || (n.period == e.period && n.step <= CERT)))
  {
    hide Votes, BlocksIn, HasBlock;
    BlocksAre(s, e.proposal);
    VotesAre(actions, r, React(n, Seen(e, true)).vote);
  }

  /** The vote on a payload is the cert vote for a value that waited for its block. */
  lemma PayloadSays(actions: seq<Action>, r: Round, n: Node, x: ProposalValue, s: Store)
    requires Votes(actions) == VoteSeq(r, React(n, Event.Payload(x, false)).vote) && n.staged == StagedIn(s)
    ensures CertVotedIf(actions, r, n.period, x, StagedAs(s, n.period, x) && n.step <= CERT)
  {
    hide Votes;
    VotesAre(actions, r, React(n, Event.Payload(x, false)).vote);
  }

  /** Caching a next-threshold twice is caching it once. */
  lemma CacheOnce(n: Node, e: ThresholdEvent)
    requires e.kind.NextThreshold? && n.active
    ensures var m := n.(cached := n.cached[e.period := Cache(Look(n.cached, e.period), e.proposal)]);
            && Remembered(m.cached, e) && React(n, Seen(e, true)) == React(m, Seen(e, true))
            && Follows(n, Seen(e, false), m)
  {
    var c := n.cached[e.period := Cache(Look(n.cached, e.period), e.proposal)];
    assert c[e.period := Cache(Look(c, e.period), e.proposal)] == c;
  }
}
