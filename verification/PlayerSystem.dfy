/**
 The whole system: honest players with their vote trackers, faulty accounts, and a schedule
 that delivers votes, payloads, proposal-votes and timeouts in any order. Votes reach a player
 through its trackers; what the player attests is there to be delivered.
 */
module PlayerSystem {
  import opened AgreementTypes
  import opened Tally
  import opened Bundles
  import opened BundleGeneration
  import opened Certificates
  import opened HonestMajority
  import opened VoteTracking
  import opened Freshness
  import opened NodeProtocol
  import opened ProposalStorage
  import opened PlayerView
  import opened PlayerActions
  import opened PlayerMachine
  import opened PlayerRuns
  import opened Network
  import opened PlayerNetwork
  import opened PlayerWorld

  /** The tracker of one player for one step. */
  datatype Key = Key(me: Address, round: Round, period: Period, step: Step)

  datatype Did = Did(me: Address, action: Action)

  datatype Delivery =
    | GiveVote(me: Address, v: Vote)
    | FireTimeout(me: Address, entropy: nat)
    | FireFastTimeout(me: Address, known: bool, lambda: Lambda, entropy: nat)
    | Interrupt(me: Address, skipped: nat)
    | GivePayload(me: Address, pp: ProposalStorage.Payload)
    | ShowPayload(me: Address, round: Round, up: ProposalStorage.Payload)
    | GiveProposalVote(me: Address, v: Vote)

  /** The input that a delivery, other than of a vote, is to its player. */
  function InputOf(d: Delivery): Input
    requires !d.GiveVote?
  {
    match d
    case FireTimeout(_, entropy) => TimeoutInput(entropy)
    case FireFastTimeout(_, known, lambda, entropy) => FastTimeoutInput(known, lambda, entropy)
    case Interrupt(_, skipped) => InterruptionInput(skipped)
    case GivePayload(_, pp) => VerifiedInput(pp)
    case ShowPayload(_, r, up) => PresentInput(r, up)
    case GiveProposalVote(_, v) => ProposalVoteInput(v)
  }

  ghost predicate PlayersOk(players: map<Address, Player>, snaps: map<Address, Snap>)
    reads players.Values
  {
    && players.Keys == snaps.Keys
    && (forall n :: n in players ==> players[n].Valid() && players[n].View() == snaps[n])
    && (forall m, n :: m in players && n in players && m != n ==> players[m] != players[n])
  }

  function SettingOf(pops: Round -> Population, vf: Verifier, k: Key): Setting {
    Setting(k.round, k.period, pops(k.round).At(k.step), vf)
  }

  ghost predicate TrackersOk(trackers: map<Key, VoteTracker>, vf: Verifier, w: World)
    reads trackers.Values
  {
    && (forall k :: k in trackers ==> TrackerOk(trackers[k], k, vf, w))
    && (forall j, k :: j in trackers && k in trackers && j != k ==> trackers[j] != trackers[k])
  }

  /** A tracker has only been fed votes that were cast. */
  ghost predicate TrackerOk(t: VoteTracker, k: Key, vf: Verifier, w: World)
    reads t
  {
    && t.Valid() && t.k == SettingOf(w.pops, vf, k)
    && t.seen <= BallotsAt(w.At(k.round).votes, k.period, k.step)
  }

  /** Every ensure on record has a certificate with its proof, and is in its round's network. */
  ghost predicate DidOk(did: seq<Did>, w: World) {
    forall d :: d in did && d.action.Ensure? ==>
      && Certifies(d.action, d.action.cert.round) && Sealed(w, d.action.cert)
      && Ensured(d.me, d.action.payload.value) in w.At(d.action.cert.round).ensured
  }

  function By(me: Address, actions: seq<Action>): seq<Did> {
    seq(|actions|, i requires 0 <= i < |actions| => Did(me, actions[i]))
  }

  function KeyOf(me: Address, v: Vote): Key {
    Key(me, v.r.round, v.r.period, v.r.step)
  }

  function CastOf(v: Vote): NetVote {
    NetVote(v.r.sender, Cast(v.r.period, v.r.step, v.r.proposal))
  }

  function SentAt(sent: map<Round, set<NetVote>>, r: Round): set<NetVote> {
    if r in sent then sent[r] else {}
  }

  ghost predicate SentOk(sent: map<Round, set<NetVote>>, w: World) {
    forall r :: SentAt(sent, r) == w.At(r).votes
  }

  function Sending(sent: map<Round, set<NetVote>>, me: Address, actions: seq<Action>): map<Round, set<NetVote>> {
    map r | r in sent.Keys + (set a | a in actions && a.Attest? :: a.round) :: SentAt(sent, r) + SentBy(me, actions, r)
  }

  lemma SendingOk(sent: map<Round, set<NetVote>>, w: World, w': World, me: Address, actions: seq<Action>)
    requires SentOk(sent, w) && OnRecord(w, w', me, actions)
    ensures SentOk(Sending(sent, me, actions), w')
  {
    forall r ensures SentAt(Sending(sent, me, actions), r) == w'.At(r).votes {
      assert SentAt(sent, r) == w.At(r).votes;
      if r !in Sending(sent, me, actions) {
        assert SentBy(me, actions, r) == {};
      }
    }
  }

  lemma DidGrows(did: seq<Did>, w: World, w': World, me: Address, actions: seq<Action>, from: Round, to: Round)
    requires DidOk(did, w) && OnRecord(w, w', me, actions) && Certified(actions, from, to)
    ensures DidOk(did + By(me, actions), w')
  {
    hide SentBy, EventProven;
    forall d | d in did + By(me, actions) && d.action.Ensure?
      ensures Certifies(d.action, d.action.cert.round) && Sealed(w', d.action.cert)
      ensures Ensured(d.me, d.action.payload.value) in w'.At(d.action.cert.round).ensured
    {
      var r := d.action.cert.round;
      if d in did {
        assert w.At(r).ensured <= w'.At(r).ensured;
      } else {
        assert d.action in actions;
      }
    }
  }

  /** Votes only accumulate, so trackers stay fed with votes that were cast. */
  lemma TrackersGrow(trackers: map<Key, VoteTracker>, vf: Verifier, w: World, w': World)
    requires TrackersOk(trackers, vf, w) && w'.pops == w.pops && forall r :: w.At(r).votes <= w'.At(r).votes
    ensures TrackersOk(trackers, vf, w')
  {
    forall k | k in trackers ensures TrackerOk(trackers[k], k, vf, w') {
      assert w.At(k.round).votes <= w'.At(k.round).votes;
      BallotsSubset(w.At(k.round).votes, w'.At(k.round).votes, k.period, k.step);
    }
  }

  lemma BallotsSubset(a: set<NetVote>, b: set<NetVote>, q: Period, s: Step)
    requires a <= b
    ensures BallotsAt(a, q, s) <= BallotsAt(b, q, s)
  {
  }

  /** No part of the votes of a step makes a tracker panic. */
  lemma PartIsSafe(w: World, k: Key, part: set<Ballot>)
    requires WorldOk(w) && part <= BallotsAt(w.At(k.round).votes, k.period, k.step)
    ensures Safe(w.pops(k.round).At(k.step), part)
  {
    hide Population.Sound, IsRun, Safe, BallotsAt;
    assert w.pops(k.round).Sound() && Reached(w.pops(k.round), w.At(k.round));
    var run :| RunTo(w.pops(k.round), run, w.At(k.round));
    RunNotEmpty(w.pops(k.round), run);
    TrackersStaySafe(w.pops(k.round), run, |run| - 1, k.period, k.step, part);
  }

  lemma SettingProper(w: World, vf: Verifier, k: Key)
    requires PopsOk(w)
    ensures SettingOf(w.pops, vf, k).Proper()
  {
    assert w.pops(k.round).Sound();
  }

  // ---------------------------------------------------------------- handlers as steps of the world

  /** Nothing but the node of the player moved. */
  ghost predicate OnlyNode(a: Snap, b: Snap) {
    b.round == a.round && b.freshest == a.freshest && b.cached == a.cached && Proper(b)
  }

  lemma HomeSeen(w: World, me: Address, b: Snap)
    requires WorldOk(w) && me in w.snaps && OnlyNode(w.snaps[me], b) && b.round in b.freshest
    ensures FreshSeen(w, b, b.round)
  {
    hide Visible;
    NodeOf(w, me);
    SeenSame(w, w.snaps[me], b, b.round);
  }

  /** A timeout, ordinary or of fast recovery. */
  lemma TimeoutStep(w: World, me: Address, e: Event, b: Snap, actions: seq<Action>) returns (w': World)
    requires WorldOk(w) && me in w.snaps && OnlyNode(w.snaps[me], b) && Moves(w.snaps[me], e, b, actions)
    requires var n := w.snaps[me].node; (e.Timeout? && n.step + 1 < LATE) || (e.FastTimeout? && n.step >= NEXT)
    ensures Stepped(w, w', me, b, actions)
  {
    hide Visible, MineOf, Moves, WorldOk, FreshSeen;
    NodeOf(w, me);
    if b.round in b.freshest { HomeSeen(w, me, b); }
    w' := StayStep(w, me, e, b, actions);
  }

  /** A certificate waiting for its block is a cert quorum. */
  lemma CertificateSeen(w: World, me: Address)
    requires WorldOk(w) && me in w.snaps
    requires var a := w.snaps[me]; a.round in a.freshest && a.freshest[a.round].kind.CertThreshold?
    ensures var a := w.snaps[me];
            Cast(a.freshest[a.round].period, CERT, a.freshest[a.round].proposal) in
            Visible(w.pops(a.round), w.At(a.round).votes)
  {
    hide Visible, WorldOk, AheadOk, OthersOk, PopsOk, NetsOk, Reached, Population.Sound;
    NodeOf(w, me);
  }

  /** A certificate for the value is waiting for its block. */
  predicate CertificateFirst(a: Snap, x: ProposalValue) {
    a.round in a.freshest && a.freshest[a.round].kind.CertThreshold? && a.freshest[a.round].proposal == x
  }

  /** A verified payload: the player stays, or completes its certificate and leaves. */
  lemma PayloadStep(w: World, me: Address, x: ProposalValue, b: Snap, actions: seq<Action>) returns (w': World)
    requires WorldOk(w) && me in w.snaps && x != BOTTOM && Proper(b)
    requires b.freshest == w.snaps[me].freshest && b.cached == w.snaps[me].cached
    requires var a := w.snaps[me];
             Moves(a, Event.Payload(x, CertificateFirst(a, x)), b, actions)
    ensures Stepped(w, w', me, b, actions)
  {
    hide Visible, MineOf, Moves, WorldOk, Borne;
    NodeOf(w, me);
    var a := w.snaps[me];
    var certified := CertificateFirst(a, x);
    if certified { CertificateSeen(w, me); }
    if b.round == a.round {
      if b.round in b.freshest { HomeSeen(w, me, b); }
      w' := StayStep(w, me, Event.Payload(x, certified), b, actions);
    } else {
      LeavesBehind(a, Event.Payload(x, certified), b, actions);
      w' := LeaveStep(w, me, Event.Payload(x, certified), b, actions);
    }
  }

  lemma LeavesBehind(a: Snap, e: Event, b: Snap, actions: seq<Action>)
    requires Moves(a, e, b, actions) && b.round != a.round
    ensures a.round in b.freshest
  {
  }

  /** The event is fresher than what waits in its round. */
  predicate Outranks(e: ThresholdEvent, a: Snap) {
    if e.round !in a.freshest then true
    else a.freshest[e.round].round == e.round && FresherThan(Some(e), Some(a.freshest[e.round]))
  }

  /** What handling a quorum comes to, for the player's own round or the next. */
  ghost predicate QuorumHandled(a: Snap, e: ThresholdEvent, b: Snap, actions: seq<Action>) {
    var fresher := Outranks(e, a);
    && b.freshest == (if fresher then a.freshest[e.round := e] else a.freshest) && b.cached == WithQuorum(a.cached, e)
    && (e.round == a.round && fresher ==> Moves(a, Seen(e, true), b, actions))
    && (!(e.round == a.round && fresher) ==> actions == [] && b.round == a.round)
    && (e.round == a.round && !fresher ==>
          if e.kind.NextThreshold? then Follows(a.node, Seen(e, false), b.node) else b.node == a.node)
    && (e.round != a.round ==>
          && b.node == a.node
          && (e.kind.NextThreshold? ==> Follows(Future(a.cached, e.round), Seen(e, false), Future(b.cached, e.round))))
    && FreshestOk(b.freshest, b.cached) && Proper(b)
  }

  lemma QuorumStep(w: World, me: Address, e: ThresholdEvent, b: Snap, actions: seq<Action>) returns (w': World)
    requires WorldOk(w) && me in w.snaps && QuorumHandled(w.snaps[me], e, b, actions)
    requires var a := w.snaps[me]; e.round == a.round || e.round == a.round + 1
    requires Borne(w, e)
    ensures Stepped(w, w', me, b, actions)
  {
    hide Visible, MineOf, Moves, WorldOk, Follows, Borne, Enabled, Noted, Reached, Outranks;
    var a := w.snaps[me];
    NodeOf(w, me);
    if e.round != a.round {
      w' := NoteStep(w, me, e, b);
    } else if Outranks(e, a) {
      w' := HomeQuorum(w, me, e, true, b, actions);
    } else if e.kind.NextThreshold? {
      CachedMoves(a, e, b);
      w' := HomeQuorum(w, me, e, false, b, actions);
    } else {
      w' := w;
      assert b == a && w.snaps[me := b] == w.snaps;
      SilenceSays();
      NothingRecorded(w, w, me, []);
    }
  }

  lemma CachedMoves(a: Snap, e: ThresholdEvent, b: Snap)
    requires e.kind.NextThreshold? && b.round == a.round && Follows(a.node, Seen(e, false), b.node)
    ensures Moves(a, Seen(e, false), b, [])
  {
  }

  /** A quorum of the player's own round. */
  lemma HomeQuorum(w: World, me: Address, e: ThresholdEvent, freshest: bool, b: Snap, actions: seq<Action>)
    returns (w': World)
    requires WorldOk(w) && me in w.snaps && Proper(b) && FreshestOk(b.freshest, b.cached)
    requires var a := w.snaps[me];
             && e.round == a.round && Moves(a, Seen(e, freshest), b, actions) && b.cached == WithQuorum(a.cached, e)
             && (b.freshest == a.freshest || b.freshest == a.freshest[e.round := e])
    requires Borne(w, e)
    ensures Stepped(w, w', me, b, actions)
  {
    hide Visible, MineOf, Moves, WorldOk, Follows, Enabled, Noted, AheadOk, OthersOk, PopsOk, NetsOk, Reached,
         Population.Sound, EventSeen, EventProven, FreshSeen;
    var a, g := w.snaps[me], w.At(e.round);
    NodeOf(w, me);
    SeenEnables(w.pops(e.round), g.votes, e.round, e, MineOf(g.votes, me), a.node, freshest);
    if b.round == a.round {
      if b.round in b.freshest { QuorumSeen(w, a, b, e); }
      w' := StayStep(w, me, Seen(e, freshest), b, actions);
    } else {
      LeavesBehind(a, Seen(e, freshest), b, actions);
      QuorumBorne(w, a, b, e);
      w' := LeaveStep(w, me, Seen(e, freshest), b, actions);
    }
  }

  lemma QuorumBorne(w: World, a: Snap, b: Snap, e: ThresholdEvent)
    requires (a.round in a.freshest ==> FreshSeen(w, a, a.round)) && e.round == a.round && Borne(w, e)
    requires (b.freshest == a.freshest || b.freshest == a.freshest[e.round := e]) && a.round in b.freshest
    ensures Borne(w, b.freshest[a.round])
  {
    hide Borne, Noted;
  }

  lemma QuorumSeen(w: World, a: Snap, b: Snap, e: ThresholdEvent)
    requires (a.round in a.freshest ==> FreshSeen(w, a, a.round)) && FreshestOk(b.freshest, b.cached)
    requires e.round == a.round == b.round && Borne(w, e)
    requires (b.freshest == a.freshest || b.freshest == a.freshest[e.round := e]) && b.round in b.freshest
    ensures FreshSeen(w, b, b.round)
  {
    hide Borne, Noted;
  }

  /** Every assembled block among `voted` survives the proposal-vote. */
  predicate KeepsAll(output: Credential -> nat, s: Store, cur: Period, v: Vote, voted: set<ProposalValue>) {
    forall x :: x in voted && s.Holds(x) ==> Retains(output, s, cur, VoteVerified(v), x)
  }

  /** What the condition comes to: the player holds the same of these blocks after the proposal-vote as before. */
  lemma KeepsAllIff(output: Credential -> nat, s: Store, cur: Period, v: Vote, voted: set<ProposalValue>)
    requires StoreInv(s)
    ensures KeepsAll(output, s, cur, v, voted) <==>
            forall x :: x in voted && x in BlocksIn(s) ==> x in BlocksIn(StoreAfter(output, s, cur, VoteVerified(v)))
  {
    hide StoreAfter, StoreInv, BlocksIn, Retains, Store.Holds;
    forall x ensures x in BlocksIn(s) ==>
                       (Retains(output, s, cur, VoteVerified(v), x) <==>
                        x in BlocksIn(StoreAfter(output, s, cur, VoteVerified(v))))
             ensures s.Holds(x) <==> x in BlocksIn(s)
    {
      BlockIff(s, x);
      BlockIff(StoreAfter(output, s, cur, VoteVerified(v)), x);
      if s.Holds(x) { SurvivesIff(output, s, cur, VoteVerified(v), x); }
    }
  }

  lemma NotVoted(output: Credential -> nat, s: Store, s': Store, cur: Period, v: Vote, voted: set<ProposalValue>,
                 x: ProposalValue)
    requires StoreInv(s)
    requires (s' == s || (s' == StoreAfter(output, s, cur, VoteVerified(v)) && KeepsAll(output, s, cur, v, voted)))
    requires x in BlocksIn(s) && x !in BlocksIn(s')
    ensures x !in voted
  {
    BlockIff(s, x);
    BlockIff(s', x);
    if s' != s {
      SurvivesIff(output, s, cur, VoteVerified(v), x);
    }
  }

  /** The values that `me` has cert-voted in a period. */
  function CertValues(votes: set<NetVote>, me: Address, q: Period): set<ProposalValue> {
    set v | v in votes && v.sender == me && v.cast.period == q && v.cast.step == CERT :: v.cast.value
  }

  lemma CertVotedIff(votes: set<NetVote>, me: Address, q: Period, x: ProposalValue)
    ensures NetVote(me, Cast(q, CERT, x)) in votes <==> x in CertValues(votes, me, q)
  {
    if NetVote(me, Cast(q, CERT, x)) in votes {
      assert NetVote(me, Cast(q, CERT, x)).cast.value == x;
    }
  }

  lemma StoreGood(p: Player)
    requires p.Valid()
    ensures StoreInv(p.StoreOf(p.round))
  {
    p.StoreOk(p.round);
  }

  lemma CertifiedNone(r: Round)
    ensures Certified([], r, r)
  {
  }

  lemma StepBelowLate(p: Player)
    requires p.Valid()
    ensures p.step + 1 < LATE
  {
  }

  lemma VotesGrew(w: World, w': World, me: Address, actions: seq<Action>)
    requires OnRecord(w, w', me, actions)
    ensures forall r :: w.At(r).votes <= w'.At(r).votes
  {
    hide SentBy;
  }

  lemma IdleStep(w: World, me: Address) returns (w': World)
    requires WorldOk(w) && me in w.snaps
    ensures Stepped(w, w', me, w.snaps[me], [])
  {
    hide WorldOk;
    w' := w;
    assert w.snaps[me := w.snaps[me]] == w.snaps;
    SilenceSays();
    NothingRecorded(w, w, me, []);
  }

  /** A round interruption. */
  lemma InterruptStep(w: World, me: Address, b: Snap, actions: seq<Action>) returns (w': World)
    requires WorldOk(w) && me in w.snaps && Votes(actions) == [] && Ensures(actions) == []
    requires var a := w.snaps[me];
             b.round > a.round && b.freshest == a.freshest && b.cached == a.cached && Entered(b) && Proper(b)
    ensures Stepped(w, w', me, b, actions)
  {
    hide Votes, Ensures, Entered, NetsOk, PopsOk, OthersOk, AheadOk, HomeOk;
    NodeOf(w, me);
    w' := EnterStep(w, me, w.snaps[me], b, actions);
  }

  // ---------------------------------------------------------------- one player acts

  /** Player `me` of world `w` acted: the world moved on to `next`, and its ensures are certified. */
  ghost predicate Acted(p: Player, me: Address, w: World, next: World, actions: seq<Action>, from: Round)
    reads p
  {
    p.Valid() && Stepped(w, next, me, p.View(), actions) && Certified(actions, from, p.round)
  }

  ghost predicate Playing(p: Player, me: Address, w: World)
    reads p
  {
    p.Valid() && WorldOk(w) && me in w.snaps && p.View() == w.snaps[me]
  }

  method ActTimeout(p: Player, me: Address, entropy: nat, ghost w: World)
    returns (actions: seq<Action>, ghost next: World)
    requires Playing(p, me, w)
    modifies p
    ensures Acted(p, me, w, next, actions, old(p.round)) && Responds(p, TimeoutInput(entropy), actions)
  {
    hide WorldOk, Moves, Player.Valid, Certified, Stepped;
    ghost var f := p.Frozen();
    StepBelowLate(p);
    var ok, done := p.HandleTimeout(entropy);
    actions := done;
    if ok {
      next := TimeoutStep(w, me, Timeout(f), p.View(), actions);
    } else {
      next := IdleStep(w, me);
    }
  }

  /** Votes of fast recovery come only after the deadline, from the first next step on. */
  method ActFastTimeout(p: Player, me: Address, i: Input, ghost w: World)
    returns (actions: seq<Action>, ghost next: World)
    requires Playing(p, me, w) && i.FastTimeoutInput? && (i.known && p.fastDeadline != 0 ==> p.step >= NEXT)
    modifies p
    ensures Acted(p, me, w, next, actions, old(p.round)) && Responds(p, i, actions)
  {
    hide WorldOk, Moves, Player.Valid, Certified, Stepped;
    next := IdleStep(w, me);
    ghost var voting := i.known && p.fastDeadline != 0;
    actions := p.HandleFastTimeout(i.known, i.lambda, i.entropy);
    if voting {
      next := TimeoutStep(w, me, FastTimeout, p.View(), actions);
    }
  }

  method ActInterruption(p: Player, me: Address, skipped: nat, ghost w: World)
    returns (actions: seq<Action>, ghost next: World)
    requires Playing(p, me, w)
    modifies p
    ensures Acted(p, me, w, next, actions, old(p.round)) && Responds(p, InterruptionInput(skipped), actions)
  {
    hide WorldOk, Player.Valid, Certified, Stepped, Entered, Quiet, Votes, Ensures;
    actions := p.HandleRoundInterruption(p.round + 1 + skipped);
    QuietSays(actions);
    next := InterruptStep(w, me, p.View(), actions);
  }

  method ActPayload(p: Player, me: Address, pp: ProposalStorage.Payload, ghost w: World)
    returns (actions: seq<Action>, ghost next: World)
    requires Playing(p, me, w)
    modifies p
    ensures Acted(p, me, w, next, actions, old(p.round)) && Responds(p, VerifiedInput(pp), actions)
  {
    hide WorldOk, Moves, Player.Valid, Certified, Stepped, Store.Holds, Store.Tracked;
    ghost var s := p.StoreOf(p.round);
    actions := p.HandlePayloadVerified(pp);
    if pp.value in s.Tracked() && !s.Holds(pp.value) {
      next := PayloadStep(w, me, pp.value, p.View(), actions);
    } else {
      next := IdleStep(w, me);
    }
  }

  /** A proposal-vote that costs no block among `voted`. */
  method ActProposalVote(p: Player, me: Address, v: Vote, voted: set<ProposalValue>, ghost w: World)
    returns (ghost next: World)
    requires Playing(p, me, w)
    requires forall x :: NetVote(me, Cast(p.period, CERT, x)) in w.At(p.round).votes ==> x in voted
    requires v.r.round == p.round ==> KeepsAll(p.output, p.StoreOf(p.round), p.period, v, voted)
    modifies p
    ensures Acted(p, me, w, next, [], old(p.round)) && Responds(p, ProposalVoteInput(v), [])
  {
    hide WorldOk, Player.Valid, Stepped, StoreAfter, StagedIn, BlocksIn, ProposalFresh, KeepsAll;
    ghost var a, s := p.View(), p.StoreOf(p.round);
    StoreGood(p);
    p.HandleProposalVote(v);
    ghost var b := p.View();
    forall x | x in a.node.blocks - b.node.blocks
      ensures NetVote(me, Cast(a.node.period, CERT, x)) !in w.At(a.round).votes
    {
      NotVoted(p.output, s, p.StoreOf(p.round), a.node.period, v, voted, x);
    }
    next := DropStep(w, me, b);
  }

  /** An unverified payload. */
  method ActPresent(p: Player, me: Address, r: Round, up: ProposalStorage.Payload, ghost w: World)
    returns (ghost next: World)
    requires Playing(p, me, w)
    modifies p
    ensures Acted(p, me, w, next, [], old(p.round)) && Responds(p, PresentInput(r, up), [])
  {
    hide WorldOk, Player.Valid, Stepped, StoreAfter, StagedIn, BlocksIn;
    next := IdleStep(w, me);
    p.HandlePayloadPresent(r, up);
  }

  /** The player takes an input other than a quorum, none that the assumptions exclude. */
  method Act(p: Player, me: Address, i: Input, voted: set<ProposalValue>, ghost w: World)
    returns (actions: seq<Action>, ghost next: World)
    requires Playing(p, me, w) && !i.QuorumInput?
    requires i.FastTimeoutInput? && i.known && p.fastDeadline != 0 ==> p.step >= NEXT
    requires forall x :: NetVote(me, Cast(p.period, CERT, x)) in w.At(p.round).votes ==> x in voted
    requires i.ProposalVoteInput? && i.v.r.round == p.round ==>
               KeepsAll(p.output, p.StoreOf(p.round), p.period, i.v, voted)
    modifies p
    ensures Acted(p, me, w, next, actions, old(p.round)) && Responds(p, i, actions)
  {
    hide Playing, Acted, Responds, KeepsAll;
    actions := [];
    match i
    case TimeoutInput(entropy) => actions, next := ActTimeout(p, me, entropy, w);
    case FastTimeoutInput(_, _, _) => actions, next := ActFastTimeout(p, me, i, w);
    case InterruptionInput(skipped) => actions, next := ActInterruption(p, me, skipped, w);
    case VerifiedInput(pp) => actions, next := ActPayload(p, me, pp, w);
    case PresentInput(r, up) => next := ActPresent(p, me, r, up, w);
    case ProposalVoteInput(v) => next := ActProposalVote(p, me, v, voted, w);
  }

  /** A quorum that the votes cast bear out. */
  method ActQuorum(p: Player, me: Address, e: ThresholdEvent, ghost w: World)
    returns (actions: seq<Action>, ghost next: World)
    requires Playing(p, me, w) && Votable(e) && (e.round == p.round || e.round == p.round + 1)
    requires Borne(w, e)
    modifies p
    ensures Acted(p, me, w, next, actions, old(p.round)) && QuorumHandled(old(p.View()), e, p.View(), actions)
  {
    hide WorldOk, Moves, Certified, Stepped, Borne, Follows, StagedIn, BlocksIn, Seen, LogOk, StoresOk, DeadlineOk,
         PeriodOk;
    assert p.Fresher(e) <==> Outranks(e, p.View());
    hide Outranks, Player.Fresher;
    actions := p.HandleQuorum(e);
    next := QuorumStep(w, me, e, p.View(), actions);
  }

  /** No quorum of a soft or cert step is for bottom. */
  lemma SeenIsVotable(w: World, r: Round, e: ThresholdEvent)
    requires WorldOk(w) && EventSeen(w.pops(r), w.At(r).votes, r, e)
    ensures Votable(e)
  {
    hide Visible, Facts, Population.Sound, Reached, SnapOk, Inv;
    var pop, g, c := w.pops(r), w.At(r), Cast(e.period, e.step, e.proposal);
    assert pop.Sound() && Reached(pop, g);
    ReachedKeeps(pop, g);
    VisibleIsFact(pop, g, c);
    if e.step == CERT {
      CertValue(pop, g, e.period, e.proposal);
    } else if e.step == SOFT {
      SoftValue(pop, g, e.period, e.proposal);
    }
  }

  lemma SoftValue(pop: Population, g: Net, q: Period, v: ProposalValue)
    requires Inv(pop, g) && Cast(q, SOFT, v) in Facts(pop, g.votes)
    ensures v != BOTTOM
  {
    hide Facts;
    var n := Witness(pop, g, Cast(q, SOFT, v));
    assert SoftReason(Facts(pop, g.votes), g.nodes[n].atSoft, Cast(q, SOFT, v));
  }

  // ---------------------------------------------------------------- the system

  class System {
    /** The accounts of each round with their weights, thresholds and who follows the protocol. */
    const pops: Round -> Population
    const vf: Verifier
    const players: map<Address, Player>

    var trackers: map<Key, VoteTracker>
    /** The votes cast in each round, there to be delivered to anyone at any time. */
    var sent: map<Round, set<NetVote>>
    /** Every action of every player so far. */
    var did: seq<Did>

    ghost var w: World

    ghost predicate Valid()
      reads this, players.Values, trackers.Values
    {
      && w.pops == pops && w.vf == vf && PlayersOk(players, w.snaps) && WorldOk(w)
      && SentOk(sent, w) && TrackersOk(trackers, vf, w) && DidOk(did, w)
    }

    /** Fresh players, one per honest account. */
    constructor (pops: Round -> Population, vf: Verifier, players: map<Address, Player>)
      requires forall r :: pops(r).Sound() && pops(r).honest == players.Keys
      requires forall n :: n in players ==>
                players[n].Valid() && players[n].View() == Snap(players[n].round, FRESH_NODE, map[], map[])
      requires forall m, n :: m in players && n in players && m != n ==> players[m] != players[n]
      ensures Valid() && did == [] && sent == map[] && trackers == map[] && this.pops == pops && this.vf == vf
      ensures this.players == players
    {
      hide WorldOk, Player.Valid, Player.View, Population.Sound;
      this.pops, this.vf, this.players := pops, vf, players;
      trackers, sent, did := map[], map[], [];
      ghost var snaps := map n | n in players :: players[n].View();
      w := World(pops, vf, players.Keys, map[], snaps);
      new;
      WorldStarts(pops, vf, players.Keys, snaps);
    }

    /** No two ensures for one round carry different blocks, whoever issued them. */
    lemma EnsuresAgree(c: Did, d: Did)
      requires Valid() && c in did && d in did && c.action.Ensure? && d.action.Ensure?
      requires c.action.cert.round == d.action.cert.round
      ensures c.action.payload.value == d.action.payload.value
    {
      hide WorldOk, PlayersOk, TrackersOk, SentOk;
      EnsuredAgree(w, c.action.cert.round,
                   Ensured(c.me, c.action.payload.value), Ensured(d.me, d.action.payload.value));
    }

    lemma RecordsAgree()
      requires Valid()
      ensures OneBlockPerRound(did)
      ensures AllAuthentic(pops, vf, did)
    {
      hide WorldOk, PlayersOk, TrackersOk, SentOk;
      forall c, d | c in did && d in did && c.action.Ensure? && d.action.Ensure?
                    && c.action.cert.round == d.action.cert.round
        ensures c.action.payload.value == d.action.payload.value
      {
        EnsuresAgree(c, d);
      }
    }

    /** A handler of player `me` is done: its votes are sent and its actions on record. */
    method Commit(me: Address, actions: seq<Action>, ghost next: World, ghost from: Round)
      requires w.pops == pops && w.vf == vf && SentOk(sent, w) && TrackersOk(trackers, vf, w) && DidOk(did, w)
      requires me in players && PlayersOk(players, w.snaps[me := players[me].View()])
      requires Acted(players[me], me, w, next, actions, from)
      modifies this`sent, this`did, this`w
      ensures Valid() && did == old(did) + By(me, actions) && sent == Sending(old(sent), me, actions)
    {
      hide WorldOk, PlayersOk, TrackersOk, SentOk, DidOk, By, SentBy, Sending, Certified;
      SendingOk(sent, w, next, me, actions);
      DidGrows(did, w, next, me, actions, from, players[me].round);
      VotesGrew(w, next, me, actions);
      TrackersGrow(trackers, vf, w, next);
      sent, did, w := Sending(sent, me, actions), did + By(me, actions), next;
    }

    /**
     What the assumptions exclude: a vote of fast recovery before the first next step, and a
     proposal-vote that costs the player a block it has cert-voted in its period.
     */
    predicate Refused(d: Delivery)
      requires d.me in players
      reads this, players[d.me]
    {
      var p := players[d.me];
      || (d.FireFastTimeout? && d.known && p.fastDeadline != 0 && p.step < NEXT)
      || (d.GiveProposalVote? && d.v.r.round == p.round
          && !KeepsAll(p.output, p.StoreOf(p.round), p.period, d.v, CertVoted(d.me)))
    }

    /** Exactly these: a fast-recovery vote at step soft or cert, and a proposal-vote that costs a cert-voted block. */
    lemma RefusedIff(d: Delivery)
      requires Valid() && d.me in players
      ensures var p := players[d.me];
              Refused(d) <==>
              || (d.FireFastTimeout? && d.known && p.fastDeadline > 0 && (p.step == SOFT || p.step == CERT))
              || (d.GiveProposalVote? && d.v.r.round == p.round &&
                  var s := p.StoreOf(p.round);
                  var s' := StoreAfter(p.output, s, p.period, VoteVerified(d.v));
                  exists x :: && NetVote(d.me, Cast(p.period, CERT, x)) in SentAt(sent, p.round)
                              && x in BlocksIn(s) && x !in BlocksIn(s'))
    {
      hide WorldOk, TrackersOk, SentOk, DidOk, KeepsAll, BlocksIn, StoreAfter, StoresOk, FreshestOk, PeriodOk, LogOk;
      var p := players[d.me];
      assert p.Valid();
      StoreGood(p);
      if d.GiveProposalVote? {
        KeepsAllIff(p.output, p.StoreOf(p.round), p.period, d.v, CertVoted(d.me));
      }
    }

    /** Anything but a vote reaches a player, which responds to it. */
    method Reach(d: Delivery) returns (actions: seq<Action>)
      requires Valid() && d.me in players && !d.GiveVote?
      modifies this`sent, this`did, this`w, players[d.me]
      ensures Valid() && did == old(did) + By(d.me, actions) && sent == Sending(old(sent), d.me, actions)
      ensures if old(Refused(d)) then actions == [] && unchanged(players[d.me])
              else Responds(players[d.me], InputOf(d), actions)
    {
      hide WorldOk, TrackersOk, SentOk, DidOk, Player.Valid, Player.View, Certified, Stepped, By, Sending, Responds;
      var p, me := players[d.me], d.me;
      assert Playing(p, me, w);
      ghost var next;
      actions := [];
      if Refused(d) {
        next := IdleStep(w, me);
        CertifiedNone(p.round);
        Commit(me, actions, next, p.round);
        return;
      }
      SentIs(sent, w, p.round);
      actions, next := Act(p, me, InputOf(d), CertVoted(me), w);
      Commit(me, actions, next, old(p.round));
    }

    /** A faulty account casts whatever vote it likes. */
    method Forge(r: Round, v: NetVote)
      requires Valid() && v.sender in pops(r).accounts && v.sender !in players
      modifies this`sent, this`w
      ensures Valid() && v in SentAt(sent, r)
    {
      hide WorldOk, PlayersOk, TrackersOk, DidOk;
      HonestAre(w, players);
      ghost var next := FaultyVote(w, r, v);
      ForgedOk(sent, did, w, next, r, v);
      TrackersGrow(trackers, vf, w, next);
      sent, w := sent[r := SentAt(sent, r) + {v}], next;
    }

    /** The ballots that a player's tracker of a step has been given. */
    ghost function Heard(k: Key): set<Ballot>
      reads this, trackers.Values
    {
      if k in trackers then trackers[k].seen else {}
    }

    /** The tracker of a player's step, created when it is first needed. */
    method TrackerFor(k: Key)
      requires Valid()
      modifies this`trackers
      ensures Valid() && k in trackers
      ensures forall j :: j in old(trackers) ==> j in trackers && trackers[j] == old(trackers)[j]
      ensures forall j :: j in trackers && j !in old(trackers) ==> fresh(trackers[j])
      ensures forall j :: Heard(j) == old(Heard(j))
    {
      hide WorldOk, PlayersOk, SentOk, DidOk, VoteTracker.Valid, Setting.Proper, BallotsAt;
      if k !in trackers {
        KeyProper(w, vf, k);
        var t := new VoteTracker(SettingOf(pops, vf, k));
        trackers := trackers[k := t];
      }
    }

    /** The event that ballot `b` completes at tracker `k`: the first value over quorum. */
    ghost predicate Completes(k: Key, prior: set<Ballot>, b: Ballot, event: Option<ThresholdEvent>) {
      var c := pops(k.round).At(k.step);
      && (event.Some? <==> AnyOver(c, prior + {b}) && !AnyOver(c, prior))
      && (event.Some? ==>
            var e := event.value;
            && e.round == k.round && e.period == k.period && e.step == k.step && e.kind == KindOf(k.step)
            && Over(c, prior + {b}, e.proposal))
    }

    lemma CompletesRound(k: Key, prior: set<Ballot>, b: Ballot, event: Option<ThresholdEvent>)
      requires Completes(k, prior, b, event) && event.Some?
      ensures event.value.round == k.round
    {
    }

    /** A vote that was cast is counted; no tracker ever panics, and an event is borne out by the votes. */
    method Count(k: Key, v: Vote) returns (event: Option<ThresholdEvent>)
      requires Valid() && k in trackers && SettingOf(pops, vf, k).Acceptable(v)
      requires CastOf(v) in SentAt(sent, k.round)
      modifies trackers[k]
      ensures Valid()
      ensures forall j :: Heard(j) == if j == k then old(Heard(j)) + {BallotOf(v)} else old(Heard(j))
      ensures Completes(k, old(Heard(k)), BallotOf(v), event)
      ensures event.Some? ==> Votable(event.value) && Borne(w, event.value)
    {
      hide WorldOk, PlayersOk, DidOk, VoteTracker.Valid, VoteTracker.EventOk, Safe, BallotsAt, Countable;
      var t := trackers[k];
      assert TrackerOk(t, k, vf, w);
      SentIsCast(sent, w, k, vf, v);
      PartIsSafe(w, k, t.seen + {BallotOf(v)});
      var o := t.HandleVote(pops(k.round).proto, v);
      assert !o.Panicked();
      event := None;
      if o.Emitted? {
        event := Some(o.event);
        EventBorneOut(t, k, vf, w, o.event);
        SeenIsVotable(w, k.round, o.event);
      }
    }

    /**
     A vote may reach a player's tracker if it is authentic, of the player's round or the next, and
     from a faulty account or one that its honest sender did cast.
     */
    predicate Deliverable(me: Address, v: Vote)
      requires me in players
      reads this, players[me]
    {
      && (v.r.round == players[me].round || v.r.round == players[me].round + 1)
      && v.r.sender in pops(v.r.round).accounts
      && SettingOf(pops, vf, KeyOf(me, v)).Acceptable(v)
      && (v.r.sender in players ==> CastOf(v) in SentAt(sent, v.r.round))
    }

    /**
     The schedule may deliver every verified vote of an account, weighing what the account does,
     of the player's round or the next: any from a faulty account, from an honest one those it cast.
     */
    lemma DeliverableIff(me: Address, v: Vote)
      requires me in players
      ensures Deliverable(me, v) <==>
              && (v.r.round == players[me].round || v.r.round == players[me].round + 1)
              && v.r.sender in pops(v.r.round).accounts
              && VerifyVote(vf, v.r, v.cred.proof, v.sig) == Some(v)
              && v.cred.weight == pops(v.r.round).weight(v.r.sender) >= 1
              && (v.r.sender !in players ||
                  NetVote(v.r.sender, Cast(v.r.period, v.r.step, v.r.proposal)) in SentAt(sent, v.r.round))
    {
    }

    /** A deliverable vote is counted. */
    method Hear(me: Address, v: Vote) returns (event: Option<ThresholdEvent>)
      requires Valid() && me in players && Deliverable(me, v)
      modifies this`sent, this`w, this`trackers, trackers.Values
      ensures Valid() && (v.r.sender in players ==> sent == old(sent))
      ensures forall j :: Heard(j) == if j == KeyOf(me, v) then old(Heard(j)) + {BallotOf(v)} else old(Heard(j))
      ensures Completes(KeyOf(me, v), old(Heard(KeyOf(me, v))), BallotOf(v), event)
      ensures event.Some? ==> Votable(event.value) && Borne(w, event.value)
      ensures forall j :: j in trackers && trackers[j] !in old(trackers.Values) ==> fresh(trackers[j])
    {
      hide WorldOk, PlayersOk, TrackersOk, SentOk, DidOk, Player.Valid, Borne, Countable, Completes;
      if CastOf(v) !in SentAt(sent, v.r.round) {
        Forge(v.r.round, CastOf(v));
      }
      TrackerFor(KeyOf(me, v));
      event := Count(KeyOf(me, v), v);
    }

    /** The vote is counted, and a quorum it completes is handled. */
    method GiveVote(me: Address, v: Vote) returns (event: Option<ThresholdEvent>, actions: seq<Action>)
      requires Valid() && me in players
      modifies this, players[me], trackers.Values
      ensures Valid() && did == old(did) + By(me, actions)
      ensures forall j :: Heard(j) ==
                          if j == KeyOf(me, v) && old(Deliverable(me, v)) then old(Heard(j)) + {BallotOf(v)}
                          else old(Heard(j))
      ensures if old(Deliverable(me, v)) then Completes(KeyOf(me, v), old(Heard(KeyOf(me, v))), BallotOf(v), event)
              else event.None?
      ensures if event.Some? then QuorumHandled(old(players[me].View()), event.value, players[me].View(), actions)
              else actions == [] && unchanged(players[me])
      ensures v.r.sender in players ==> sent == Sending(old(sent), me, actions)
      ensures forall j :: j in trackers && trackers[j] !in old(trackers.Values) ==> fresh(trackers[j])
    {
      hide WorldOk, PlayersOk, TrackersOk, SentOk, DidOk, Player.Valid, Borne, Countable, Completes, QuorumHandled,
           Sending, By;
      event, actions := None, [];
      NothingSent(sent, did, me);
      if !Deliverable(me, v) {
        return;
      }
      event := Hear(me, v);
      if event.Some? {
        CompletesRound(KeyOf(me, v), old(Heard(KeyOf(me, v))), BallotOf(v), event);
        actions := Quorum(me, event.value);
      }
    }

    /** A quorum that the votes bear out reaches its player. */
    method Quorum(me: Address, e: ThresholdEvent) returns (actions: seq<Action>)
      requires Valid() && me in players && Votable(e)
      requires (e.round == players[me].round || e.round == players[me].round + 1)
      requires Borne(w, e)
      modifies this`sent, this`did, this`w, players[me]
      ensures Valid() && did == old(did) + By(me, actions) && sent == Sending(old(sent), me, actions)
      ensures QuorumHandled(old(players[me].View()), e, players[me].View(), actions)
    {
      hide WorldOk, TrackersOk, SentOk, DidOk, Player.Valid, Player.View, Certified, Stepped, By, Borne, Sending,
           QuorumHandled;
      var p := players[me];
      assert Playing(p, me, w);
      ghost var next;
      actions, next := ActQuorum(p, me, e, w);
      Commit(me, actions, next, old(p.round));
    }

    method Deliver(d: Delivery) returns (actions: seq<Action>)
      requires Valid()
      modifies this, players.Values, trackers.Values
      ensures Valid() && did == old(did) + By(d.me, actions)
      ensures d.me in players && !d.GiveVote? && !old(Refused(d)) ==> Responds(players[d.me], InputOf(d), actions)
      ensures d.me !in players || old(Refused(d)) ==> actions == []
      ensures forall j :: j in trackers && trackers[j] !in old(trackers.Values) ==> fresh(trackers[j])
    {
      hide Valid, Responds, QuorumHandled, Completes, Sending, Deliverable, KeepsAll, CertVoted;
      actions := [];
      if d.me in players {
        if d.GiveVote? {
          var _, done := GiveVote(d.me, d.v);
          actions := done;
        } else {
          actions := Reach(d);
        }
      }
    }

    /** The values a player has cert-voted in its current period. */
    function CertVoted(me: Address): (voted: set<ProposalValue>)
      requires me in players
      reads this, players[me]
      ensures var p := players[me];
              forall x :: x in voted <==> NetVote(me, Cast(p.period, CERT, x)) in SentAt(sent, p.round)
    {
      var p := players[me];
      assert forall x :: x in CertValues(SentAt(sent, p.round), me, p.period) <==>
                         NetVote(me, Cast(p.period, CERT, x)) in SentAt(sent, p.round) by {
        forall x { CertVotedIff(SentAt(sent, p.round), me, p.period, x); }
      }
      CertValues(SentAt(sent, p.round), me, p.period)
    }
  }

  lemma SentIs(sent: map<Round, set<NetVote>>, w: World, r: Round)
    requires SentOk(sent, w)
    ensures SentAt(sent, r) == w.At(r).votes
  {
  }

  lemma NothingSent(sent: map<Round, set<NetVote>>, did: seq<Did>, me: Address)
    ensures Sending(sent, me, []) == sent && did + By(me, []) == did
  {
    var none: seq<Action> := [];
    assert (set a | a in none && a.Attest? :: a.round) == {};
    assert Sending(sent, me, none).Keys == sent.Keys;
    forall r | r in sent ensures Sending(sent, me, none)[r] == sent[r] {
      assert SentBy(me, none, r) == {};
    }
  }

  lemma HonestAre(w: World, players: map<Address, Player>)
    requires WorldOk(w) && PlayersOk(players, w.snaps)
    ensures w.honest == players.Keys
  {
  }

  lemma ForgedOk(sent: map<Round, set<NetVote>>, did: seq<Did>, w: World, next: World, r: Round, v: NetVote)
    requires SentOk(sent, w) && DidOk(did, w)
    requires next.pops == w.pops && next.vf == w.vf
    requires forall q :: next.At(q).votes == if q == r then w.At(q).votes + {v} else w.At(q).votes
    requires forall q :: next.At(q).ensured == w.At(q).ensured
    ensures SentOk(sent[r := SentAt(sent, r) + {v}], next) && DidOk(did, next)
    ensures forall q :: w.At(q).votes <= next.At(q).votes
  {
    forall q ensures SentAt(sent[r := SentAt(sent, r) + {v}], q) == next.At(q).votes {
      assert SentAt(sent, q) == w.At(q).votes;
    }
    forall d | d in did && d.action.Ensure?
      ensures Ensured(d.me, d.action.payload.value) in next.At(d.action.cert.round).ensured
    {
      assert next.At(d.action.cert.round).ensured == w.At(d.action.cert.round).ensured;
    }
  }

  lemma KeyProper(w: World, vf: Verifier, k: Key)
    requires WorldOk(w)
    ensures SettingOf(w.pops, vf, k).Proper()
  {
    SettingProper(w, vf, k);
  }

  lemma SentIsCast(sent: map<Round, set<NetVote>>, w: World, k: Key, vf: Verifier, v: Vote)
    requires SentOk(sent, w) && SettingOf(w.pops, vf, k).Acceptable(v)
    requires CastOf(v) in SentAt(sent, k.round)
    ensures BallotOf(v) in BallotsAt(w.At(k.round).votes, k.period, k.step)
  {
    assert SentAt(sent, k.round) == w.At(k.round).votes;
    var nv := CastOf(v);
    assert nv in w.At(k.round).votes;
  }

  lemma EventBorneOut(t: VoteTracker, k: Key, vf: Verifier, w: World, e: ThresholdEvent)
    requires t.EventOk(e) && t.k == SettingOf(w.pops, vf, k)
    requires t.seen <= BallotsAt(w.At(k.round).votes, k.period, k.step)
    requires w.vf == vf
    ensures e.round == k.round && Borne(w, e)
    ensures e.period == k.period && e.step == k.step && e.kind == KindOf(k.step)
    ensures Over(w.pops(k.round).At(k.step), t.seen, e.proposal)
  {
    hide Visible, Drawn, Thrifty, BallotsAt, EventProven;
    TrackerEventProven(t, e);
    TrackerEventVisible(t, e, w.pops(k.round), w.At(k.round).votes);
  }

  /** No two ensures on record for one round carry different blocks. */
  ghost predicate OneBlockPerRound(did: seq<Did>) {
    forall c, d :: c in did && d in did && c.action.Ensure? && d.action.Ensure?
                   && c.action.cert.round == d.action.cert.round ==>
      c.action.payload.value == d.action.payload.value
  }

  /** The ensure's payload is what its certificate names, and the certificate authenticates its block. */
  ghost predicate AuthenticEnsure(pops: Round -> Population, vf: Verifier, a: Action)
    requires a.Ensure?
  {
    var r := a.cert.round;
    && Certifies(a, r) && a.cert.step == CERT && a.cert.bundle.proposal == a.payload.value
    && CertificateFor(vf, pops(r).proto, a.cert.bundle, Block(r, a.payload.value.blockDigest))
  }

  ghost predicate AllAuthentic(pops: Round -> Population, vf: Verifier, did: seq<Did>) {
    forall d :: d in did && d.action.Ensure? ==> AuthenticEnsure(pops, vf, d.action)
  }

  /**
   Agreement for the players themselves: whatever the schedule delivers and in whatever order,
   no two ensures for one round carry different blocks, and each carries a certificate of that
   round that authenticates its block.
   */
  method Run(pops: Round -> Population, vf: Verifier, players: map<Address, Player>, schedule: seq<Delivery>)
    returns (did: seq<Did>)
    requires forall r :: pops(r).Sound() && pops(r).honest == players.Keys
    requires forall n :: n in players ==>
              players[n].Valid() && players[n].View() == Snap(players[n].round, FRESH_NODE, map[], map[])
    requires forall m, n :: m in players && n in players && m != n ==> players[m] != players[n]
    modifies players.Values
    ensures OneBlockPerRound(did)
    ensures AllAuthentic(pops, vf, did)
  {
    hide System.Valid, Population.Sound, Player.Valid, Player.View, OneBlockPerRound, AllAuthentic;
    var sys := new System(pops, vf, players);
    for i := 0 to |schedule|
      invariant sys.Valid() && sys.pops == pops && sys.vf == vf && sys.players == players && fresh(sys)
      invariant forall j :: j in sys.trackers ==> fresh(sys.trackers[j])
    {
      var _ := sys.Deliver(schedule[i]);
    }
    sys.RecordsAgree();
    did := sys.did;
  }
}
