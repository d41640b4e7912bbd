/**
 The proposal trackers of a round's periods and the store of proposal payloads: which
 values a round holds on to, and how long an assembled block survives. Trackers are keyed
 by period without collection; a tracker that was never addressed has its zero value.
 */
module ProposalStorage {
  import opened AgreementTypes

  /** A proposal with the proposal-value its contents determine. */
  datatype Payload = Payload(value: ProposalValue, body: nat)

  // ---------------------------------------------------------------- proposal trackers

  /** `lowest` is the vote with the lowest credential; `duplicate` the senders seen. */
  datatype Tracker = Tracker(duplicate: set<Address>, lowest: Option<Vote>, frozen: bool, staging: ProposalValue)

  const ZERO_TRACKER := Tracker({}, None, false, BOTTOM)

  /** Whether a verified proposal-vote is accepted; `output` orders credentials. */
  predicate Accepts(output: Credential -> nat, t: Tracker, v: Vote) {
    && v.r.sender !in t.duplicate
    && t.staging == BOTTOM
    && !t.frozen
    && (t.lowest.Some? ==> output(v.cred) < output(t.lowest.value.cred))
  }

  function TrackVote(output: Credential -> nat, t: Tracker, v: Vote): Tracker {
    if v.r.sender in t.duplicate then t
    else
      var u := t.(duplicate := t.duplicate + {v.r.sender});
      if Accepts(output, t, v) then u.(lowest := Some(v)) else u
  }

  function FrozenValue(t: Tracker): ProposalValue {
    if t.lowest.None? then BOTTOM else t.lowest.value.r.proposal
  }

  // ---------------------------------------------------------------- block assemblers

  /** `pipeline` is a proposal not yet validated, `payload` a valid one, each if seen. */
  datatype Assembler = Assembler(pipeline: Option<Payload>, payload: Option<Payload>, authenticators: seq<Vote>)

  const ZERO_ASSEMBLER := Assembler(None, None, [])

  /** The authenticators of period `cur` or later. */
  function Recent(votes: seq<Vote>, cur: Period): (r: seq<Vote>)
    ensures forall v :: v in r <==> v in votes && v.r.period >= cur
  {
    if votes == [] then []
    else
      var n := |votes| - 1;
      assert votes == votes[..n] + [votes[n]];
      Recent(votes[..n], cur) + (if votes[n].r.period >= cur then [votes[n]] else [])
  }

  /** Trimming keeps the order: it is done part by part, and a single vote stays or goes by its period. */
  lemma {:induction false} RecentJoins(a: seq<Vote>, b: seq<Vote>, cur: Period)
    ensures Recent(a + b, cur) == Recent(a, cur) + Recent(b, cur)
  {
    if b == [] {
      assert a + b == a;
    } else {
      var n := |b| - 1;
      RecentJoins(a, b[..n], cur);
      assert (a + b)[..|a + b| - 1] == a + b[..n] && (a + b)[|a + b| - 1] == b[n];
    }
  }

  lemma RecentOne(v: Vote, cur: Period)
    ensures Recent([v], cur) == (if v.r.period >= cur then [v] else []) && Recent([], cur) == []
  {
    assert [v][..0] == [];
  }

  /** The first vote of period `cur`, if there is one. */
  ghost predicate FirstOfPeriod(votes: seq<Vote>, cur: Period, v: Option<Vote>) {
    if v.None? then forall w :: w in votes ==> w.r.period != cur
    else exists i :: 0 <= i < |votes| && v.value == votes[i] && votes[i].r.period == cur
                     && forall j :: 0 <= j < i ==> votes[j].r.period != cur
  }

  method TrimAuthenticators(votes: seq<Vote>, cur: Period) returns (r: seq<Vote>)
    ensures r == Recent(votes, cur)
  {
    r := [];
    for i := 0 to |votes|
      invariant r == Recent(votes[..i], cur)
    {
      assert votes[..i + 1][..i] == votes[..i];
      if votes[i].r.period >= cur {
        r := r + [votes[i]];
      }
    }
    assert votes[..|votes|] == votes;
  }

  /** The first cached proposal-vote of period `cur`. */
  method Authenticator(votes: seq<Vote>, cur: Period) returns (v: Option<Vote>)
    ensures FirstOfPeriod(votes, cur, v)
  {
    for i := 0 to |votes|
      invariant forall j :: 0 <= j < i ==> votes[j].r.period != cur
    {
      if votes[i].r.period == cur {
        return Some(votes[i]);
      }
    }
    return None;
  }

  // ---------------------------------------------------------------- the store as a value

  datatype Store = Store(
    relevant: map<Period, ProposalValue>, pinned: ProposalValue,
    assemblers: map<ProposalValue, Assembler>, trackers: map<Period, Tracker>)
  {
    function TrackerAt(q: Period): Tracker {
      if q in trackers then trackers[q] else ZERO_TRACKER
    }

    function At(v: ProposalValue): Assembler {
      if v in assemblers then assemblers[v] else ZERO_ASSEMBLER
    }

    /** The values the store must hold an assembler for. */
    function Tracked(): set<ProposalValue> {
      relevant.Values + {pinned} - {BOTTOM}
    }

    function Staged(q: Period): ProposalValue {
      TrackerAt(q).staging
    }

    predicate Holds(v: ProposalValue) {
      At(v).payload.Some?
    }

    /** The answer to a read of the staging value of period `q`. */
    predicate Committable(q: Period) {
      Holds(Staged(q))
    }

    function Track(q: Period, t: Tracker): Store {
      this.(trackers := trackers[q := t])
    }

    function Trimmed(cur: Period): Store {
      this.(assemblers := map v | v in Tracked() :: At(v).(authenticators := Recent(At(v).authenticators, cur)))
    }
  }

  const EMPTY_STORE := Store(map[], BOTTOM, map[], map[])

  datatype StoreEvent =
    | VoteVerified(v: Vote)
    | PayloadPresent(up: Payload)
    | PayloadVerified(pp: Payload)
    | NewPeriod(target: Period, starting: ProposalValue)
    | Threshold(q: Period, value: ProposalValue)
    | Freeze(q: Period)

  predicate Drops(q: Period, target: Period) {
    (q + 1) % UINT64 < target
  }

  /** The value pinned on leaving period `cur`: the starting value, else the staged one, else as before. */
  function PinnedAfter(s: Store, cur: Period, starting: ProposalValue): ProposalValue {
    if starting != BOTTOM then starting
    else if s.Staged(cur) != BOTTOM then s.Staged(cur)
    else s.pinned
  }

  /** The store after an event, with the player in period `cur`. */
  function StoreAfter(output: Credential -> nat, s: Store, cur: Period, e: StoreEvent): Store {
    match e
    case VoteVerified(v) =>
      var t := s.TrackerAt(v.r.period);
      var s' := s.Track(v.r.period, TrackVote(output, t, v));
      if !Accepts(output, t, v) then s'
      else
        var a := s.At(v.r.proposal);
        s'.(assemblers := s.assemblers[v.r.proposal := a.(authenticators := a.authenticators + [v])],
            relevant := s.relevant[v.r.period := v.r.proposal]).Trimmed(cur)
    case PayloadPresent(up) =>
      if up.value in s.assemblers && s.At(up.value).payload.None? && s.At(up.value).pipeline.None?
      then s.(assemblers := s.assemblers[up.value := s.At(up.value).(pipeline := Some(up))])
      else s
    case PayloadVerified(pp) =>
      if pp.value in s.assemblers && s.At(pp.value).payload.None?
      then s.(assemblers := s.assemblers[pp.value := s.At(pp.value).(payload := Some(pp))])
      else s
    case NewPeriod(target, starting) =>
      s.(pinned := PinnedAfter(s, cur, starting),
         relevant := map q | q in s.relevant && !Drops(q, target) :: s.relevant[q]).Trimmed(cur)
    case Threshold(q, value) =>
      var s' := s.Track(q, s.TrackerAt(q).(staging := value));
      if s.Holds(value) then s'
      else s'.(assemblers := s.assemblers[value := s.At(value)], relevant := s.relevant[q := value]).Trimmed(cur)
    case Freeze(q) =>
      s.Track(q, s.TrackerAt(q).(frozen := true))
  }

  // ---------------------------------------------------------------- invariant

  /** An assembler holds only what belongs to its value. */
  ghost predicate Belongs(v: ProposalValue, a: Assembler) {
    && (a.pipeline.Some? ==> a.pipeline.value.value == v)
    && (a.payload.Some? ==> a.payload.value.value == v)
    && forall w :: w in a.authenticators ==> w.r.proposal == v
  }

  ghost predicate StoreInv(s: Store) {
    && s.assemblers.Keys == s.Tracked()
    && forall v :: v in s.assemblers ==> Belongs(v, s.assemblers[v])
  }

  lemma KeptByTrim(s: Store, cur: Period)
    requires forall v :: v in s.assemblers ==> Belongs(v, s.assemblers[v])
    ensures StoreInv(s.Trimmed(cur))
  {
  }

  /** Every event keeps the store's keys and the match of payload and key. */
  lemma StoreKept(output: Credential -> nat, s: Store, cur: Period, e: StoreEvent)
    requires StoreInv(s)
    ensures StoreInv(StoreAfter(output, s, cur, e))
  {
    match e
    case VoteVerified(v) =>
      var t := s.TrackerAt(v.r.period);
      if Accepts(output, t, v) {
        var a := s.At(v.r.proposal);
        KeptByTrim(s.Track(v.r.period, TrackVote(output, t, v)).(
                     assemblers := s.assemblers[v.r.proposal := a.(authenticators := a.authenticators + [v])],
                     relevant := s.relevant[v.r.period := v.r.proposal]), cur);
      }
    case NewPeriod(target, starting) =>
      KeptByTrim(s.(pinned := PinnedAfter(s, cur, starting),
                    relevant := map q | q in s.relevant && !Drops(q, target) :: s.relevant[q]), cur);
    case Threshold(q, value) =>
      KeptByTrim(s.Track(q, s.TrackerAt(q).(staging := value)).(
                   assemblers := s.assemblers[value := s.At(value)], relevant := s.relevant[q := value]), cur);
    case _ =>
      var s' := StoreAfter(output, s, cur, e);
      assert s'.assemblers.Keys == s.assemblers.Keys;
  }

  datatype Timed = Timed(cur: Period, e: StoreEvent)

  function Run(output: Credential -> nat, s: Store, h: seq<Timed>): Store {
    if h == [] then s
    else StoreAfter(output, Run(output, s, h[..|h| - 1]), h[|h| - 1].cur, h[|h| - 1].e)
  }

  lemma {:induction false} RunKeeps(output: Credential -> nat, h: seq<Timed>)
    ensures StoreInv(Run(output, EMPTY_STORE, h))
  {
    if h != [] {
      RunKeeps(output, h[..|h| - 1]);
      StoreKept(output, Run(output, EMPTY_STORE, h[..|h| - 1]), h[|h| - 1].cur, h[|h| - 1].e);
    }
  }

  /** A committable staging value comes with a payload of exactly that value. */
  lemma StagedPayload(s: Store, q: Period)
    requires StoreInv(s) && s.Committable(q)
    ensures var p := s.At(s.Staged(q)).payload; p.Some? && p.value.value == s.Staged(q) != BOTTOM
  {
  }

  // ---------------------------------------------------------------- retention

  predicate IsRelevant(m: map<Period, ProposalValue>, v: ProposalValue) {
    exists q :: q in m && m[q] == v
  }

  /** The values tracked are the pinned one and the relevant ones. */
  lemma TrackedIff(s: Store, v: ProposalValue)
    requires v != BOTTOM
    ensures v in s.Tracked() <==> s.pinned == v || IsRelevant(s.relevant, v)
  {
  }

  lemma TrimKeeps(s: Store, cur: Period, v: ProposalValue)
    ensures s.Trimmed(cur).At(v).payload == if v in s.Tracked() then s.At(v).payload else None
  {
  }

  /**
   A proposal-vote, a new period or a threshold for a missing block drops the cached votes of
   periods before the player's, of every value, keeps the others in order, and touches no payload.
   */
  lemma TrimsByPeriod(output: Credential -> nat, s: Store, cur: Period, e: StoreEvent, v: ProposalValue)
    requires e.NewPeriod? || (e.Threshold? && !s.Holds(e.value)) ||
             (e.VoteVerified? && Accepts(output, s.TrackerAt(e.v.r.period), e.v))
    ensures var s' := StoreAfter(output, s, cur, e);
            v in s'.assemblers ==>
              && s'.assemblers[v].pipeline == s.At(v).pipeline && s'.assemblers[v].payload == s.At(v).payload
              && s'.assemblers[v].authenticators ==
                 Recent(s.At(v).authenticators + (if e.VoteVerified? && e.v.r.proposal == v then [e.v] else []), cur)
  {
    hide Recent, StoreInv;
    assert s.At(v).authenticators + [] == s.At(v).authenticators;
    match e
    case NewPeriod(target, starting) =>
    case Threshold(q, value) =>
    case VoteVerified(w) =>
  }

  /** A payload changes nothing but its own assembler, and there only its own field. */
  lemma PayloadOnly(output: Credential -> nat, s: Store, cur: Period, e: StoreEvent, v: ProposalValue)
    requires e.PayloadPresent? || e.PayloadVerified?
    ensures var s' := StoreAfter(output, s, cur, e);
            && s'.relevant == s.relevant && s'.pinned == s.pinned && s'.trackers == s.trackers
            && s'.assemblers.Keys == s.assemblers.Keys && s'.At(v).authenticators == s.At(v).authenticators
            && (s'.At(v).payload != s.At(v).payload ==>
                  e.PayloadVerified? && e.pp.value == v && s.At(v).payload.None? && s'.At(v).payload == Some(e.pp))
            && (s'.At(v).pipeline != s.At(v).pipeline ==>
                  e.PayloadPresent? && e.up.value == v && s.At(v).pipeline.None? && s'.At(v).pipeline == Some(e.up))
  {
  }

  /** What keeps `v` through an event, read off the store before the event. */
  predicate Retains(output: Credential -> nat, s: Store, cur: Period, e: StoreEvent, v: ProposalValue) {
    match e
    case VoteVerified(w) =>
      || !Accepts(output, s.TrackerAt(w.r.period), w) || w.r.proposal == v || s.pinned == v
      || exists q :: q in s.relevant && q != w.r.period && s.relevant[q] == v
    case NewPeriod(target, starting) =>
      || PinnedAfter(s, cur, starting) == v
      || exists q :: q in s.relevant && !Drops(q, target) && s.relevant[q] == v
    case Threshold(q, value) =>
      || s.Holds(value) || s.pinned == v
      || exists u :: u in s.relevant && u != q && s.relevant[u] == v
    case _ => true
  }

  /** An assembled block survives an event exactly when its value is retained, and unchanged. */
  lemma SurvivesIff(output: Credential -> nat, s: Store, cur: Period, e: StoreEvent, v: ProposalValue)
    requires StoreInv(s) && s.Holds(v)
    ensures StoreAfter(output, s, cur, e).Holds(v) <==> Retains(output, s, cur, e, v)
    ensures StoreAfter(output, s, cur, e).Holds(v) ==> StoreAfter(output, s, cur, e).At(v).payload == s.At(v).payload
  {
    assert v in s.assemblers && v in s.Tracked();
    match e
    case VoteVerified(w) =>
      var t := s.TrackerAt(w.r.period);
      if Accepts(output, t, w) {
        var a := s.At(w.r.proposal);
        RelevantSet(s.relevant, w.r.period, w.r.proposal, v);
        SurvivesTrim(s.Track(w.r.period, TrackVote(output, t, w)).(
                       assemblers := s.assemblers[w.r.proposal := a.(authenticators := a.authenticators + [w])],
                       relevant := s.relevant[w.r.period := w.r.proposal]), cur, v);
      }
    case NewPeriod(target, starting) =>
      RelevantKept(s.relevant, target, v);
      SurvivesTrim(s.(pinned := PinnedAfter(s, cur, starting),
                      relevant := map q | q in s.relevant && !Drops(q, target) :: s.relevant[q]), cur, v);
    case Threshold(q, value) =>
      if !s.Holds(value) {
        RelevantSet(s.relevant, q, value, v);
        SurvivesTrim(s.Track(q, s.TrackerAt(q).(staging := value)).(
                       assemblers := s.assemblers[value := s.At(value)], relevant := s.relevant[q := value]), cur, v);
      }
    case _ =>
  }

  lemma RelevantSet(m: map<Period, ProposalValue>, p: Period, x: ProposalValue, v: ProposalValue)
    ensures IsRelevant(m[p := x], v) <==> x == v || exists q :: q in m && q != p && m[q] == v
  {
    var m' := m[p := x];
    assert p in m' && m'[p] == x;
    if q :| q in m && q != p && m[q] == v { assert q in m' && m'[q] == v; }
  }

  lemma RelevantKept(m: map<Period, ProposalValue>, target: Period, v: ProposalValue)
    ensures IsRelevant(map q | q in m && !Drops(q, target) :: m[q], v) <==>
            exists q :: q in m && !Drops(q, target) && m[q] == v
  {
    var m' := map q | q in m && !Drops(q, target) :: m[q];
    if q :| q in m && !Drops(q, target) && m[q] == v { assert q in m' && m'[q] == v; }
  }

  lemma SurvivesTrim(s: Store, cur: Period, v: ProposalValue)
    requires s.Holds(v) && v != BOTTOM
    ensures s.Trimmed(cur).Holds(v) <==> s.pinned == v || IsRelevant(s.relevant, v)
    ensures s.Trimmed(cur).Holds(v) ==> s.Trimmed(cur).At(v).payload == s.At(v).payload
  {
    TrimKeeps(s, cur, v);
    TrackedIff(s, v);
  }

  /** No threshold of period `q` is for another value than `v`. */
  predicate Consistent(e: StoreEvent, q: Period, v: ProposalValue) {
    e.Threshold? && e.q == q ==> e.value == v
  }

  /** Relevant and staged in `q`, and assembled. */
  predicate Secured(s: Store, q: Period, v: ProposalValue) {
    && v != BOTTOM && s.Staged(q) == v && s.Holds(v)
    && q in s.relevant && s.relevant[q] == v
  }

  /** A block relevant and staged in `q` stays so until `q` is dropped. */
  lemma SecuredStep(output: Credential -> nat, s: Store, cur: Period, e: StoreEvent, q: Period, v: ProposalValue)
    requires StoreInv(s) && Secured(s, q, v) && Consistent(e, q, v)
    requires e.NewPeriod? ==> !Drops(q, e.target)
    ensures Secured(StoreAfter(output, s, cur, e), q, v)
    ensures StoreAfter(output, s, cur, e).At(v).payload == s.At(v).payload
  {
    SurvivesIff(output, s, cur, e, v);
  }

  lemma {:induction false} SecuredUntilDropped(
      output: Credential -> nat, s: Store, h: seq<Timed>, q: Period, v: ProposalValue)
    requires StoreInv(s) && Secured(s, q, v)
    requires forall i :: 0 <= i < |h| ==> Consistent(h[i].e, q, v)
    requires forall i :: 0 <= i < |h| ==> (h[i].e.NewPeriod? ==> !Drops(q, h[i].e.target))
    ensures StoreInv(Run(output, s, h)) && Secured(Run(output, s, h), q, v)
    ensures Run(output, s, h).At(v).payload == s.At(v).payload
  {
    hide StoreAfter, StoreInv, Secured;
    if h != [] {
      var n := |h| - 1;
      SecuredUntilDropped(output, s, h[..n], q, v);
      var t := Run(output, s, h[..n]);
      SecuredStep(output, t, h[n].cur, h[n].e, q, v);
      StoreKept(output, t, h[n].cur, h[n].e);
    }
  }

  /** Leaving the period in which it is staged, with starting value `v` or bottom, pins the block. */
  lemma PinnedOnLeaving(output: Credential -> nat, s: Store, q: Period, e: StoreEvent, v: ProposalValue)
    requires StoreInv(s) && s.Holds(v) && s.Staged(q) == v && e.NewPeriod? && e.starting in {v, BOTTOM}
    ensures var s' := StoreAfter(output, s, q, e);
            s'.pinned == v && s'.Holds(v) && s'.At(v).payload == s.At(v).payload
  {
    SurvivesIff(output, s, q, e, v);
  }

  /** A new period lets go exactly the values relevant only before the period that precedes it. */
  lemma LetGoIff(output: Credential -> nat, s: Store, cur: Period, target: Period, starting: ProposalValue, q: Period)
    requires q + 1 < UINT64
    ensures var s' := StoreAfter(output, s, cur, NewPeriod(target, starting));
            && (q in s'.relevant <==> q in s.relevant && target <= q + 1)
            && (q in s'.relevant ==> s'.relevant[q] == s.relevant[q])
  {
  }

  /** The value pinned on entering a period: its starting value, else the one staged before, else the old one. */
  lemma PinnedIs(output: Credential -> nat, s: Store, cur: Period, target: Period, starting: ProposalValue)
    ensures var s' := StoreAfter(output, s, cur, NewPeriod(target, starting));
            var staged := cur in s.trackers && s.trackers[cur].staging != BOTTOM;
            && (starting != BOTTOM ==> s'.pinned == starting)
            && (starting == BOTTOM && staged ==> s'.pinned == s.trackers[cur].staging)
            && (starting == BOTTOM && !staged ==> s'.pinned == s.pinned)
  {
  }

  /** A period is closed to new proposal-votes once it is staged or frozen. */
  predicate Closed(t: Tracker) {
    t.staging != BOTTOM || t.frozen
  }

  /** `v` is pinned, or relevant in a period whose relevant value can no longer be replaced. */
  predicate Anchored(s: Store, v: ProposalValue) {
    s.pinned == v || exists q :: q in s.relevant && s.relevant[q] == v && Closed(s.TrackerAt(q))
  }

  /** Within a period, an assembled block that is anchored cannot be lost. */
  lemma AnchoredSurvives(output: Credential -> nat, s: Store, cur: Period, e: StoreEvent, v: ProposalValue)
    requires StoreInv(s) && s.Holds(v) && Anchored(s, v) && !e.NewPeriod?
    requires e.Threshold? ==> s.Holds(e.value) || !(e.q in s.relevant && s.relevant[e.q] == v)
    ensures StoreAfter(output, s, cur, e).Holds(v)
  {
    SurvivesIff(output, s, cur, e, v);
  }

  /**
   A proposal-vote that displaces `v`: from a new sender, for another value, with a lower
   credential than any seen in period `q`.
   */
  predicate Displaces(output: Credential -> nat, s: Store, q: Period, w: Vote, v: ProposalValue) {
    w.r.period == q && w.r.proposal != v && Accepts(output, s.TrackerAt(q), w)
  }

  /** An accepted proposal-vote makes its value relevant in its period and is kept as an authenticator. */
  lemma AcceptedVote(output: Credential -> nat, s: Store, cur: Period, v: Vote)
    requires StoreInv(s) && Accepts(output, s.TrackerAt(v.r.period), v)
    ensures var s' := StoreAfter(output, s, cur, VoteVerified(v));
            && s'.relevant == s.relevant[v.r.period := v.r.proposal] && s'.pinned == s.pinned
            && s'.TrackerAt(v.r.period).lowest == Some(v)
            && (v.r.proposal != BOTTOM && v.r.period >= cur ==> v in s'.At(v.r.proposal).authenticators)
  {
    var s' := StoreAfter(output, s, cur, VoteVerified(v));
    if v.r.proposal != BOTTOM {
      assert s'.relevant[v.r.period] == v.r.proposal;
      TrackedIff(s', v.r.proposal);
    }
  }

  /** A threshold for a value without its block makes room for it: the value becomes relevant. */
  lemma ThresholdForMissingValue(output: Credential -> nat, s: Store, cur: Period, q: Period, v: ProposalValue)
    requires StoreInv(s) && !s.Holds(v) && v != BOTTOM
    ensures var s' := StoreAfter(output, s, cur, Threshold(q, v));
            s'.Staged(q) == v && s'.relevant == s.relevant[q := v] && v in s'.assemblers && s'.pinned == s.pinned
  {
    var s' := StoreAfter(output, s, cur, Threshold(q, v));
    assert s'.relevant[q] == v;
    TrackedIff(s', v);
  }

  /** A threshold for an assembled value stages it and leaves the relevant values as they are. */
  lemma ThresholdForHeldValue(output: Credential -> nat, s: Store, cur: Period, q: Period, v: ProposalValue)
    requires StoreInv(s) && s.Holds(v)
    ensures var s' := StoreAfter(output, s, cur, Threshold(q, v));
            s'.Staged(q) == v && s'.Committable(q) && s'.relevant == s.relevant && s'.pinned == s.pinned
  {
  }

  /** A staged, committable block is lost to a proposal-vote that displaces it in the only period it is relevant in. */
  lemma StagedBlockLost(output: Credential -> nat, s: Store, cur: Period, q: Period, u: Period, w: Vote,
                        v: ProposalValue)
    requires StoreInv(s) && s.Holds(v) && s.Staged(q) == v
    requires s.pinned != v && Displaces(output, s, u, w, v)
    requires forall p :: p in s.relevant && s.relevant[p] == v ==> p == u
    ensures var s' := StoreAfter(output, s, cur, VoteVerified(w)); s'.Staged(q) == v && !s'.Committable(q)
  {
    SurvivesIff(output, s, cur, VoteVerified(w), v);
  }

  // ---------------------------------------------------------------- the store of the next round

  /** Whether a proposal-vote is fresh for a player in round `pr`, period `pp`. */
  predicate ProposalFresh(pr: Round, pp: Period, vr: Round, vp: Period) {
    if vr == pr then !(pp != 0 && pp - 1 > vp) && !((pp + 1) % UINT64 < vp)
    else vr == (pr + 1) % UINT64 && vp == 0
  }

  /** Which proposal-votes are fresh: of the player's period and the two next to it, and of the next round's first. */
  lemma ProposalFreshIff(pr: Round, pp: Period, vr: Round, vp: Period)
    requires pr + 1 < UINT64 && pp + 1 < UINT64
    ensures ProposalFresh(pr, pp, vr, vp) <==>
            || (vr == pr && (vp + 1 == pp || vp == pp || vp == pp + 1))
            || (vr == pr + 1 && vp == 0)
  {
  }

  /** A message to the proposal manager while the player is in period `pp` of its round. */
  datatype Message =
    | VoteMessage(pp: Period, v: Vote)
    | PresentMessage(pp: Period, round: Round, up: Payload)
    | VerifiedMessage(pp: Period, valid: Payload)

  /** What the store of the round after `pr` is given of a message. */
  function ForNextRound(pr: Round, m: Message): Option<StoreEvent> {
    match m
    case VoteMessage(pp, v) =>
      if ProposalFresh(pr, pp, v.r.round, v.r.period) && v.r.round != pr then Some(VoteVerified(v)) else None
    case PresentMessage(_, round, up) =>
      if round != pr then Some(PayloadPresent(up)) else None
    case VerifiedMessage(_, _) => None
  }

  /** Exactly the fresh proposal-votes of the next round, of period 0, and the payloads not of this round. */
  lemma ForNextRoundIff(pr: Round, m: Message)
    requires pr + 1 < UINT64
    ensures m.VoteMessage? ==>
              ForNextRound(pr, m) ==
              if m.v.r.round == pr + 1 && m.v.r.period == 0 then Some(VoteVerified(m.v)) else None
    ensures m.PresentMessage? ==> ForNextRound(pr, m) == if m.round == pr then None else Some(PayloadPresent(m.up))
    ensures m.VerifiedMessage? ==> ForNextRound(pr, m) == None
  {
  }

  function NextStore(output: Credential -> nat, pr: Round, h: seq<Message>): Store {
    if h == [] then EMPTY_STORE
    else
      var s, m := NextStore(output, pr, h[..|h| - 1]), h[|h| - 1];
      var e := ForNextRound(pr, m);
      if e.None? then s else StoreAfter(output, s, m.pp, e.value)
  }

  /** Before its round is entered a store tracks at most one value, so entering never panics. */
  lemma {:induction false} NextStoreHoldsOne(output: Credential -> nat, pr: Round, h: seq<Message>)
    ensures var s := NextStore(output, pr, h);
            StoreInv(s) && s.relevant.Keys <= {0} && s.pinned == BOTTOM && |s.assemblers| <= 1
  {
    if h != [] {
      var s, m := NextStore(output, pr, h[..|h| - 1]), h[|h| - 1];
      NextStoreHoldsOne(output, pr, h[..|h| - 1]);
      var e := ForNextRound(pr, m);
      if e.Some? {
        StoreKept(output, s, m.pp, e.value);
        OnlyPeriodZero(output, s, m.pp, e.value);
      }
    }
    AtMostOne(NextStore(output, pr, h));
  }

  lemma OnlyPeriodZero(output: Credential -> nat, s: Store, cur: Period, e: StoreEvent)
    requires s.relevant.Keys <= {0} && s.pinned == BOTTOM
    requires e.PayloadPresent? || (e.VoteVerified? && e.v.r.period == 0)
    ensures var s' := StoreAfter(output, s, cur, e); s'.relevant.Keys <= {0} && s'.pinned == BOTTOM
  {
  }

  lemma AtMostOne(s: Store)
    requires StoreInv(s) && s.relevant.Keys <= {0} && s.pinned == BOTTOM
    ensures |s.assemblers| <= 1
  {
    var one := if 0 in s.relevant then {s.relevant[0]} else {};
    forall v | v in s.assemblers.Keys ensures v in one {
      assert v in s.Tracked();
    }
    assert |s.assemblers| == |s.assemblers.Keys|;
    if v :| v in s.assemblers.Keys {
      OnlyMember(one, v);
      assert s.assemblers.Keys == {v};
    }
  }

  // ---------------------------------------------------------------- what a tracker remembers

  datatype TrackerEvent = Offer(v: Vote) | Stage(value: ProposalValue) | Close

  function TrackerAfter(output: Credential -> nat, t: Tracker, e: TrackerEvent): Tracker {
    match e
    case Offer(v) => TrackVote(output, t, v)
    case Stage(x) => t.(staging := x)
    case Close => t.(frozen := true)
  }

  function TrackerRun(output: Credential -> nat, h: seq<TrackerEvent>): Tracker {
    if h == [] then ZERO_TRACKER else TrackerAfter(output, TrackerRun(output, h[..|h| - 1]), h[|h| - 1])
  }

  ghost function Offered(h: seq<TrackerEvent>): set<Address> {
    set e | e in h && e.Offer? :: e.v.r.sender
  }

  function LastStage(h: seq<TrackerEvent>): ProposalValue {
    if h == [] then BOTTOM
    else if h[|h| - 1].Stage? then h[|h| - 1].value
    else LastStage(h[..|h| - 1])
  }

  /** The votes that compete: the first of each sender, while the period is neither staged nor closed. */
  ghost function Competing(h: seq<TrackerEvent>): seq<Vote> {
    if h == [] then []
    else
      var g, e := h[..|h| - 1], h[|h| - 1];
      if e.Offer? && e.v.r.sender !in Offered(g) && LastStage(g) == BOTTOM && Close !in g
      then Competing(g) + [e.v] else Competing(g)
  }

  /** Position `i` holds the first vote with the lowest credential. */
  ghost predicate FirstLowest(output: Credential -> nat, c: seq<Vote>, i: nat) {
    && i < |c|
    && (forall j :: 0 <= j < i ==> output(c[i].cred) < output(c[j].cred))
    && (forall j :: i <= j < |c| ==> output(c[i].cred) <= output(c[j].cred))
  }

  ghost predicate LowestOf(output: Credential -> nat, c: seq<Vote>, lowest: Option<Vote>) {
    if c == [] then lowest.None?
    else lowest.Some? && exists i: nat :: FirstLowest(output, c, i) && lowest.value == c[i]
  }

  /** After any events the tracker knows every sender, the last staging value and the winning vote. */
  lemma {:induction false} TrackerRemembers(output: Credential -> nat, h: seq<TrackerEvent>)
    ensures var t := TrackerRun(output, h);
            && t.duplicate == Offered(h) && t.frozen == (Close in h) && t.staging == LastStage(h)
            && LowestOf(output, Competing(h), t.lowest)
  {
    if h != [] {
      var n := |h| - 1;
      var g, e := h[..n], h[n];
      assert h == g + [e];
      TrackerRemembers(output, g);
      var t := TrackerRun(output, g);
      if e.Offer? && e.v.r.sender !in t.duplicate && t.staging == BOTTOM && !t.frozen {
        LowestStep(output, Competing(g), t.lowest, e.v);
      }
    }
  }

  lemma LowestStep(output: Credential -> nat, c: seq<Vote>, lowest: Option<Vote>, v: Vote)
    requires LowestOf(output, c, lowest)
    ensures LowestOf(output, c + [v],
                     if lowest.Some? && output(lowest.value.cred) <= output(v.cred) then lowest else Some(v))
  {
    var d := c + [v];
    if c == [] {
      assert FirstLowest(output, d, 0);
    } else {
      var i: nat :| FirstLowest(output, c, i) && lowest.value == c[i];
      if output(c[i].cred) <= output(v.cred) {
        assert FirstLowest(output, d, i);
      } else {
        assert FirstLowest(output, d, |c|);
      }
    }
  }

  // ---------------------------------------------------------------- a run that loses a staged block

  function ProposalVote(sender: Address, period: Period, proposal: ProposalValue, proof: nat): Vote {
    Vote(RawVote(sender, 0, period, PROPOSE, proposal), Credential(1, proof), 0)
  }

  const KEPT := ProposalValue(0, 1, 1, 1)
  const LOWER := ProposalValue(0, 2, 2, 2)

  function ByProof(c: Credential): nat {
    c.proof
  }

  /**
   The early return on a threshold for a block already held: the block is relevant in period 0
   only, is staged in period 1, and a late proposal-vote of period 0 removes it there.
   */
  lemma EarlyReturnLosesBlock()
    ensures var s1 := StoreAfter(ByProof, EMPTY_STORE, 0, VoteVerified(ProposalVote(1, 0, KEPT, 7)));
            var s2 := StoreAfter(ByProof, s1, 0, PayloadVerified(Payload(KEPT, 0)));
            var s3 := StoreAfter(ByProof, s2, 0, NewPeriod(1, BOTTOM));
            var s4 := StoreAfter(ByProof, s3, 1, Threshold(1, KEPT));
            var s5 := StoreAfter(ByProof, s4, 1, VoteVerified(ProposalVote(2, 0, LOWER, 3)));
            s4.Staged(1) == s5.Staged(1) == KEPT && s4.Committable(1) && !s5.Committable(1)
  {
    var v0, w := ProposalVote(1, 0, KEPT, 7), ProposalVote(2, 0, LOWER, 3);
    hide StoreAfter, StoreInv, Store.Holds, Store.Committable;
    var s1 := StoreAfter(ByProof, EMPTY_STORE, 0, VoteVerified(v0));
    FirstVote(v0);
    var s2 := StoreAfter(ByProof, s1, 0, PayloadVerified(Payload(KEPT, 0)));
    KeptAssembled(s1);
    StoreKept(ByProof, s1, 0, PayloadVerified(Payload(KEPT, 0)));
    var s3 := StoreAfter(ByProof, s2, 0, NewPeriod(1, BOTTOM));
    EnterBottom(s2);
    ThresholdForHeldValue(ByProof, s3, 1, 1, KEPT);
    StoreKept(ByProof, s3, 1, Threshold(1, KEPT));
    var s4 := StoreAfter(ByProof, s3, 1, Threshold(1, KEPT));
    ThresholdTracker(s3);
    StagedBlockLost(ByProof, s4, 1, 1, 0, w, KEPT);
  }

  lemma FirstVote(v: Vote)
    requires v == ProposalVote(1, 0, KEPT, 7)
    ensures var s := StoreAfter(ByProof, EMPTY_STORE, 0, VoteVerified(v));
            && StoreInv(s) && s.relevant == map[0 := KEPT] && s.pinned == BOTTOM
            && s.trackers == map[0 := Tracker({1}, Some(v), false, BOTTOM)]
            && KEPT in s.assemblers && s.At(KEPT).payload == None
  {
    var s0 := Store(map[0 := KEPT], BOTTOM, map[KEPT := Assembler(None, None, [v])],
                    map[0 := Tracker({1}, Some(v), false, BOTTOM)]);
    assert EMPTY_STORE.TrackerAt(0) == ZERO_TRACKER && EMPTY_STORE.At(KEPT) == ZERO_ASSEMBLER;
    assert Accepts(ByProof, ZERO_TRACKER, v);
    var s := StoreAfter(ByProof, EMPTY_STORE, 0, VoteVerified(v));
    assert s == s0.Trimmed(0) by {
      assert {} + {1} == {1 as Address} && [] + [v] == [v];
    }
    hide StoreAfter, Accepts, Recent;
    KeptByTrim(s0, 0);
    TrimKeeps(s0, 0, KEPT);
    assert s0.relevant[0] == KEPT;
    TrackedIff(s0, KEPT);
  }

  lemma KeptAssembled(s: Store)
    requires KEPT in s.assemblers && s.At(KEPT).payload == None
    ensures var s' := StoreAfter(ByProof, s, 0, PayloadVerified(Payload(KEPT, 0)));
            s'.Holds(KEPT) && s'.relevant == s.relevant && s'.pinned == s.pinned && s'.trackers == s.trackers
  {
  }

  lemma EnterBottom(s: Store)
    requires StoreInv(s) && s.Holds(KEPT) && s.relevant == map[0 := KEPT] && s.pinned == BOTTOM && s.Staged(0) == BOTTOM
    ensures var s' := StoreAfter(ByProof, s, 0, NewPeriod(1, BOTTOM));
            && StoreInv(s') && s'.Holds(KEPT)
            && s'.relevant == s.relevant && s'.pinned == BOTTOM && s'.trackers == s.trackers
  {
    StoreKept(ByProof, s, 0, NewPeriod(1, BOTTOM));
    assert s.relevant[0] == KEPT;
    SurvivesIff(ByProof, s, 0, NewPeriod(1, BOTTOM), KEPT);
  }

  lemma ThresholdTracker(s: Store)
    requires StoreInv(s) && s.Holds(KEPT)
    ensures var s' := StoreAfter(ByProof, s, 1, Threshold(1, KEPT));
            s'.TrackerAt(0) == s.TrackerAt(0) && s'.Holds(KEPT)
  {
  }
}
