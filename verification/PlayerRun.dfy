/**
 Whole runs of one player over any sequence of inputs: what all its actions together promise.
 */
module PlayerRuns {
  import opened AgreementTypes
  import opened VoteTracking
  import opened VotingRules
  import opened NodeProtocol
  import opened ProposalStorage
  import opened PlayerActions
  import opened PlayerMachine

  type Lambda = x: nat | x > 0 witness 1

  datatype Input =
    | TimeoutInput(entropy: nat)
    | FastTimeoutInput(known: bool, lambda: Lambda, entropy: nat)
    | QuorumInput(e: ThresholdEvent)
    | InterruptionInput(skipped: nat)
    | VerifiedInput(pp: Payload)
    | PresentInput(round: Round, up: Payload)
    | ProposalVoteInput(v: Vote)

  /** Quorums pass the filters of the vote machines: of the current or next round, and for bottom only in next steps. */
  predicate Relayed(p: Player, e: ThresholdEvent)
    reads p
  {
    Votable(e) && (e.round == p.round || e.round == p.round + 1)
  }

  /** A timeout into a step without range panics. */
  predicate Panics(p: Player, i: Input)
    reads p
  {
    i.TimeoutInput? && !p.napping && p.step + 1 >= NEXT + 54
  }

  /** What each input makes the player do. */
  twostate predicate Responds(p: Player, i: Input, actions: seq<Action>)
    requires old(p.Valid())
    reads p
  {
    match i
    case TimeoutInput(_) => if old(Panics(p, i)) then actions == [] && unchanged(p) else p.TimedOut(actions)
    case FastTimeoutInput(known, lambda, entropy) => p.FastTimedOut(known, lambda, entropy, actions)
    case QuorumInput(e) => if old(Relayed(p, e)) then p.TookQuorum(e, actions) else actions == [] && unchanged(p)
    case InterruptionInput(skipped) => p.Interrupted(old(p.round) + 1 + skipped, actions)
    case VerifiedInput(pp) => p.TookPayload(pp, actions)
    case PresentInput(r, up) => actions == [] && p.TookPresent(r, up)
    case ProposalVoteInput(v) => actions == [] && p.TookProposalVote(v)
  }

  /** One input adds no event to those waiting but its own. */
  ghost predicate Adds(i: Input, before: map<Round, ThresholdEvent>, after: map<Round, ThresholdEvent>) {
    after == before || (i.QuorumInput? && after == before[i.e.round := i.e])
  }

  /**
   One input to the player. An interruption names a later round. `ok` is false on a panic.
   */
  method Handle(p: Player, i: Input) returns (ok: bool, actions: seq<Action>)
    requires p.Valid()
    modifies p
    ensures p.Moved(actions) && Responds(p, i, actions) && Adds(i, old(p.freshest), p.freshest)
    ensures ok <==> !old(Panics(p, i))
    ensures p.cached == if i.QuorumInput? && old(Relayed(p, i.e)) then WithQuorum(old(p.cached), i.e) else old(p.cached)
  {
    hide Player.Valid, Moves, Certified, OnFreshest, ProposesOn, Proposals, Places, WithQuorum;
    ok, actions := true, [];
    NoEnsures([], p.round);
    NoProposals([], p.round);
    match i
    case TimeoutInput(entropy) =>
      ok, actions := p.HandleTimeout(entropy);
    case FastTimeoutInput(known, lambda, entropy) =>
      actions := p.HandleFastTimeout(known, lambda, entropy);
    case QuorumInput(e) =>
      if Relayed(p, e) {
        actions := p.HandleQuorum(e);
      }
    case InterruptionInput(skipped) =>
      actions := p.HandleRoundInterruption(p.round + 1 + skipped);
    case VerifiedInput(pp) =>
      actions := p.HandlePayloadVerified(pp);
    case PresentInput(round, up) =>
      p.HandlePayloadPresent(round, up);
    case ProposalVoteInput(v) =>
      p.HandleProposalVote(v);
  }

  /** The event was waiting at the start or has been an input since. */
  ghost predicate Given(e: ThresholdEvent, start: map<Round, ThresholdEvent>, inputs: seq<Input>) {
    e in start.Values || QuorumInput(e) in inputs
  }

  /** Every event waiting was waiting at the start or has been an input since. */
  ghost predicate Known(freshest: map<Round, ThresholdEvent>, start: map<Round, ThresholdEvent>, inputs: seq<Input>) {
    forall r :: r in freshest ==> freshest[r].round == r && Given(freshest[r], start, inputs)
  }

  /** Every ensure is on an event that was waiting at the start or has been an input since. */
  ghost predicate OnKnown(actions: seq<Action>, start: map<Round, ThresholdEvent>, inputs: seq<Input>) {
    forall a :: a in actions && a.Ensure? ==> Given(a.cert, start, inputs)
  }

  /** Every proposal in a later period is what a next-threshold of the period before, given by then, calls for. */
  ghost predicate ProposesKnown(actions: seq<Action>, start: map<Round, ThresholdEvent>, inputs: seq<Input>) {
    && (forall r, p, v :: Repropose(r, p, v) in actions ==> v != BOTTOM && CalledFor(r, p, v, start, inputs))
    && (forall r, p :: Assemble(r, p) in actions && p > 0 ==> CalledFor(r, p, BOTTOM, start, inputs))
  }

  /** A next-threshold for `v` in the period before was given. */
  ghost predicate CalledFor(r: Round, p: Period, v: ProposalValue, start: map<Round, ThresholdEvent>,
                            inputs: seq<Input>)
  {
    exists e :: Given(e, start, inputs) && e.kind.NextThreshold? && e.round == r && e.period + 1 == p && e.proposal == v
  }

  lemma ProposesOnKnown(freshest: map<Round, ThresholdEvent>, start: map<Round, ThresholdEvent>, inputs: seq<Input>,
                        actions: seq<Action>)
    requires Known(freshest, start, inputs) && ProposesOn(actions, freshest)
    ensures ProposesKnown(actions, start, inputs)
  {
    hide Given;
    forall r, p, v | Repropose(r, p, v) in actions ensures v != BOTTOM && CalledFor(r, p, v, start, inputs) {
      assert Given(freshest[r], start, inputs);
    }
    forall r, p | Assemble(r, p) in actions && p > 0 ensures CalledFor(r, p, BOTTOM, start, inputs) {
      assert Given(freshest[r], start, inputs);
    }
  }

  lemma ProposalsGrow(start: map<Round, ThresholdEvent>, inputs: seq<Input>, more: seq<Input>,
                      a: seq<Action>, b: seq<Action>)
    requires ProposesKnown(a, start, inputs) && ProposesKnown(b, start, inputs + more)
    ensures ProposesKnown(a + b, start, inputs + more)
  {
    forall r, p, v | CalledFor(r, p, v, start, inputs) ensures CalledFor(r, p, v, start, inputs + more) {
      var e :| Given(e, start, inputs) && e.kind.NextThreshold? && e.round == r && e.period + 1 == p && e.proposal == v;
      assert Given(e, start, inputs + more);
    }
  }

  // ---------------------------------------------------------------- what the caches tell

  /** Input `i` of the run was a quorum that passed the filters where the player then stood. */
  ghost predicate HeardAt(inputs: seq<Input>, trail: seq<Standing>, i: nat, e: ThresholdEvent) {
    && i < |inputs| && i < |trail| && inputs[i] == QuorumInput(e)
    && Votable(e) && (e.round == trail[i].round || e.round == trail[i].round + 1)
  }

  /** A next quorum of this round and period for `v` was heard among the first `n` inputs. */
  ghost predicate NextHeard(inputs: seq<Input>, trail: seq<Standing>, n: nat, r: Round, q: Period, v: ProposalValue) {
    exists i: nat, e :: i < n && HeardAt(inputs, trail, i, e) && IsNext(e, r, q, v)
  }

  predicate IsNext(e: ThresholdEvent, r: Round, q: Period, v: ProposalValue) {
    e.kind.NextThreshold? && e.round == r && e.period == q && e.proposal == v
  }

  /** The cache of a period: bottom exactly if seen, a value exactly if some was, and then one that was. */
  ghost predicate CacheTells(c: NextStatus, start: NextStatus, inputs: seq<Input>, trail: seq<Standing>, n: nat,
                             r: Round, q: Period)
  {
    && (c.bottom <==> start.bottom || NextHeard(inputs, trail, n, r, q, BOTTOM))
    && (c.proposal == BOTTOM <==>
          start.proposal == BOTTOM && forall v :: v != BOTTOM ==> !NextHeard(inputs, trail, n, r, q, v))
    && (c.proposal == start.proposal || NextHeard(inputs, trail, n, r, q, c.proposal))
  }

  ghost predicate CachesTell(cached: map<Round, map<Period, NextStatus>>, start: map<Round, map<Period, NextStatus>>,
                             inputs: seq<Input>, trail: seq<Standing>, n: nat)
  {
    forall r, q :: CacheTells(Look(CachedIn(cached, r), q), Look(CachedIn(start, r), q), inputs, trail, n, r, q)
  }

  /** One more input. */
  lemma HeardMore(inputs: seq<Input>, trail: seq<Standing>, s: Standing, n: nat, r: Round, q: Period, v: ProposalValue)
    requires n + 1 == |trail| <= |inputs|
    ensures NextHeard(inputs, trail + [s], n + 1, r, q, v) <==>
            NextHeard(inputs, trail, n, r, q, v) ||
            (inputs[n].QuorumInput? && HeardAt(inputs, trail, n, inputs[n].e) && IsNext(inputs[n].e, r, q, v))
  {
    if i: nat, e :| i < n && HeardAt(inputs, trail, i, e) && IsNext(e, r, q, v) {
      assert HeardAt(inputs, trail + [s], i, e);
    }
    if i: nat, e :| i < n + 1 && HeardAt(inputs, trail + [s], i, e) && IsNext(e, r, q, v) {
      assert HeardAt(inputs, trail, i, e);
    }
    if inputs[n].QuorumInput? && HeardAt(inputs, trail, n, inputs[n].e) {
      assert HeardAt(inputs, trail + [s], n, inputs[n].e);
    }
  }

  lemma CacheStep(c: NextStatus, start: NextStatus, c': NextStatus, inputs: seq<Input>, trail: seq<Standing>,
                  s: Standing, n: nat, r: Round, q: Period)
    requires n + 1 == |trail| <= |inputs| && CacheTells(c, start, inputs, trail, n, r, q)
    requires c' == if inputs[n].QuorumInput? && HeardAt(inputs, trail, n, inputs[n].e)
                      && IsNext(inputs[n].e, r, q, inputs[n].e.proposal)
                   then Cache(c, inputs[n].e.proposal) else c
    ensures CacheTells(c', start, inputs, trail + [s], n + 1, r, q)
  {
    hide NextHeard, HeardAt;
    var longer, m := trail + [s], n + 1;
    var heard := inputs[n].QuorumInput? && HeardAt(inputs, trail, n, inputs[n].e);
    forall v ensures NextHeard(inputs, longer, m, r, q, v) <==>
                     NextHeard(inputs, trail, n, r, q, v) || (heard && IsNext(inputs[n].e, r, q, v))
    {
      HeardMore(inputs, trail, s, n, r, q, v);
    }
    if heard && IsNext(inputs[n].e, r, q, inputs[n].e.proposal) {
      assert NextHeard(inputs, longer, m, r, q, inputs[n].e.proposal);
    }
  }

  lemma CachesStep(cached: map<Round, map<Period, NextStatus>>, start: map<Round, map<Period, NextStatus>>,
                   cached': map<Round, map<Period, NextStatus>>, inputs: seq<Input>, trail: seq<Standing>, s: Standing,
                   n: nat)
    requires n + 1 == |trail| <= |inputs| && CachesTell(cached, start, inputs, trail, n)
    requires cached' == if inputs[n].QuorumInput? && HeardAt(inputs, trail, n, inputs[n].e)
                        then WithQuorum(cached, inputs[n].e) else cached
    ensures CachesTell(cached', start, inputs, trail + [s], n + 1)
  {
    hide CacheTells, Cache, HeardAt;
    forall r, q ensures CacheTells(Look(CachedIn(cached', r), q), Look(CachedIn(start, r), q),
                                   inputs, trail + [s], n + 1, r, q)
    {
      assert CacheTells(Look(CachedIn(cached, r), q), Look(CachedIn(start, r), q), inputs, trail, n, r, q);
      CacheStep(Look(CachedIn(cached, r), q), Look(CachedIn(start, r), q), Look(CachedIn(cached', r), q),
                inputs, trail, s, n, r, q);
    }
  }

  lemma CachesStart(cached: map<Round, map<Period, NextStatus>>, inputs: seq<Input>, trail: seq<Standing>)
    ensures CachesTell(cached, cached, inputs, trail, 0)
  {
  }

  // ---------------------------------------------------------------- whole runs

  lemma KnownGrows(before: map<Round, ThresholdEvent>, after: map<Round, ThresholdEvent>,
                   start: map<Round, ThresholdEvent>,
                   inputs: seq<Input>, i: Input, actions: seq<Action>, more: seq<Action>)
    requires Known(before, start, inputs) && OnKnown(actions, start, inputs)
    requires Adds(i, before, after) && OnFreshest(more, after)
    ensures Known(after, start, inputs + [i]) && OnKnown(actions + more, start, inputs + [i])
  {
  }

  lemma KnownIn(actions: seq<Action>, start: map<Round, ThresholdEvent>, inputs: seq<Input>, n: nat)
    requires n <= |inputs| && OnKnown(actions, start, inputs[..n]) && ProposesKnown(actions, start, inputs[..n])
    ensures OnKnown(actions, start, inputs) && ProposesKnown(actions, start, inputs)
  {
    assert inputs[..n] + inputs[n..] == inputs;
    hide ProposesKnown;
    NoneProposed(start, inputs);
    ProposalsGrow(start, inputs[..n], inputs[n..], actions, []);
    assert actions + [] == actions;
  }

  lemma NoneProposed(start: map<Round, ThresholdEvent>, inputs: seq<Input>)
    ensures ProposesKnown([], start, inputs)
  {
  }

  lemma Begins(filter0: nat, filter1: nat, s: Standing, freshest: map<Round, ThresholdEvent>)
    requires forall r :: r in freshest ==> freshest[r].round == r
    ensures ProposesKnown([], freshest, [])
    ensures Certified([], s.round, s.round) && Places([]) == [] && Advancing(filter0, filter1, [s])
    ensures Known(freshest, freshest, []) && OnKnown([], freshest, [])
  {
  }

  /** The actions of one stretch of a run after those of another. */
  lemma Appended(a: seq<Action>, b: seq<Action>, from: Round, mid: Round, to: Round)
    requires Certified(a, from, mid) && Certified(b, mid, to) && from <= mid <= to
    ensures Certified(a + b, from, to) && Places(a + b) == Places(a) + Places(b)
  {
    Joined(a, b);
  }

  /** Where the player stands and when its step ends. */
  datatype Standing = Standing(round: Round, period: Period, step: Step, napping: bool, deadline: int)

  function StandingOf(p: Player): Standing
    reads p
  {
    Standing(p.round, p.period, p.step, p.napping, p.deadline)
  }

  /** The position never goes back; nor does the deadline within a period, given filter timeouts within `filter`. */
  ghost predicate Later(filter0: nat, filter1: nat, a: Standing, b: Standing) {
    && NotAfter(a.round, a.period, a.step, b.round, b.period, b.step)
    && (a.round == b.round && a.period == b.period ==>
          NotSooner(if a.period == 0 then filter0 else filter1, a.deadline, b.step, b.deadline))
  }

  lemma MovesOn(filter0: nat, filter1: nat, a: Standing, b: Standing)
    requires NotAfter(a.round, a.period, a.step, b.round, b.period, b.step)
    requires a.round == b.round && a.period == b.period ==>
               NotSooner(if a.period == 0 then filter0 else filter1, a.deadline, b.step, b.deadline)
    ensures Later(filter0, filter1, a, b)
  {
  }

  lemma LaterStill(filter0: nat, filter1: nat, a: Standing, b: Standing, c: Standing)
    requires Later(filter0, filter1, a, b) && Later(filter0, filter1, b, c)
    ensures Later(filter0, filter1, a, c)
  {
  }

  /** Every standing of the run is later than every one before it. */
  ghost predicate Advancing(filter0: nat, filter1: nat, trail: seq<Standing>) {
    forall i, j :: 0 <= i < j < |trail| ==> Later(filter0, filter1, trail[i], trail[j])
  }

  lemma AdvancesOn(filter0: nat, filter1: nat, trail: seq<Standing>, s: Standing)
    requires Advancing(filter0, filter1, trail) && trail != []
    requires Later(filter0, filter1, trail[|trail| - 1], s)
    ensures Advancing(filter0, filter1, trail + [s])
  {
    hide Later;
    var longer := trail + [s];
    forall i, j | 0 <= i < j < |longer| ensures Later(filter0, filter1, longer[i], longer[j]) {
      if j == |trail| && i < j - 1 {
        LaterStill(filter0, filter1, trail[i], trail[j - 1], s);
      }
    }
  }

  /**
   Any sequence of inputs: the position never goes back, nor does the deadline within a period;
   every ensure carries the payload its certificate names, for a round being left, on a quorum
   that was given; a value is reproposed only after a next quorum for it was given; the caches
   show exactly the next quorums heard; and no soft or next attestation is made twice. `trail` is
   where the player stood at the start and after each input. The run stops early only on a panic.
   */
  method Run(p: Player, inputs: seq<Input>) returns (stopped: bool, actions: seq<Action>, trail: seq<Standing>)
    requires p.Valid()
    modifies p
    ensures p.Valid() && 1 <= |trail| <= |inputs| + 1 && (!stopped ==> |trail| == |inputs| + 1)
    ensures trail[0] == old(StandingOf(p)) && trail[|trail| - 1] == StandingOf(p)
    ensures Advancing(p.filter0, p.filter1, trail)
    ensures stopped <==> |trail| >= 2 && EndsIn(inputs[|trail| - 2], trail[|trail| - 2])
    ensures Certified(actions, old(p.round), p.round) && OnKnown(actions, old(p.freshest), inputs)
    ensures ProposesKnown(actions, old(p.freshest), inputs)
    ensures CachesTell(p.cached, old(p.cached), inputs, trail, |trail| - 1)
    ensures p.log == old(p.log) + Places(actions) && Distinct(old(p.log) + Places(actions)) && AttestsOnce(actions)
  {
    hide Player.Valid, Certified, OnFreshest, ProposesOn, Places, Known, OnKnown, ProposesKnown, Adds, Responds, Later,
         Advancing, Distinct, CachesTell, WithQuorum;
    stopped, actions, trail := false, [], [StandingOf(p)];
    FreshestRounds(p);
    CachesStart(p.cached, inputs, trail);
    Begins(p.filter0, p.filter1, StandingOf(p), p.freshest);
    assert inputs[..0] == [];
    for i := 0 to |inputs|
      invariant p.Valid() && |trail| == i + 1 && !stopped
      invariant trail[0] == old(StandingOf(p)) && trail[i] == StandingOf(p) && old(p.round) <= p.round
      invariant Advancing(p.filter0, p.filter1, trail)
      invariant Certified(actions, old(p.round), p.round) && p.log == old(p.log) + Places(actions)
      invariant Known(p.freshest, old(p.freshest), inputs[..i]) && OnKnown(actions, old(p.freshest), inputs[..i])
      invariant ProposesKnown(actions, old(p.freshest), inputs[..i])
      invariant CachesTell(p.cached, old(p.cached), inputs, trail, i)
      invariant i > 0 ==> !EndsIn(inputs[i - 1], trail[i - 1])
    {
      ghost var mid, f, c := p.round, p.freshest, p.cached;
      var ok, more := Handle(p, inputs[i]);
      MovesOn(p.filter0, p.filter1, trail[i], StandingOf(p));
      AdvancesOn(p.filter0, p.filter1, trail, StandingOf(p));
      Appended(actions, more, old(p.round), mid, p.round);
      KnownGrows(f, p.freshest, old(p.freshest), inputs[..i], inputs[i], actions, more);
      assert inputs[..i + 1] == inputs[..i] + [inputs[i]];
      ProposesOnKnown(p.freshest, old(p.freshest), inputs[..i + 1], more);
      ProposalsGrow(old(p.freshest), inputs[..i], [inputs[i]], actions, more);
      CachesStep(c, old(p.cached), p.cached, inputs, trail, StandingOf(p), i);
      actions, trail := actions + more, trail + [StandingOf(p)];
      assert p.log == old(p.log) + Places(actions);
      if !ok {
        stopped := true;
        KnownIn(actions, old(p.freshest), inputs, i + 1);
        break;
      }
    }
    assert inputs[..|inputs|] == inputs;
    LogDistinct(p);
    DistinctTail(old(p.log), Places(actions));
    PlacedOnce(actions);
  }

  /** A timeout there panics. */
  predicate EndsIn(i: Input, s: Standing) {
    i.TimeoutInput? && !s.napping && s.step + 1 >= NEXT + 54
  }

  lemma FreshestRounds(p: Player)
    requires p.Valid()
    ensures forall r :: r in p.freshest ==> p.freshest[r].round == r
  {
  }

  lemma LogDistinct(p: Player)
    requires p.Valid()
    ensures Distinct(p.log)
  {
  }

  /** No two attestations of soft or next steps are made in one round, period and step. */
  ghost predicate AttestsOnce(actions: seq<Action>) {
    forall i, j :: 0 <= i < j < |actions| && actions[i].Attest? && actions[j].Attest?
                   && (actions[i].step == SOFT || NEXT <= actions[i].step < LATE) ==>
      !(actions[i].round == actions[j].round && actions[i].period == actions[j].period
        && actions[i].step == actions[j].step)
  }

  lemma {:induction false} PlacedIn(actions: seq<Action>, i: nat)
    requires i < |actions| && actions[i].Attest? && (actions[i].step == SOFT || NEXT <= actions[i].step < LATE)
    ensures Place(actions[i].round, actions[i].period, actions[i].step) in Places(actions)
  {
    if i < |actions| - 1 {
      PlacedIn(actions[..|actions| - 1], i);
    }
  }

  lemma {:induction false} PlacedOnce(actions: seq<Action>)
    requires Distinct(Places(actions))
    ensures AttestsOnce(actions)
  {
    if actions != [] {
      var n := |actions| - 1;
      var before, last := actions[..n], actions[n];
      assert Places(actions) == Places(before) + Places([last]) by {
        assert actions == before + [last];
        Joined(before, [last]);
      }
      DistinctHead(Places(before), Places([last]));
      PlacedOnce(before);
      forall i | 0 <= i < n && actions[i].Attest? && last.Attest?
                 && (actions[i].step == SOFT || NEXT <= actions[i].step < LATE)
        ensures !(actions[i].round == last.round && actions[i].period == last.period && actions[i].step == last.step)
      {
        PlacedIn(before, i);
        if actions[i].step == last.step {
          PlacedIn([last], 0);
          Apart(Places(before), Places([last]), Place(actions[i].round, actions[i].period, actions[i].step));
        }
      }
      forall i | 0 <= i < n ensures actions[i] == before[i] {}
    }
  }

  lemma DistinctHead(a: seq<Place>, b: seq<Place>)
    requires Distinct(a + b)
    ensures Distinct(a)
  {
    forall i, j | 0 <= i < j < |a| ensures a[i] != a[j] {
      assert (a + b)[i] == a[i] && (a + b)[j] == a[j];
    }
  }

  lemma Apart(a: seq<Place>, b: seq<Place>, x: Place)
    requires Distinct(a + b) && x in a
    ensures x !in b
  {
    var i :| 0 <= i < |a| && a[i] == x;
    forall j | 0 <= j < |b| ensures b[j] != x {
      assert (a + b)[i] == a[i] && (a + b)[|a| + j] == b[j];
    }
  }

  lemma DistinctTail(a: seq<Place>, b: seq<Place>)
    requires Distinct(a + b)
    ensures Distinct(b)
  {
    forall i, j | 0 <= i < j < |b| ensures b[i] != b[j] {
      assert (a + b)[|a| + i] == b[i] && (a + b)[|a| + j] == b[j];
    }
  }

  /**
   From the start of a player, every ensure is on a certificate given, and every soft and next
   attestation is made once.
   */
  method RunFromStart(output: Credential -> nat, filter0: nat, filter1: nat, round: Round, inputs: seq<Input>)
    returns (actions: seq<Action>)
    ensures AttestsOnce(actions)
    ensures forall a :: a in actions && a.Ensure? ==>
              a.cert.round >= round && Certifies(a, a.cert.round) && QuorumInput(a.cert) in inputs
    ensures forall r: Round, p: Period, v :: Repropose(r, p, v) in actions ==>
              v != BOTTOM && exists e :: QuorumInput(e) in inputs && p > 0 && IsNext(e, r, p - 1, v)
  {
    var p := new Player(output, filter0, filter1, round);
    var _, all, _ := Run(p, inputs);
    actions := all;
  }
}
