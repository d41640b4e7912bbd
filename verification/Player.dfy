/**
 The player: the top-level machine of rounds, periods and steps. It reads and updates the
 machines below it through values: the proposal store of each round, the freshest threshold
 event of each round and the next-threshold cache of each period.
 */
module PlayerMachine {
  import opened AgreementTypes
  import opened Deadlines
  import opened VoteTracking
  import opened Freshness
  import opened VotingRules
  import opened NodeProtocol
  import opened ProposalStorage
  import opened PlayerView
  import opened PlayerActions

  /** Nothing but resynchronisation messages. */
  ghost predicate OnlyBroadcasts(actions: seq<Action>) {
    forall a :: a in actions ==> a.BroadcastBundle? || a.BroadcastPayload?
  }

  /** Resynchronisation messages, then exactly the given actions. */
  ghost predicate EndsWith(actions: seq<Action>, tail: seq<Action>) {
    && |tail| <= |actions| && actions[|actions| - |tail|..] == tail
    && OnlyBroadcasts(actions[..|actions| - |tail|])
  }

  // ---------------------------------------------------------------- where the player stands

  predicate NotAfter(r: Round, p: Period, s: Step, r': Round, p': Period, s': Step) {
    r < r' || (r == r' && (p < p' || (p == p' && s <= s')))
  }

  /** Soft and next attestations happen only where the player has been. */
  predicate Behind(a: Place, round: Round, period: Period, step: Step, napping: bool) {
    || a.round < round
    || (a.round == round && a.period < period)
    || (a.round == round && a.period == period
        && (if a.step == SOFT then step >= CERT
            else NEXT <= a.step <= step && (a.step == step ==> !napping)))
  }

  ghost predicate LogOk(log: seq<Place>, round: Round, period: Period, step: Step, napping: bool) {
    && (forall i :: 0 <= i < |log| ==> Behind(log[i], round, period, step, napping))
    && Distinct(log)
  }

  /** A store whose round has not been entered: at most one value, of period 0, nothing staged, no block. */
  ghost predicate Waiting(s: Store) {
    s.relevant.Keys <= {0} && s.pinned == BOTTOM && StagedIn(s) == map[] && BlocksIn(s) == {}
  }

  ghost predicate StoresOk(stores: map<Round, Store>, round: Round) {
    forall r :: r in stores ==> StoreInv(stores[r]) && (r > round ==> Waiting(stores[r]))
  }

  /** Verified soft and cert votes are never for bottom. */
  predicate Votable(e: ThresholdEvent) {
    !e.kind.NextThreshold? ==> e.proposal != BOTTOM
  }

  ghost predicate FreshestOk(freshest: map<Round, ThresholdEvent>, cached: map<Round, map<Period, NextStatus>>) {
    forall r :: r in freshest ==>
      freshest[r].round == r && Votable(freshest[r]) && Noted(CachedIn(cached, r), freshest[r])
  }

  /** A later period was entered on the freshest event, which is of that period or the one before. */
  ghost predicate PeriodOk(freshest: map<Round, ThresholdEvent>, round: Round, period: Period, live: bool) {
    && (period > 0 ==> round in freshest)
    && (round in freshest && !freshest[round].kind.CertThreshold? ==> freshest[round].period + 1 >= period)
    && (live && round in freshest ==> KeptPeriod(freshest[round].period, period))
  }

  /** A player in period `cur` still has the machines of period `q`. */
  predicate KeptPeriod(q: Period, cur: Period) {
    q + 1 >= cur || q <= 1
  }

  /** The deadline within its step, for the steps whose range does not overflow. */
  ghost predicate DeadlineOk(filter: nat, step: Step, napping: bool, deadline: int) {
    && (step == SOFT ==> deadline == filter)
    && (step == CERT ==> deadline == DEADLINE_TIMEOUT)
    && (NEXT <= step <= NEXT + 31 ==>
          if napping then ExactLower(step) <= deadline < ExactUpper(step) else deadline == ExactUpper(step))
  }

  /** A deadline does not go back, for the steps whose range does not overflow. */
  ghost predicate NotSooner(filter: nat, before: int, step: Step, after: int) {
    filter <= DEADLINE_TIMEOUT && step <= NEXT + 31 ==> before <= after
  }

  /** The rounds ahead for which a threshold event is waiting. */
  ghost function Ahead(freshest: map<Round, ThresholdEvent>, round: Round): set<Round> {
    set r | r in freshest && r > round
  }

  lemma FewerAhead(freshest: map<Round, ThresholdEvent>, round: Round, target: Round)
    requires target > round && target in freshest
    ensures |Ahead(freshest, target)| < |Ahead(freshest, round)|
  {
    Fewer(Ahead(freshest, target), Ahead(freshest, round), target);
  }

  lemma Fewer(a: set<Round>, b: set<Round>, x: Round)
    requires a <= b && x in b && x !in a
    ensures |a| < |b|
  {
    var c := b - {x};
    assert a <= c;
    SubsetSize(a, c);
  }

  lemma {:induction false} SubsetSize(a: set<Round>, b: set<Round>)
    requires a <= b
    ensures |a| <= |b|
    decreases a
  {
    if x :| x in a {
      SubsetSize(a - {x}, b - {x});
    }
  }

  class Player {
    const output: Credential -> nat
    /** The filter timeouts of period 0 and of later periods. */
    const filter0: nat
    const filter1: nat

    var round: Round
    var period: Period
    var step: Step
    var lastConcluding: Step
    var deadline: int
    var napping: bool
    var fastDeadline: int

    var stores: map<Round, Store>
    var freshest: map<Round, ThresholdEvent>
    var cached: map<Round, map<Period, NextStatus>>

    /** The cache of the previous period when each period's soft timeout passed. */
    ghost var atSoft: map<Period, NextStatus>
    /** The soft and next attestations so far. */
    ghost var log: seq<Place>
    /** No quorum handled so far was of a period whose machines were gone. */
    ghost var live: bool

    function StoreOf(r: Round): Store
      reads this
    {
      if r in stores then stores[r] else EMPTY_STORE
    }

    function CachedOf(r: Round): map<Period, NextStatus>
      reads this
    {
      CachedIn(cached, r)
    }

    function FilterTimeout(p: Period): nat {
      if p == 0 then filter0 else filter1
    }

    ghost predicate Valid()
      reads this
    {
      && SOFT <= step < NEXT + 54 && (napping ==> step > NEXT) && fastDeadline >= 0
      && StoresOk(stores, round) && FreshestOk(freshest, cached) && PeriodOk(freshest, round, period, live)
      && LogOk(log, round, period, step, napping)
      && DeadlineOk(FilterTimeout(period), step, napping, deadline)
    }

    /** The player as a node of the network model. */
    ghost function Abs(): Node
      reads this
    {
      Node(true, period, step, napping, CachedOf(round), StagedIn(StoreOf(round)), BlocksIn(StoreOf(round)), atSoft)
    }

    /** What the network sees of the player. */
    ghost function View(): Snap
      reads this
    {
      Snap(round, Abs(), freshest, cached)
    }

    /**
     What every handler does: the position never goes back, nor does the deadline within a
     period, every ensure is certified for a round being left by the freshest event there, every
     proposal is called for, and the log grows by exactly the soft and next attestations made.
     */
    twostate predicate Moved(actions: seq<Action>)
      reads this
    {
      && Valid() && NotAfter(old(round), old(period), old(step), round, period, step)
      && Certified(actions, old(round), round) && OnFreshest(actions, freshest) && ProposesOn(actions, freshest)
      && log == old(log) + Places(actions)
      && (round == old(round) && period == old(period) ==>
            NotSooner(FilterTimeout(period), old(deadline), step, deadline))
    }

    constructor (output: Credential -> nat, filter0: nat, filter1: nat, round: Round)
      ensures Valid() && View() == Snap(round, FRESH_NODE, map[], map[]) && stores == map[] && log == [] && live
      ensures this.output == output && this.filter0 == filter0 && this.filter1 == filter1
    {
      this.output, this.filter0, this.filter1 := output, filter0, filter1;
      this.round, period, step, lastConcluding, napping := round, 0, SOFT, 0, false;
      deadline, fastDeadline := filter0, 0;
      stores, freshest, cached, atSoft, log, live := map[], map[], map[], map[], [], true;
    }

    lemma StoreOk(r: Round)
      requires StoresOk(stores, round)
      ensures StoreInv(StoreOf(r)) && (r > round ==> Waiting(StoreOf(r)))
    {
    }

    // -------------------------------------------------------------- timeouts

    /** The frozen proposal of the current period. */
    function Frozen(): ProposalValue
      reads this
    {
      FrozenValue(StoreOf(round).TrackerAt(period))
    }

    function Previous(): NextStatus
      reads this
    {
      Before(CachedOf(round), period)
    }

    predicate Partitioned()
      reads this
    {
      step >= NEXT + 3 || period >= 3
    }

    /** The period whose staged block a resynchronising player repeats, if any. */
    function ResyncPeriod(): (r: Option<Period>)
      reads this
      ensures forall q: Period :: r == Some(q) <==> RepeatPeriod(q)
    {
      if round in freshest && freshest[round].proposal != BOTTOM then Some(freshest[round].period)
      else if period == 0 then Some(period)
      else None
    }

    /**
     The block to repeat: the committable one of the freshest event's period if that event is for
     a value, or of period 0 while there; without one, the pinned block.
     */
    ghost predicate RepeatDue(pp: ProposalStorage.Payload)
      reads this
    {
      var s := StoreOf(round);
      exists q :: RepeatPeriod(q) &&
        if exists v :: Ready(s, q, v) then exists v :: Ready(s, q, v) && s.assemblers[v].payload == Some(pp)
        else HasBlock(s, s.pinned) && s.assemblers[s.pinned].payload == Some(pp)
    }

    ghost predicate RepeatPeriod(q: Period)
      reads this
    {
      if round in freshest && freshest[round].proposal != BOTTOM then q == freshest[round].period
      else q == 0 && period == 0
    }

    lemma RepeatsWhich(q: Period, pp: ProposalStorage.Payload)
      requires StoresOk(stores, round) && RepeatPeriod(q)
      ensures var s := StoreOf(round);
              RepeatDue(pp) <==> if s.Committable(q) then s.At(s.Staged(q)).payload == Some(pp)
                                 else s.At(s.pinned).payload == Some(pp)
    {
      hide StoresOk, StoreInv, CommittableIn;
      var s := StoreOf(round);
      StoreOk(round);
      ReadyIs(s, q);
      CommittableSays(s, q);
    }

    /** What a resynchronising player repeats: the freshest bundle and a staged or pinned block. */
    method PartitionPolicy() returns (actions: seq<Action>)
      requires StoresOk(stores, round)
      ensures OnlyBroadcasts(actions)
      ensures step < NEXT + 3 && period < 3 ==> actions == []
      ensures step >= NEXT + 3 || period >= 3 ==> (round in freshest <==> exists e :: BroadcastBundle(e) in actions)
      ensures forall a :: a in actions && a.BroadcastBundle? ==> round in freshest && a.event == freshest[round]
      ensures forall a :: a in actions && a.BroadcastPayload? ==>
                var s := StoreOf(round);
                a.payload.value == s.pinned || exists q :: s.Committable(q) && a.payload.value == s.Staged(q)
      ensures step >= NEXT + 3 || period >= 3 ==>
                forall pp :: BroadcastPayload(pp) in actions <==> RepeatDue(pp)
    {
      actions := [];
      if !Partitioned() {
        return;
      }
      var q := period;
      var valued := false;
      if round in freshest {
        actions := [BroadcastBundle(freshest[round])];
        if freshest[round].proposal != BOTTOM {
          q, valued := freshest[round].period, true;
        }
      }
      if valued || period == 0 {
        var s := StoreOf(round);
        assert StoreInv(s) && RepeatPeriod(q);
        forall pp { RepeatsWhich(q, pp); }
        if s.Committable(q) {
          StagedPayload(s, q);
          actions := actions + [BroadcastPayload(s.At(s.Staged(q)).payload.value)];
        } else if s.Holds(s.pinned) {
          actions := actions + [BroadcastPayload(s.At(s.pinned).payload.value)];
        }
      }
    }

    method IssueSoftVote() returns (actions: seq<Action>)
      requires Valid() && step == SOFT
      modifies this`stores, this`deadline
      ensures StoresOk(stores, round) && deadline == DEADLINE_TIMEOUT
      ensures Abs() == old(Abs()) && StoreOf(round).TrackerAt(period).frozen
      ensures stores == old(stores)[round := StoreAfter(output, old(StoreOf(round)), period, Freeze(period))]
      ensures var c := SoftChoice(period, old(Frozen()), Previous());
              actions == VoteSeq(round, if c.None? then None else Some(Cast(period, SOFT, c.value)))
      ensures SoftVoted(actions, round, CachedOf(round), old(StoreOf(round)), period) && Unproposing(actions)
    {
      var s := StoreOf(round);
      var frozen := FrozenValue(s.TrackerAt(period));
      ViewFreeze(output, s, period);
      stores := stores[round := StoreAfter(output, s, period, Freeze(period))];
      deadline := DEADLINE_TIMEOUT;
      var next := Before(CachedOf(round), period);
      if period > 0 && !next.bottom && next.proposal != BOTTOM {
        actions := [Attest(round, period, SOFT, next.proposal)];
      } else if frozen == BOTTOM {
        actions := [];
      } else if period > frozen.originalPeriod {
        if next.proposal != BOTTOM && next.proposal == frozen {
          actions := [Attest(round, period, SOFT, frozen)];
        } else {
          actions := [];
        }
      } else {
        actions := [Attest(round, period, SOFT, frozen)];
      }
      SoftSays(actions, round, CachedOf(round), s, period);
    }

    method IssueNextVote() returns (actions: seq<Action>)
      requires StoresOk(stores, round)
      modifies this`napping, this`deadline
      ensures !napping && deadline == Wrap(ExactUpper(step))
      ensures var c := Cast(period, step, NextChoice(CommittableIn(StoreOf(round), period), Previous()));
              EndsWith(actions, VoteSeq(round, Some(c)))
    {
      hide OnlyBroadcasts, Wrap, Pow2;
      actions := PartitionPolicy();
      var value := BOTTOM;
      var s := StoreOf(round);
      if s.Committable(period) {
        value := s.Staged(period);
      } else {
        var next := Before(CachedOf(round), period);
        if !next.bottom {
          value := next.proposal;
        }
      }
      ghost var before := actions;
      actions := actions + [Attest(round, period, step, value)];
      assert actions[..|before|] == before && actions[|before|..] == VoteSeq(round, Some(Cast(period, step, value)));
      var _, upper := NextVoteRanges(step);
      napping, deadline := false, upper;
    }

    /** What every timeout does: it stays in the period and reacts as the model does. */
    twostate predicate TimedOut(actions: seq<Action>)
      reads this
    {
      && Moved(actions) && round == old(round) && period == old(period)
      && Moves(old(View()), Timeout(old(Frozen())), View(), actions)
      && freshest == old(freshest) && cached == old(cached) && live == old(live)
      && (old(step) == SOFT ==> StoreOf(round).TrackerAt(period).frozen)
      && stores == (if old(step) == SOFT
                    then old(stores)[round := StoreAfter(output, old(StoreOf(round)), period, Freeze(period))]
                    else old(stores))
      && TimeoutVote(actions) && Unproposing(actions)
    }

    /** Where a timeout leads, and exactly what is attested there. */
    twostate predicate TimeoutVote(actions: seq<Action>)
      reads this
    {
      var c, s := old(CachedOf(round)), old(StoreOf(round));
      if old(step) == SOFT then
        step == CERT && SoftVoted(actions, round, c, s, period)
      else if old(step) == CERT || old(napping) then
        && step == (if old(step) == CERT then NEXT else old(step)) && !napping
        && NextVoted(actions, round, c, s, period, step)
      else
        step == old(step) + 1 && napping && actions == []
    }

    method SoftTimeout() returns (actions: seq<Action>)
      requires Valid() && step == SOFT
      modifies this
      ensures TimedOut(actions)
    {
      hide Behind, LogOk, StagedIn, BlocksIn, StoresOk, FreshestOk, Follows, React, SoftChoice, Votes, Ensures,
           Places, VoteSeq, Certified, OnFreshest, ProposesOn, Proposals, PeriodOk, StoreAfter, Store.TrackerAt,
           FrozenValue, Before, Distinct;
      ghost var n, f := Abs(), Frozen();
      actions := IssueSoftVote();
      ghost var c := SoftChoice(period, f, Previous());
      SoftLog(log, round, period, napping, if c.None? then None else Some(Cast(period, SOFT, c.value)));
      step, atSoft, log := CERT, atSoft[period := Previous()], log + Places(actions);
      assert Abs() == n.(step := CERT, atSoft := atSoft);
      ModelSoft(n, f);
      NoEnsures(actions, round);
      NoProposals(actions, round);
    }

    /** Moves to the given next step, if not there yet, and votes. */
    method NextTimeout(ghost to: Step) returns (actions: seq<Action>)
      requires Valid() && (step == CERT || napping) && to == if step == CERT then NEXT else step
      modifies this
      ensures TimedOut(actions)
    {
      hide Behind, Wrap, Pow2, LogOk, StagedIn, BlocksIn, StoresOk, FreshestOk, StoreInv, Follows, React,
           CommittableIn, NextChoice, Votes, Ensures, Places, VoteSeq, Certified, OnFreshest, ProposesOn, Proposals,
           EndsWith;
      StoreOk(round);
      CommittableIff(StoreOf(round), period);
      if step <= NEXT + 31 { NoOverflow(to); }
      ghost var n, f, s := Abs(), Frozen(), StoreOf(round);
      if step == CERT {
        step := NEXT;
      }
      actions := IssueNextVote();
      ghost var c := Cast(period, step, NextChoice(CommittableIn(StoreOf(round), period), Previous()));
      EndSays(actions, round, c);
      NextLog(log, round, period, old(step), old(napping), to, c);
      log := log + Places(actions);
      assert Abs() == n.(step := step, napping := false);
      ModelNext(n, f);
      NoEnsures(actions, round);
      NextSays(actions, round, CachedOf(round), s, period, step);
      NoProposals(actions, round);
    }

    /** Enters the next step and naps; false is the panic on a range of length zero. */
    method Nap(entropy: nat) returns (ok: bool)
      requires Valid() && step >= NEXT && !napping
      modifies this`step, this`napping, this`deadline
      ensures ok <==> old(step) + 1 < NEXT + 54
      ensures Moved([]) && (ok ==> TimedOut([])) && (!ok ==> unchanged(this))
    {
      hide Wrap, Pow2, Behind, LogOk, StagedIn, BlocksIn, StoresOk, FreshestOk, Follows, React, Certified, OnFreshest,
           ProposesOn, Proposals;
      var s := step + 1;
      var lower, upper := NextVoteRanges(s);
      var span := (upper - lower) % UINT64;
      assert span == Span(s);
      SpanZeroIff(s);
      NoEnsures([], round);
      NoProposals([], round);
      if span == 0 {
        return false;
      }
      NapLog(log, round, period, step);
      ghost var n, f := Abs(), Frozen();
      if s <= NEXT + 31 { RandomDeadline(s, entropy); }
      step, napping := s, true;
      deadline := Wrap(lower + Wrap(entropy % span));
      assert Abs() == n.(step := s, napping := true);
      ModelNap(n, f);
      return true;
    }

    /**
     A timeout in the current step. Entering step next+54 or later would reduce by a range of
     length zero, which panics: `ok` is false.
     */
    method HandleTimeout(entropy: nat) returns (ok: bool, actions: seq<Action>)
      requires Valid()
      modifies this
      ensures ok <==> old(napping) || old(step) + 1 < NEXT + 54
      ensures Moved(actions) && (ok ==> TimedOut(actions))
      ensures !ok ==> actions == [] && unchanged(this)
    {
      hide Moved, Moves;
      if step == SOFT {
        actions := SoftTimeout();
        ok := true;
      } else if step == CERT {
        actions := NextTimeout(NEXT);
        ok := true;
      } else if napping {
        actions := NextTimeout(step);
        ok := true;
      } else {
        actions := [];
        ok := Nap(entropy);
      }
    }

    /** The first timeout of a period only sets a deadline; later ones vote. */
    twostate predicate FastTimedOut(known: bool, lambda: nat, entropy: nat, actions: seq<Action>)
      requires lambda > 0
      reads this
    {
      && View() == old(View())
      && (!known ==> actions == [] && fastDeadline == old(fastDeadline))
      && (known && old(fastDeadline) == 0 ==> actions == [] && fastDeadline == lambda + entropy % lambda)
      && (known && old(fastDeadline) != 0 ==>
            && NextMultiple(old(fastDeadline), lambda, fastDeadline - entropy % lambda)
            && Moves(View(), FastTimeout, View(), actions)
            && FastVoted(actions, round, CachedOf(round), StoreOf(round), period))
      && Unproposing(actions)
    }

    method HandleFastTimeout(known: bool, lambda: nat, entropy: nat) returns (actions: seq<Action>)
      requires Valid() && lambda > 0
      modifies this`fastDeadline
      ensures Moved(actions) && FastTimedOut(known, lambda, entropy, actions)
    {
      hide Moves, Certified, OnFreshest, ProposesOn, Proposals, Places, Votes, Ensures, StoresOk, FreshestOk,
           PeriodOk, LogOk, DeadlineOk;
      NoEnsures([], round);
      NoProposals([], round);
      if !known {
        return [];
      }
      var k := (fastDeadline + lambda - 1) / lambda;
      RoundUp(fastDeadline, lambda);
      var lower := k * lambda;
      var delta := entropy % lambda;
      if fastDeadline == 0 {
        fastDeadline := lower + delta + lambda;
        return [];
      }
      fastDeadline := lower + delta;
      actions := IssueFastVote();
    }

    method IssueFastVote() returns (actions: seq<Action>)
      requires StoresOk(stores, round)
      ensures Moves(View(), FastTimeout, View(), actions) && Places(actions) == []
      ensures Certified(actions, round, round) && OnFreshest(actions, freshest) && ProposesOn(actions, freshest)
      ensures FastVoted(actions, round, CachedOf(round), StoreOf(round), period) && Unproposing(actions)
    {
      hide StagedIn, BlocksIn, StoresOk, StoreInv, Votes, Ensures, Places, Certified, OnFreshest, ProposesOn,
           Proposals, VoteSeq;
      StoreOk(round);
      actions := PartitionPolicy();
      var s := StoreOf(round);
      CommittableIff(s, period);
      var vote, value := DOWN, BOTTOM;
      if s.Committable(period) {
        vote, value := LATE, s.Staged(period);
      } else {
        var next := Before(CachedOf(round), period);
        if !next.bottom {
          vote, value := REDO, next.proposal;
        }
      }
      if value == BOTTOM {
        vote := DOWN;
      }
      FastSays(actions, round, Cast(period, vote, value));
      actions := actions + [Attest(round, period, vote, value)];
      NoEnsures(actions, round);
      FastSaysWhich(actions, round, CachedOf(round), s, period);
      NoProposals(actions, round);
    }

    // -------------------------------------------------------------- thresholds

    /** The proposal manager's part: move to a later period first, then stage a soft or cert value. */
    method StageThreshold(e: ThresholdEvent) returns (committable: bool)
      requires StoresOk(stores, round) && e.round == round && Votable(e)
      modifies this`stores
      ensures StoresOk(stores, round)
      ensures StagedIn(StoreOf(round)) ==
              if e.kind.NextThreshold? then old(StagedIn(StoreOf(round)))
              else old(StagedIn(StoreOf(round)))[e.period := e.proposal]
      ensures BlocksIn(StoreOf(round)) <= old(BlocksIn(StoreOf(round)))
      ensures e.proposal in BlocksIn(StoreOf(round)) <==> e.proposal in old(BlocksIn(StoreOf(round)))
      ensures committable <==> !e.kind.NextThreshold? && e.proposal in old(BlocksIn(StoreOf(round)))
      ensures !e.kind.NextThreshold? ==> StoreOf(round).Staged(e.period) == e.proposal
      ensures committable ==> StoreOf(round).Committable(e.period)
      ensures stores == old(stores)[round := Staging(output, old(StoreOf(round)), period, e)]
    {
      hide StoresOk, StoreInv, StoreAfter, StagedIn, BlocksIn, Store.Committable;
      StoreOk(round);
      var s := StoreOf(round);
      if e.kind.NextThreshold? {
        ViewNewPeriod(output, s, period, e.period + 1, e.proposal);
        s := StoreAfter(output, s, period, NewPeriod(e.period + 1, e.proposal));
        committable := false;
      } else {
        if period < e.period {
          ViewNewPeriod(output, s, period, e.period, e.proposal);
          s := StoreAfter(output, s, period, NewPeriod(e.period, e.proposal));
        }
        ViewThreshold(output, s, period, e.period, e.proposal);
        s := StoreAfter(output, s, period, Threshold(e.period, e.proposal));
        committable := s.Committable(e.period);
      }
      StoreSet(stores, round, s);
      stores := stores[round := s];
    }

    /** Enters a later period of the round. */
    method EnterPeriod(e: ThresholdEvent, target: Period) returns (actions: seq<Action>)
      requires Valid() && round in freshest && freshest[round] == e
      requires period < target <= e.period + 1 && (e.kind.CertThreshold? ==> target == e.period)
      modifies this`stores, this`lastConcluding, this`period, this`step, this`napping, this`fastDeadline, this`deadline
      ensures Valid() && step == SOFT && deadline == filter1
      ensures var n := old(Abs()).Enter(target);
              && Abs().blocks <= n.blocks && (e.proposal in Abs().blocks <==> e.proposal in n.blocks)
              && Abs() == n.(staged := if e.kind.NextThreshold? then n.staged else n.staged[e.period := e.proposal],
                             blocks := Abs().blocks)
      ensures var c := if !e.kind.NextThreshold? && e.proposal in old(Abs()).blocks
                       then Some(Cast(target, CERT, e.proposal)) else None;
              Votes(actions) == VoteSeq(round, c) && Ensures(actions) == [] && Places(actions) == []
      ensures lastConcluding == old(step) && fastDeadline == 0
      ensures stores == old(stores)[round := Staging(output, old(StoreOf(round)), old(period), e)]
      ensures var committable := !e.kind.NextThreshold? && e.proposal in old(Abs()).blocks;
              EndsWith(actions, [Rezero(round)] + EntryActions(round, target, e, committable))
      ensures (e.kind.NextThreshold? ==> target == e.period + 1) ==> Proposals(actions, round, Some(e), false)
    {
      hide StoresOk, FreshestOk, Behind, LogOk, StagedIn, BlocksIn, Store.Committable, OnlyBroadcasts, Votes, Ensures,
           Places, VoteSeq, EndsWith, EntryActions, Staging, StoreAfter, StoreInv, PeriodOk, Proposals;
      FreshestAt(freshest, cached, round);
      PeriodEntered(freshest, round, period, live, target);
      actions := PartitionPolicy();
      LaterLog(log, round, period, step, napping, round, target);
      var committable := StageThreshold(e);
      lastConcluding := step;
      period, step, napping, fastDeadline := target, SOFT, false, 0;
      deadline := FilterTimeout(target);
      EntrySays(actions, round, target, e, committable);
      actions := actions + [Rezero(round)] + EntryActions(round, target, e, committable);
    }

    /** What handling the freshest event of the round comes to. */
    twostate predicate Handled(e: ThresholdEvent, actions: seq<Action>)
      reads this
    {
      && Moved(actions) && freshest == old(freshest) && cached == old(cached) && log == old(log) && live == old(live)
      && Votes(actions) == VoteSeq(old(round), React(old(Abs()), Seen(e, true)).vote)
      && (old(Remembered(CachedOf(round), e)) ==> Moves(old(View()), Seen(e, true), View(), actions))
      && (round != old(round) <==> e.kind.CertThreshold? && e.proposal in old(Abs()).blocks)
      && CertVotedIf(actions, old(round), e.period, e.proposal, old(CertVoteDue(e)))
      && (if round == old(round) then
            && Ensures(actions) == [] && StagedOnly(e)
            && Proposals(actions, round, if old(period) <= e.period then Some(e) else None, false)
          else
            && |Ensures(actions)| == 1 && Certifies(Ensures(actions)[0], old(round)) && Ensures(actions)[0].cert == e
            && Proposals(actions, round, FreshestOf(round), true))
    }

    /** A soft quorum calls for a cert vote if its block is there and its period is ahead or not past step cert. */
    ghost predicate CertVoteDue(e: ThresholdEvent)
      reads this
    {
      && e.kind.SoftThreshold? && HasBlock(StoreOf(round), e.proposal)
      && (period < e.period || (period == e.period && step <= CERT))
    }

    /** Within its round the player staged the event in that round's store, and started a period or changed no clock. */
    twostate predicate StagedOnly(e: ThresholdEvent)
      reads this
    {
      && (forall r :: StoreOf(r) ==
                      if r == round then Handling(output, old(StoreOf(r)), old(period), e) else old(StoreOf(r)))
      && (var q := if e.kind.NextThreshold? then e.period + 1 else e.period;
          period == if old(period) < q then q else old(period))
      && if period == old(period)
         then
           && step == old(step) && napping == old(napping)
           && deadline == old(deadline) && fastDeadline == old(fastDeadline) && lastConcluding == old(lastConcluding)
         else
           && step == SOFT && !napping
           && deadline == filter1 && fastDeadline == 0 && lastConcluding == old(step)
    }

    /** A threshold event of the current round, passed up by the vote machines. */
    method HandleThreshold(e: ThresholdEvent) returns (actions: seq<Action>)
      requires Valid() && round in freshest && freshest[round] == e
      modifies this
      ensures Handled(e, actions)
      decreases |Ahead(freshest, round)|, 3
    {
      hide Handled;
      match e.kind
      case CertThreshold => actions := HandleCertThreshold(e);
      case SoftThreshold => actions := HandleSoftThreshold(e);
      case NextThreshold => actions := HandleNextThreshold(e);
    }

    method HandleNextThreshold(e: ThresholdEvent) returns (actions: seq<Action>)
      requires Valid() && round in freshest && freshest[round] == e && e.kind.NextThreshold?
      modifies this
      ensures Handled(e, actions) && round == old(round)
    {
      hide Follows, React, Votes, Ensures, Places, VoteSeq, Certified, LogOk, StoresOk, FreshestOk, StagedIn,
           BlocksIn, EndsWith, DeadlineOk, PeriodOk, Staging, OnFreshest, ProposesOn, Proposals;
      ghost var n, s := Abs(), StoreOf(round);
      if period > e.period {
        actions := [];
        ModelStay(n, n, e);
        NoVote(round);
        NoProposals(actions, round);
      } else {
        actions := EnterPeriod(e, e.period + 1);
        ModelEnter(n, Abs(), e);
        ProposalsAreOn(actions, round, Some(e), false, freshest);
      }
      NoEnsures(actions, round);
      CertSays(actions, round, n, e, s);
    }

    method HandleSoftThreshold(e: ThresholdEvent) returns (actions: seq<Action>)
      requires Valid() && round in freshest && freshest[round] == e && e.kind.SoftThreshold?
      modifies this
      ensures Handled(e, actions) && round == old(round)
    {
      hide Follows, React, Votes, Ensures, Places, VoteSeq, Certified, LogOk, StoresOk, FreshestOk, StagedIn,
           BlocksIn, EndsWith, DeadlineOk, PeriodOk, Staging, OnFreshest, ProposesOn, Proposals, Store.Committable;
      ghost var n, s := Abs(), StoreOf(round);
      if period > e.period {
        ModelStay(n, n, e);
        NoVote(round);
        NoEnsures([], round);
        NoProposals([], round);
        CertSays([], round, n, e, s);
        return [];
      }
      if period < e.period {
        actions := EnterPeriod(e, e.period);
        ModelEnter(n, Abs(), e);
        NoEnsures(actions, round);
        ProposalsAreOn(actions, round, Some(e), false, freshest);
        CertSays(actions, round, n, e, s);
        return;
      }
      FreshestAt(freshest, cached, round);
      var committable := StageThreshold(e);
      actions := IssueCertVote(committable && step <= CERT, e.proposal);
      ModelStage(n, Abs(), e.proposal);
      NoEnsures(actions, round);
      UnpromptedProposals(actions, round, e);
      CertSays(actions, round, n, e, s);
    }

    method IssueCertVote(vote: bool, value: ProposalValue) returns (actions: seq<Action>)
      ensures actions == VoteSeq(round, if vote then Some(Cast(period, CERT, value)) else None)
      ensures Votes(actions) == actions && Ensures(actions) == [] && Places(actions) == [] && Unproposing(actions)
    {
      OnlyVote(round, if vote then Some(Cast(period, CERT, value)) else None);
      actions := if vote then [Attest(round, period, CERT, value)] else [];
    }

    method HandleCertThreshold(e: ThresholdEvent) returns (actions: seq<Action>)
      requires Valid() && round in freshest && freshest[round] == e && e.kind.CertThreshold?
      modifies this
      ensures Handled(e, actions)
      ensures round == old(round) ==> StageDigest(e) in actions
      decreases |Ahead(freshest, round)|, 2
    {
      hide Follows, React, Votes, Ensures, Places, VoteSeq, Certified, LogOk, StoresOk, StoreInv, FreshestOk,
           StagedIn, BlocksIn, DeadlineOk, PeriodOk, Staging, OnFreshest, ProposesOn, Proposals, Store.Committable,
           EndsWith, EntryActions, Behind, Entered, Moves, Remembered;
      FreshestAt(freshest, cached, round);
      ghost var v, n, s := View(), Abs(), StoreOf(round);
      var committable := StageThreshold(e);
      if committable {
        var pp := StagedBlock(e);
        ModelCertified(n, e.period, e.proposal);
        actions := Leave(Ensure(pp, e));
        LeaveMoves(v, Seen(e, true), View(), actions, pp, e);
        CertSays(actions, old(round), n, e, s);
        return;
      }
      actions := AwaitBlock(e, v, s);
    }

    /** A certificate just staged whose block is missing: ask for it, and move to its period if later. */
    method AwaitBlock(e: ThresholdEvent, ghost v: Snap, ghost s: Store) returns (actions: seq<Action>)
      requires Valid() && round in freshest && freshest[round] == e && e.kind.CertThreshold? && Votable(e)
      requires e.proposal !in BlocksIn(s) && e.proposal !in Abs().blocks && v.node.blocks == BlocksIn(s)
      requires v.round == round && v.freshest == freshest && v.cached == cached && Abs().blocks <= v.node.blocks
      requires Abs() == v.node.(staged := v.node.staged[e.period := e.proposal], blocks := Abs().blocks)
      modifies this`stores, this`lastConcluding, this`period, this`step, this`napping, this`fastDeadline, this`deadline
      ensures Moved(actions) && StageDigest(e) in actions
      ensures Votes(actions) == VoteSeq(round, React(v.node, Seen(e, true)).vote) && Ensures(actions) == []
      ensures Remembered(v.node.cached, e) ==> Moves(v, Seen(e, true), View(), actions)
      ensures CertVotedIf(actions, round, e.period, e.proposal, false)
      ensures Proposals(actions, round, Some(e), false) && Proposals(actions, round, None, false)
      ensures if old(period) < e.period
              then
                && period == e.period && step == SOFT && !napping && deadline == filter1
                && fastDeadline == 0 && lastConcluding == old(step)
                && stores == old(stores)[round := Staging(output, old(StoreOf(round)), old(period), e)]
              else unchanged(this)
    {
      hide Follows, React, Votes, Ensures, Places, VoteSeq, Certified, LogOk, StoresOk, StoreInv, FreshestOk,
           StagedIn, BlocksIn, DeadlineOk, PeriodOk, Staging, OnFreshest, ProposesOn, Proposals, EndsWith,
           EntryActions, Behind, Moves, Remembered, Player.Valid, CertVotedIf;
      actions := [StageDigest(e)];
      if period < e.period {
        var more := EnterPeriod(e, e.period);
        ModelEnter(v.node, Abs(), e);
        SayMore(e, more, round);
        ProposalsAfter([StageDigest(e)], more, round, Some(e));
        actions := actions + more;
      } else {
        ModelStay(v.node, Abs(), e);
        NoVote(round);
        SayMore(e, [], round);
        UnpromptedProposals(actions, round, e);
      }
      CertProposesNothing(actions, round, e);
      ProposalsAreOn(actions, round, Some(e), false, freshest);
      NoEnsures(actions, round);
      CertSays(actions, round, v.node, e, s);
      if Remembered(v.node.cached, e) { StayMoves(v, Seen(e, true), View(), actions); }
    }

    /** The block of a value just staged and found committable. */
    method StagedBlock(e: ThresholdEvent) returns (pp: ProposalStorage.Payload)
      requires StoresOk(stores, round)
      requires StoreOf(round).Committable(e.period) && StoreOf(round).Staged(e.period) == e.proposal
      ensures StoreOf(round).At(e.proposal).payload == Some(pp) && pp.value == e.proposal
    {
      hide StoresOk, StoreInv;
      StoreOk(round);
      StagedPayload(StoreOf(round), e.period);
      pp := StoreOf(round).At(e.proposal).payload.value;
    }

    /** Ensures a block and enters the next round. */
    method Leave(a: Action) returns (actions: seq<Action>)
      requires Valid() && Certifies(a, round) && round in freshest && a.cert == freshest[round]
      modifies this
      ensures Moved(actions) && freshest == old(freshest) && cached == old(cached) && log == old(log)
      ensures live == old(live)
      ensures round == old(round) + 1 && Entered(View())
      ensures Votes(actions) == VoteSeq(old(round), None) && Ensures(actions) == [a]
      ensures Proposals(actions, round, FreshestOf(round), true)
      decreases |Ahead(freshest, round)|, 1
    {
      hide StoresOk, LogOk, DeadlineOk, FreshestOk, StagedIn, BlocksIn, Votes, Ensures, Places, Quiet, Entered,
           Proposals, ProposesOn;
      var rest := EnterRound(round + 1);
      actions := [a] + rest;
      OneEnsure(a, rest);
      LeavesCertified(actions, a, old(round), round, freshest);
      LeaveProposes(a, rest, round, FreshestOf(round));
      ProposalsAreOn(actions, round, FreshestOf(round), true, freshest);
    }

    /** The player's fields at the start of a later round, and the payload waiting for it. */
    method StartRound(target: Round) returns (actions: seq<Action>)
      requires Valid() && target > round
      modifies this`round, this`period, this`step, this`lastConcluding, this`deadline, this`napping,
               this`fastDeadline, this`atSoft
      ensures Valid() && round == target && Abs() == Future(cached, target)
      ensures period == 0 && step == SOFT && !napping && deadline == filter0
      ensures lastConcluding == old(step) && fastDeadline == 0 && [Rezero(target), Assemble(target, 0)] <= actions
      ensures Quiet(actions) && Proposals(actions, target, None, true)
      ensures forall v :: v in StoreOf(target).assemblers && StoreOf(target).At(v).pipeline.Some? ==>
                VerifyPayload(target, StoreOf(target).At(v).pipeline.value) in actions
    {
      hide StoreInv, StoresOk, FreshestOk, PeriodOk, LogOk, DeadlineOk, Future, StagedIn, BlocksIn, Waiting;
      StoreOk(target);
      var pipelined := PipelinedPayload(target, StoreOf(target));
      Reset(target);
      actions := [Rezero(target), Assemble(target, 0)] + pipelined;
    }

    /** Puts every field where a later round starts. */
    method Reset(target: Round)
      requires Valid() && target > round
      modifies this`round, this`period, this`step, this`lastConcluding, this`deadline, this`napping,
               this`fastDeadline, this`atSoft
      ensures Valid() && round == target && Abs() == Future(cached, target)
      ensures period == 0 && step == SOFT && !napping && deadline == filter0
      ensures lastConcluding == old(step) && fastDeadline == 0
    {
      hide StoreInv, StoresOk, FreshestOk, LogOk, Behind, StagedIn, BlocksIn, Waiting, PeriodOk;
      StoreOk(target);
      PeriodStarts(freshest, target, live);
      WaitingView(StoreOf(target));
      LaterLog(log, round, period, step, napping, target, 0);
      StoresLater(stores, round, target);
      lastConcluding := step;
      round, period, step, napping, fastDeadline, deadline := target, 0, SOFT, false, 0, filter0;
      atSoft := map[];
    }

    /** Enters a later round and handles the threshold event that may be waiting there; it never leaves again. */
    method EnterRound(target: Round) returns (actions: seq<Action>)
      requires Valid() && target > round
      modifies this
      ensures Valid() && freshest == old(freshest) && cached == old(cached) && log == old(log) && live == old(live)
      ensures round == target && Entered(View()) && Quiet(actions)
      ensures Proposals(actions, target, FreshestOf(target), true)
      decreases |Ahead(freshest, round)|, 0
    {
      hide StoresOk, LogOk, DeadlineOk, FreshestOk, StagedIn, BlocksIn, Follows, Certified, OnFreshest, ProposesOn,
           Proposals;
      if target in freshest { FewerAhead(freshest, round, target); }
      actions := StartRound(target);
      if target in freshest {
        ghost var n := Abs();
        var more := HandleThreshold(freshest[target]);
        FutureSilent(n, freshest[target], more);
        ProposalsOfRound(actions, more, target, Some(freshest[target]));
        actions := actions + more;
      }
    }

    /** The ledger moved on: the player enters the later round it names. */
    twostate predicate Interrupted(target: Round, actions: seq<Action>)
      reads this
    {
      && freshest == old(freshest) && cached == old(cached) && live == old(live)
      && round == target && Entered(View()) && Quiet(actions)
      && Proposals(actions, target, FreshestOf(target), true)
    }

    method HandleRoundInterruption(target: Round) returns (actions: seq<Action>)
      requires Valid() && target > round
      modifies this
      ensures Moved(actions) && Interrupted(target, actions)
    {
      hide StoresOk, LogOk, DeadlineOk, FreshestOk, StagedIn, BlocksIn, Entered, Proposals, ProposesOn;
      actions := EnterRound(target);
      QuietSays(actions);
      ProposalsAreOn(actions, target, FreshestOf(target), true, freshest);
    }

    /**
     A quorum reached by the votes of the current or the next round: the period caches a
     next-threshold, the round keeps the freshest event, and one of the current round that is
     fresher is handled. The next round's node only caches.
     */
    twostate predicate TookFreshest(e: ThresholdEvent, actions: seq<Action>)
      reads this
    {
      && Moves(old(View()), Seen(e, true), View(), actions)
      && CertVotedIf(actions, old(round), e.period, e.proposal, old(CertVoteDue(e)))
      && (round != old(round) <==> e.kind.CertThreshold? && old(HasBlock(StoreOf(round), e.proposal)))
      && if round == old(round)
         then
           && StagedOnly(e)
           && Proposals(actions, round, if old(period) <= e.period then Some(e) else None, false)
         else Ensures(actions)[0].cert == e && Proposals(actions, round, FreshestOf(round), true)
    }

    twostate predicate TookQuorum(e: ThresholdEvent, actions: seq<Action>)
      requires old(FreshestOk(freshest, cached))
      reads this
    {
      && log == old(log) && freshest == (if old(Fresher(e)) then old(freshest)[e.round := e] else old(freshest))
      && cached == WithQuorum(old(cached), e)
      && live == old(live && (e.round == round ==> KeptPeriod(e.period, period)))
      && (old(e.round == round && Fresher(e)) ==> TookFreshest(e, actions))
      && (old(!(e.round == round && Fresher(e))) ==>
            && actions == [] && round == old(round) && period == old(period)
            && stores == old(stores) && deadline == old(deadline))
      && (old(e.round == round && !Fresher(e)) ==>
            if e.kind.NextThreshold? then Follows(old(Abs()), Seen(e, false), Abs()) else Abs() == old(Abs()))
      && (old(e.round != round) ==>
            && Abs() == old(Abs())
            && (e.kind.NextThreshold? ==>
                  Follows(Future(old(cached), e.round), Seen(e, false), Future(cached, e.round))))
    }

    method HandleQuorum(e: ThresholdEvent) returns (actions: seq<Action>)
      requires Valid() && Votable(e) && (e.round == round || e.round == round + 1)
      modifies this
      ensures Moved(actions) && TookQuorum(e, actions)
    {
      hide StoresOk, LogOk, DeadlineOk, FreshestOk, PeriodOk, StagedIn, BlocksIn, FresherThan, React, Follows, Votes,
           Ensures, Places, VoteSeq, Certified, OnFreshest, ProposesOn, Proposals, Remembered, Cache, Moves,
           CertVotedIf, Handling, HasBlock, KeptPeriod, Seen, Certifies, Player.TookFreshest;
      ghost var v := View();
      if round in freshest { FreshestAt(freshest, cached, round); }
      if e.round == round && FresherThan(Some(e), FreshestOf(round)) {
        actions := HandleFreshest(e);
      } else {
        var _ := NoteQuorum(e);
        actions := [];
        NoEnsures([], round);
        NoProposals([], round);
      }
      QuorumViews(v, e);
    }

    /** A quorum of the current round that is the freshest is noted, then handled. */
    method HandleFreshest(e: ThresholdEvent) returns (actions: seq<Action>)
      requires Valid() && Votable(e) && e.round == round && Fresher(e)
      modifies this
      ensures Moved(actions) && TookFreshest(e, actions) && log == old(log)
      ensures freshest == old(freshest)[e.round := e] && cached == WithQuorum(old(cached), e)
      ensures live == old(live && KeptPeriod(e.period, period))
    {
      hide StoresOk, LogOk, DeadlineOk, FreshestOk, PeriodOk, StagedIn, BlocksIn, FresherThan, React, Follows, Votes,
           Ensures, Places, VoteSeq, Certified, OnFreshest, ProposesOn, Proposals, Remembered, Cache, Moves,
           CertVotedIf, Handling, HasBlock, KeptPeriod, Seen, Certifies;
      ghost var v := View();
      var _ := NoteQuorum(e);
      ghost var m := View();
      BlocksAre(StoreOf(round), e.proposal);
      actions := HandleThreshold(e);
      QuorumMoves(v, m, e, View(), actions);
    }

    /** The vote machines' part: cache a next-threshold, keep the freshest event. */
    method NoteQuorum(e: ThresholdEvent) returns (pass: bool)
      requires Valid() && Votable(e)
      modifies this`freshest, this`cached, this`live
      ensures live == old(live && (e.round == round ==> KeptPeriod(e.period, period)))
      ensures Valid() && cached == WithQuorum(old(cached), e) && pass == old(Fresher(e))
      ensures freshest == if pass then old(freshest)[e.round := e] else old(freshest)
    {
      hide StoresOk, LogOk, DeadlineOk, FreshestOk, PeriodOk, FresherThan;
      FreshestKept(freshest, cached, e, round, period, live);
      live := live && (e.round == round ==> KeptPeriod(e.period, period));
      pass := FresherThan(Some(e), FreshestOf(e.round));
      if e.kind.NextThreshold? {
        var c := CachedOf(e.round);
        cached := cached[e.round := c[e.period := Cache(Look(c, e.period), e.proposal)]];
      }
      if pass {
        freshest := freshest[e.round := e];
      }
    }

    function FreshestOf(r: Round): Option<ThresholdEvent>
      reads this
    {
      if r in freshest then Some(freshest[r]) else None
    }

    ghost predicate Fresher(e: ThresholdEvent)
      requires FreshestOk(freshest, cached)
      reads this
    {
      FresherThan(Some(e), FreshestOf(e.round))
    }

    // -------------------------------------------------------------- proposals

    /** The freshest event is a certificate for this value. */
    predicate CertifiedValue(v: ProposalValue)
      reads this
    {
      round in freshest && freshest[round].kind.CertThreshold? && freshest[round].proposal == v
    }

    /** A verified payload: it may complete a certificate, or be committable. */
    twostate predicate TookPayload(pp: ProposalStorage.Payload, actions: seq<Action>)
      reads this
    {
      var s := old(StoreOf(round));
      && log == old(log) && freshest == old(freshest) && cached == old(cached) && live == old(live)
      && (round == old(round) ==>
            && period == old(period) && deadline == old(deadline)
            && forall r :: StoreOf(r) ==
                           if r == round then StoreAfter(output, old(StoreOf(r)), period, PayloadVerified(pp))
                           else old(StoreOf(r)))
      && (round != old(round) <==>
            old(CertifiedValue(pp.value)) && pp.value in s.Tracked() && !HasBlock(s, pp.value))
      && CertVotedIf(actions, old(round), old(period), pp.value,
                     && round == old(round) && pp.value in s.Tracked() && !HasBlock(s, pp.value)
                     && StagedAs(s, period, pp.value) && step <= CERT)
      && (if round == old(round) then Unproposing(actions) && step == old(step) && napping == old(napping)
          else
            && Ensures(actions) == [Ensure(pp, old(freshest[round]))]
            && Proposals(actions, round, FreshestOf(round), true))
      && if pp.value in s.Tracked() && !s.Holds(pp.value)
         then
           && pp.value != BOTTOM
           && Moves(old(View()), Event.Payload(pp.value, old(CertifiedValue(pp.value))), View(), actions)
         else Abs() == old(Abs()) && round == old(round) && actions == []
    }

    method HandlePayloadVerified(pp: ProposalStorage.Payload) returns (actions: seq<Action>)
      requires Valid()
      modifies this
      ensures Moved(actions) && TookPayload(pp, actions)
    {
      hide StoresOk, StoreInv, StoreAfter, LogOk, DeadlineOk, FreshestOk, StagedIn, BlocksIn, React, Follows, Votes,
           Ensures, Places, VoteSeq, Certified, OnFreshest, ProposesOn, Proposals, Entered;
      StoreOk(round);
      var s := StoreOf(round);
      ghost var n, was := Abs(), s;
      NoEnsures([], round);
      NoProposals([], round);
      ViewPayload(output, s, period, pp);
      if pp.value !in s.Tracked() || s.Holds(pp.value) {
        return [];
      }
      s := StoreAfter(output, s, period, PayloadVerified(pp));
      StoreSet(stores, round, s);
      stores := stores[round := s];
      if CertifiedValue(pp.value) {
        FreshestAt(freshest, cached, round);
        ModelLatePayload(n, pp.value);
        actions := Leave(Ensure(pp, freshest[round]));
        VotesAre(actions, old(round), None);
        return;
      }
      StagedIff(s, period, pp.value);
      ModelPayload(n, Abs(), pp.value);
      actions := IssueCertVote(s.Staged(period) == pp.value && step <= CERT, pp.value);
      NoEnsures(actions, round);
      NoProposals(actions, round);
      PayloadSays(actions, round, n, pp.value, was);
    }

    /** A verified proposal-vote of the current or next round, ignored unless fresh. */
    twostate predicate TookProposalVote(v: Vote)
      reads this
    {
      && Abs().blocks <= old(Abs()).blocks && View() == old(View()).(node := old(Abs()).(blocks := Abs().blocks))
      && if ProposalFresh(round, period, v.r.round, v.r.period)
         then stores == old(stores)[v.r.round := StoreAfter(output, old(StoreOf(v.r.round)), period, VoteVerified(v))]
         else stores == old(stores)
    }

    method HandleProposalVote(v: Vote)
      requires Valid()
      modifies this`stores
      ensures Moved([]) && TookProposalVote(v)
    {
      hide StoreInv, LogOk, DeadlineOk, FreshestOk, StagedIn, BlocksIn;
      if !ProposalFresh(round, period, v.r.round, v.r.period) {
        return;
      }
      StoreOk(v.r.round);
      var s := StoreOf(v.r.round);
      StoreKept(output, s, period, VoteVerified(v));
      BlocksShrink(output, s, period, VoteVerified(v));
      VoteStages(output, s, period, v);
      if v.r.round > round { OnlyPeriodZero(output, s, period, VoteVerified(v)); }
      hide StoreAfter;
      stores := stores[v.r.round := StoreAfter(output, s, period, VoteVerified(v))];
    }

    /** An unverified payload goes to the store of its round, or else to the next round's. */
    twostate predicate TookPresent(r: Round, up: ProposalStorage.Payload)
      reads this
    {
      var target := if r == round then round else round + 1;
      && View() == old(View())
      && stores == old(stores)[target := StoreAfter(output, old(StoreOf(target)), period, PayloadPresent(up))]
    }

    method HandlePayloadPresent(r: Round, up: ProposalStorage.Payload)
      requires Valid()
      modifies this`stores
      ensures Moved([]) && TookPresent(r, up)
    {
      hide StoreInv, LogOk, DeadlineOk, FreshestOk;
      var target := if r == round then round else round + 1;
      StoreOk(target);
      var s := StoreOf(target);
      StoreKept(output, s, period, PayloadPresent(up));
      PresentView(output, s, period, up);
      hide StoreAfter, StagedIn, BlocksIn;
      stores := stores[target := StoreAfter(output, s, period, PayloadPresent(up))];
    }
  }

  // ---------------------------------------------------------------- what a threshold does to its round's store

  /**
   A next-threshold starts the following period; a soft or cert one starts its own, if it is
   ahead, and stages its value.
   */
  function Staging(output: Credential -> nat, s: Store, cur: Period, e: ThresholdEvent): Store {
    if e.kind.NextThreshold? then StoreAfter(output, s, cur, NewPeriod(e.period + 1, e.proposal))
    else
      var t := if cur < e.period then StoreAfter(output, s, cur, NewPeriod(e.period, e.proposal)) else s;
      StoreAfter(output, t, cur, Threshold(e.period, e.proposal))
  }

  /**
   A stale event is ignored; a certificate without its block that is ahead is staged, and again
   on entering its period.
   */
  function Handling(output: Credential -> nat, s: Store, cur: Period, e: ThresholdEvent): Store {
    if !e.kind.CertThreshold? && cur > e.period then s
    else
      var t := Staging(output, s, cur, e);
      if e.kind.CertThreshold? && cur < e.period then Staging(output, t, cur, e) else t
  }

  /** What a threshold of the player's period or later does to the store: the period it starts pins its value. */
  lemma HandlingPins(output: Credential -> nat, s: Store, cur: Period, e: ThresholdEvent)
    requires StoreInv(s) && Votable(e) && cur <= e.period
    ensures var s' := Handling(output, s, cur, e);
            && StoreInv(s')
            && (!e.kind.NextThreshold? ==> s'.Staged(e.period) == e.proposal)
            && (!e.kind.NextThreshold? && cur < e.period ==> s'.pinned == e.proposal)
            && (!e.kind.NextThreshold? && cur == e.period ==> s'.pinned == s.pinned)
            && (e.kind.NextThreshold? && e.proposal != BOTTOM ==> s'.pinned == e.proposal)
            && (e.kind.NextThreshold? && e.proposal == BOTTOM ==>
                  s'.pinned == if s.Staged(cur) != BOTTOM then s.Staged(cur) else s.pinned)
  {
    StagingPins(output, s, cur, e);
    if e.kind.CertThreshold? && cur < e.period {
      hide Staging;
      StagingPins(output, Staging(output, s, cur, e), cur, e);
    }
  }

  lemma StagingPins(output: Credential -> nat, s: Store, cur: Period, e: ThresholdEvent)
    requires StoreInv(s) && Votable(e) && cur <= e.period
    ensures var s' := Staging(output, s, cur, e);
            && StoreInv(s')
            && (!e.kind.NextThreshold? ==> s'.Staged(e.period) == e.proposal)
            && (!e.kind.NextThreshold? && cur < e.period ==> s'.pinned == e.proposal)
            && (!e.kind.NextThreshold? && cur == e.period ==> s'.pinned == s.pinned)
            && (e.kind.NextThreshold? && e.proposal != BOTTOM ==> s'.pinned == e.proposal)
            && (e.kind.NextThreshold? && e.proposal == BOTTOM ==>
                  s'.pinned == if s.Staged(cur) != BOTTOM then s.Staged(cur) else s.pinned)
  {
    hide StoreInv, StoreAfter, StagedIn, BlocksIn;
    if e.kind.NextThreshold? {
      ViewNewPeriod(output, s, cur, e.period + 1, e.proposal);
      PinnedIs(output, s, cur, e.period + 1, e.proposal);
    } else {
      var t := s;
      if cur < e.period {
        ViewNewPeriod(output, s, cur, e.period, e.proposal);
        PinnedIs(output, s, cur, e.period, e.proposal);
        t := StoreAfter(output, s, cur, NewPeriod(e.period, e.proposal));
      }
      ViewThreshold(output, t, cur, e.period, e.proposal);
      ThresholdKeepsPinned(output, t, cur, e.period, e.proposal);
    }
  }

  /**
   The periods whose values stay relevant: those not before the one preceding the period
   started; and the threshold's own if its block is missing.
   */
  lemma HandlingLetsGo(output: Credential -> nat, s: Store, cur: Period, e: ThresholdEvent, q: Period)
    requires StoreInv(s) && cur <= e.period && q + 1 < UINT64 && !e.kind.CertThreshold?
    ensures var s' := Handling(output, s, cur, e);
            var target := if e.kind.NextThreshold? then e.period + 1 else e.period;
            var missing := e.kind.SoftThreshold? && !HasBlock(s, e.proposal);
            q in s'.relevant <==>
              (q in s.relevant && (cur < target ==> target <= q + 1)) || (missing && q == e.period)
  {
    hide StoreInv, BlocksIn, StagedIn;
    if cur < e.period {
      ViewNewPeriod(output, s, cur, e.period, e.proposal);
      var t := StoreAfter(output, s, cur, NewPeriod(e.period, e.proposal));
      LetGoIff(output, s, cur, e.period, e.proposal, q);
      BlockIff(s, e.proposal);
      BlockIff(t, e.proposal);
    }
    if e.kind.NextThreshold? {
      LetGoIff(output, s, cur, e.period + 1, e.proposal, q);
    }
  }

  lemma ThresholdKeepsPinned(output: Credential -> nat, s: Store, cur: Period, q: Period, x: ProposalValue)
    ensures StoreAfter(output, s, cur, Threshold(q, x)).pinned == s.pinned
  {
  }

  // ---------------------------------------------------------------- what the actions say

  /** No ensure among the actions, and the position stays in its round. */
  lemma NoEnsures(actions: seq<Action>, r: Round)
    ensures Ensures(actions) == [] ==> Certified(actions, r, r) && forall f :: OnFreshest(actions, f)
    ensures Places([]) == [] && Ensures([]) == [] && Votes([]) == []
  {
    if Ensures(actions) == [] {
      CertifiedOnes(actions, r, r);
      forall a | a in actions ensures !a.Ensure? {
        EnsuresHas(actions, a);
      }
    }
  }

  /** Without a next-threshold there is nothing to propose. */
  lemma UnpromptedProposals(actions: seq<Action>, r: Round, e: ThresholdEvent)
    requires Unproposing(actions) && !e.kind.NextThreshold?
    ensures Proposals(actions, r, Some(e), false) && Proposals(actions, r, None, false)
    ensures forall f :: ProposesOn(actions, f)
  {
  }

  lemma CertProposesNothing(actions: seq<Action>, r: Round, e: ThresholdEvent)
    requires Proposals(actions, r, Some(e), false) && !e.kind.NextThreshold?
    ensures Proposals(actions, r, None, false)
  {
  }

  lemma LeaveProposes(a: Action, rest: seq<Action>, r: Round, e: Option<ThresholdEvent>)
    requires a.Ensure? && Proposals(rest, r, e, true)
    ensures Proposals([a] + rest, r, e, true)
  {
  }

  lemma CommittableSays(s: Store, q: Period)
    ensures CommittableIn(s, q) == if s.Committable(q) then Some(s.Staged(q)) else None
  {
  }

  lemma NoVote(r: Round)
    ensures VoteSeq(r, None) == [] && Votes([]) == [] && Ensures([]) == [] && Places([]) == []
  {
  }

  lemma EndSays(actions: seq<Action>, r: Round, c: Cast)
    requires EndsWith(actions, VoteSeq(r, Some(c)))
    ensures Votes(actions) == VoteSeq(r, Some(c)) && Ensures(actions) == []
    ensures Places(actions) == Places(VoteSeq(r, Some(c))) && Unproposing(actions)
  {
    hide Votes, Ensures, Places;
    var before := actions[..|actions| - 1];
    assert actions == before + VoteSeq(r, Some(c)) + [];
    OneVote(before, r, Some(c), []);
    VoteEndsUnproposing(before, r, c);
  }

  lemma VoteEndsUnproposing(before: seq<Action>, r: Round, c: Cast)
    requires OnlyBroadcasts(before)
    ensures Unproposing(before + VoteSeq(r, Some(c)) + [])
  {
  }

  lemma FastSays(before: seq<Action>, r: Round, c: Cast)
    requires OnlyBroadcasts(before) && c.step >= LATE
    ensures var actions := before + [Attest(r, c.period, c.step, c.value)];
            && Votes(actions) == VoteSeq(r, Some(c)) && Ensures(actions) == [] && Places(actions) == []
            && Unproposing(actions)
  {
    assert before + [Attest(r, c.period, c.step, c.value)] == before + VoteSeq(r, Some(c)) + [];
    OneVote(before, r, Some(c), []);
    OnlyVote(r, Some(c));
  }

  lemma LeavesCertified(actions: seq<Action>, a: Action, r: Round, r': Round, freshest: map<Round, ThresholdEvent>)
    requires Ensures(actions) == [a] && Certifies(a, r) && r < r' && r in freshest && a.cert == freshest[r]
    ensures Certified(actions, r, r') && OnFreshest(actions, freshest) && VoteSeq(r, None) == []
  {
    CertifiedOnes(actions, r, r');
    forall b | b in actions && b.Ensure? ensures b == a {
      EnsuresHas(actions, b);
    }
  }

  /** A node without blocks casts no vote and ensures nothing on any threshold. */
  lemma FutureSilent(n: Node, e: ThresholdEvent, actions: seq<Action>)
    requires n.blocks == {} && Ensures(actions) == []
    requires Votes(actions) == VoteSeq(e.round, React(n, Seen(e, true)).vote)
    ensures Quiet(actions) && Places(actions) == []
  {
    assert React(n, Seen(e, true)).vote.None?;
    forall a | a in actions ensures !a.Attest? && !a.Ensure? {
      EnsuresHas(actions, a);
    }
    QuietSays(actions);
  }

  /** To the node of its round, current or next, a next-threshold that is not handled is a cached one. */
  lemma QuorumViews(a: Snap, e: ThresholdEvent)
    requires a.node.active && a.node.cached == CachedIn(a.cached, a.round)
    ensures var cached := WithQuorum(a.cached, e);
            && (e.kind.NextThreshold? && e.round == a.round ==>
                  Follows(a.node, Seen(e, false), a.node.(cached := CachedIn(cached, a.round))))
            && (e.round != a.round ==> CachedIn(cached, a.round) == a.node.cached)
            && (e.kind.NextThreshold? ==> Follows(Future(a.cached, e.round), Seen(e, false), Future(cached, e.round)))
  {
    if e.kind.NextThreshold? {
      CacheOnce(a.node, e);
      CacheOnce(Future(a.cached, e.round), e);
    }
  }

  /** Handling a quorum just cached is handling it from where the player stood before. */
  lemma QuorumMoves(a: Snap, m: Snap, e: ThresholdEvent, b: Snap, actions: seq<Action>)
    requires a.node.active && m.round == a.round == e.round
    requires m.node == if e.kind.NextThreshold?
                       then a.node.(cached := a.node.cached[e.period :=
                                                Cache(Look(a.node.cached, e.period), e.proposal)])
                       else a.node
    requires Remembered(m.node.cached, e) ==> Moves(m, Seen(e, true), b, actions)
    ensures Moves(a, Seen(e, true), b, actions)
  {
    if e.kind.NextThreshold? {
      CacheOnce(a.node, e);
    }
    MovesSame(a, m, Seen(e, true), b, actions);
  }

  lemma SayMore(e: ThresholdEvent, more: seq<Action>, r: Round)
    ensures var actions := [StageDigest(e)] + more;
            Votes(actions) == Votes(more) && Ensures(actions) == Ensures(more) && Places(actions) == Places(more)
    ensures [StageDigest(e)] + [] == [StageDigest(e)]
  {
    assert Quiet([StageDigest(e)]);
    QuietSays([StageDigest(e)]);
    Joined([StageDigest(e)], more);
  }

  /** On entering a period: a cert vote for a committable value, or a proposal after a next-threshold. */
  function EntryActions(round: Round, target: Period, e: ThresholdEvent, committable: bool): seq<Action> {
    if committable then [Attest(round, target, CERT, e.proposal)]
    else if e.kind.NextThreshold? then
      if e.proposal == BOTTOM then [Assemble(round, target)] else [Repropose(round, target, e.proposal)]
    else []
  }

  lemma EntrySays(before: seq<Action>, round: Round, target: Period, e: ThresholdEvent, committable: bool)
    requires OnlyBroadcasts(before)
    ensures var actions := before + [Rezero(round)] + EntryActions(round, target, e, committable);
            && Votes(actions) == VoteSeq(round, if committable then Some(Cast(target, CERT, e.proposal)) else None)
            && Ensures(actions) == [] && Places(actions) == []
            && EndsWith(actions, [Rezero(round)] + EntryActions(round, target, e, committable))
            && ((e.kind.NextThreshold? ==> target == e.period + 1 && !committable) ==>
                  Proposals(actions, round, Some(e), false))
  {
    hide Votes, Ensures, Places;
    var tail := [Rezero(round)] + EntryActions(round, target, e, committable);
    var actions := before + [Rezero(round)] + EntryActions(round, target, e, committable);
    assert actions == before + tail;
    assert actions[..|before|] == before && actions[|before|..] == tail;
    var c := if committable then Some(Cast(target, CERT, e.proposal)) else None;
    var rest := if committable then [] else EntryActions(round, target, e, committable);
    assert actions == before + [Rezero(round)] + VoteSeq(round, c) + rest;
    OneVote(before + [Rezero(round)], round, c, rest);
    OnlyVote(round, c);
  }

  lemma PresentView(output: Credential -> nat, s: Store, cur: Period, up: ProposalStorage.Payload)
    ensures var s' := StoreAfter(output, s, cur, PayloadPresent(up));
            StagedIn(s') == StagedIn(s) && BlocksIn(s') == BlocksIn(s) && (Waiting(s) ==> Waiting(s'))
  {
  }

  /** A proposal-vote never changes a staging value. */
  lemma VoteStages(output: Credential -> nat, s: Store, cur: Period, v: Vote)
    ensures StagedIn(StoreAfter(output, s, cur, VoteVerified(v))) == StagedIn(s)
  {
    var s' := StoreAfter(output, s, cur, VoteVerified(v));
    assert s'.trackers == s.trackers[v.r.period := TrackVote(output, s.TrackerAt(v.r.period), v)];
  }

  lemma StagedIff(s: Store, q: Period, x: ProposalValue)
    requires x != BOTTOM
    ensures s.Staged(q) == x <==> q in StagedIn(s) && StagedIn(s)[q] == x
  {
  }

  /** A new round's store holds at most one assembler; its pipelined payload is to be verified. */
  method PipelinedPayload(target: Round, s: Store) returns (actions: seq<Action>)
    requires StoreInv(s) && Waiting(s)
    ensures |s.assemblers| <= 1
    ensures forall a :: a in actions ==> a.VerifyPayload?
    ensures forall v :: v in s.assemblers && s.At(v).pipeline.Some? ==>
              VerifyPayload(target, s.At(v).pipeline.value) in actions
  {
    AtMostOne(s);
    actions := [];
    if v :| v in s.assemblers && s.assemblers[v].pipeline.Some? {
      assert |s.assemblers| == |s.assemblers.Keys|;
      OnlyMember(s.assemblers.Keys, v);
      actions := [VerifyPayload(target, s.assemblers[v].pipeline.value)];
    }
  }

  lemma WaitingView(s: Store)
    requires Waiting(s)
    ensures StagedIn(s) == map[] && BlocksIn(s) == {}
  {
  }

  lemma StoresLater(stores: map<Round, Store>, round: Round, target: Round)
    requires StoresOk(stores, round) && target > round
    ensures StoresOk(stores, target)
  {
  }

  lemma StoreSet(stores: map<Round, Store>, round: Round, s: Store)
    requires StoresOk(stores, round) && StoreInv(s)
    ensures StoresOk(stores[round := s], round)
  {
  }

  lemma RoundUp(f: nat, lambda: nat)
    requires lambda > 0
    ensures var lower := (f + lambda - 1) / lambda * lambda; f <= lower < f + lambda
    ensures f == 0 ==> (f + lambda - 1) / lambda * lambda == 0
    ensures NextMultiple(f, lambda, (f + lambda - 1) / lambda * lambda)
  {
    var n := f + lambda - 1;
    assert n == n / lambda * lambda + n % lambda;
    if f == 0 {
      assert n / lambda == 0;
    }
    assert Times(n / lambda, lambda) == n / lambda * lambda;
  }

  /** The least multiple of lambda that is not below `f`. */
  ghost predicate NextMultiple(f: int, lambda: nat, m: int) {
    f <= m < f + lambda && exists k: nat :: Times(k, lambda) == m
  }

  function Times(k: nat, lambda: nat): nat {
    k * lambda
  }

  // ---------------------------------------------------------------- what the machines below keep

  /** The next-threshold caches after one more quorum. */
  function WithQuorum(cached: map<Round, map<Period, NextStatus>>,
                      e: ThresholdEvent): map<Round, map<Period, NextStatus>> {
    var c := CachedIn(cached, e.round);
    if e.kind.NextThreshold? then cached[e.round := c[e.period := Cache(Look(c, e.period), e.proposal)]] else cached
  }

  /** A later period entered on the freshest event is its own or the one after. */
  lemma PeriodEntered(freshest: map<Round, ThresholdEvent>, round: Round, period: Period, live: bool, target: Period)
    requires PeriodOk(freshest, round, period, live) && round in freshest && target <= freshest[round].period + 1
    ensures PeriodOk(freshest, round, target, live)
  {
  }

  lemma PeriodStarts(freshest: map<Round, ThresholdEvent>, round: Round, live: bool)
    ensures PeriodOk(freshest, round, 0, live)
  {
  }

  lemma FreshestAt(freshest: map<Round, ThresholdEvent>, cached: map<Round, map<Period, NextStatus>>, r: Round)
    requires FreshestOk(freshest, cached) && r in freshest
    ensures freshest[r].round == r && Votable(freshest[r])
  {
  }

  /** One more quorum keeps the marks in the caches and the tie between period and freshest event. */
  lemma FreshestKept(freshest: map<Round, ThresholdEvent>, cached: map<Round, map<Period, NextStatus>>,
                     e: ThresholdEvent,
                     round: Round, period: Period, live: bool)
    requires FreshestOk(freshest, cached) && Votable(e) && PeriodOk(freshest, round, period, live)
    ensures FreshestOk(freshest, WithQuorum(cached, e)) && FreshestOk(freshest[e.round := e], WithQuorum(cached, e))
    ensures FresherThan(Some(e), if e.round in freshest then Some(freshest[e.round]) else None) ==>
              PeriodOk(freshest[e.round := e], round, period,
                       live && (e.round == round ==> KeptPeriod(e.period, period)))
    ensures PeriodOk(freshest, round, period, live && (e.round == round ==> KeptPeriod(e.period, period)))
  {
    forall r | r in freshest ensures Noted(CachedIn(WithQuorum(cached, e), r), freshest[r]) {
      assert Noted(CachedIn(cached, r), freshest[r]);
    }
  }

  // ---------------------------------------------------------------- attestations happen once

  lemma SoftLog(log: seq<Place>, round: Round, period: Period, napping: bool, c: Option<Cast>)
    requires LogOk(log, round, period, SOFT, napping) && (c.Some? ==> c.value.period == period && c.value.step == SOFT)
    ensures LogOk(log + Places(VoteSeq(round, c)), round, period, CERT, napping)
    ensures Votes(VoteSeq(round, c)) == VoteSeq(round, c) && Ensures(VoteSeq(round, c)) == []
  {
    OnlyVote(round, c);
  }

  /** A next attestation is never repeated in its round, period and step. */
  lemma NextLog(log: seq<Place>, round: Round, period: Period, step: Step, napping: bool, step': Step, c: Cast)
    requires LogOk(log, round, period, step, napping) && c.period == period && c.step == step'
    requires CERT <= step <= step' && NEXT <= step' < LATE && (step < step' || napping)
    ensures LogOk(log + Places(VoteSeq(round, Some(c))), round, period, step', false)
  {
    OnlyVote(round, Some(c));
  }

  lemma NapLog(log: seq<Place>, round: Round, period: Period, step: Step)
    requires LogOk(log, round, period, step, false) && step >= NEXT
    ensures LogOk(log, round, period, step + 1, true)
  {
  }

  lemma LaterLog(log: seq<Place>, round: Round, period: Period, step: Step, napping: bool, round': Round,
                 period': Period)
    requires LogOk(log, round, period, step, napping) && NotAfter(round, period + 1, 0, round', period', 0)
    ensures LogOk(log, round', period', SOFT, false)
  {
  }
}
