/**
 The freshness filters on votes and bundles, and what they guarantee to the router: a vote
 that passes never addresses a machine the router has let go of.
 */
module MessageFilters {
  import opened AgreementTypes
  import opened ProposalStorage
  import opened Routing
  import opened VoteTracking
  import opened PlayerMachine

  /** The player's position when a message arrives. */
  datatype FreshnessData = FreshnessData(round: Round, period: Period, step: Step, lastConcluding: Step)

  /** Steps up to the first next step and the fast-recovery steps always pass, others only next to `mine`. */
  predicate VoteStepFresh(mine: Step, vote: Step) {
    || vote <= NEXT
    || vote >= LATE
    || (!(mine != 0 && mine - 1 > vote) && !((mine + 1) % UINT64 < vote))
  }

  predicate VoteFresh(f: FreshnessData, round: Round, period: Period, step: Step) {
    if f.round != round && (f.round + 1) % UINT64 != round then false
    else if (f.round + 1) % UINT64 == round then
      period == 0 && VoteStepFresh(0, step)
    else if period == (f.period - 1) % UINT64 then
      f.period != 0 && VoteStepFresh(f.lastConcluding, step)
    else if period == f.period then VoteStepFresh(f.step, step)
    else period == (f.period + 1) % UINT64 && VoteStepFresh(SOFT, step)
  }

  predicate BundleFresh(f: FreshnessData, round: Round, period: Period, step: Step) {
    f.round == round && (step == CERT || !(f.period != 0 && f.period - 1 > period))
  }

  /** The positions for which no 64-bit increment wraps. */
  predicate InRange(f: FreshnessData) {
    f.round + 1 < UINT64 && f.period + 2 < UINT64 && f.step + 1 < UINT64 && f.lastConcluding + 1 < UINT64
  }

  predicate Addressable(f: FreshnessData, x: Slot) {
    Live(x, f.round, f.period) && ((x.AtPeriod? || x.AtStep?) && x.r > f.round ==> x.p == 0)
  }

  predicate AlwaysRelayed(step: Step) {
    step <= NEXT || step >= LATE
  }

  /** Which votes pass, by period: the neighbouring periods of the round, and the next round's first. */
  lemma VoteFreshIff(f: FreshnessData, round: Round, period: Period, step: Step)
    requires InRange(f) && period < UINT64
    ensures VoteFresh(f, round, period, step) <==>
            || (round == f.round + 1 && period == 0 && AlwaysRelayed(step))
            || (round == f.round && period + 1 == f.period && VoteStepFresh(f.lastConcluding, step))
            || (round == f.round && period == f.period && VoteStepFresh(f.step, step))
            || (round == f.round && period == f.period + 1 && AlwaysRelayed(step))
  {
  }

  /** A fresh vote is for a tracker that is still there, and of the next round only for period 0. */
  lemma FreshVoteIsAddressable(f: FreshnessData, round: Round, period: Period, step: Step)
    requires InRange(f) && VoteFresh(f, round, period, step)
    ensures Addressable(f, AtStep(round, period, step))
    ensures round == f.round ==> f.period <= period + 1 && period <= f.period + 1
  {
  }

  lemma FreshProposalIsAddressable(f: FreshnessData, round: Round, period: Period)
    requires InRange(f) && ProposalFresh(f.round, f.period, round, period)
    ensures Addressable(f, AtPeriod(round, period, false))
    ensures round == f.round ==> f.period <= period + 1 && period <= f.period + 1
  {
  }

  /** Which bundles are fresh: those of the player's round that are certificates or at most one period behind. */
  lemma BundleFreshIff(f: FreshnessData, round: Round, period: Period, step: Step)
    ensures BundleFresh(f, round, period, step) <==> round == f.round && (step == CERT || f.period <= period + 1)
  {
  }

  /** A fresh bundle is for a live tracker unless it is a certificate of a period already collected. */
  lemma FreshBundleLiveIff(f: FreshnessData, round: Round, period: Period, step: Step)
    requires InRange(f) && period + 1 < UINT64 && BundleFresh(f, round, period, step)
    ensures Addressable(f, AtStep(round, period, step)) <==> step != CERT || period + 1 >= f.period || period <= 1
  {
  }

  /** Dispatching a fresh vote through the root always finds its tracker. */
  lemma FreshVoteAnswered<S, R>(t: RootRouter<S>, f: FreshnessData, a: Access<S, R>)
    requires InRange(f) && a.round == f.round && a.period == f.period && a.entry.FromRoot? && a.dest.VoteMachineStep?
    requires VoteFresh(f, a.r, a.p, a.s)
    ensures Allowed(a) && Dispatched(t, a, true).1 == Some(a.handler(Lookup(t, AtStep(a.r, a.p, a.s))).1)
  {
    FreshVoteIsAddressable(f, a.r, a.p, a.s);
    LiveDispatch(t, a, true, SlotOf(a));
  }

  /**
   Exactly the votes up to the first next step, of fast recovery, and of the player's own step
   and its neighbours pass.
   */
  lemma NeighbouringSteps(mine: Step, vote: Step)
    requires mine + 1 < UINT64
    ensures VoteStepFresh(mine, vote) <==>
            vote <= NEXT || vote == mine || vote == mine + 1 || vote + 1 == mine || vote >= LATE
  {
  }

  // ---------------------------------------------------------------- the player's own dispatches

  /**
   The player reads the machines of its round, of its period and, modulo 2^64, of the period
   before: the store, the freshest event, the frozen and staged values, the votes of a step and
   the cache of next-thresholds.
   */
  lemma OwnReadsAddressable(f: FreshnessData, vote: bool, step: Step)
    requires InRange(f)
    ensures Addressable(f, AtRound(f.round, vote)) && Addressable(f, AtPeriod(f.round, f.period, vote))
    ensures Addressable(f, AtStep(f.round, f.period, step))
    ensures Addressable(f, AtPeriod(f.round, (f.period - 1) % UINT64, vote))
  {
  }

  /** On entering round `r` the player addresses that round at period 0. */
  lemma EntryReadsAddressable(f: FreshnessData, r: Round)
    requires InRange(f) && r > f.round
    ensures Addressable(f, AtRound(r, false)) && Addressable(f, AtPeriod(r, 0, false))
  {
  }

  /**
   A resynchronising player reads the staged value of its freshest event's period, which is live
   unless it is a collected certificate's.
   */
  lemma ResyncReadIff(p: Player, f: FreshnessData)
    requires p.Valid() && f.round == p.round && f.period == p.period && InRange(f)
    requires p.ResyncPeriod().Some? && p.ResyncPeriod().value + 1 < UINT64
    ensures Addressable(f, AtPeriod(p.round, p.ResyncPeriod().value, false)) <==>
            || p.round !in p.freshest || !p.freshest[p.round].kind.CertThreshold?
            || p.freshest[p.round].period + 1 >= p.period || p.freshest[p.round].period <= 1
  {
    hide StoresOk, LogOk, DeadlineOk, FreshestOk;
  }

  /** A quorum of the player's round whose tracker is addressable when it arrives is of a period still kept. */
  lemma AddressableIsKept(f: FreshnessData, e: ThresholdEvent)
    requires InRange(f) && e.round == f.round && e.period + 1 < UINT64
    ensures Addressable(f, AtStep(e.round, e.period, e.step)) <==> KeptPeriod(e.period, f.period)
  {
  }

  /** So, where every quorum was addressable when it arrived, the read is one the router may be asked for. */
  lemma ResyncReadAllowed<S, R>(p: Player, f: FreshnessData, a: Access<S, R>)
    requires p.Valid() && f.round == p.round == a.round && f.period == p.period == a.period && InRange(f)
    requires p.ResyncPeriod().Some? && p.ResyncPeriod().value + 1 < UINT64
    requires p.live
    requires a.entry.FromRoot? && a.dest.ProposalMachinePeriod? && a.r == p.round && a.p == p.ResyncPeriod().value
    ensures Allowed(a)
  {
    hide StoresOk, LogOk, DeadlineOk, FreshestOk;
    ResyncReadIff(p, f);
  }
}
