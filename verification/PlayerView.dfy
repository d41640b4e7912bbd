/**
 How the player's round looks to the network model: the node a proposal store and a
 next-threshold cache stand for, and what each store event does to that node.
 */
module PlayerView {
  import opened AgreementTypes
  import opened NodeProtocol
  import opened ProposalStorage

  function StagedIn(s: Store): map<Period, ProposalValue> {
    map q | q in s.trackers && s.trackers[q].staging != BOTTOM :: s.trackers[q].staging
  }

  function BlocksIn(s: Store): set<ProposalValue> {
    set v | v in s.assemblers && s.assemblers[v].payload.Some?
  }

  lemma BlockIff(s: Store, v: ProposalValue)
    ensures v in BlocksIn(s) <==> s.Holds(v)
  {
  }

  /** The committable value of a period, as the store answers a read of the staging value. */
  function CommittableIn(s: Store, q: Period): Option<ProposalValue> {
    if s.Committable(q) then Some(s.Staged(q)) else None
  }

  lemma CommittableIff(s: Store, q: Period)
    requires StoreInv(s)
    ensures CommittableIn(s, q) ==
            if q in StagedIn(s) && StagedIn(s)[q] in BlocksIn(s) then Some(StagedIn(s)[q]) else None
  {
  }

  /** Blocks survive or go; they never appear or change without a payload. */
  lemma BlocksShrink(output: Credential -> nat, s: Store, cur: Period, e: StoreEvent)
    requires StoreInv(s) && !e.PayloadVerified?
    ensures BlocksIn(StoreAfter(output, s, cur, e)) <= BlocksIn(s)
  {
    match e
    case VoteVerified(v) =>
      var t := s.TrackerAt(v.r.period);
      if Accepts(output, t, v) {
        var a := s.At(v.r.proposal);
        TrimShrinks(s.Track(v.r.period, TrackVote(output, t, v)).(
                      assemblers := s.assemblers[v.r.proposal := a.(authenticators := a.authenticators + [v])],
                      relevant := s.relevant[v.r.period := v.r.proposal]), cur);
      }
    case NewPeriod(target, starting) =>
      TrimShrinks(s.(pinned := PinnedAfter(s, cur, starting),
                     relevant := map q | q in s.relevant && !Drops(q, target) :: s.relevant[q]), cur);
    case Threshold(q, value) =>
      TrimShrinks(s.Track(q, s.TrackerAt(q).(staging := value)).(
                    assemblers := s.assemblers[value := s.At(value)], relevant := s.relevant[q := value]), cur);
    case _ =>
  }

  lemma TrimShrinks(s: Store, cur: Period)
    ensures BlocksIn(s.Trimmed(cur)) <= BlocksIn(s)
  {
    forall v | v in BlocksIn(s.Trimmed(cur)) ensures v in BlocksIn(s) {
      TrimKeeps(s, cur, v);
    }
  }

  /** A threshold stages its value and says whether its block is there. */
  lemma ViewThreshold(output: Credential -> nat, s: Store, cur: Period, q: Period, x: ProposalValue)
    requires StoreInv(s) && x != BOTTOM
    ensures var s' := StoreAfter(output, s, cur, Threshold(q, x));
            && StoreInv(s') && StagedIn(s') == StagedIn(s)[q := x] && s'.Staged(q) == x
            && BlocksIn(s') <= BlocksIn(s) && (x in BlocksIn(s') <==> x in BlocksIn(s))
            && (s'.Committable(q) <==> x in BlocksIn(s))
  {
    var e := Threshold(q, x);
    StoreKept(output, s, cur, e);
    BlocksShrink(output, s, cur, e);
    if s.Holds(x) {
      SurvivesIff(output, s, cur, e, x);
    }
    ThresholdTrackers(output, s, cur, q, x);
    hide StoreAfter, StoreInv;
    BlockIff(s, x);
    BlockIff(StoreAfter(output, s, cur, e), x);
  }

  lemma ThresholdTrackers(output: Credential -> nat, s: Store, cur: Period, q: Period, x: ProposalValue)
    requires x != BOTTOM
    ensures var s' := StoreAfter(output, s, cur, Threshold(q, x));
            StagedIn(s') == StagedIn(s)[q := x] && s'.Staged(q) == x
  {
    var s' := StoreAfter(output, s, cur, Threshold(q, x));
    assert s'.trackers == s.trackers[q := s.TrackerAt(q).(staging := x)];
  }

  /** A new period keeps the staging values and the block of its starting value. */
  lemma ViewNewPeriod(output: Credential -> nat, s: Store, cur: Period, target: Period, x: ProposalValue)
    requires StoreInv(s)
    ensures var s' := StoreAfter(output, s, cur, NewPeriod(target, x));
            && StoreInv(s') && StagedIn(s') == StagedIn(s)
            && BlocksIn(s') <= BlocksIn(s) && (x in BlocksIn(s') <==> x in BlocksIn(s))
  {
    var e := NewPeriod(target, x);
    StoreKept(output, s, cur, e);
    BlocksShrink(output, s, cur, e);
    var s' := StoreAfter(output, s, cur, e);
    assert s'.trackers == s.trackers;
    if s.Holds(x) {
      SurvivesIff(output, s, cur, e, x);
    }
    hide StoreAfter, StoreInv;
    BlockIff(s, x);
    BlockIff(s', x);
  }

  lemma ViewPayload(output: Credential -> nat, s: Store, cur: Period, pp: Payload)
    requires StoreInv(s)
    ensures var s' := StoreAfter(output, s, cur, PayloadVerified(pp));
            && StoreInv(s') && StagedIn(s') == StagedIn(s)
            && (pp.value in s.Tracked() && !s.Holds(pp.value) ==>
                  pp.value != BOTTOM && BlocksIn(s') == BlocksIn(s) + {pp.value})
            && (!(pp.value in s.Tracked() && !s.Holds(pp.value)) ==> s' == s)
  {
    StoreKept(output, s, cur, PayloadVerified(pp));
  }

  lemma ViewFreeze(output: Credential -> nat, s: Store, q: Period)
    requires StoreInv(s)
    ensures var s' := StoreAfter(output, s, q, Freeze(q));
            StoreInv(s') && StagedIn(s') == StagedIn(s) && BlocksIn(s') == BlocksIn(s)
  {
    StoreKept(output, s, q, Freeze(q));
  }

  // ---------------------------------------------------------------- following the network model

  /** The blocks that a reaction may cost: on staging or on a new period, those other than the event's value. */
  predicate DropsOnly(n: Node, e: Event, n': Node) {
    match e
    case SeeSoft(q, x) => (x in n.blocks ==> x in n'.blocks) && (n.period > q ==> n'.blocks == n.blocks)
    case SeeCert(_, _) => true
    case SeeNext(q, _, _, freshest) => !freshest || n.period > q ==> n'.blocks == n.blocks
    case _ => n'.blocks == React(n, e).node.blocks
  }

  /** The node moved as the model's reaction to `e`, except that it may hold fewer blocks. */
  ghost predicate Follows(n: Node, e: Event, n': Node) {
    var r := React(n, e);
    r.node.active && n'.blocks <= r.node.blocks && n' == r.node.(blocks := n'.blocks) && DropsOnly(n, e, n')
  }
}
