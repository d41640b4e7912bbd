/**
 Freshness of threshold events within a round, the round machine that passes up only
 fresher events, and the period machine that caches next-thresholds.
 */
module Freshness {
  import opened AgreementTypes
  import opened VoteTracking
  import opened VotingRules

  /** Whether `e` is fresher than `o`; `None` stands for the empty event. */
  predicate FresherThan(e: Option<ThresholdEvent>, o: Option<ThresholdEvent>)
    requires e.Some? && o.Some? ==> e.value.round == o.value.round
  {
    if e.None? && o.None? then true
    else if e.None? then false
    else if o.None? then true
    else if o.value.kind.CertThreshold? then false
    else match e.value.kind
      case SoftThreshold => e.value.period > o.value.period
      case CertThreshold => true
      case NextThreshold =>
        if e.value.period > o.value.period then true
        else if e.value.period < o.value.period then false
        else if o.value.kind.SoftThreshold? then true
        else e.value.proposal == BOTTOM && o.value.proposal != BOTTOM
  }

  /** Cert on top; otherwise by period, then soft, next for a value, next for bottom. */
  datatype Rank = Ordinary(period: Period, tier: nat) | Top

  function RankOf(e: ThresholdEvent): Rank {
    match e.kind
    case CertThreshold => Top
    case SoftThreshold => Ordinary(e.period, 0)
    case NextThreshold => Ordinary(e.period, if e.proposal == BOTTOM then 2 else 1)
  }

  predicate Above(a: Rank, b: Rank) {
    !b.Top? && (a.Top? || a.period > b.period || (a.period == b.period && a.tier > b.tier))
  }

  /** On events of one round, freshness is exactly the strict order of ranks. */
  lemma FreshnessIsRank(e: ThresholdEvent, o: ThresholdEvent)
    requires e.round == o.round
    ensures FresherThan(Some(e), Some(o)) <==> Above(RankOf(e), RankOf(o))
    ensures FresherThan(Some(e), None) && !FresherThan(None, Some(o)) && FresherThan(None, None)
  {
  }

  /** The order itself: a certificate is above all else; then the later period; then bottom, a value, a soft quorum. */
  lemma RankByKind(a: ThresholdEvent, b: ThresholdEvent)
    ensures a.kind.CertThreshold? ==> (Above(RankOf(a), RankOf(b)) <==> !b.kind.CertThreshold?)
    ensures !a.kind.CertThreshold? && b.kind.CertThreshold? ==> !Above(RankOf(a), RankOf(b))
    ensures !a.kind.CertThreshold? && !b.kind.CertThreshold? && a.period != b.period ==>
              (Above(RankOf(a), RankOf(b)) <==> a.period > b.period)
    ensures !a.kind.CertThreshold? && !b.kind.CertThreshold? && a.period == b.period ==>
              (Above(RankOf(a), RankOf(b)) <==>
               a.kind.NextThreshold? && (b.kind.SoftThreshold? || (a.proposal == BOTTOM && b.proposal != BOTTOM)))
  {
  }

  lemma AboveIsStrictOrder(a: Rank, b: Rank, c: Rank)
    ensures !Above(a, a)
    ensures Above(a, b) && Above(b, c) ==> Above(a, c)
    ensures a != b ==> Above(a, b) || Above(b, a)
    ensures Above(a, b) && !Above(c, b) ==> Above(a, c)
  {
  }

  // ---------------------------------------------------------------- record events

  /** The events that were fresher than everything before them. */
  ghost function Records(h: seq<ThresholdEvent>): seq<ThresholdEvent> {
    if h == [] then [] else
      var r, e := Records(h[..|h| - 1]), h[|h| - 1];
      if r == [] || Above(RankOf(e), RankOf(r[|r| - 1])) then r + [e] else r
  }

  /** Position `i` of the history holds the first event to reach the highest rank. */
  ghost predicate FirstFreshest(h: seq<ThresholdEvent>, i: nat) {
    && i < |h|
    && (forall j :: 0 <= j < i ==> Above(RankOf(h[i]), RankOf(h[j])))
    && (forall j :: i <= j < |h| ==> !Above(RankOf(h[j]), RankOf(h[i])))
  }

  /** Records rise strictly in rank. */
  lemma {:induction false} RecordsRise(h: seq<ThresholdEvent>, i: nat, j: nat)
    requires i < j < |Records(h)|
    ensures Above(RankOf(Records(h)[j]), RankOf(Records(h)[i]))
  {
    var r := Records(h[..|h| - 1]);
    if j < |r| {
      RecordsRise(h[..|h| - 1], i, j);
    } else if i < |r| - 1 {
      RecordsRise(h[..|h| - 1], i, |r| - 1);
      AboveIsStrictOrder(RankOf(Records(h)[j]), RankOf(r[|r| - 1]), RankOf(r[i]));
    }
  }

  /** The last record is the first event of the history to reach the highest rank. */
  lemma {:induction false} LastRecord(h: seq<ThresholdEvent>) returns (i: nat)
    requires h != []
    ensures Records(h) != [] && FirstFreshest(h, i) && Records(h)[|Records(h)| - 1] == h[i]
  {
    var n := |h| - 1;
    if n == 0 {
      i := 0;
      assert h[..0] == [];
    } else {
      var k := LastRecord(h[..n]);
      assert forall j :: 0 <= j < n ==> h[..n][j] == h[j];
      if Above(RankOf(h[n]), RankOf(h[k])) {
        i := n;
        forall j | 0 <= j < n ensures Above(RankOf(h[n]), RankOf(h[j])) {
          AboveIsStrictOrder(RankOf(h[n]), RankOf(h[k]), RankOf(h[j]));
        }
      } else {
        i := k;
      }
    }
  }

  /** The round machine: `offered` is every threshold event it was given, `passed` those it let through. */
  class VoteTrackerRound {
    ghost const round: Round
    var freshest: Option<ThresholdEvent>
    var ok: bool
    ghost var offered: seq<ThresholdEvent>
    ghost var passed: seq<ThresholdEvent>

    ghost predicate Valid()
      reads this
    {
      && passed == Records(offered)
      && (forall e :: e in passed ==> e.round == round)
      && ok == (offered != [])
      && (offered == [] ==> freshest.None? && passed == [])
      && (offered != [] ==> passed != [] && freshest == Some(passed[|passed| - 1]))
    }

    constructor (ghost round: Round)
      ensures Valid() && offered == [] && this.round == round
    {
      this.round := round;
      freshest, ok, offered, passed := None, false, [], [];
    }

    method HandleThreshold(e: ThresholdEvent) returns (up: Option<ThresholdEvent>)
      requires Valid() && e.round == round
      modifies this
      ensures Valid() && offered == old(offered) + [e]
      ensures passed == if up.None? then old(passed) else old(passed) + [e]
      ensures up.Some? ==> up == Some(e) && freshest == Some(e)
      ensures up.Some? <==> old(offered) == [] || Above(RankOf(e), RankOf(old(freshest).value))
    {
      assert (offered + [e])[..|offered|] == offered;
      offered := offered + [e];
      if FresherThan(Some(e), freshest) {
        freshest, ok := Some(e), true;
        passed := passed + [e];
        up := Some(e);
      } else {
        up := None;
      }
    }

    method FreshestBundle() returns (seen: bool, e: Option<ThresholdEvent>)
      requires Valid()
      ensures seen <==> offered != []
      ensures seen ==> e.Some? && exists i: nat :: FirstFreshest(offered, i) && e.value == offered[i]
    {
      seen, e := ok, freshest;
      if ok {
        ghost var i := LastRecord(offered);
      }
    }
  }

  // ---------------------------------------------------------------- the next-threshold cache

  /** The last value other than bottom, or bottom. */
  ghost function LastValue(seen: seq<ProposalValue>): ProposalValue {
    if seen == [] then BOTTOM
    else if seen[|seen| - 1] != BOTTOM then seen[|seen| - 1]
    else LastValue(seen[..|seen| - 1])
  }

  lemma {:induction false} LastValueOnly(seen: seq<ProposalValue>, v: ProposalValue)
    requires v in seen && v != BOTTOM && forall x :: x in seen ==> x == v || x == BOTTOM
    ensures LastValue(seen) == v
  {
    var n := |seen| - 1;
    assert seen == seen[..n] + [seen[n]];
    if seen[n] == BOTTOM {
      assert forall x :: x in seen[..n] ==> x in seen;
      LastValueOnly(seen[..n], v);
    } else {
      assert seen[n] in seen;
    }
  }

  /** The period machine: `seen` lists the proposals of the next-thresholds of its period. */
  class VoteTrackerPeriod {
    var cached: NextStatus
    ghost var seen: seq<ProposalValue>

    ghost predicate Valid()
      reads this
    {
      (cached.bottom <==> BOTTOM in seen) && cached.proposal == LastValue(seen)
    }

    constructor ()
      ensures Valid() && seen == []
    {
      cached, seen := NOTHING_SEEN, [];
    }

    method HandleNextThreshold(p: ProposalValue)
      requires Valid()
      modifies this
      ensures Valid() && seen == old(seen) + [p] && cached == Cache(old(cached), p)
    {
      assert (seen + [p])[..|seen|] == seen;
      seen := seen + [p];
      if p == BOTTOM {
        cached := cached.(bottom := true);
      } else {
        cached := cached.(proposal := p);
      }
    }
  }
}
