/**
 The tree of state machines, one router per round, period and step, and its garbage
 collection. A machine's state is an opaque value, with None for its zero value; a handler
 is an arbitrary function from a state to a new state and a reply. The further dispatches
 a handler makes are further accesses, chosen by a driver from the replies so far.
 */
module Routing {
  import opened AgreementTypes

  datatype Tag =
    | ProposalMachine | VoteMachine
    | ProposalMachineRound | VoteMachineRound
    | ProposalMachinePeriod | VoteMachinePeriod
    | VoteMachineStep

  /** The two machines a router owns. */
  datatype Own<S> = Own(proposal: Option<S>, vote: Option<S>)

  datatype PeriodRouter<S> = PeriodRouter(own: Own<S>, children: map<Step, Option<S>>)

  datatype RoundRouter<S> = RoundRouter(own: Own<S>, children: map<Period, PeriodRouter<S>>)

  datatype RootRouter<S> = RootRouter(own: Own<S>, children: map<Round, RoundRouter<S>>)

  /** The router whose handle a dispatch goes through. */
  datatype Entry = FromRoot | FromRound | FromPeriod

  /** One dispatch: the player's round and period, the entry, the destination and what its handler does. */
  datatype Access<!S, !R> = Access(
    round: Round, period: Period, entry: Entry, dest: Tag, r: Round, p: Period, s: Step,
    handler: Option<S> -> (Option<S>, R))

  function NewPeriod<S>(): PeriodRouter<S> {
    PeriodRouter(Own(None, None), map[])
  }

  function NewRound<S>(): RoundRouter<S> {
    RoundRouter(Own(None, None), map[])
  }

  function NewRoot<S>(): RootRouter<S> {
    RootRouter(Own(None, None), map[])
  }

  /** The collection guard on a period, with 64-bit addition. */
  predicate Keeps(q: Period, current: Period) {
    (q + 1) % UINT64 >= current || q <= 1
  }

  // ---------------------------------------------------------------- dispatch on values

  function OwnHandled<S, R>(o: Own<S>, vote: bool, h: Option<S> -> (Option<S>, R)): (Own<S>, R) {
    var x := h(if vote then o.vote else o.proposal);
    (if vote then o.(vote := x.0) else o.(proposal := x.0), x.1)
  }

  function PeriodDispatch<S, R>(t: PeriodRouter<S>, a: Access<S, R>): (PeriodRouter<S>, Option<R>) {
    var c := if a.s in t.children then t.children else t.children[a.s := None];
    match a.dest
    case ProposalMachinePeriod =>
      var x := OwnHandled(t.own, false, a.handler); (PeriodRouter(x.0, c), Some(x.1))
    case VoteMachinePeriod =>
      var x := OwnHandled(t.own, true, a.handler); (PeriodRouter(x.0, c), Some(x.1))
    case VoteMachineStep =>
      var x := a.handler(c[a.s]); (PeriodRouter(t.own, c[a.s := x.0]), Some(x.1))
    case _ => (PeriodRouter(t.own, c), None)
  }

  function CollectedPeriods<S>(c: map<Period, PeriodRouter<S>>, current: Period): map<Period, PeriodRouter<S>> {
    map q | q in c && Keeps(q, current) :: c[q]
  }

  function UpdatedPeriods<S>(c: map<Period, PeriodRouter<S>>, current: Period, p: Period, gc: bool):
    map<Period, PeriodRouter<S>>
  {
    var c' := if p in c then c else c[p := NewPeriod()];
    if gc then CollectedPeriods(c', current) else c'
  }

  /** A missing child is a nil router: the dispatch fails with no reply. */
  function RoundDispatch<S, R>(t: RoundRouter<S>, a: Access<S, R>, gc: bool): (RoundRouter<S>, Option<R>) {
    var c := UpdatedPeriods(t.children, a.period, a.p, gc);
    match a.dest
    case ProposalMachineRound =>
      var x := OwnHandled(t.own, false, a.handler); (RoundRouter(x.0, c), Some(x.1))
    case VoteMachineRound =>
      var x := OwnHandled(t.own, true, a.handler); (RoundRouter(x.0, c), Some(x.1))
    case _ =>
      if a.p in c then
        var x := PeriodDispatch(c[a.p], a); (RoundRouter(t.own, c[a.p := x.0]), x.1)
      else (RoundRouter(t.own, c), None)
  }

  function CollectedRounds<S>(c: map<Round, RoundRouter<S>>, current: Round): map<Round, RoundRouter<S>> {
    map r | r in c && r >= current :: c[r]
  }

  function UpdatedRounds<S>(c: map<Round, RoundRouter<S>>, current: Round, r: Round, gc: bool):
    map<Round, RoundRouter<S>>
  {
    var c' := if r in c then c else c[r := NewRound()];
    if gc then CollectedRounds(c', current) else c'
  }

  function RootDispatch<S, R>(t: RootRouter<S>, a: Access<S, R>, gc: bool): (RootRouter<S>, Option<R>) {
    var c := UpdatedRounds(t.children, a.round, a.r, gc);
    match a.dest
    case ProposalMachine =>
      var x := OwnHandled(t.own, false, a.handler); (RootRouter(x.0, c), Some(x.1))
    case VoteMachine =>
      var x := OwnHandled(t.own, true, a.handler); (RootRouter(x.0, c), Some(x.1))
    case _ =>
      if a.r in c then
        var x := RoundDispatch(c[a.r], a, gc); (RootRouter(t.own, c[a.r := x.0]), x.1)
      else (RootRouter(t.own, c), None)
  }

  function RoundAt<S>(t: RootRouter<S>, r: Round): RoundRouter<S> {
    if r in t.children then t.children[r] else NewRound()
  }

  function PeriodIn<S>(t: RoundRouter<S>, p: Period): PeriodRouter<S> {
    if p in t.children then t.children[p] else NewPeriod()
  }

  function StepIn<S>(t: PeriodRouter<S>, s: Step): Option<S> {
    if s in t.children then t.children[s] else None
  }

  /** A dispatch through the handle of the root, of round `r`, or of period `p` of round `r`. */
  function Dispatched<S, R>(t: RootRouter<S>, a: Access<S, R>, gc: bool): (RootRouter<S>, Option<R>) {
    match a.entry
    case FromRoot => RootDispatch(t, a, gc)
    case FromRound =>
      var x := RoundDispatch(RoundAt(t, a.r), a, gc);
      (t.(children := t.children[a.r := x.0]), x.1)
    case FromPeriod =>
      var rr := RoundAt(t, a.r);
      var x := PeriodDispatch(PeriodIn(rr, a.p), a);
      (t.(children := t.children[a.r := rr.(children := rr.children[a.p := x.0])]), x.1)
  }

  // ---------------------------------------------------------------- machines by address

  datatype Slot =
    | AtRoot(vote: bool)
    | AtRound(r: Round, vote: bool)
    | AtPeriod(r: Round, p: Period, vote: bool)
    | AtStep(r: Round, p: Period, s: Step)

  function SlotOf<S, R>(a: Access<S, R>): Slot {
    match a.dest
    case ProposalMachine => AtRoot(false)
    case VoteMachine => AtRoot(true)
    case ProposalMachineRound => AtRound(a.r, false)
    case VoteMachineRound => AtRound(a.r, true)
    case ProposalMachinePeriod => AtPeriod(a.r, a.p, false)
    case VoteMachinePeriod => AtPeriod(a.r, a.p, true)
    case VoteMachineStep => AtStep(a.r, a.p, a.s)
  }

  function OwnOf<S>(o: Own<S>, vote: bool): Option<S> {
    if vote then o.vote else o.proposal
  }

  /** The states below one period's router, below one round's router, and below the root;
      a router that does not exist holds zero values. */
  function InPeriod<S>(t: PeriodRouter<S>, x: Slot): Option<S>
    requires x.AtPeriod? || x.AtStep?
  {
    if x.AtPeriod? then OwnOf(t.own, x.vote) else StepIn(t, x.s)
  }

  function InRound<S>(t: RoundRouter<S>, x: Slot): Option<S>
    requires !x.AtRoot?
  {
    if x.AtRound? then OwnOf(t.own, x.vote) else InPeriod(PeriodIn(t, x.p), x)
  }

  function Lookup<S>(t: RootRouter<S>, x: Slot): Option<S> {
    if x.AtRoot? then OwnOf(t.own, x.vote) else InRound(RoundAt(t, x.r), x)
  }

  /** The machines a player at this round and period has not let go of. */
  predicate Live(x: Slot, round: Round, period: Period) {
    match x
    case AtRoot(_) => true
    case AtRound(r, _) => r >= round
    case _ => x.r >= round && Keeps(x.p, period)
  }

  /** A handle only leads downwards. */
  predicate Downwards<S, R>(a: Access<S, R>) {
    match a.entry
    case FromRoot => true
    case FromRound => !SlotOf(a).AtRoot?
    case FromPeriod => SlotOf(a).AtPeriod? || SlotOf(a).AtStep?
  }

  /** What became of machine `y`: it was handled, kept, or let go. */
  ghost predicate Becomes<S, R>(before: Option<S>, after: Option<S>, a: Access<S, R>, reply: Option<R>, gc: bool,
                                y: Slot) {
    if y == SlotOf(a) then
      var x := a.handler(before); reply == Some(x.1) && after == x.0
    else
      after == before || (gc && !Live(y, a.round, a.period) && after == None)
  }

  lemma PeriodEffect<S, R>(t: PeriodRouter<S>, a: Access<S, R>, gc: bool, y: Slot)
    requires SlotOf(a).AtPeriod? || SlotOf(a).AtStep?
    requires (y.AtPeriod? || y.AtStep?) && y.r == a.r && y.p == a.p
    ensures var d := PeriodDispatch(t, a); Becomes(InPeriod(t, y), InPeriod(d.0, y), a, d.1, gc, y)
  {
  }

  lemma RoundEffect<S, R>(t: RoundRouter<S>, a: Access<S, R>, gc: bool, y: Slot)
    requires !SlotOf(a).AtRoot? && Live(SlotOf(a), a.round, a.period)
    requires !y.AtRoot? && y.r == a.r
    ensures var d := RoundDispatch(t, a, gc); Becomes(InRound(t, y), InRound(d.0, y), a, d.1, gc, y)
  {
    hide PeriodDispatch, OwnHandled, InPeriod;
    var c := UpdatedPeriods(t.children, a.period, a.p, gc);
    if SlotOf(a).AtRound? {
      RoundOwnEffect(t, a, gc, y);
    } else if !y.AtRound? && y.p == a.p {
      assert a.p in c && c[a.p] == PeriodIn(t, a.p);
      PeriodEffect(c[a.p], a, gc, y);
    } else if !y.AtRound? {
      PeriodKept(t, a, gc, y);
    }
  }

  lemma RoundOwnEffect<S, R>(t: RoundRouter<S>, a: Access<S, R>, gc: bool, y: Slot)
    requires SlotOf(a).AtRound? && Live(SlotOf(a), a.round, a.period)
    requires !y.AtRoot? && y.r == a.r
    ensures var d := RoundDispatch(t, a, gc); Becomes(InRound(t, y), InRound(d.0, y), a, d.1, gc, y)
  {
    if !y.AtRound? {
      PeriodKept(t, a, gc, y);
    }
  }

  lemma PeriodKept<S, R>(t: RoundRouter<S>, a: Access<S, R>, gc: bool, y: Slot)
    requires (y.AtPeriod? || y.AtStep?) && y.r == a.r && a.r >= a.round
    ensures var c := UpdatedPeriods(t.children, a.period, a.p, gc);
            var p := if y.p in c then c[y.p] else NewPeriod();
            InPeriod(p, y) == InPeriod(PeriodIn(t, y.p), y) ||
            (gc && !Live(y, a.round, a.period) && InPeriod(p, y) == None)
  {
  }

  /** A dispatch to a live machine runs its handler and touches nothing else that is live. */
  lemma LiveDispatch<S, R>(t: RootRouter<S>, a: Access<S, R>, gc: bool, y: Slot)
    requires Downwards(a) && Live(SlotOf(a), a.round, a.period)
    ensures var d := Dispatched(t, a, gc); Becomes(Lookup(t, y), Lookup(d.0, y), a, d.1, gc, y)
  {
    match a.entry
    case FromRoot => RootEffect(t, a, gc, y);
    case FromRound => {
      hide RoundDispatch, InRound, OwnHandled;
      if !y.AtRoot? && y.r == a.r {
        RoundEffect(RoundAt(t, a.r), a, gc, y);
      }
    }
    case FromPeriod => {
      hide PeriodDispatch, InPeriod, OwnHandled;
      if (y.AtPeriod? || y.AtStep?) && y.r == a.r && y.p == a.p {
        PeriodEffect(PeriodIn(RoundAt(t, a.r), a.p), a, gc, y);
      }
    }
  }

  lemma RootEffect<S, R>(t: RootRouter<S>, a: Access<S, R>, gc: bool, y: Slot)
    requires Live(SlotOf(a), a.round, a.period)
    ensures var d := RootDispatch(t, a, gc); Becomes(Lookup(t, y), Lookup(d.0, y), a, d.1, gc, y)
  {
    hide RoundDispatch, OwnHandled, InRound;
    var c := UpdatedRounds(t.children, a.round, a.r, gc);
    if SlotOf(a).AtRoot? {
      RootOwnEffect(t, a, gc, y);
    } else if !y.AtRoot? && y.r == a.r {
      assert a.r in c && c[a.r] == RoundAt(t, a.r);
      RoundEffect(c[a.r], a, gc, y);
    } else if !y.AtRoot? {
      RoundKept(t, a, gc, y);
    }
  }

  lemma RootOwnEffect<S, R>(t: RootRouter<S>, a: Access<S, R>, gc: bool, y: Slot)
    requires SlotOf(a).AtRoot?
    ensures var d := RootDispatch(t, a, gc); Becomes(Lookup(t, y), Lookup(d.0, y), a, d.1, gc, y)
  {
    if !y.AtRoot? {
      RoundKept(t, a, gc, y);
    }
  }

  lemma RoundKept<S, R>(t: RootRouter<S>, a: Access<S, R>, gc: bool, y: Slot)
    requires !y.AtRoot?
    ensures var c := UpdatedRounds(t.children, a.round, a.r, gc);
            var r := if y.r in c then c[y.r] else NewRound();
            InRound(r, y) == InRound(RoundAt(t, y.r), y) ||
            (gc && !Live(y, a.round, a.period) && InRound(r, y) == None)
  {
  }

  /** Through the root, a dispatch meets a nil router exactly when it addresses a collected machine. */
  lemma AnswersIffLive<S, R>(t: RootRouter<S>, a: Access<S, R>)
    requires a.entry.FromRoot?
    ensures Dispatched(t, a, true).1.Some? <==> Live(SlotOf(a), a.round, a.period)
  {
  }

  // ---------------------------------------------------------------- collection is invisible

  /** What a run may ask for: live machines, and of later rounds only period 0. */
  predicate Allowed<S, R>(a: Access<S, R>) {
    var x := SlotOf(a);
    && Downwards(a)
    && Live(x, a.round, a.period)
    && ((x.AtPeriod? || x.AtStep?) && x.r > a.round ==> x.p == 0)
  }

  predicate NotBefore(round: Round, period: Period, round': Round, period': Period) {
    round < round' || (round == round' && period <= period')
  }

  /** The machines that a player from here on may still ask for. */
  predicate Reachable(x: Slot, round: Round, period: Period) {
    x.AtRoot? || x.r > round || Live(x, round, period)
  }

  /** The collected tree `t` and the uncollected tree `u` answer alike from here on. */
  ghost predicate Alike<S(!new)>(t: RootRouter<S>, u: RootRouter<S>, round: Round, period: Period) {
    && (forall x :: Reachable(x, round, period) ==> Lookup(t, x) == Lookup(u, x))
    && (forall x :: Untouched(x, round) ==> Lookup(u, x) == None)
  }

  predicate Untouched(x: Slot, round: Round) {
    (x.AtPeriod? || x.AtStep?) && x.r > round && x.p != 0
  }

  lemma AlikeLater<S(!new)>(t: RootRouter<S>, u: RootRouter<S>, round: Round, period: Period, round': Round,
                     period': Period)
    requires Alike(t, u, round, period) && NotBefore(round, period, round', period')
    ensures Alike(t, u, round', period')
  {
    hide Lookup;
  }

  lemma AlikeStep<S(!new), R>(t: RootRouter<S>, u: RootRouter<S>, a: Access<S, R>)
    requires Alike(t, u, a.round, a.period) && Allowed(a)
    ensures var d, e := Dispatched(t, a, true), Dispatched(u, a, false);
            Alike(d.0, e.0, a.round, a.period) && d.1 == e.1 && d.1.Some?
  {
    hide Dispatched, Lookup;
    var d, e := Dispatched(t, a, true), Dispatched(u, a, false);
    LiveDispatch(t, a, true, SlotOf(a));
    LiveDispatch(u, a, false, SlotOf(a));
    forall x | Reachable(x, a.round, a.period) ensures Lookup(d.0, x) == Lookup(e.0, x) {
      LiveDispatch(t, a, true, x);
      LiveDispatch(u, a, false, x);
    }
    forall x | Untouched(x, a.round) ensures Lookup(e.0, x) == None {
      LiveDispatch(u, a, false, x);
    }
  }

  /** The tree and the replies after `n` accesses of a driver that sees the replies. */
  ghost function Play<S, R>(driver: seq<Option<R>> -> Access<S, R>, n: nat, gc: bool):
    (RootRouter<S>, seq<Option<R>>)
  {
    if n == 0 then (NewRoot(), [])
    else
      var before := Play(driver, n - 1, gc);
      var d := Dispatched(before.0, driver(before.1), gc);
      (d.0, before.1 + [d.1])
  }

  /** On the collected tree, the first `n` accesses are allowed and the player never goes back. */
  ghost predicate Disciplined<S, R>(driver: seq<Option<R>> -> Access<S, R>, n: nat) {
    n == 0 || (
      var a := driver(Play(driver, n - 1, true).1);
      && Disciplined(driver, n - 1)
      && Allowed(a)
      && (n > 1 ==>
            var b := driver(Play(driver, n - 2, true).1);
            NotBefore(b.round, b.period, a.round, a.period)))
  }

  /** A tree that collects gives the same replies as one that never does, and never a nil router. */
  lemma {:induction false} CollectionInvisible<S(!new), R>(driver: seq<Option<R>> -> Access<S, R>, n: nat)
    requires Disciplined(driver, n)
    ensures Play(driver, n, true).1 == Play(driver, n, false).1
    ensures forall i :: 0 <= i < |Play(driver, n, true).1| ==> Play(driver, n, true).1[i].Some?
    ensures n > 0 ==>
              var a := driver(Play(driver, n - 1, true).1);
              Alike(Play(driver, n, true).0, Play(driver, n, false).0, a.round, a.period)
  {
    hide Dispatched, Allowed, Alike;
    if n > 0 {
      CollectionInvisible(driver, n - 1);
      var t, u := Play(driver, n - 1, true), Play(driver, n - 1, false);
      var a := driver(t.1);
      if n == 1 {
        AlikeAtStart<S>(a.round, a.period);
      } else {
        var b := driver(Play(driver, n - 2, true).1);
        AlikeLater(t.0, u.0, b.round, b.period, a.round, a.period);
      }
      AlikeStep(t.0, u.0, a);
    }
  }

  lemma AlikeAtStart<S(!new)>(round: Round, period: Period)
    ensures Alike<S>(NewRoot(), NewRoot(), round, period)
  {
  }

  // ---------------------------------------------------------------- the root router as an object

  method CollectPeriods<S>(children: map<Period, PeriodRouter<S>>, current: Period)
    returns (kept: map<Period, PeriodRouter<S>>)
    ensures kept == CollectedPeriods(children, current)
  {
    kept := map[];
    var left := children.Keys;
    while left != {}
      invariant left <= children.Keys
      invariant kept == CollectedPeriods(map q | q in children && q !in left :: children[q], current)
      decreases left
    {
      var q :| q in left;
      left := left - {q};
      if (q + 1) % UINT64 >= current {
        kept := kept[q := children[q]];
      } else if q <= 1 {
        kept := kept[q := children[q]];
      }
    }
    assert (map q | q in children && q !in left :: children[q]) == children;
  }

  /** A round's router collects, then handles the dispatch itself or hands it down. */
  method DispatchInRound<S, R>(t: RoundRouter<S>, a: Access<S, R>) returns (t': RoundRouter<S>, reply: Option<R>)
    ensures (t', reply) == RoundDispatch(t, a, true)
  {
    var c := t.children;
    if a.p !in c {
      c := c[a.p := NewPeriod()];
    }
    c := CollectPeriods(c, a.period);
    match a.dest
    case ProposalMachineRound =>
      var x := a.handler(t.own.proposal);
      t', reply := RoundRouter(t.own.(proposal := x.0), c), Some(x.1);
    case VoteMachineRound =>
      var x := a.handler(t.own.vote);
      t', reply := RoundRouter(t.own.(vote := x.0), c), Some(x.1);
    case _ =>
      if a.p in c {
        var x := PeriodDispatch(c[a.p], a);
        t', reply := RoundRouter(t.own, c[a.p := x.0]), x.1;
      } else {
        t', reply := RoundRouter(t.own, c), None;
      }
  }

  class RouterMachine<S(!new), R> {
    var own: Own<S>
    var children: map<Round, RoundRouter<S>>

    function Tree(): RootRouter<S>
      reads this
    {
      RootRouter(own, children)
    }

    constructor ()
      ensures Tree() == NewRoot<S>()
    {
      own, children := Own(None, None), map[];
    }

    method Update(current: Round, r: Round, gc: bool)
      modifies this`children
      ensures children == UpdatedRounds(old(children), current, r, gc)
    {
      if r !in children {
        children := children[r := NewRound()];
      }
      if gc {
        var all := children;
        var kept: map<Round, RoundRouter<S>> := map[];
        var left := all.Keys;
        while left != {}
          invariant left <= all.Keys
          invariant kept == CollectedRounds(map q | q in all && q !in left :: all[q], current)
          decreases left
        {
          var q :| q in left;
          left := left - {q};
          if q >= current {
            kept := kept[q := all[q]];
          }
        }
        assert (map q | q in all && q !in left :: all[q]) == all;
        children := kept;
      }
    }

    /** A dispatch through the root, collecting as it goes. */
    method Dispatch(a: Access<S, R>) returns (reply: Option<R>)
      requires a.entry.FromRoot?
      modifies this
      ensures (Tree(), reply) == Dispatched(old(Tree()), a, true)
    {
      Update(a.round, a.r, true);
      match a.dest
      case ProposalMachine =>
        var x := a.handler(own.proposal);
        own, reply := own.(proposal := x.0), Some(x.1);
      case VoteMachine =>
        var x := a.handler(own.vote);
        own, reply := own.(vote := x.0), Some(x.1);
      case _ =>
        if a.r in children {
          var c, answer := DispatchInRound(children[a.r], a);
          children, reply := children[a.r := c], answer;
        } else {
          reply := None;
        }
    }
  }
}
