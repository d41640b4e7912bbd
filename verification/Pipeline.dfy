/**
 The pipelined block fetcher of catchup as a state machine: one main thread issues rounds,
 N workers run them, and results travel over bounded channels. Every interleaving of the
 atomic steps is a run.
 */
module Pipeline {
  import opened AgreementTypes

  const RETRY_LIMIT: nat := 500

  /** N = parallelRequests, L = seedLookback, and the first round to fetch. */
  datatype Config = Config(parallelBlocks: nat, lookback: nat, from: nat)
  {
    function N(): nat { if parallelBlocks < lookback then lookback else parallelBlocks }

    predicate Proper() { lookback >= 1 && from >= 1 }
  }

  /** Where a round's fetch stands. `i` counts fetch attempts. */
  datatype Pc =
    | Queued
    | Trying(i: nat, hasLookback: bool)
    | AwaitLookback(i: nat, gotBlock: bool)
    | Checking(i: nat)
    | AwaitPrev
    | Adding
    | Sending(ok: bool, sent: nat)
    | Reporting(ok: bool)
    | Reported(ok: bool)
  {
    /** What the fetch returned, once it has returned. */
    predicate Returned() { Sending? || Reporting? || Reported? }

    /** How many copies of the result have been written to the round's channel. */
    function Written(): nat {
      if Sending? then sent else if Reporting? || Reported? then 2 else 0
    }

    /** A worker is executing it. */
    predicate Busy() { !Queued? && !Reported? }
  }

  /** A task with the two channels captured when it was issued, and whether it has read them. */
  datatype Task = Task(pc: Pc, prev: int, lookback: int, readPrev: bool, readLookback: bool)

  datatype Phase = Issuing | Serving | Refilling | Stopped

  /** What a fetch did with a round: `attempt` numbers its downloads, `ok` says how each call came out. */
  datatype Obs =
    | Fetched(round: int, attempt: nat)
    | Authenticate(round: int, attempt: nat, ok: bool)
    | Unverified(round: int, attempt: nat)
    | AddBlock(round: int, ok: bool)
    | Return(round: int, ok: bool)

  /**
   `recent` is recentReqs, `taskCh` and `completed` the two shared channels (0 reports a
   failure), `chan` the two-slot result channels by round, `consumed` is completedRounds,
   `received` lists what the main thread took from `completed`.
   */
  datatype State = State(
    phase: Phase, next: int, recent: seq<int>, taskCh: seq<int>, completed: seq<int>,
    tasks: map<int, Task>, chan: map<int, seq<bool>>, consumed: set<int>, received: seq<int>,
    cancelled: bool, log: seq<Obs>)

  function InitState(c: Config): State {
    State(Issuing, c.from, seq(c.lookback, i => c.from - c.lookback + i), [], [], map[],
          Prefilled(c.from - c.lookback, c.lookback), {}, [], false, [])
  }

  /** The channels of the L rounds before the run hold two successes each. */
  function Prefilled(first: int, n: nat): (m: map<int, seq<bool>>)
    ensures forall r :: r in m <==> first <= r < first + n
    ensures forall r :: r in m ==> m[r] == [true, true]
  {
    if n == 0 then map[] else Prefilled(first, n - 1)[first + n - 1 := [true, true]]
  }

  /** The steps of the main thread, of the workers, and of the tasks they run. */
  datatype Action =
    | Issue | StopIssuing | Receive(catchpoint: bool) | Refill | RefillStop | RefillDone | StopCancelled | Cancel
    | Take
    | GiveUp(r: int) | FetchFailed(r: int) | FetchMismatch(r: int) | FetchOk(r: int)
    | ReadLookback(r: int) | AuthFailed(r: int) | AuthOk(r: int) | SkipAuth(r: int)
    | ReadPrev(r: int) | Add(r: int, ok: bool)
    | Send(r: int) | Report(r: int)

  ghost predicate MayRefill(c: Config, s: State) {
    s.phase.Refilling? && s.next - c.N() in s.consumed
  }

  /** The step reads or writes no channel that would make it wait, and its thread stands there. */
  ghost predicate Can(c: Config, s: State, a: Action) {
    match a
    case Issue => s.phase.Issuing? && s.next < c.from + c.N() && |s.taskCh| < c.N() && |s.recent| == c.lookback
    case StopIssuing => s.phase.Issuing?
    case Receive(_) => s.phase.Serving? && s.completed != []
    case Refill => MayRefill(c, s) && |s.taskCh| < c.N() && |s.recent| == c.lookback
    case RefillStop => MayRefill(c, s)
    case RefillDone => s.phase.Refilling? && s.next - c.N() !in s.consumed
    case StopCancelled => s.phase.Serving? && s.cancelled
    case Cancel => true
    case Take => s.taskCh != [] && |Running(s)| < c.N() && s.taskCh[0] in s.tasks
    case GiveUp(r) => At(s, r) && (s.tasks[r].pc.Trying? || s.tasks[r].pc.AwaitLookback? ||
                                   s.tasks[r].pc.AwaitPrev? || s.tasks[r].pc.Adding?)
    case FetchFailed(r) => At(s, r) && s.tasks[r].pc.Trying? && s.tasks[r].pc.i <= RETRY_LIMIT
    case FetchMismatch(r) => At(s, r) && s.tasks[r].pc.Trying? && s.tasks[r].pc.i <= RETRY_LIMIT
    case FetchOk(r) => At(s, r) && s.tasks[r].pc.Trying? && s.tasks[r].pc.i <= RETRY_LIMIT
    case ReadLookback(r) => At(s, r) && s.tasks[r].pc.AwaitLookback? && Holds(s, s.tasks[r].lookback)
    case AuthFailed(r) => At(s, r) && s.tasks[r].pc.Checking?
    case AuthOk(r) => At(s, r) && s.tasks[r].pc.Checking?
    case SkipAuth(r) => At(s, r) && s.tasks[r].pc.Checking?
    case ReadPrev(r) => At(s, r) && s.tasks[r].pc.AwaitPrev? && Holds(s, s.tasks[r].prev)
    case Add(r, _) => At(s, r) && s.tasks[r].pc.Adding?
    case Send(r) => At(s, r) && s.tasks[r].pc.Sending? && r in s.chan && |s.chan[r]| < 2
    case Report(r) => At(s, r) && s.tasks[r].pc.Reporting? && |s.completed| < c.N()
  }

  predicate At(s: State, r: int) { r in s.tasks }

  predicate Holds(s: State, ch: int) { ch in s.chan && s.chan[ch] != [] }

  ghost function Running(s: State): set<int> {
    set r | r in s.tasks && s.tasks[r].pc.Busy()
  }

  function SetPc(s: State, r: int, pc: Pc): State
    requires r in s.tasks
  {
    s.(tasks := s.tasks[r := s.tasks[r].(pc := pc)])
  }

  /** The fetch of round `r` returns `ok`. */
  function Finish(s: State, r: int, ok: bool): State
    requires r in s.tasks
  {
    SetPc(s, r, Sending(ok, 0)).(log := s.log + [Return(r, ok)])
  }

  /** Puts the next round on `taskCh` with its two predecessors' channels. */
  function Enqueue(c: Config, s: State): State
    requires c.Proper() && |s.recent| == c.lookback
  {
    var r := s.next;
    s.(next := r + 1,
       taskCh := s.taskCh + [r],
       recent := s.recent[1..] + [r],
       consumed := s.consumed - {r},
       chan := s.chan[r := []],
       tasks := s.tasks[r := Task(Queued, s.recent[|s.recent| - 1], s.recent[|s.recent| - c.lookback], false, false)])
  }

  ghost function Do(c: Config, s: State, a: Action): State
    requires c.Proper() && Can(c, s, a)
  {
    match a
    case Issue => Enqueue(c, s)
    case StopIssuing => s.(phase := Serving)
    case Receive(catchpoint) =>
      var t := s.(completed := s.completed[1..], received := s.received + [s.completed[0]]);
      if s.completed[0] == 0 || catchpoint then t.(phase := Stopped)
      else t.(phase := Refilling, consumed := s.consumed + {s.completed[0]})
    case Refill => Enqueue(c, s)
    case RefillStop => s.(phase := Stopped)
    case RefillDone => s.(phase := Serving)
    case StopCancelled => s.(phase := Stopped)
    case Cancel => s.(cancelled := true)
    case Take => SetPc(s.(taskCh := s.taskCh[1..]), s.taskCh[0], Trying(1, false))
    case GiveUp(r) => Finish(s, r, false)
    case FetchFailed(r) =>
      var pc := s.tasks[r].pc;
      SetPc(s, r, if pc.hasLookback then Trying(pc.i + 1, true) else AwaitLookback(pc.i, false))
    case FetchMismatch(r) =>
      SetPc(s, r, Trying(s.tasks[r].pc.i + 1, s.tasks[r].pc.hasLookback))
    case FetchOk(r) =>
      var pc := s.tasks[r].pc;
      SetPc(s, r, if pc.hasLookback then Checking(pc.i) else AwaitLookback(pc.i, true))
        .(log := s.log + [Fetched(r, pc.i)])
    case ReadLookback(r) =>
      var t, pc, ch := s.tasks[r], s.tasks[r].pc, s.tasks[r].lookback;
      var u := s.(chan := s.chan[ch := s.chan[ch][1..]], tasks := s.tasks[r := t.(readLookback := true)]);
      if !s.chan[ch][0] then Finish(u, r, false)
      else SetPc(u, r, if pc.gotBlock then Checking(pc.i) else Trying(pc.i + 1, true))
    case AuthFailed(r) =>
      SetPc(s, r, Trying(s.tasks[r].pc.i + 1, true)).(log := s.log + [Authenticate(r, s.tasks[r].pc.i, false)])
    case AuthOk(r) => SetPc(s, r, AwaitPrev).(log := s.log + [Authenticate(r, s.tasks[r].pc.i, true)])
    case SkipAuth(r) => SetPc(s, r, AwaitPrev).(log := s.log + [Unverified(r, s.tasks[r].pc.i)])
    case ReadPrev(r) =>
      var t, ch := s.tasks[r], s.tasks[r].prev;
      var u := s.(chan := s.chan[ch := s.chan[ch][1..]], tasks := s.tasks[r := t.(readPrev := true)]);
      if s.chan[ch][0] then SetPc(u, r, Adding) else Finish(u, r, false)
    case Add(r, ok) => Finish(s.(log := s.log + [AddBlock(r, ok)]), r, ok)
    case Send(r) =>
      var pc := s.tasks[r].pc;
      SetPc(s, r, if pc.sent + 1 >= 2 then Reporting(pc.ok) else Sending(pc.ok, pc.sent + 1))
        .(chan := s.chan[r := s.chan[r] + [pc.ok]])
    case Report(r) =>
      var ok := s.tasks[r].pc.ok;
      SetPc(s, r, Reported(ok)).(completed := s.completed + [if ok then r else 0])
  }

  ghost predicate IsRun(c: Config, run: seq<State>) {
    && run != [] && run[0] == InitState(c)
    && forall i :: 0 <= i < |run| - 1 ==> Succ(c, run[i], run[i + 1])
  }

  ghost predicate Succ(c: Config, s: State, t: State) {
    c.Proper() && exists a :: Can(c, s, a) && t == Do(c, s, a)
  }

  // ---------------------------------------------------------------- invariant

  /** Issued rounds are from..next-1; those not yet taken wait in order. */
  ghost predicate QueueOk(c: Config, s: State) {
    && c.from <= s.next && |s.taskCh| <= s.next - c.from
    && (forall r :: r in s.tasks <==> c.from <= r < s.next)
    && (forall i :: 0 <= i < |s.taskCh| ==> s.taskCh[i] == s.next - |s.taskCh| + i)
    && (forall r :: r in s.tasks ==> (s.tasks[r].pc.Queued? <==> r >= s.next - |s.taskCh|))
    && (forall i :: 0 <= i < |s.completed| ==> s.completed[i] == 0 || s.completed[i] in s.tasks)
  }

  /** Every task reads the channels of the round before it and of the round L before it. */
  ghost predicate WiringOk(c: Config, s: State) {
    && |s.recent| == c.lookback
    && (forall i :: 0 <= i < |s.recent| ==> s.recent[i] == s.next - c.lookback + i)
    && (forall r :: r in s.tasks ==> s.tasks[r].prev == r - 1 && s.tasks[r].lookback == r - c.lookback)
    && (forall r :: r in s.chan <==> c.from - c.lookback <= r < s.next)
  }

  /** Every issued round is queued, run, reported or received; received rounds pay for new ones. */
  ghost predicate WindowOk(c: Config, s: State) {
    && s.next - c.from == |s.taskCh| + |Running(s)| + |s.completed| + |s.received|
    && |s.consumed| <= |s.received|
    && (forall r :: c.from <= r < s.next - c.N() ==> r in s.consumed)
    && (forall r :: r in s.consumed ==> c.from <= r < s.next)
  }

  /** The round predates the run or has returned success. */
  ghost predicate Good(c: Config, tasks: map<int, Task>, r: int) {
    r < c.from || (r in tasks && tasks[r].pc.Returned() && tasks[r].pc.ok)
  }

  /** What a task has read fits where it stands, and it got past a read only on success. */
  ghost predicate TaskOk(c: Config, tasks: map<int, Task>, r: int, t: Task) {
    && (match t.pc
        case Queued => !t.readPrev && !t.readLookback
        case Trying(_, h) => !t.readPrev && t.readLookback == h
        case AwaitLookback(_, _) => !t.readPrev && !t.readLookback
        case Checking(_) => !t.readPrev && t.readLookback
        case AwaitPrev => !t.readPrev && t.readLookback
        case Adding => t.readPrev && t.readLookback
        case Sending(_, sent) => sent < 2
        case _ => true)
    && (t.readLookback && !t.pc.Returned() ==> Good(c, tasks, r - c.lookback))
    && (t.pc.Adding? || (t.pc.Returned() && t.pc.ok) ==> Good(c, tasks, r - 1) && Good(c, tasks, r - c.lookback))
  }

  ghost predicate TasksOk(c: Config, s: State) {
    forall r :: r in s.tasks ==> TaskOk(c, s.tasks, r, s.tasks[r])
  }

  function WrittenTo(c: Config, tasks: map<int, Task>, ch: int): nat {
    if ch < c.from then 2 else if ch in tasks then tasks[ch].pc.Written() else 0
  }

  function ReadFrom(c: Config, tasks: map<int, Task>, ch: int): nat {
    (if ch + 1 in tasks && tasks[ch + 1].readPrev then 1 else 0) +
    (if ch + c.lookback in tasks && tasks[ch + c.lookback].readLookback then 1 else 0)
  }

  /** A result channel holds what was written less what was read, and only the round's result. */
  ghost predicate ChanOk(c: Config, tasks: map<int, Task>, ch: int, buf: seq<bool>) {
    && |buf| + ReadFrom(c, tasks, ch) == WrittenTo(c, tasks, ch)
    && forall i :: 0 <= i < |buf| ==> buf[i] == Good(c, tasks, ch)
  }

  ghost predicate ChansOk(c: Config, s: State) {
    forall ch :: ch in s.chan ==> ChanOk(c, s.tasks, ch, s.chan[ch])
  }

  /** The log of returns is what the tasks show. */
  ghost predicate LogMatches(c: Config, s: State) {
    forall r, ok :: Return(r, ok) in s.log <==> r in s.tasks && s.tasks[r].pc.Returned() && s.tasks[r].pc.ok == ok
  }

  /** Every ledger write came after all earlier rounds succeeded, every authentication after its lookback round did. */
  ghost predicate LogOrdered(c: Config, log: seq<Obs>) {
    forall k :: 0 <= k < |log| ==> EntryOrdered(c, log[..k], log[k])
  }

  ghost predicate EntryOrdered(c: Config, before: seq<Obs>, o: Obs) {
    match o
    case AddBlock(r, _) => forall j :: c.from <= j < r ==> Return(j, true) in before
    case Authenticate(r, _, _) => r - c.lookback >= c.from ==> Return(r - c.lookback, true) in before
    case _ => true
  }

  ghost predicate Core(c: Config, s: State) {
    && c.Proper()
    && QueueOk(c, s) && WiringOk(c, s) && WindowOk(c, s)
    && TasksOk(c, s) && ChansOk(c, s) && LogMatches(c, s) && LogOrdered(c, s.log)
  }

  // ---------------------------------------------------------------- what is reported

  predicate ReportedAs(tasks: map<int, Task>, r: int, ok: bool) {
    r in tasks && tasks[r].pc == Reported(ok)
  }

  ghost function Failures(tasks: map<int, Task>): set<int> {
    set r | r in tasks && ReportedAs(tasks, r, false)
  }

  /** Each success is reported once under its round, each failure once as 0, and nothing else. */
  ghost predicate BalanceOk(reports: seq<int>, tasks: map<int, Task>) {
    && (forall r :: r != 0 ==> multiset(reports)[r] == if ReportedAs(tasks, r, true) then 1 else 0)
    && multiset(reports)[0] == |Failures(tasks)|
  }

  /** The main thread goes on only after successes, has then kept each, and waits only when no round may be issued. */
  ghost predicate ConsumedOk(c: Config, s: State) {
    && (forall r :: r in s.consumed ==> r in s.received && r != 0)
    && (!s.phase.Stopped? ==> forall r :: r in s.received ==> r in s.consumed)
    && (s.phase.Issuing? ==> s.received == [])
    && (s.phase.Serving? ==> s.next - c.N() !in s.consumed)
  }

  ghost predicate ReportsOk(c: Config, s: State) {
    BalanceOk(s.received + s.completed, s.tasks) && ConsumedOk(c, s)
  }

  lemma SameBalance(reports: seq<int>, tasks: map<int, Task>, tasks': map<int, Task>)
    requires BalanceOk(reports, tasks)
    requires forall r, ok :: ReportedAs(tasks', r, ok) <==> ReportedAs(tasks, r, ok)
    ensures BalanceOk(reports, tasks')
  {
    assert Failures(tasks') == Failures(tasks);
  }

  lemma BalanceGrows(reports: seq<int>, tasks: map<int, Task>, r: int, ok: bool)
    requires BalanceOk(reports, tasks) && r in tasks && r != 0 && !tasks[r].pc.Reported?
    ensures BalanceOk(reports + [if ok then r else 0], tasks[r := tasks[r].(pc := Reported(ok))])
  {
    var tasks' := tasks[r := tasks[r].(pc := Reported(ok))];
    assert forall q, b :: ReportedAs(tasks', q, b) <==> ReportedAs(tasks, q, b) || (q == r && b == ok);
    if ok {
      assert Failures(tasks') == Failures(tasks);
    } else {
      assert Failures(tasks') == Failures(tasks) + {r} && r !in Failures(tasks);
    }
  }

  lemma SameReports(c: Config, s: State, u: State)
    requires ReportsOk(c, s) && u.received == s.received && u.completed == s.completed && u.consumed == s.consumed
    requires u.phase == s.phase && (u.phase.Serving? ==> u.next == s.next)
    requires forall r, ok :: ReportedAs(u.tasks, r, ok) <==> ReportedAs(s.tasks, r, ok)
    ensures ReportsOk(c, u)
  {
    hide BalanceOk;
    SameBalance(s.received + s.completed, s.tasks, u.tasks);
  }

  /** One more result on the channel. */
  lemma ReportReports(c: Config, s: State, r: int)
    requires Core(c, s) && ReportsOk(c, s) && Can(c, s, Report(r))
    ensures ReportsOk(c, Do(c, s, Report(r)))
  {
    hide QueueOk, WiringOk, WindowOk, TasksOk, ChansOk, LogMatches, LogOrdered, BalanceOk, Running;
    var u, ok := Do(c, s, Report(r)), s.tasks[r].pc.ok;
    TaskRound(c, s, r);
    BalanceGrows(s.received + s.completed, s.tasks, r, ok);
    assert u.received + u.completed == (s.received + s.completed) + [if ok then r else 0];
  }

  lemma TaskRound(c: Config, s: State, r: int)
    requires c.Proper() && QueueOk(c, s) && r in s.tasks
    ensures r >= 1
  {
  }

  /** The main thread takes one. */
  lemma ReceiveReports(c: Config, s: State, catchpoint: bool)
    requires c.Proper() && ReportsOk(c, s) && Can(c, s, Receive(catchpoint))
    ensures ReportsOk(c, Do(c, s, Receive(catchpoint)))
  {
    hide BalanceOk;
    var u := Do(c, s, Receive(catchpoint));
    assert s.completed == [s.completed[0]] + s.completed[1..];
    assert u.received + u.completed == s.received + s.completed;
  }

  lemma EnqueueReports(c: Config, s: State)
    requires Core(c, s) && ReportsOk(c, s) && !s.phase.Serving?
    ensures ReportsOk(c, Enqueue(c, s))
  {
    hide WiringOk, TasksOk, ChansOk, LogMatches, LogOrdered, ReportsOk, Running;
    assert s.next !in s.tasks && s.consumed - {s.next} == s.consumed && |s.recent| == c.lookback by {
      assert forall r :: r in s.consumed ==> r < s.next;
      RecentLength(c, s);
    }
    var u := Enqueue(c, s);
    assert forall r, ok :: ReportedAs(u.tasks, r, ok) <==> ReportedAs(s.tasks, r, ok);
    SameReports(c, s, u);
  }

  lemma RecentLength(c: Config, s: State)
    requires WiringOk(c, s)
    ensures |s.recent| == c.lookback
  {
  }

  /** A step of a task other than its report. */
  lemma TaskReports(c: Config, s: State, a: Action, r: int)
    requires Core(c, s) && ReportsOk(c, s) && Can(c, s, a) && r in s.tasks && s.tasks[r].pc.Busy()
    requires var u := Do(c, s, a);
             && r in u.tasks && u.tasks == s.tasks[r := u.tasks[r]] && !u.tasks[r].pc.Reported?
             && u.received == s.received && u.completed == s.completed && u.consumed == s.consumed
             && u.phase == s.phase && u.next == s.next
    ensures ReportsOk(c, Do(c, s, a))
  {
    hide QueueOk, WiringOk, WindowOk, TasksOk, ChansOk, LogMatches, LogOrdered, ReportsOk, Running;
    var u := Do(c, s, a);
    hide Can, Do;
    assert forall q, ok :: ReportedAs(u.tasks, q, ok) <==> ReportedAs(s.tasks, q, ok);
    SameReports(c, s, u);
  }

  lemma TakeReports(c: Config, s: State)
    requires Core(c, s) && ReportsOk(c, s) && Can(c, s, Take)
    ensures ReportsOk(c, Do(c, s, Take))
  {
    hide WiringOk, WindowOk, TasksOk, ChansOk, LogMatches, LogOrdered, ReportsOk, Running;
    var u := Do(c, s, Take);
    assert s.tasks[s.taskCh[0]].pc.Queued?;
    assert forall q, ok :: ReportedAs(u.tasks, q, ok) <==> ReportedAs(s.tasks, q, ok);
    SameReports(c, s, u);
  }

  lemma PhaseReports(c: Config, s: State, a: Action)
    requires Core(c, s) && ReportsOk(c, s) && Can(c, s, a)
    requires a.StopIssuing? || a.RefillStop? || a.RefillDone? || a.StopCancelled? || a.Cancel?
    ensures ReportsOk(c, Do(c, s, a))
  {
    hide QueueOk, WiringOk, WindowOk, TasksOk, ChansOk, LogMatches, LogOrdered;
    var u := Do(c, s, a);
    assert forall q, ok :: ReportedAs(u.tasks, q, ok) <==> ReportedAs(s.tasks, q, ok);
  }

  /** Every step of every thread keeps the reports in order. */
  lemma ReportsKept(c: Config, s: State, a: Action)
    requires Core(c, s) && ReportsOk(c, s) && Can(c, s, a)
    ensures ReportsOk(c, Do(c, s, a))
  {
    hide QueueOk, WiringOk, WindowOk, TasksOk, ChansOk, LogMatches, LogOrdered, ReportsOk;
    match a
    case Issue => EnqueueReports(c, s);
    case Refill => EnqueueReports(c, s);
    case Receive(catchpoint) => ReceiveReports(c, s, catchpoint);
    case Take => TakeReports(c, s);
    case GiveUp(r) => TaskReports(c, s, a, r);
    case FetchFailed(r) => TaskReports(c, s, a, r);
    case FetchMismatch(r) => TaskReports(c, s, a, r);
    case FetchOk(r) => TaskReports(c, s, a, r);
    case SkipAuth(r) => TaskReports(c, s, a, r);
    case ReadLookback(r) => TaskReports(c, s, a, r);
    case AuthFailed(r) => TaskReports(c, s, a, r);
    case AuthOk(r) => TaskReports(c, s, a, r);
    case ReadPrev(r) => TaskReports(c, s, a, r);
    case Add(r, _) => TaskReports(c, s, a, r);
    case Send(r) => TaskReports(c, s, a, r);
    case Report(r) => ReportReports(c, s, r);
    case _ => PhaseReports(c, s, a);
  }

  // ---------------------------------------------------------------- what is written was checked

  /** Some download of the round was whole, and was authenticated or needed not be. */
  ghost predicate Checked(log: seq<Obs>, r: int) {
    exists i: nat :: CheckedAt(log, r, i)
  }

  ghost predicate CheckedAt(log: seq<Obs>, r: int, i: nat) {
    Fetched(r, i) in log && (Authenticate(r, i, true) in log || Unverified(r, i) in log)
  }

  /** What brought a task where it stands is in the log; no round is downloaded more often than the limit. */
  ghost predicate Explained(log: seq<Obs>, r: int, pc: Pc) {
    match pc
    case Trying(i, _) => 1 <= i <= RETRY_LIMIT + 1
    case AwaitLookback(i, gotBlock) => 1 <= i <= RETRY_LIMIT && (gotBlock ==> Fetched(r, i) in log)
    case Checking(i) => 1 <= i <= RETRY_LIMIT && Fetched(r, i) in log
    case AwaitPrev => Checked(log, r)
    case Adding => Checked(log, r)
    case Sending(ok, _) => ok ==> AddBlock(r, true) in log
    case Reporting(ok) => ok ==> AddBlock(r, true) in log
    case Reported(ok) => ok ==> AddBlock(r, true) in log
    case Queued => true
  }

  ghost predicate EntryExplained(before: seq<Obs>, o: Obs) {
    match o
    case Fetched(_, i) => 1 <= i <= RETRY_LIMIT
    case Authenticate(r, i, _) => Fetched(r, i) in before
    case AddBlock(r, _) => Checked(before, r)
    case Return(r, ok) => ok ==> AddBlock(r, true) in before
    case _ => true
  }

  ghost predicate LogExplained(log: seq<Obs>) {
    forall k :: 0 <= k < |log| ==> EntryExplained(log[..k], log[k])
  }

  ghost predicate TasksExplained(log: seq<Obs>, tasks: map<int, Task>) {
    forall r :: r in tasks ==> Explained(log, r, tasks[r].pc)
  }

  ghost predicate HistoryOk(s: State) {
    LogExplained(s.log) && TasksExplained(s.log, s.tasks)
  }

  lemma ExplainedLater(log: seq<Obs>, o: Obs, r: int, pc: Pc)
    requires Explained(log, r, pc)
    ensures Explained(log + [o], r, pc)
  {
    if Checked(log, r) {
      var i: nat :| CheckedAt(log, r, i);
      assert CheckedAt(log + [o], r, i);
    }
  }

  /** One task moves and at most one thing is logged. */
  lemma HistoryGrows(s: State, u: State, r: int, o: Obs)
    requires HistoryOk(s) && r in u.tasks && u.tasks == s.tasks[r := u.tasks[r]] && u.log == s.log + [o]
    requires EntryExplained(s.log, o) && Explained(u.log, r, u.tasks[r].pc)
    ensures HistoryOk(u)
  {
    hide EntryExplained, Explained;
    forall k | 0 <= k < |u.log| ensures EntryExplained(u.log[..k], u.log[k]) {
      if k < |s.log| {
        assert u.log[..k] == s.log[..k] && EntryExplained(s.log[..k], s.log[k]);
      } else {
        assert u.log[..k] == s.log;
      }
    }
    forall q | q in u.tasks ensures Explained(u.log, q, u.tasks[q].pc) {
      if q != r {
        assert Explained(s.log, q, s.tasks[q].pc);
        ExplainedLater(s.log, o, q, s.tasks[q].pc);
      }
    }
  }

  lemma HistoryStays(s: State, u: State, r: int)
    requires HistoryOk(s) && r in u.tasks && u.tasks == s.tasks[r := u.tasks[r]] && u.log == s.log
    requires Explained(u.log, r, u.tasks[r].pc)
    ensures HistoryOk(u)
  {
    hide EntryExplained, Explained;
  }

  lemma TaskExplained(s: State, r: int)
    requires HistoryOk(s) && r in s.tasks
    ensures Explained(s.log, r, s.tasks[r].pc)
  {
    hide EntryExplained, Explained;
  }

  /** The download and its check. */
  lemma HistoryOfFetch(c: Config, s: State, a: Action)
    requires c.Proper() && HistoryOk(s) && Can(c, s, a)
    requires a.FetchFailed? || a.FetchMismatch? || a.FetchOk? || a.AuthFailed? || a.AuthOk? || a.SkipAuth?
    ensures HistoryOk(Do(c, s, a))
  {
    hide HistoryOk;
    var r, i, u := a.r, s.tasks[a.r].pc.i, Do(c, s, a);
    TaskExplained(s, r);
    match a
    case FetchFailed(_) => HistoryStays(s, u, r);
    case FetchMismatch(_) => HistoryStays(s, u, r);
    case FetchOk(_) => HistoryGrows(s, u, r, Fetched(r, i));
    case AuthFailed(_) => HistoryGrows(s, u, r, Authenticate(r, i, false));
    case AuthOk(_) =>
      assert CheckedAt(u.log, r, i);
      HistoryGrows(s, u, r, Authenticate(r, i, true));
    case SkipAuth(_) =>
      assert CheckedAt(u.log, r, i);
      HistoryGrows(s, u, r, Unverified(r, i));
  }

  /** The reads. */
  lemma HistoryOfRead(c: Config, s: State, a: Action)
    requires c.Proper() && HistoryOk(s) && Can(c, s, a) && (a.ReadLookback? || a.ReadPrev?)
    ensures HistoryOk(Do(c, s, a))
  {
    hide HistoryOk;
    var r, u := a.r, Do(c, s, a);
    TaskExplained(s, r);
    if s.chan[if a.ReadPrev? then s.tasks[r].prev else s.tasks[r].lookback][0] {
      HistoryStays(s, u, r);
    } else {
      HistoryGrows(s, u, r, Return(r, false));
    }
  }

  /** The write and the result. */
  lemma HistoryOfWrite(c: Config, s: State, a: Action)
    requires c.Proper() && HistoryOk(s) && Can(c, s, a)
    requires a.GiveUp? || a.Add? || a.Send? || a.Report?
    ensures HistoryOk(Do(c, s, a))
  {
    hide HistoryOk;
    var r, u := a.r, Do(c, s, a);
    TaskExplained(s, r);
    match a
    case GiveUp(_) => HistoryGrows(s, u, r, Return(r, false));
    case Add(_, ok) =>
      var m := s.(log := s.log + [AddBlock(r, ok)]);
      ExplainedLater(s.log, AddBlock(r, ok), r, s.tasks[r].pc);
      HistoryGrows(s, m, r, AddBlock(r, ok));
      HistoryGrows(m, u, r, Return(r, ok));
    case Send(_) => HistoryStays(s, u, r);
    case Report(_) => HistoryStays(s, u, r);
  }

  lemma HistoryOfMain(c: Config, s: State, a: Action)
    requires c.Proper() && HistoryOk(s) && Can(c, s, a)
    requires a.Issue? || a.Refill? || a.Take? || a.Receive? || a.StopIssuing? || a.RefillStop? || a.RefillDone?
             || a.StopCancelled? || a.Cancel?
    ensures HistoryOk(Do(c, s, a))
  {
    hide HistoryOk;
    var u := Do(c, s, a);
    if a.Issue? || a.Refill? {
      HistoryStays(s, u, s.next);
    } else if a.Take? {
      HistoryStays(s, u, s.taskCh[0]);
    } else {
      SameHistory(s, u);
    }
  }

  lemma SameHistory(s: State, u: State)
    requires HistoryOk(s) && u.tasks == s.tasks && u.log == s.log
    ensures HistoryOk(u)
  {
    hide EntryExplained, Explained;
  }

  /** Every step of every thread keeps the history sound. */
  lemma HistoryKept(c: Config, s: State, a: Action)
    requires c.Proper() && HistoryOk(s) && Can(c, s, a)
    ensures HistoryOk(Do(c, s, a))
  {
    hide HistoryOk, Can, Do;
    match a
    case GiveUp(_) => HistoryOfWrite(c, s, a);
    case ReadLookback(_) => HistoryOfRead(c, s, a);
    case ReadPrev(_) => HistoryOfRead(c, s, a);
    case Add(_, _) => HistoryOfWrite(c, s, a);
    case Send(_) => HistoryOfWrite(c, s, a);
    case Report(_) => HistoryOfWrite(c, s, a);
    case FetchFailed(_) => HistoryOfFetch(c, s, a);
    case FetchMismatch(_) => HistoryOfFetch(c, s, a);
    case FetchOk(_) => HistoryOfFetch(c, s, a);
    case AuthFailed(_) => HistoryOfFetch(c, s, a);
    case AuthOk(_) => HistoryOfFetch(c, s, a);
    case SkipAuth(_) => HistoryOfFetch(c, s, a);
    case _ => HistoryOfMain(c, s, a);
  }

  ghost predicate Inv(c: Config, s: State) {
    Core(c, s) && ReportsOk(c, s) && HistoryOk(s)
  }

  // ---------------------------------------------------------------- counting

  /** A set that holds `n` consecutive rounds has at least `n` members. */
  lemma {:induction false} HoldsInterval(x: set<int>, first: int, n: nat)
    requires forall r :: first <= r < first + n ==> r in x
    ensures n <= |x|
  {
    if n > 0 {
      HoldsInterval(x - {first + n - 1}, first, n - 1);
    }
  }

  /** Before a send `taskCh` has room: fewer than N rounds are outstanding. */
  lemma RoomToIssue(c: Config, s: State)
    requires Core(c, s)
    requires s.next < c.from + c.N() || s.next - c.N() in s.consumed
    ensures |s.taskCh| + |Running(s)| + |s.completed| < c.N()
  {
    hide TasksOk, ChansOk, LogMatches, LogOrdered, WiringOk, QueueOk, Running;
    if s.next >= c.from + c.N() {
      HoldsInterval(s.consumed, c.from, s.next - c.N() - c.from + 1);
    }
  }

  /** At most N issued rounds have not been received. */
  lemma AtMostN(c: Config, s: State)
    requires Core(c, s)
    ensures |s.taskCh| + |Running(s)| + |s.completed| <= c.N()
  {
    hide TasksOk, ChansOk, LogMatches, LogOrdered, WiringOk, QueueOk, Running;
    if s.next > c.from + c.N() {
      HoldsInterval(s.consumed, c.from, s.next - c.N() - c.from);
    }
  }

  // ---------------------------------------------------------------- steps of a task

  /** A busy task moves on, possibly changing a channel's contents and the log. */
  function Upd(s: State, r: int, t: Task, chan: map<int, seq<bool>>, log: seq<Obs>): State {
    s.(tasks := s.tasks[r := t], chan := chan, log := log)
  }

  ghost predicate Moves(c: Config, s: State, r: int, t: Task) {
    && r in s.tasks && s.tasks[r].pc.Busy() && t.pc.Busy()
    && t.prev == s.tasks[r].prev && t.lookback == s.tasks[r].lookback
    && (s.tasks[r].pc.Returned() ==> t.pc.Returned() && t.pc.ok == s.tasks[r].pc.ok)
  }

  lemma MoveKeepsQueue(c: Config, s: State, r: int, t: Task, chan: map<int, seq<bool>>, log: seq<Obs>)
    requires QueueOk(c, s) && WiringOk(c, s) && WindowOk(c, s) && Moves(c, s, r, t) && chan.Keys == s.chan.Keys
    ensures var u := Upd(s, r, t, chan, log); QueueOk(c, u) && WiringOk(c, u) && WindowOk(c, u)
  {
    var u := Upd(s, r, t, chan, log);
    assert Running(u) == Running(s);
    hide Running;
    assert forall q :: q in u.chan <==> q in s.chan;
  }

  lemma MoveKeepsTasks(c: Config, s: State, r: int, t: Task, chan: map<int, seq<bool>>, log: seq<Obs>)
    requires TasksOk(c, s) && Moves(c, s, r, t)
    requires TaskOk(c, s.tasks[r := t], r, t)
    ensures TasksOk(c, Upd(s, r, t, chan, log))
  {
    var tasks := s.tasks[r := t];
    forall q | q in s.tasks && q != r ensures TaskOk(c, tasks, q, s.tasks[q]) {
      assert TaskOk(c, s.tasks, q, s.tasks[q]);
      assert forall j :: Good(c, s.tasks, j) ==> Good(c, tasks, j);
    }
  }

  /** A move that touches no channel. */
  lemma MoveKeepsChans(c: Config, s: State, r: int, t: Task, log: seq<Obs>)
    requires ChansOk(c, s) && QueueOk(c, s) && Moves(c, s, r, t)
    requires t.readPrev == s.tasks[r].readPrev && t.readLookback == s.tasks[r].readLookback
    requires t.pc.Written() == s.tasks[r].pc.Written()
    ensures ChansOk(c, Upd(s, r, t, s.chan, log))
  {
    var tasks := s.tasks[r := t];
    forall ch | ch in s.chan ensures ChanOk(c, tasks, ch, s.chan[ch]) {
      assert ChanOk(c, s.tasks, ch, s.chan[ch]);
      assert ch != r ==> Good(c, tasks, ch) == Good(c, s.tasks, ch);
    }
  }

  lemma LogStays(c: Config, log: seq<Obs>, o: Obs)
    requires LogOrdered(c, log) && EntryOrdered(c, log, o)
    ensures LogOrdered(c, log + [o])
  {
    var all := log + [o];
    forall k | 0 <= k < |all| ensures EntryOrdered(c, all[..k], all[k]) {
      if k < |log| {
        assert all[..k] == log[..k];
        assert EntryOrdered(c, log[..k], log[k]);
      } else {
        assert all[..k] == log;
      }
    }
  }

  /** A move to a place before the return, without touching a channel. */
  lemma KeptByMove(c: Config, s: State, r: int, pc: Pc)
    requires Core(c, s) && r in s.tasks && s.tasks[r].pc.Busy() && !s.tasks[r].pc.Returned()
    requires pc.Busy() && !pc.Returned()
    requires TaskOk(c, s.tasks[r := s.tasks[r].(pc := pc)], r, s.tasks[r].(pc := pc))
    ensures Core(c, SetPc(s, r, pc))
  {
    var t := s.tasks[r].(pc := pc);
    assert SetPc(s, r, pc) == Upd(s, r, t, s.chan, s.log);
    MoveKeepsQueue(c, s, r, t, s.chan, s.log);
    MoveKeepsTasks(c, s, r, t, s.chan, s.log);
    MoveKeepsChans(c, s, r, t, s.log);
    hide QueueOk, WiringOk, WindowOk, TasksOk, ChansOk, LogOrdered;
  }

  /** The fetch returns. */
  lemma KeptByFinish(c: Config, s: State, r: int, ok: bool)
    requires Core(c, s) && r in s.tasks && s.tasks[r].pc.Busy() && !s.tasks[r].pc.Returned()
    requires ok ==> Good(c, s.tasks, r - 1) && Good(c, s.tasks, r - c.lookback)
    ensures Core(c, Finish(s, r, ok))
  {
    var t := s.tasks[r].(pc := Sending(ok, 0));
    var log := s.log + [Return(r, ok)];
    assert Finish(s, r, ok) == Upd(s, r, t, s.chan, log);
    MoveKeepsQueue(c, s, r, t, s.chan, log);
    assert TaskOk(c, s.tasks[r := t], r, t);
    MoveKeepsTasks(c, s, r, t, s.chan, log);
    MoveKeepsChans(c, s, r, t, log);
    LogStays(c, s.log, Return(r, ok));
    hide QueueOk, WiringOk, WindowOk, TasksOk, ChansOk, LogOrdered;
  }

  /** One value leaves channel `ch`, taken by its prev reader or by its lookback reader `r`. */
  ghost predicate Reads(c: Config, s: State, r: int, t: Task, ch: int) {
    && Moves(c, s, r, t) && !s.tasks[r].pc.Returned() && !(t.pc.Returned() && t.pc.ok) && t.pc.Written() == 0
    && Holds(s, ch)
    && (|| (ch == r - 1 && !s.tasks[r].readPrev && t.readPrev && t.readLookback == s.tasks[r].readLookback)
        || (ch == r - c.lookback && !s.tasks[r].readLookback && t.readLookback && t.readPrev == s.tasks[r].readPrev))
  }

  lemma ReadKeepsChan(c: Config, s: State, r: int, t: Task, ch: int, x: int)
    requires ChansOk(c, s) && Reads(c, s, r, t, ch) && x in s.chan && c.Proper()
    ensures ChanOk(c, s.tasks[r := t], x, if x == ch then s.chan[ch][1..] else s.chan[x])
  {
    var tasks := s.tasks[r := t];
    assert ChanOk(c, s.tasks, x, s.chan[x]);
    assert Good(c, tasks, x) == Good(c, s.tasks, x);
    assert WrittenTo(c, tasks, x) == WrittenTo(c, s.tasks, x);
    assert ReadFrom(c, tasks, x) == ReadFrom(c, s.tasks, x) + if x == ch then 1 else 0;
  }

  lemma KeptByRead(c: Config, s: State, r: int, t: Task, ch: int, log: seq<Obs>)
    requires Core(c, s) && Reads(c, s, r, t, ch)
    requires TaskOk(c, s.tasks[r := t], r, t)
    requires log == if t.pc.Returned() then s.log + [Return(r, false)] else s.log
    ensures Core(c, Upd(s, r, t, s.chan[ch := s.chan[ch][1..]], log))
  {
    var chan := s.chan[ch := s.chan[ch][1..]];
    assert chan.Keys == s.chan.Keys;
    MoveKeepsQueue(c, s, r, t, chan, log);
    MoveKeepsTasks(c, s, r, t, chan, log);
    if t.pc.Returned() { LogStays(c, s.log, Return(r, false)); }
    hide QueueOk, WiringOk, WindowOk, TasksOk, LogOrdered, ChanOk, TaskOk;
    forall x | x in chan ensures ChanOk(c, s.tasks[r := t], x, chan[x]) {
      ReadKeepsChan(c, s, r, t, ch, x);
    }
  }

  lemma TaskAt(c: Config, s: State, r: int)
    requires TasksOk(c, s) && r in s.tasks
    ensures TaskOk(c, s.tasks, r, s.tasks[r])
  {
    hide TaskOk;
  }

  lemma ChanAt(c: Config, s: State, ch: int)
    requires ChansOk(c, s) && ch in s.chan
    ensures ChanOk(c, s.tasks, ch, s.chan[ch])
  {
    hide ChanOk;
  }

  lemma KeptByReadLookback(c: Config, s: State, r: int)
    requires Core(c, s) && Can(c, s, ReadLookback(r))
    ensures Core(c, Do(c, s, ReadLookback(r)))
  {
    hide TasksOk, ChansOk, QueueOk, WindowOk, LogMatches, LogOrdered;
    var t, ch, pc := s.tasks[r], r - c.lookback, s.tasks[r].pc;
    TaskAt(c, s, r);
    ChanAt(c, s, ch);
    var ok := s.chan[ch][0];
    var u := t.(readLookback := true,
                pc := if !ok then Sending(false, 0)
                      else if pc.gotBlock then Checking(pc.i)
                      else Trying(pc.i + 1, true));
    assert TaskOk(c, s.tasks[r := u], r, u);
    var log := if ok then s.log else s.log + [Return(r, false)];
    KeptByRead(c, s, r, u, ch, log);
    assert Do(c, s, ReadLookback(r)) == Upd(s, r, u, s.chan[ch := s.chan[ch][1..]], log);
  }

  lemma KeptByReadPrev(c: Config, s: State, r: int)
    requires Core(c, s) && Can(c, s, ReadPrev(r))
    ensures Core(c, Do(c, s, ReadPrev(r)))
  {
    hide TasksOk, ChansOk, QueueOk, WindowOk, LogMatches, LogOrdered;
    var t, ch := s.tasks[r], r - 1;
    TaskAt(c, s, r);
    ChanAt(c, s, ch);
    var ok := s.chan[ch][0];
    var u := t.(readPrev := true, pc := if ok then Adding else Sending(false, 0));
    assert TaskOk(c, s.tasks[r := u], r, u);
    var log := if ok then s.log else s.log + [Return(r, false)];
    KeptByRead(c, s, r, u, ch, log);
    assert Do(c, s, ReadPrev(r)) == Upd(s, r, u, s.chan[ch := s.chan[ch][1..]], log);
  }

  /** Success travels down: below a successful round every round of the run succeeded. */
  lemma {:induction false} GoodDown(c: Config, s: State, r: int, j: int)
    requires TasksOk(c, s) && Good(c, s.tasks, r) && j <= r
    ensures Good(c, s.tasks, j)
    decreases r - j
  {
    hide TasksOk;
    if j < r && r >= c.from {
      TaskAt(c, s, r);
      GoodDown(c, s, r - 1, j);
    }
  }

  lemma KeptByLogging(c: Config, s: State, o: Obs)
    requires Core(c, s) && !o.Return? && EntryOrdered(c, s.log, o)
    ensures Core(c, s.(log := s.log + [o]))
  {
    LogStays(c, s.log, o);
    var u := s.(log := s.log + [o]);
    assert Running(u) == Running(s);
    hide LogOrdered, Running, ChanOk, TaskOk;
  }

  /** What is written when: the log already shows every earlier round's success. */
  lemma AddIsOrdered(c: Config, s: State, r: int)
    requires TasksOk(c, s) && LogMatches(c, s) && r in s.tasks && s.tasks[r].pc.Adding?
    ensures EntryOrdered(c, s.log, AddBlock(r, true)) && EntryOrdered(c, s.log, AddBlock(r, false))
    ensures Good(c, s.tasks, r - 1) && Good(c, s.tasks, r - c.lookback)
  {
    hide TasksOk;
    TaskAt(c, s, r);
    forall j | c.from <= j < r ensures Return(j, true) in s.log {
      GoodDown(c, s, r - 1, j);
    }
  }

  lemma KeptByAdd(c: Config, s: State, r: int, ok: bool)
    requires Core(c, s) && Can(c, s, Add(r, ok))
    ensures Core(c, Do(c, s, Add(r, ok)))
  {
    hide TasksOk, ChansOk, QueueOk, WiringOk, WindowOk, LogMatches, LogOrdered, EntryOrdered, Good;
    AddIsOrdered(c, s, r);
    KeptByLogging(c, s, AddBlock(r, ok));
    KeptByFinish(c, s.(log := s.log + [AddBlock(r, ok)]), r, ok);
  }

  lemma AuthIsOrdered(c: Config, s: State, r: int)
    requires TasksOk(c, s) && LogMatches(c, s) && r in s.tasks && s.tasks[r].pc.Checking?
    ensures forall i, ok :: EntryOrdered(c, s.log, Authenticate(r, i, ok))
    ensures Good(c, s.tasks, r - c.lookback)
    ensures !s.tasks[r].readPrev && s.tasks[r].readLookback
  {
    hide TasksOk;
    TaskAt(c, s, r);
  }

  lemma AuthMove(c: Config, s: State, r: int, pc: Pc, ok: bool)
    requires Core(c, s) && r in s.tasks && s.tasks[r].pc.Checking?
    requires pc == AwaitPrev || pc == Trying(s.tasks[r].pc.i + 1, true)
    ensures Core(c, SetPc(s, r, pc).(log := s.log + [Authenticate(r, s.tasks[r].pc.i, ok)]))
  {
    hide TasksOk, ChansOk, QueueOk, WiringOk, WindowOk, LogMatches, LogOrdered, EntryOrdered, Good;
    AuthIsOrdered(c, s, r);
    GoodMoved(c, s.tasks, r, s.tasks[r].(pc := pc), r - c.lookback);
    KeptByMove(c, s, r, pc);
    KeptByLogging(c, SetPc(s, r, pc), Authenticate(r, s.tasks[r].pc.i, ok));
  }

  lemma KeptByAuth(c: Config, s: State, a: Action)
    requires Core(c, s) && Can(c, s, a) && (a.AuthFailed? || a.AuthOk?)
    ensures Core(c, Do(c, s, a))
  {
    hide TasksOk, ChansOk, QueueOk, WiringOk, WindowOk, LogMatches, LogOrdered;
    AuthMove(c, s, a.r, if a.AuthOk? then AwaitPrev else Trying(s.tasks[a.r].pc.i + 1, true), a.AuthOk?);
  }

  lemma GoodMoved(c: Config, tasks: map<int, Task>, r: int, t: Task, x: int)
    requires r in tasks && Good(c, tasks, x) && !tasks[r].pc.Returned()
    ensures Good(c, tasks[r := t], x)
  {
  }

  lemma KeptByFetch(c: Config, s: State, a: Action)
    requires Core(c, s) && Can(c, s, a) && (a.FetchFailed? || a.FetchMismatch? || a.FetchOk? || a.SkipAuth?)
    ensures Core(c, Do(c, s, a))
  {
    hide TasksOk, ChansOk, QueueOk, WiringOk, WindowOk, LogMatches, LogOrdered;
    TaskAt(c, s, a.r);
    var pc := Do(c, s, a).tasks[a.r].pc;
    KeptByMove(c, s, a.r, pc);
    if a.FetchOk? {
      KeptByLogging(c, SetPc(s, a.r, pc), Fetched(a.r, s.tasks[a.r].pc.i));
    } else if a.SkipAuth? {
      KeptByLogging(c, SetPc(s, a.r, pc), Unverified(a.r, s.tasks[a.r].pc.i));
    }
  }

  lemma KeptByGiveUp(c: Config, s: State, r: int)
    requires Core(c, s) && Can(c, s, GiveUp(r))
    ensures Core(c, Do(c, s, GiveUp(r)))
  {
    KeptByFinish(c, s, r, false);
  }

  // ---------------------------------------------------------------- sends and main-thread steps

  lemma KeptBySend(c: Config, s: State, r: int)
    requires Core(c, s) && Can(c, s, Send(r))
    ensures Core(c, Do(c, s, Send(r)))
  {
    hide WiringOk, WindowOk, TasksOk, ChansOk, LogOrdered;
    var pc := s.tasks[r].pc;
    assert pc.sent < 2 && r >= c.from by { TaskAt(c, s, r); }
    var t := s.tasks[r].(pc := if pc.sent + 1 >= 2 then Reporting(pc.ok) else Sending(pc.ok, pc.sent + 1));
    var chan := s.chan[r := s.chan[r] + [pc.ok]];
    assert chan.Keys == s.chan.Keys;
    hide QueueOk;
    MoveKeepsQueue(c, s, r, t, chan, s.log);
    SendKeepsTasks(c, s, r, t, chan);
    SendKeepsChans(c, s, r, t);
    assert LogMatches(c, Upd(s, r, t, chan, s.log));
  }

  lemma SendKeepsTasks(c: Config, s: State, r: int, t: Task, chan: map<int, seq<bool>>)
    requires TasksOk(c, s) && Moves(c, s, r, t) && s.tasks[r].pc.Returned() && (t.pc.Sending? ==> t.pc.sent < 2)
    ensures TasksOk(c, Upd(s, r, t, chan, s.log))
  {
    hide TasksOk;
    TaskAt(c, s, r);
    assert TaskOk(c, s.tasks[r := t], r, t);
    MoveKeepsTasks(c, s, r, t, chan, s.log);
  }

  lemma SendKeepsChans(c: Config, s: State, r: int, t: Task)
    requires ChansOk(c, s) && Can(c, s, Send(r)) && Moves(c, s, r, t) && r >= c.from
    requires t.readPrev == s.tasks[r].readPrev && t.readLookback == s.tasks[r].readLookback
    requires t.pc.Written() == s.tasks[r].pc.Written() + 1
    ensures ChansOk(c, Upd(s, r, t, s.chan[r := s.chan[r] + [t.pc.ok]], s.log))
  {
    var tasks := s.tasks[r := t];
    forall ch | ch in s.chan
      ensures ChanOk(c, tasks, ch, if ch == r then s.chan[r] + [t.pc.ok] else s.chan[ch])
    {
      ChanAt(c, s, ch);
      assert Good(c, tasks, ch) == Good(c, s.tasks, ch);
      assert ReadFrom(c, tasks, ch) == ReadFrom(c, s.tasks, ch);
    }
  }

  /** Changing whether a worker is on a round, and nothing a channel or another task depends on. */
  lemma RelabelKeeps(c: Config, s: State, r: int, pc: Pc, u: State)
    requires TasksOk(c, s) && ChansOk(c, s) && LogMatches(c, s) && r in s.tasks
    requires u.tasks == s.tasks[r := s.tasks[r].(pc := pc)] && u.chan == s.chan && u.log == s.log
    requires pc.Written() == s.tasks[r].pc.Written()
    requires pc.Returned() == s.tasks[r].pc.Returned() && (pc.Returned() ==> pc.ok == s.tasks[r].pc.ok)
    requires pc.Reported? || (pc == Trying(1, false) && s.tasks[r].pc.Queued?)
    ensures TasksOk(c, u) && ChansOk(c, u) && LogMatches(c, u)
  {
    assert forall j :: Good(c, u.tasks, j) == Good(c, s.tasks, j);
    forall q | q in u.tasks ensures TaskOk(c, u.tasks, q, u.tasks[q]) {
      hide TasksOk;
      TaskAt(c, s, q);
    }
    forall ch | ch in u.chan ensures ChanOk(c, u.tasks, ch, u.chan[ch]) {
      ChanAt(c, s, ch);
      assert WrittenTo(c, u.tasks, ch) == WrittenTo(c, s.tasks, ch);
      assert ReadFrom(c, u.tasks, ch) == ReadFrom(c, s.tasks, ch);
    }
  }

  lemma ReportKeepsStructure(c: Config, s: State, r: int)
    requires c.Proper() && QueueOk(c, s) && WiringOk(c, s) && WindowOk(c, s) && Can(c, s, Report(r))
    ensures var u := Do(c, s, Report(r)); QueueOk(c, u) && WiringOk(c, u) && WindowOk(c, u)
  {
    var u := Do(c, s, Report(r));
    assert u.tasks.Keys == s.tasks.Keys;
    assert QueueOk(c, u) && WiringOk(c, u) by { hide Running; }
    assert WindowOk(c, u) by {
      hide QueueOk, WiringOk;
      assert Running(u) == Running(s) - {r} && r in Running(s);
    }
  }

  lemma TakeKeepsStructure(c: Config, s: State)
    requires c.Proper() && QueueOk(c, s) && WiringOk(c, s) && WindowOk(c, s) && Can(c, s, Take)
    ensures s.tasks[s.taskCh[0]].pc.Queued?
    ensures var u := Do(c, s, Take); QueueOk(c, u) && WiringOk(c, u) && WindowOk(c, u)
  {
    var u := Do(c, s, Take);
    assert u.tasks.Keys == s.tasks.Keys;
    assert QueueOk(c, u) && WiringOk(c, u) && s.tasks[s.taskCh[0]].pc.Queued? by { hide Running; }
    TakeKeepsWindow(c, s);
  }

  lemma TakeKeepsWindow(c: Config, s: State)
    requires c.Proper() && WindowOk(c, s) && Can(c, s, Take)
    requires s.taskCh[0] in s.tasks && s.tasks[s.taskCh[0]].pc.Queued?
    ensures WindowOk(c, Do(c, s, Take))
  {
    var r, u := s.taskCh[0], SetPc(s.(taskCh := s.taskCh[1..]), s.taskCh[0], Trying(1, false));
    assert u == Do(c, s, Take);
    hide Do, Can;
    assert |Running(u)| == |Running(s)| + 1 by {
      hide WindowOk;
      assert Running(u) == Running(s) + {r} && r !in Running(s);
    }
    hide Running;
  }

  lemma KeptByReport(c: Config, s: State, r: int)
    requires Core(c, s) && Can(c, s, Report(r))
    ensures Core(c, Do(c, s, Report(r)))
  {
    hide QueueOk, WiringOk, WindowOk, TasksOk, ChansOk, LogMatches, LogOrdered;
    ReportKeepsStructure(c, s, r);
    RelabelKeeps(c, s, r, Reported(s.tasks[r].pc.ok), Do(c, s, Report(r)));
  }

  lemma KeptByTake(c: Config, s: State)
    requires Core(c, s) && Can(c, s, Take)
    ensures Core(c, Do(c, s, Take))
  {
    hide QueueOk, WiringOk, WindowOk, TasksOk, ChansOk, LogMatches, LogOrdered;
    TakeKeepsStructure(c, s);
    RelabelKeeps(c, s, s.taskCh[0], Trying(1, false), Do(c, s, Take));
  }

  lemma ReceiveKeepsWindow(c: Config, s: State, catchpoint: bool)
    requires c.Proper() && QueueOk(c, s) && WindowOk(c, s) && Can(c, s, Receive(catchpoint))
    ensures WindowOk(c, Do(c, s, Receive(catchpoint)))
  {
    var u := Do(c, s, Receive(catchpoint));
    assert Running(u) == Running(s);
    hide Running;
  }

  lemma ReceiveKeepsQueue(c: Config, s: State, catchpoint: bool)
    requires c.Proper() && QueueOk(c, s) && Can(c, s, Receive(catchpoint))
    ensures QueueOk(c, Do(c, s, Receive(catchpoint)))
  {
    var u := Do(c, s, Receive(catchpoint));
    assert forall i :: 0 <= i < |u.completed| ==> u.completed[i] == s.completed[i + 1];
  }

  lemma ReceiveKeepsWiring(c: Config, s: State, catchpoint: bool)
    requires c.Proper() && WiringOk(c, s) && Can(c, s, Receive(catchpoint))
    ensures WiringOk(c, Do(c, s, Receive(catchpoint)))
  {
  }

  lemma KeptByReceive(c: Config, s: State, catchpoint: bool)
    requires Core(c, s) && Can(c, s, Receive(catchpoint))
    ensures Core(c, Do(c, s, Receive(catchpoint)))
  {
    hide QueueOk, WindowOk, WiringOk, LogOrdered, TaskOk, ChanOk;
    ReceiveKeepsWindow(c, s, catchpoint);
    ReceiveKeepsQueue(c, s, catchpoint);
    ReceiveKeepsWiring(c, s, catchpoint);
  }

  lemma EnqueueKeepsStructure(c: Config, s: State)
    requires c.Proper() && QueueOk(c, s) && WiringOk(c, s) && WindowOk(c, s)
    requires s.next < c.from + c.N() || s.next - c.N() in s.consumed
    ensures var u := Enqueue(c, s); QueueOk(c, u) && WiringOk(c, u) && WindowOk(c, u)
  {
    var u := Enqueue(c, s);
    assert s.next !in s.tasks;
    assert Running(u) == Running(s);
    hide Running;
    assert u.consumed == s.consumed;
  }

  lemma EnqueueKeepsTasks(c: Config, s: State)
    requires Core(c, s)
    ensures TasksOk(c, Enqueue(c, s)) && LogMatches(c, Enqueue(c, s))
  {
    var u := Enqueue(c, s);
    hide LogOrdered, WindowOk, ChansOk;
    assert s.next !in s.tasks;
    assert forall j :: Good(c, s.tasks, j) ==> Good(c, u.tasks, j);
    forall q | q in u.tasks ensures TaskOk(c, u.tasks, q, u.tasks[q]) {
      hide TasksOk;
      if q != s.next { TaskAt(c, s, q); }
    }
  }

  lemma EnqueueKeepsChans(c: Config, s: State)
    requires Core(c, s)
    ensures ChansOk(c, Enqueue(c, s))
  {
    var u := Enqueue(c, s);
    hide LogOrdered, WindowOk, TasksOk, LogMatches;
    assert s.next !in s.tasks;
    forall ch | ch in u.chan ensures ChanOk(c, u.tasks, ch, u.chan[ch]) {
      assert ReadFrom(c, u.tasks, ch) == ReadFrom(c, s.tasks, ch);
      assert WrittenTo(c, u.tasks, ch) == WrittenTo(c, s.tasks, ch);
      if ch != s.next {
        ChanAt(c, s, ch);
        assert Good(c, u.tasks, ch) == Good(c, s.tasks, ch);
      }
    }
  }

  lemma KeptByEnqueue(c: Config, s: State)
    requires Core(c, s) && (s.next < c.from + c.N() || s.next - c.N() in s.consumed)
    ensures Core(c, Enqueue(c, s))
  {
    EnqueueKeepsStructure(c, s);
    EnqueueKeepsTasks(c, s);
    EnqueueKeepsChans(c, s);
    hide QueueOk, WindowOk, TasksOk, ChansOk, LogMatches, LogOrdered;
  }

  lemma KeptByPhase(c: Config, s: State, u: State)
    requires Core(c, s) && u == s.(phase := u.phase, cancelled := u.cancelled)
    ensures Core(c, u)
  {
    assert Running(u) == Running(s);
    hide Running, LogOrdered, TaskOk, ChanOk;
  }

  lemma CoreKept(c: Config, s: State, a: Action)
    requires Core(c, s) && Can(c, s, a)
    ensures Core(c, Do(c, s, a))
  {
    hide QueueOk, WiringOk, WindowOk, TasksOk, ChansOk, LogMatches, LogOrdered;
    match a
    case Issue => KeptByEnqueue(c, s);
    case Refill => KeptByEnqueue(c, s);
    case Receive(catchpoint) => KeptByReceive(c, s, catchpoint);
    case Take => KeptByTake(c, s);
    case GiveUp(r) => KeptByGiveUp(c, s, r);
    case FetchFailed(_) => KeptByFetch(c, s, a);
    case FetchMismatch(_) => KeptByFetch(c, s, a);
    case FetchOk(_) => KeptByFetch(c, s, a);
    case SkipAuth(_) => KeptByFetch(c, s, a);
    case ReadLookback(r) => KeptByReadLookback(c, s, r);
    case AuthFailed(_) => KeptByAuth(c, s, a);
    case AuthOk(_) => KeptByAuth(c, s, a);
    case ReadPrev(r) => KeptByReadPrev(c, s, r);
    case Add(r, ok) => KeptByAdd(c, s, r, ok);
    case Send(r) => KeptBySend(c, s, r);
    case Report(r) => KeptByReport(c, s, r);
    case _ => KeptByPhase(c, s, Do(c, s, a));
  }

  /** Every step of every thread keeps the invariant. */
  lemma Kept(c: Config, s: State, a: Action)
    requires Inv(c, s) && Can(c, s, a)
    ensures Inv(c, Do(c, s, a))
  {
    hide Core, ReportsOk, HistoryOk, Can, Do;
    assert c.Proper() by { CoreProper(c, s); }
    CoreKept(c, s, a);
    ReportsKept(c, s, a);
    HistoryKept(c, s, a);
  }

  lemma CoreProper(c: Config, s: State)
    requires Core(c, s)
    ensures c.Proper()
  {
  }

  lemma InitOk(c: Config)
    requires c.Proper()
    ensures Inv(c, InitState(c))
  {
    assert Running(InitState(c)) == {} && Failures(InitState(c).tasks) == {};
  }

  lemma {:induction false} RunKeeps(c: Config, run: seq<State>, i: nat)
    requires c.Proper() && IsRun(c, run) && i < |run|
    ensures Inv(c, run[i])
  {
    hide Inv;
    if i == 0 {
      InitOk(c);
    } else {
      RunKeeps(c, run, i - 1);
      assert Succ(c, run[i - 1], run[i]);
      var a :| Can(c, run[i - 1], a) && run[i] == Do(c, run[i - 1], a);
      Kept(c, run[i - 1], a);
    }
  }

  // ---------------------------------------------------------------- what holds in every run

  /** At most N rounds are issued and not yet received by the main thread. */
  lemma SlidingWindow(c: Config, run: seq<State>, i: nat)
    requires c.Proper() && IsRun(c, run) && i < |run|
    ensures run[i].next - c.from <= |run[i].received| + c.N()
    ensures |run[i].taskCh| + |Running(run[i])| + |run[i].completed| <= c.N()
  {
    RunKeeps(c, run, i);
    AtMostN(c, run[i]);
  }

  /**
   No send ever waits, the drain after the main thread has stopped included: whenever a
   thread stands at a send, the channel has room.
   */
  lemma SendsNeverBlock(c: Config, run: seq<State>, i: nat)
    requires c.Proper() && IsRun(c, run) && i < |run|
    ensures var s := run[i];
            && (s.phase.Issuing? && s.next < c.from + c.N() ==> Can(c, s, Issue))
            && (MayRefill(c, s) ==> Can(c, s, Refill))
            && (forall r :: r in s.tasks && s.tasks[r].pc.Sending? ==> Can(c, s, Send(r)))
            && (forall r :: r in s.tasks && s.tasks[r].pc.Reporting? ==> Can(c, s, Report(r)))
  {
    var s := run[i];
    RunKeeps(c, run, i);
    AtMostN(c, s);
    if s.next < c.from + c.N() || s.next - c.N() in s.consumed { RoomToIssue(c, s); }
    assert |s.recent| == c.lookback;
    hide Inv, IsRun;
    forall r | r in s.tasks && s.tasks[r].pc.Sending? ensures Can(c, s, Send(r)) {
      RoomToSend(c, s, r);
    }
    forall r | r in s.tasks && s.tasks[r].pc.Reporting? ensures Can(c, s, Report(r)) {
      RoomToReport(c, s, r);
    }
  }

  /** A result channel has room while its round is still sending. */
  lemma RoomToSend(c: Config, s: State, r: int)
    requires Inv(c, s) && r in s.tasks && s.tasks[r].pc.Sending?
    ensures Can(c, s, Send(r))
  {
    hide TasksOk, ChansOk, WindowOk, LogMatches, LogOrdered, ReportsOk, HistoryOk;
    ChanAt(c, s, r);
    TaskAt(c, s, r);
  }

  /** The completion channel has room for every running round. */
  lemma RoomToReport(c: Config, s: State, r: int)
    requires Inv(c, s) && r in s.tasks && s.tasks[r].pc.Reporting?
    ensures Can(c, s, Report(r))
  {
    AtMostN(c, s);
    hide QueueOk, WiringOk, TasksOk, ChansOk, WindowOk, LogMatches, LogOrdered, ReportsOk, HistoryOk;
    assert r in Running(s) && Running(s) != {};
  }

  /** At first a round is issued at once while it is one of the first parallelBlocks, or of the first seedLookback. */
  lemma FirstRoundsIssued(c: Config, run: seq<State>, i: nat)
    requires c.Proper() && IsRun(c, run) && i < |run| && run[i].phase.Issuing?
    ensures Can(c, run[i], Issue) <==> run[i].next - c.from < c.parallelBlocks || run[i].next - c.from < c.lookback
  {
    SendsNeverBlock(c, run, i);
  }

  /** The lowest round whose result is not out yet. */
  ghost predicate LowestUnfinished(c: Config, s: State, r: int) {
    && r in s.tasks && s.tasks[r].pc.Written() < 2
    && forall j :: j in s.tasks && j < r ==> s.tasks[j].pc.Written() == 2
  }

  /** The step that carries round `r` forward from where its task stands. */
  function OwnStep(s: State, r: int): Action
    requires r in s.tasks
  {
    match s.tasks[r].pc
    case Queued => Take
    case Trying(i, _) => if i > RETRY_LIMIT then GiveUp(r) else FetchOk(r)
    case AwaitLookback(_, _) => ReadLookback(r)
    case Checking(_) => AuthOk(r)
    case AwaitPrev => ReadPrev(r)
    case Adding => Add(r, true)
    case Sending(_, _) => Send(r)
    case Reporting(_) => Report(r)
    case Reported(_) => Cancel
  }

  /** The lowest unfinished round finds an unread value in each channel it has yet to read. */
  lemma LowestFindsValues(c: Config, s: State, r: int)
    requires Inv(c, s) && LowestUnfinished(c, s, r)
    ensures !s.tasks[r].readPrev ==> Holds(s, r - 1)
    ensures !s.tasks[r].readLookback ==> Holds(s, r - c.lookback)
  {
    hide TasksOk, ChansOk, WindowOk, LogMatches, LogOrdered;
    ChanAt(c, s, r - 1);
    ChanAt(c, s, r - c.lookback);
    assert WrittenTo(c, s.tasks, r - 1) == 2 && WrittenTo(c, s.tasks, r - c.lookback) == 2;
  }

  /** A queued lowest round is first in line and a worker is free for it. */
  lemma LowestIsTaken(c: Config, s: State, r: int)
    requires Inv(c, s) && LowestUnfinished(c, s, r) && s.tasks[r].pc.Queued?
    ensures Can(c, s, Take) && s.taskCh[0] == r
  {
    AtMostN(c, s);
    hide TasksOk, ChansOk, WindowOk, LogMatches, LogOrdered, WiringOk, Running;
    var head := s.next - |s.taskCh|;
    assert s.taskCh[0] == head && s.tasks[head].pc.Queued?;
  }

  /**
   No deadlock: in every state of every run, the lowest unfinished round can make its own
   next step, whatever the other threads do; if it is queued, it is first in line.
   */
  lemma LowestRoundRuns(c: Config, run: seq<State>, i: nat, r: int)
    requires c.Proper() && IsRun(c, run) && i < |run| && LowestUnfinished(c, run[i], r)
    ensures Can(c, run[i], OwnStep(run[i], r))
    ensures run[i].tasks[r].pc.Queued? ==> run[i].taskCh[0] == r
  {
    var s := run[i];
    RunKeeps(c, run, i);
    hide TasksOk, ChansOk, WindowOk, LogMatches, LogOrdered, QueueOk, WiringOk, IsRun, Can;
    if s.tasks[r].pc.Queued? {
      LowestIsTaken(c, s, r);
    } else if s.tasks[r].pc.Sending? || s.tasks[r].pc.Reporting? {
      SendsNeverBlock(c, run, i);
    } else {
      LowestFetches(c, s, r);
    }
  }

  /** An upper bound on the steps of its own that a round needs when all goes well. */
  function StepsLeft(pc: Pc): nat {
    match pc
    case Queued => 10
    case Trying(_, hasLookback) => if hasLookback then 7 else 9
    case AwaitLookback(_, gotBlock) => if gotBlock then 7 else 8
    case Checking(_) => 6
    case AwaitPrev => 5
    case Adding => 4
    case Sending(_, sent) => if sent == 0 then 3 else 2
    case Reporting(_) => 1
    case Reported(_) => 0
  }

  /** No work is done twice: each own step brings the lowest unfinished round nearer to its report. */
  lemma LowestRoundAdvances(c: Config, run: seq<State>, i: nat, r: int)
    requires c.Proper() && IsRun(c, run) && i < |run| && LowestUnfinished(c, run[i], r)
    ensures Can(c, run[i], OwnStep(run[i], r))
    ensures var t := Do(c, run[i], OwnStep(run[i], r));
            r in t.tasks && StepsLeft(t.tasks[r].pc) < StepsLeft(run[i].tasks[r].pc) <= 10
  {
    hide IsRun, Can, Do, Inv;
    LowestRoundRuns(c, run, i, r);
    RunKeeps(c, run, i);
    SentOnce(c, run[i], r);
    StepAdvances(c, run[i], r, OwnStep(run[i], r));
  }

  lemma SentOnce(c: Config, s: State, r: int)
    requires Inv(c, s) && r in s.tasks
    ensures s.tasks[r].pc.Sending? ==> s.tasks[r].pc.sent < 2
  {
    hide ChansOk, WindowOk, LogMatches, LogOrdered, QueueOk, WiringOk, ReportsOk, HistoryOk, TasksOk;
    TaskAt(c, s, r);
  }

  lemma StepAdvances(c: Config, s: State, r: int, a: Action)
    requires c.Proper() && r in s.tasks && !s.tasks[r].pc.Reported? && Can(c, s, a) && a == OwnStep(s, r)
    requires s.tasks[r].pc.Queued? ==> s.taskCh[0] == r
    requires s.tasks[r].pc.Sending? ==> s.tasks[r].pc.sent < 2
    ensures var t := Do(c, s, a); r in t.tasks && StepsLeft(t.tasks[r].pc) < StepsLeft(s.tasks[r].pc) <= 10
  {
    hide Can, Do;
    if a.ReadLookback? || a.ReadPrev? {
      ReadAdvances(c, s, r, a);
    } else {
      OtherAdvances(c, s, r, a);
    }
  }

  lemma ReadAdvances(c: Config, s: State, r: int, a: Action)
    requires c.Proper() && r in s.tasks && Can(c, s, a) && (a == ReadLookback(r) || a == ReadPrev(r))
    ensures var t := Do(c, s, a); r in t.tasks && StepsLeft(t.tasks[r].pc) < StepsLeft(s.tasks[r].pc)
  {
  }

  lemma OtherAdvances(c: Config, s: State, r: int, a: Action)
    requires c.Proper() && r in s.tasks && !s.tasks[r].pc.Reported? && Can(c, s, a) && a == OwnStep(s, r)
    requires s.tasks[r].pc.Queued? ==> s.taskCh[0] == r
    requires s.tasks[r].pc.Sending? ==> s.tasks[r].pc.sent < 2
    requires !a.ReadLookback? && !a.ReadPrev?
    ensures var t := Do(c, s, a); r in t.tasks && StepsLeft(t.tasks[r].pc) < StepsLeft(s.tasks[r].pc)
  {
    hide Running, MayRefill;
  }

  /** What is left of a fetch: attempts not yet made, then the way to its report. */
  function Fuel(pc: Pc): int {
    match pc
    case Queued => 1513
    case Trying(i, _) => 1512 - 3 * (i - 1)
    case AwaitLookback(i, _) => 1511 - 3 * (i - 1)
    case Checking(i) => 1510 - 3 * (i - 1)
    case AwaitPrev => 6
    case Adding => 5
    case Sending(_, sent) => if sent == 0 then 4 else 3
    case Reporting(_) => 2
    case Reported(_) => 1
  }

  /** The round whose task makes this step, if it is a task's. */
  function Mover(s: State, a: Action): Option<int> {
    match a
    case Take => if s.taskCh != [] then Some(s.taskCh[0]) else None
    case GiveUp(r) => Some(r)
    case FetchFailed(r) => Some(r)
    case FetchMismatch(r) => Some(r)
    case FetchOk(r) => Some(r)
    case ReadLookback(r) => Some(r)
    case AuthFailed(r) => Some(r)
    case AuthOk(r) => Some(r)
    case SkipAuth(r) => Some(r)
    case ReadPrev(r) => Some(r)
    case Add(r, _) => Some(r)
    case Send(r) => Some(r)
    case Report(r) => Some(r)
    case _ => None
  }

  /**
   No fetch goes on for ever, whatever peers and certificates do: each step of a task uses up some
   of its fuel, which no other step touches.
   */
  lemma FetchesEnd(c: Config, run: seq<State>, i: nat, a: Action, r: int)
    requires c.Proper() && IsRun(c, run) && i < |run| && Can(c, run[i], a) && r in run[i].tasks
    ensures var t := Do(c, run[i], a);
            && r in t.tasks && 1 <= Fuel(t.tasks[r].pc) && Fuel(run[i].tasks[r].pc) <= 1513
            && (Mover(run[i], a) == Some(r) ==> Fuel(t.tasks[r].pc) < Fuel(run[i].tasks[r].pc))
            && (Mover(run[i], a) != Some(r) ==> t.tasks[r] == run[i].tasks[r])
  {
    hide IsRun, Can, Do, Inv;
    RunKeeps(c, run, i);
    FuelSpent(c, run[i], a, r);
  }

  lemma FuelSpent(c: Config, s: State, a: Action, r: int)
    requires c.Proper() && Inv(c, s) && Can(c, s, a) && r in s.tasks
    ensures var t := Do(c, s, a);
            && r in t.tasks && 1 <= Fuel(t.tasks[r].pc) && Fuel(s.tasks[r].pc) <= 1513
            && (Mover(s, a) == Some(r) ==> Fuel(t.tasks[r].pc) < Fuel(s.tasks[r].pc))
            && (Mover(s, a) != Some(r) ==> t.tasks[r] == s.tasks[r])
  {
    hide QueueOk, ChansOk, WindowOk, LogMatches, LogOrdered, WiringOk, ReportsOk, HistoryOk, TasksOk, Running, Do, Can;
    TaskExplained(s, r);
    SentOnce(c, s, r);
    if Mover(s, a) != Some(r) {
      OtherTasksStay(c, s, a, r);
    } else {
      if a.Take? { FirstIsQueued(c, s); }
      hide Core;
      if a.Add? || a.Send? || a.Report? || a.ReadPrev? || a.GiveUp? {
        WriteSpends(c, s, a, r);
      } else {
        FetchSpends(c, s, a, r);
      }
    }
  }

  lemma OtherTasksStay(c: Config, s: State, a: Action, r: int)
    requires c.Proper() && QueueOk(c, s) && Can(c, s, a) && r in s.tasks && Mover(s, a) != Some(r)
    ensures var t := Do(c, s, a); r in t.tasks && t.tasks[r] == s.tasks[r]
  {
    hide Running;
    assert s.next !in s.tasks;
    hide QueueOk;
  }

  lemma FirstIsQueued(c: Config, s: State)
    requires QueueOk(c, s) && s.taskCh != []
    ensures s.taskCh[0] in s.tasks && s.tasks[s.taskCh[0]].pc.Queued?
  {
    assert s.taskCh[0] == s.next - |s.taskCh|;
  }

  lemma FetchSpends(c: Config, s: State, a: Action, r: int)
    requires c.Proper() && Can(c, s, a) && r in s.tasks && Mover(s, a) == Some(r) && Explained(s.log, r, s.tasks[r].pc)
    requires !(a.Add? || a.Send? || a.Report? || a.ReadPrev? || a.GiveUp?) && (a.Take? ==> s.tasks[r].pc.Queued?)
    ensures var t := Do(c, s, a); r in t.tasks && 1 <= Fuel(t.tasks[r].pc) < Fuel(s.tasks[r].pc)
  {
    hide Running, Checked;
  }

  lemma WriteSpends(c: Config, s: State, a: Action, r: int)
    requires c.Proper() && Can(c, s, a) && r in s.tasks && Mover(s, a) == Some(r) && Explained(s.log, r, s.tasks[r].pc)
    requires a.Add? || a.Send? || a.Report? || a.ReadPrev? || a.GiveUp?
    requires s.tasks[r].pc.Sending? ==> s.tasks[r].pc.sent < 2
    ensures var t := Do(c, s, a); r in t.tasks && 1 <= Fuel(t.tasks[r].pc) < Fuel(s.tasks[r].pc)
  {
    hide Running, Checked;
  }

  lemma LowestFetches(c: Config, s: State, r: int)
    requires Inv(c, s) && LowestUnfinished(c, s, r)
    requires !s.tasks[r].pc.Queued? && !s.tasks[r].pc.Sending? && !s.tasks[r].pc.Reporting?
    ensures Can(c, s, OwnStep(s, r))
  {
    hide TasksOk, ChansOk, WindowOk, LogMatches, LogOrdered, QueueOk;
    LowestFindsValues(c, s, r);
    TaskAt(c, s, r);
  }

  lemma RunEntry(c: Config, run: seq<State>, i: nat, k: nat)
    requires c.Proper() && IsRun(c, run) && i < |run| && k < |run[i].log|
    ensures EntryOrdered(c, run[i].log[..k], run[i].log[k])
  {
    hide EntryOrdered, QueueOk, WiringOk, WindowOk, TasksOk, ChansOk, LogMatches, ReportsOk, HistoryOk;
    RunKeeps(c, run, i);
  }

  /** In every interleaving a block is added only after every earlier round of the run returned success. */
  lemma WritesInOrder(c: Config, run: seq<State>, i: nat, k: nat, r: int, j: int)
    requires c.Proper() && IsRun(c, run) && i < |run| && k < |run[i].log|
    requires (run[i].log[k] == AddBlock(r, true) || run[i].log[k] == AddBlock(r, false)) && c.from <= j < r
    ensures Return(j, true) in run[i].log[..k]
  {
    RunEntry(c, run, i, k);
    hide IsRun;
  }

  /** A block is authenticated only after its lookback round succeeded, unless that round predates the run. */
  lemma AuthenticatesAfterLookback(c: Config, run: seq<State>, i: nat, k: nat, r: int)
    requires c.Proper() && IsRun(c, run) && i < |run| && k < |run[i].log|
    requires run[i].log[k].Authenticate? && run[i].log[k].round == r && r - c.lookback >= c.from
    ensures Return(r - c.lookback, true) in run[i].log[..k]
  {
    RunEntry(c, run, i, k);
    hide IsRun;
  }

  /** One failure makes every later round fail. */
  lemma FailureSpreads(c: Config, run: seq<State>, i: nat, r: int, j: int, ok: bool)
    requires c.Proper() && IsRun(c, run) && i < |run|
    requires Return(r, false) in run[i].log && Return(j, ok) in run[i].log && r < j
    ensures !ok
  {
    RunKeeps(c, run, i);
    hide TasksOk, ChansOk, WindowOk, LogOrdered;
    if ok { GoodDown(c, run[i], j, r); }
  }

  /** What is handed to the ledger was downloaded whole and authenticated, unless certificates are not verified. */
  lemma WritesAreChecked(c: Config, run: seq<State>, i: nat, k: nat, r: int, ok: bool)
    requires c.Proper() && IsRun(c, run) && i < |run| && k < |run[i].log| && run[i].log[k] == AddBlock(r, ok)
    ensures exists n: nat :: Fetched(r, n) in run[i].log[..k] &&
                             (Authenticate(r, n, true) in run[i].log[..k] || Unverified(r, n) in run[i].log[..k])
  {
    RunKeeps(c, run, i);
    hide Core, ReportsOk;
    assert EntryExplained(run[i].log[..k], run[i].log[k]);
    var n: nat :| CheckedAt(run[i].log[..k], r, n);
  }

  /** A round returns success only after the ledger took its block. */
  lemma SuccessWasWritten(c: Config, run: seq<State>, i: nat, k: nat, r: int)
    requires c.Proper() && IsRun(c, run) && i < |run| && k < |run[i].log| && run[i].log[k] == Return(r, true)
    ensures AddBlock(r, true) in run[i].log[..k]
  {
    RunKeeps(c, run, i);
    hide Core, ReportsOk;
    assert EntryExplained(run[i].log[..k], run[i].log[k]);
  }

  /** Every download that brings a block is among the first 500 of its round. */
  lemma RetriesAreBounded(c: Config, run: seq<State>, i: nat, r: int, n: nat)
    requires c.Proper() && IsRun(c, run) && i < |run| && Fetched(r, n) in run[i].log
    ensures 1 <= n <= 500
  {
    RunKeeps(c, run, i);
    hide Core, ReportsOk;
    var k :| 0 <= k < |run[i].log| && run[i].log[k] == Fetched(r, n);
    assert EntryExplained(run[i].log[..k], run[i].log[k]);
  }

  // ---------------------------------------------------------------- what the main thread is told

  lemma ReturnedIsLogged(c: Config, s: State, r: int, ok: bool)
    requires LogMatches(c, s) && ReportedAs(s.tasks, r, ok)
    ensures Return(r, ok) in s.log
  {
  }

  /** What is reported: a round that returned success, or 0 for a round that returned failure. */
  lemma ReportIsReturn(c: Config, s: State, x: int)
    requires Inv(c, s) && (x in s.completed || x in s.received)
    ensures if x == 0 then exists r :: Return(r, false) in s.log else Return(x, true) in s.log
  {
    hide QueueOk, WiringOk, WindowOk, TasksOk, ChansOk, LogMatches, LogOrdered, ConsumedOk;
    var reports := s.received + s.completed;
    assert x in reports && multiset(reports)[x] > 0;
    if x != 0 {
      ReturnedIsLogged(c, s, x, true);
    } else {
      var r :| r in Failures(s.tasks);
      ReturnedIsLogged(c, s, r, false);
    }
  }

  /** Every result is told once: a reported success is its round's only entry, and failures are as many as the zeros. */
  lemma ReportsBalance(c: Config, run: seq<State>, i: nat, r: int)
    requires c.Proper() && IsRun(c, run) && i < |run| && r != 0
    ensures var s, reports := run[i], run[i].received + run[i].completed;
            && multiset(reports)[r] <= 1
            && (r in reports <==> r in s.tasks && s.tasks[r].pc == Reported(true))
            && multiset(reports)[0] == |set q | q in s.tasks && s.tasks[q].pc == Reported(false)|
  {
    RunKeeps(c, run, i);
    var s, reports := run[i], run[i].received + run[i].completed;
    hide Core;
    assert r in reports <==> multiset(reports)[r] > 0;
    assert (set q | q in s.tasks && s.tasks[q].pc == Reported(false)) == Failures(s.tasks);
  }

  lemma ReportsAreReturns(c: Config, run: seq<State>, i: nat, x: int)
    requires c.Proper() && IsRun(c, run) && i < |run| && (x in run[i].completed || x in run[i].received)
    ensures if x == 0 then exists r :: Return(r, false) in run[i].log else Return(x, true) in run[i].log
  {
    hide Inv;
    RunKeeps(c, run, i);
    ReportIsReturn(c, run[i], x);
  }

  /**
   The main thread stops only on a catchpoint file, an unsupported round, a cancelled context or,
   having been told so, a round that failed.
   */
  lemma StopsOnlyOn(c: Config, run: seq<State>, i: nat, a: Action)
    requires c.Proper() && IsRun(c, run) && i + 1 < |run| && Can(c, run[i], a) && run[i + 1] == Do(c, run[i], a)
    requires !run[i].phase.Stopped? && run[i + 1].phase.Stopped?
    ensures || a == Receive(true) || a == RefillStop || (a == StopCancelled && run[i].cancelled)
            || (a == Receive(false) && exists r :: Return(r, false) in run[i].log)
  {
    if a == Receive(false) {
      ReportsAreReturns(c, run, i, run[i].completed[0]);
    }
  }

  /** A cancelled context stays cancelled and lets the main thread stop as soon as it waits. */
  lemma CancelStops(c: Config, s: State, a: Action)
    requires c.Proper() && (Can(c, s, a) ==> s.cancelled || a == Cancel)
    ensures Can(c, s, a) ==> Do(c, s, a).cancelled
    ensures Can(c, Do(c, s, Cancel), StopCancelled) <==> s.phase.Serving?
  {
  }

  /** A failure that reaches the main thread stops it, and nothing else it is told does, but for a catchpoint file. */
  lemma ReceiveStopsIff(c: Config, run: seq<State>, i: nat, catchpoint: bool)
    requires c.Proper() && IsRun(c, run) && i < |run| && Can(c, run[i], Receive(catchpoint))
    ensures Do(c, run[i], Receive(catchpoint)).phase.Stopped? <==>
            catchpoint || !(Return(run[i].completed[0], true) in run[i].log)
  {
    RunKeeps(c, run, i);
    var s, x := run[i], run[i].completed[0];
    if x != 0 {
      ReportIsReturn(c, s, x);
    } else {
      assert Return(0, true) !in s.log by { hide Can; NoRoundZero(c, s); }
    }
  }

  lemma NoRoundZero(c: Config, s: State)
    requires Inv(c, s)
    ensures Return(0, true) !in s.log
  {
    hide WiringOk, WindowOk, TasksOk, ChansOk, LogOrdered, ReportsOk, Running;
  }

  /** While it runs, the main thread holds exactly the successes it was told of. */
  lemma HoldsSuccesses(c: Config, run: seq<State>, i: nat, r: int)
    requires c.Proper() && IsRun(c, run) && i < |run|
    ensures r in run[i].consumed ==> r in run[i].received && Return(r, true) in run[i].log
    ensures !run[i].phase.Stopped? && r in run[i].received ==> r in run[i].consumed
  {
    RunKeeps(c, run, i);
    if r in run[i].consumed {
      ReportIsReturn(c, run[i], r);
    }
  }

  /** The success of round r lets round r + N be issued: the main thread is about to, and has room. */
  lemma SuccessRefills(c: Config, run: seq<State>, i: nat)
    requires c.Proper() && IsRun(c, run) && i < |run| && !run[i].phase.Stopped?
    requires run[i].next - c.N() in run[i].received
    ensures Can(c, run[i], Refill) && Do(c, run[i], Refill).next == run[i].next + 1
    ensures var t := Do(c, run[i], Refill); run[i].next in t.tasks && run[i].next in t.taskCh
  {
    RunKeeps(c, run, i);
    SendsNeverBlock(c, run, i);
    hide Core;
    assert ConsumedOk(c, run[i]);
  }
}
