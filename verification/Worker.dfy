/**
 The worker as it runs: task records updated in place, run rows and connections behind a server
 object, and the two tables. Every method is tied to the function of TaskMachine, Scheduler or
 World that says what it does to the whole state.
 */
module CronTasks {
  import opened Options
  import opened CronTime
  import opened TaskMachine

  /** `CronTask` of include/cron_task.h, an entry of the task table. */
  class CronTask {
    const jobId: int
    var runId: int
    var state: TaskState
    var polling: Polling
    var pendingRunCount: int
    var startDeadline: int
    var nextRunTime: int
    var runDeadline: int
    var conn: int
    var errorMessage: Option<string>
    var isActive: bool
    var isSocketReady: bool
    var timedOut: bool
    var cancelRequested: bool

    ghost function View(): Task
      reads this
    {
      Task(jobId, runId, state, polling, pendingRunCount, startDeadline, nextRunTime, runDeadline, conn, errorMessage,
           isActive, isSocketReady, timedOut, cancelRequested)
    }

    /** A fresh table entry, still holding `entry`, after `InitCronTask`. */
    constructor (entry: Task, jobId: int)
      ensures View() == InitTask(entry, jobId)
    {
      this.polling, this.startDeadline := entry.polling, entry.startDeadline;
      this.runId := 0;
      this.jobId := jobId;
      this.state := Waiting;
      this.pendingRunCount := 0;
      this.conn := 0;
      this.isActive := true;
      this.errorMessage := None;
      this.isSocketReady := false;
      this.nextRunTime := 0;
      this.runDeadline := 0;
      this.cancelRequested := false;
      this.timedOut := false;
    }

    method ResetCronTaskAfterRun()
      modifies this
      ensures View() == ResetTask(old(View()))
    {
      runId := 0;
      state := Waiting;
      polling := PollFailed;
      startDeadline := 0;
      conn := 0;
      errorMessage := None;
      isSocketReady := false;
      runDeadline := 0;
      cancelRequested := false;
      timedOut := false;
    }

    method SetTaskError(message: string)
      modifies this`errorMessage
      ensures errorMessage == Some(ErrorText(message))
    {
      if message == "" {
        errorMessage := Some("unknown error, message text = '\\0'");
      } else {
        errorMessage := Some(message);
      }
    }

    /** The assignments every failing branch makes. */
    method Fail(message: string)
      modifies this
      ensures View() == FailTask(old(View()), message)
    {
      state := Error;
      polling := PollFailed;
      SetTaskError(message);
    }

    /** `TaskNeedsSocketWait` */
    predicate WaitsForSocket()
      reads this
    {
      state == Connecting || state == Sending || state == Running
    }

    /** The marks `WaitForEvent` leaves: readiness is cleared, then set if the socket was registered and fired. */
    method MarkAfterWait(slept: bool, socketBad: bool, ready: bool)
      modifies this
      ensures View() == WaitTask(old(View()), slept, socketBad, ready)
    {
      isSocketReady := false;
      if slept && WaitsForSocket() && (polling == PollReading || polling == PollWriting) {
        if conn == 0 {
          state := Error;
          polling := PollFailed;
          SetTaskError("connection is NULL");
        } else if socketBad {
          state := Error;
          polling := PollReading;
          SetTaskError("connection socket < 0");
        } else {
          isSocketReady := ready;
        }
      }
    }

    method StartSecondIntervalTask(interval: int, currentTime: int)
      modifies this`pendingRunCount, this`nextRunTime
      ensures View() == SecondsTask(old(View()), interval, currentTime)
    {
      var intervalMs := 1000 * interval;
      if nextRunTime == 0 {
        nextRunTime := PlusMilliseconds(currentTime, intervalMs);
      }
      if TimestampDifferenceExceeds(nextRunTime, currentTime, 0) {
        if pendingRunCount == 0 {
          pendingRunCount := pendingRunCount + 1;
        }
        nextRunTime := PlusMilliseconds(currentTime, intervalMs);
      }
    }
  }
}

module CronSql {
  import opened Options
  import opened TaskMachine

  /** nedo_cron.job_run_details and libpq, as src/cron_sql.c and the worker see them. */
  class Server {
    var rows: map<int, Row>
    var nextRun: int
    var nextConn: int
    ghost var runs: map<int, Run>
    ghost var conns: map<int, Conn>
    ghost var accounts: map<int, Account>

    ghost function View(): Ledger
      reads this
    {
      Ledger(rows, runs, conns, accounts, nextRun, nextConn)
    }

    constructor ()
      ensures View() == EMPTY_LEDGER
    {
      rows, runs, conns, accounts := map[], map[], map[], map[];
      nextRun, nextConn := 1, 1;
    }

    method InsertRunDetailsStart(jobId: int) returns (runId: int)
      modifies this
      ensures runId == old(nextRun) && View() == InsertRun(old(View()), jobId)
    {
      runId := nextRun;
      rows := rows[runId := Row(jobId, Starting, None, None)];
      runs := runs[runId := Run(jobId, false, 0, [])];
      nextRun := nextRun + 1;
    }

    method UpdatePID(runId: int, pid: int)
      modifies this`rows
      ensures View() == UpdatePid(old(View()), runId, pid)
    {
      if pid == 0 {
        return;
      }
      if runId in rows {
        rows := rows[runId := rows[runId].(status := Executing, pid := Some(pid))];
      }
    }

    method UpdateRunDetailsFinish(runId: int, status: RunStatus, message: Option<string>)
      modifies this
      ensures View() == FinishRun(old(View()), runId, status, message)
    {
      if runId in runs {
        runs := runs[runId := runs[runId].(finals := runs[runId].finals + [status])];
      }
      if runId in rows {
        rows := rows[runId := rows[runId].(status := status, message := message)];
      }
    }

    method Connect(jobId: int) returns (conn: int)
      modifies this
      ensures conn == old(nextConn) && View() == OpenConn(old(View()), jobId)
    {
      conn := nextConn;
      conns := conns[conn := Conn(jobId, 0)];
      nextConn := nextConn + 1;
    }

    method Finish(conn: int)
      modifies this
      ensures View() == CloseConn(old(View()), conn)
    {
      if conn in conns {
        conns := conns[conn := conns[conn].(closes := conns[conn].closes + 1)];
      }
    }

    ghost method NoteSent(runId: int)
      modifies this`runs
      ensures View() == MarkSent(old(View()), runId)
    {
      if runId in runs {
        runs := runs[runId := runs[runId].(sent := true)];
      }
    }

    ghost method NoteCancel(runId: int)
      modifies this`runs
      ensures View() == MarkCancel(old(View()), runId)
    {
      if runId in runs {
        runs := runs[runId := runs[runId].(cancels := runs[runId].cancels + 1)];
      }
    }

    ghost method Account(jobId: int, account: Account)
      modifies this`accounts
      ensures View() == Post(old(View()), jobId, account)
    {
      accounts := accounts[jobId := account];
    }

    /** Rows removed by someone else: a deleted job's cascade, or a cleanup of history. */
    method DeleteRows(gone: set<int>)
      modifies this`rows
      ensures View() == old(View()).(rows := old(rows) - gone)
    {
      rows := rows - gone;
    }
  }
}

/** One step of the state machine of `ManageCronTask`, state by state. */
module RunStep {
  import opened Options
  import opened CronTime
  import opened TaskMachine
  import TaskInvariant
  import opened CronTasks
  import opened CronSql

  ghost function Result(task: CronTask, server: Server, removed: bool): Outcome
    reads task, server
  {
    Outcome(if removed then None else Some(task.View()), server.View())
  }

  ghost method NoteDropped(task: CronTask, server: Server)
    modifies server`accounts
    ensures server.View() == RemoveTask(task.View(), old(server.View())).ledger
  {
    var a := AccountOf(server.View(), task.jobId);
    server.Account(task.jobId, a.(dropped := a.dropped + if task.pendingRunCount > 0 then task.pendingRunCount else 0));
  }

  method StepWaiting(task: CronTask, server: Server) returns (removed: bool)
    modifies task, server
    ensures Result(task, server, removed) == ManageWaiting(old(task.View()), old(server.View()))
  {
    removed := false;
    if !task.isActive {
      removed := true;
      NoteDropped(task, server);
      return;
    }
    if task.pendingRunCount == 0 {
      return;
    }
    ghost var a := AccountOf(server.View(), task.jobId);
    server.Account(task.jobId, a.(moved := a.moved + 1));
    task.pendingRunCount := task.pendingRunCount - 1;
    task.state := Start;
  }

  method StepStart(task: CronTask, server: Server, a: Answers, currentTime: int)
    modifies task, server
    ensures Result(task, server, false) == ManageStart(old(task.View()), old(server.View()), a, currentTime)
  {
    task.runId := server.InsertRunDetailsStart(task.jobId);
    if !a.connectStarted {
      task.Fail("PQconnectStartParams returned NULL");
      return;
    }
    task.conn := server.Connect(task.jobId);
    if !a.nonblockingSet {
      task.Fail(a.errorText);
      return;
    }
    if a.connectionBad {
      task.Fail(a.errorText);
      return;
    }
    EnterConnecting(task, currentTime);
  }

  /** The connection is under way: it has ten seconds. */
  method EnterConnecting(task: CronTask, currentTime: int)
    modifies task
    ensures task.View() ==
            old(task.View()).(startDeadline := PlusMilliseconds(currentTime, TASK_TIMEOUT_MS), polling := PollWriting, state := Connecting)
  {
    task.startDeadline := PlusMilliseconds(currentTime, TASK_TIMEOUT_MS);
    task.polling := PollWriting;
    task.state := Connecting;
  }

  method StepConnecting(task: CronTask, server: Server, a: Answers, currentTime: int)
    modifies task, server
    ensures Result(task, server, false) == ManageConnecting(old(task.View()), old(server.View()), a, currentTime)
  {
    if !task.isActive {
      task.Fail("job has been removed");
      return;
    }
    if TimestampDifferenceExceeds(task.startDeadline, currentTime, 0) {
      task.Fail("timeout reached");
      return;
    }
    if a.connectionBad {
      task.Fail(a.errorText);
      return;
    }
    if !task.isSocketReady {
      return;
    }
    if a.poll == PollOk {
      server.UpdatePID(task.runId, a.backendPid);
      task.polling := PollWriting;
      task.state := Sending;
    } else if a.poll == PollFailed {
      task.Fail(a.errorText);
    } else {
      task.polling := a.poll;
    }
  }

  method StepSending(task: CronTask, server: Server, a: Answers, currentTime: int, statementTimeoutMs: int)
    modifies task, server
    ensures Result(task, server, false) ==
            ManageSending(old(task.View()), old(server.View()), a, currentTime, statementTimeoutMs)
  {
    if !task.isActive {
      task.Fail("job has been removed");
      return;
    }
    if TimestampDifferenceExceeds(task.startDeadline, currentTime, 0) {
      task.Fail("timeout reached");
      return;
    }
    if a.connectionBad {
      task.Fail(a.errorText);
      return;
    }
    if !task.isSocketReady {
      return;
    }
    if a.querySent {
      server.NoteSent(task.runId);
      EnterRunning(task, currentTime, statementTimeoutMs);
    } else {
      task.Fail(a.errorText);
    }
  }

  /** The query is out: the run has until the statement timeout. */
  method EnterRunning(task: CronTask, currentTime: int, statementTimeoutMs: int)
    modifies task
    ensures task.View() == old(task.View()).(polling := PollReading, state := Running, startDeadline := 0,
              runDeadline := PlusMilliseconds(currentTime, statementTimeoutMs), cancelRequested := false, timedOut := false)
  {
    task.polling := PollReading;
    task.state := Running;
    task.startDeadline := 0;
    task.runDeadline := PlusMilliseconds(currentTime, statementTimeoutMs);
    task.cancelRequested := false;
    task.timedOut := false;
  }

  method StepRunning(task: CronTask, server: Server, a: Answers, currentTime: int)
    modifies task, server
    ensures Result(task, server, false) == ManageRunning(old(task.View()), old(server.View()), a, currentTime)
  {
    if !task.isActive {
      task.Fail("job has been removed");
      return;
    }
    if a.connectionBad {
      task.Fail(a.errorText);
      return;
    }
    if TimestampDifferenceExceeds(task.runDeadline, currentTime, 0) && task.runDeadline != 0 && !task.cancelRequested {
      var cancelled := RequestCancel(task, server, a);
      if !cancelled {
        return;
      }
    }
    ConsumeInput(task, server, a);
  }

  /** The timeout branch of the RUNNING case: one cancel request, which may itself fail. */
  method RequestCancel(task: CronTask, server: Server, a: Answers) returns (cancelled: bool)
    modifies task, server
    ensures cancelled <==> a.cancelHandle && a.cancelSent
    ensures server.View() == if a.cancelHandle then MarkCancel(old(server.View()), old(task.runId)) else old(server.View())
    ensures var t := old(task.View());
            var marked := t.(cancelRequested := true, timedOut := true, runDeadline := 0);
            task.View() ==
            if !a.cancelHandle then FailTask(t.(timedOut := true), "could not cancel timed out job: PQgetCancel returned NULL")
            else if !a.cancelSent then FailTask(marked, "could not cancel timed out job: " + a.cancelError)
            else marked.(polling := PollReading)
  {
    if !a.cancelHandle {
      task.timedOut := true;
      task.Fail("could not cancel timed out job: PQgetCancel returned NULL");
      return false;
    }
    server.NoteCancel(task.runId);
    task.cancelRequested := true;
    task.timedOut := true;
    task.runDeadline := 0;
    if !a.cancelSent {
      task.Fail("could not cancel timed out job: " + a.cancelError);
      return false;
    }
    task.polling := PollReading;
    return true;
  }

  /** The second half of the RUNNING case: drain the connection, then close it. */
  method ConsumeInput(task: CronTask, server: Server, a: Answers)
    modifies task, server
    ensures Result(task, server, false) == ReadRunning(old(task.View()), old(server.View()), a)
  {
    if !task.isSocketReady {
      return;
    }
    if !a.inputConsumed {
      task.Fail(a.errorText);
      return;
    }
    if a.busy {
      return;
    }
    var connection := task.conn;
    TaskInvariant.ReadResultsMarks(task.View(), a.results);
    DrainResults(task, a.results);
    if connection != 0 {
      server.Finish(connection);
    }
    task.conn := 0;
    task.polling := PollFailed;
    task.isSocketReady := false;
    if task.state != Error {
      task.state := Done;
      server.UpdateRunDetailsFinish(task.runId, Succeeded, Some("OK"));
    }
  }

  /** The `PQgetResult` loop, which stops after the first faulty result. */
  method DrainResults(task: CronTask, results: seq<QueryResult>)
    modifies task
    ensures task.View() == ReadResults(old(task.View()), results)
  {
    var i := 0;
    while i < |results|
      invariant 0 <= i <= |results| && task.View() == old(task.View())
      invariant ReadResults(old(task.View()), results) == ReadResults(old(task.View()), results[i..])
    {
      match results[i] {
        case Faulty(sqlState, message) =>
          if sqlState == Some("57014") {
            task.timedOut := true;
          }
          task.Fail(message);
          return;
        case Copying =>
          task.Fail("COPY not supported");
          return;
        case _ =>
      }
      assert results[i..][1..] == results[i + 1..];
      i := i + 1;
    }
  }

  /** The first half of the ERROR case: finalise the run, then close the connection. */
  method CloseRun(task: CronTask, server: Server)
    modifies task, server
    ensures task.View() == old(task.View()).(runId := 0, conn := 0)
    ensures server.View() == CloseTask(old(task.View()), FinishError(old(task.View()), old(server.View())))
  {
    if task.runId != 0 {
      server.UpdateRunDetailsFinish(task.runId, if task.timedOut then Timeout else Failed, task.errorMessage);
      task.runId := 0;
    }
    if task.conn != 0 {
      server.Finish(task.conn);
      task.conn := 0;
    }
  }

  /** The last lines of the ERROR case. */
  method EndRun(task: CronTask)
    modifies task
    ensures task.View() == EndError(old(task.View()))
  {
    task.state := Done;
    task.polling := PollFailed;
    task.startDeadline := 0;
    task.runDeadline := 0;
    task.cancelRequested := false;
    task.isSocketReady := false;
  }

  method StepError(task: CronTask, server: Server) returns (removed: bool)
    modifies task, server
    ensures Result(task, server, removed) == ManageError(old(task.View()), old(server.View()))
  {
    CloseRun(task, server);
    removed := !task.isActive;
    if removed {
      NoteDropped(task, server);
    } else {
      EndRun(task);
    }
  }

  method StepDone(task: CronTask, server: Server)
    modifies task, server
    ensures Result(task, server, false) == ManageDone(old(task.View()), old(server.View()))
  {
    if task.pendingRunCount > MAX_PENDING_TASKS {
      ghost var a := AccountOf(server.View(), task.jobId);
      server.Account(task.jobId, a.(cut := a.cut + task.pendingRunCount - MAX_PENDING_TASKS));
      task.pendingRunCount := MAX_PENDING_TASKS;
    }
    task.ResetCronTaskAfterRun();
  }

  /** What `ManageCronTask` does first: a task whose job is gone goes to Error. */
  method LoseMissingJob(task: CronTask, server: Server)
    requires task.state != Done
    modifies task, server
    ensures (task.View(), server.View()) == LoseJob(old(task.View()), old(server.View()))
    ensures task.state == Error
  {
    ghost var account := AccountOf(server.View(), task.jobId);
    if task.state == Start {
      server.Account(task.jobId, account.(abandoned := account.abandoned + 1));
    }
    task.state := Error;
    task.SetTaskError("job metadata not found");
  }

  /** The switch of `ManageCronTask`. */
  method Advance(task: CronTask, server: Server, a: Answers, currentTime: int, statementTimeoutMs: int) returns (removed: bool)
    modifies task, server
    ensures Result(task, server, removed) ==
            Manage(old(task.View()), true, old(server.View()), a, currentTime, statementTimeoutMs)
  {
    removed := false;
    match task.state {
      case Waiting => removed := StepWaiting(task, server);
      case Start => StepStart(task, server, a, currentTime);
      case Connecting => StepConnecting(task, server, a, currentTime);
      case Sending => StepSending(task, server, a, currentTime, statementTimeoutMs);
      case Running => StepRunning(task, server, a, currentTime);
      case Error => removed := StepError(task, server);
      case Done => StepDone(task, server);
    }
  }

  /** `ManageCronTask`: a task whose job is gone goes to the Error case of the same step. */
  method ManageCronTask(task: CronTask, jobLoaded: bool, server: Server, a: Answers, currentTime: int, statementTimeoutMs: int)
    returns (removed: bool)
    modifies task, server
    ensures Result(task, server, removed) ==
            Manage(old(task.View()), jobLoaded, old(server.View()), a, currentTime, statementTimeoutMs)
  {
    if !jobLoaded && task.state != Done {
      LoseMissingJob(task, server);
    }
    removed := Advance(task, server, a, currentTime, statementTimeoutMs);
  }
}

/** The tables and the loop of src/nedo_cron.c and src/cron_job.c. */
module NedoCron {
  import opened CronTime
  import opened CronExpr
  import opened CronSchedules
  import opened Matcher
  import opened Scheduler
  import opened TaskMachine
  import opened World
  import opened CronTasks
  import opened CronSql
  import opened Deadlines
  import RunStep

  const MAX_SLEEP_MS := 1000
  const RELOAD_MS := 60000

  /** The elements of a set in some order, once each. */
  method Enumerate<T(==)>(s: set<T>) returns (list: seq<T>)
    ensures forall x :: x in list <==> x in s
    ensures forall i, j :: 0 <= i < j < |list| ==> list[i] != list[j]
  {
    var rest := s;
    list := [];
    while rest != {}
      invariant forall x :: x in s <==> x in list || x in rest
      invariant forall x :: x in rest ==> x !in list
      invariant forall i, j :: 0 <= i < j < |list| ==> list[i] != list[j]
      decreases |rest|
    {
      var x :| x in rest;
      rest := rest - {x};
      list := list + [x];
    }
  }

  lemma SameMap<K, V>(a: map<K, V>, b: map<K, V>)
    requires forall k :: k in a <==> k in b
    requires forall k :: k in a ==> a[k] == b[k]
    ensures a == b
  {
  }

  // ---- The effect of a reload on the task table ----

  function Deactivated(views: map<int, Task>): map<int, Task> {
    map k | k in views :: views[k].(isActive := false)
  }

  function Activated(views: map<int, Task>, id: int, entry: Task): map<int, Task> {
    views[id := if id in views then views[id].(isActive := true) else InitTask(entry, id)]
  }

  function AllActivated(views: map<int, Task>, list: seq<int>, entries: int -> Task): map<int, Task> {
    if list == [] then views
    else
      var n := |list| - 1;
      Activated(AllActivated(views, list[..n], entries), list[n], entries(list[n]))
  }

  lemma {:induction false} AllActivatedAt(views: map<int, Task>, list: seq<int>, entries: int -> Task, k: int)
    ensures var all := AllActivated(views, list, entries);
            (k in all <==> k in views || k in list) &&
            (k in views ==> all[k] == if k in list then views[k].(isActive := true) else views[k]) &&
            (k !in views && k in list ==> all[k] == InitTask(entries(k), k))
  {
    if list != [] {
      AllActivatedAt(views, list[..|list| - 1], entries, k);
    }
  }

  lemma ReloadedViews(views: map<int, Task>, jobs: map<int, Job>, list: seq<int>, entries: int -> Task)
    requires forall k :: k in jobs <==> k in list
    ensures AllActivated(Deactivated(views), list, entries) ==
            map k | k in views.Keys + jobs.Keys :: if k in views then views[k].(isActive := k in jobs) else InitTask(entries(k), k)
  {
    var all := AllActivated(Deactivated(views), list, entries);
    var spec := map k | k in views.Keys + jobs.Keys :: if k in views then views[k].(isActive := k in jobs) else InitTask(entries(k), k);
    forall k ensures (k in all <==> k in spec) && (k in all ==> all[k] == spec[k]) {
      AllActivatedAt(Deactivated(views), list, entries, k);
    }
  }

  // ---- Passes over the task list, one task at a time ----

  /** The share of `Poll` that concerns one task. */
  function PollOne(w: World, k: int, last: int, now: int): World {
    if k !in w.tasks then w
    else if k !in w.jobs then w.(ledger := Post(w.ledger, k, AccountOf(w.ledger, k)))
    else
      w.(tasks := w.tasks[k := PollTask(w.tasks[k], w.jobs[k].schedule, last, now)],
         ledger := Post(w.ledger, k, PollAccount(AccountOf(w.ledger, k), w.tasks[k], w.jobs[k].schedule, last, now)))
  }

  function PollEach(w: World, ids: seq<int>, last: int, now: int): World {
    if ids == [] then w else PollOne(PollEach(w, ids[..|ids| - 1], last, now), ids[|ids| - 1], last, now)
  }

  function WaitOne(w: World, k: int, slept: bool, bad: set<int>, ready: set<int>): World {
    if k !in w.tasks then w else w.(tasks := w.tasks[k := WaitTask(w.tasks[k], slept, k in bad, k in ready)])
  }

  function WaitEach(w: World, ids: seq<int>, slept: bool, bad: set<int>, ready: set<int>): World {
    if ids == [] then w else WaitOne(WaitEach(w, ids[..|ids| - 1], slept, bad, ready), ids[|ids| - 1], slept, bad, ready)
  }

  predicate Distinct(ids: seq<int>) {
    forall i, j :: 0 <= i < j < |ids| ==> ids[i] != ids[j]
  }

  /** `ids` lists the keys of the task table once each. */
  ghost predicate CoversTable(ids: seq<int>, w: World) {
    Distinct(ids) && forall k :: k in w.tasks <==> k in ids
  }

  lemma {:induction false} PollEachAt(w: World, ids: seq<int>, last: int, now: int, k: int)
    requires Distinct(ids) && forall k :: k in ids ==> k in w.tasks
    ensures var w' := PollEach(w, ids, last, now);
            w'.jobs == w.jobs && w'.lastMinute == w.lastMinute && w'.ledger.(accounts := w.ledger.accounts) == w.ledger &&
            (k in w'.tasks <==> k in w.tasks) &&
            (k in w'.ledger.accounts <==> k in w.ledger.accounts || k in ids) &&
            (k in w.tasks ==>
              w'.tasks[k] == if k in ids && k in w.jobs then PollTask(w.tasks[k], w.jobs[k].schedule, last, now) else w.tasks[k]) &&
            AccountOf(w'.ledger, k) ==
              if k in ids && k in w.jobs
              then PollAccount(AccountOf(w.ledger, k), w.tasks[k], w.jobs[k].schedule, last, now)
              else AccountOf(w.ledger, k)
  {
    if ids != [] {
      var n := |ids| - 1;
      var id := ids[n];
      PollEachAt(w, ids[..n], last, now, k);
      PollEachAt(w, ids[..n], last, now, id);
      assert id !in ids[..n] && (k in ids <==> k in ids[..n] || k == id);
    }
  }

  /** A pass does not look at the stored minute. */
  lemma {:induction false} PollEachLater(w: World, minute: int, ids: seq<int>, last: int, now: int)
    ensures PollEach(w.(lastMinute := minute), ids, last, now) == PollEach(w, ids, last, now).(lastMinute := minute)
  {
    if ids != [] {
      PollEachLater(w, minute, ids[..|ids| - 1], last, now);
    }
  }

  lemma PollEachIsPoll(w: World, ids: seq<int>, now: int)
    requires CoversTable(ids, w)
    ensures var last := Remembered(w.lastMinute, now);
            PollEach(w, ids, last, now).(lastMinute := NextMinute(last, now)) == Poll(w, now)
  {
    var last := Remembered(w.lastMinute, now);
    var a, b := PollEach(w, ids, last, now), Poll(w, now);
    forall k ensures (k in a.tasks <==> k in b.tasks) && (k in a.tasks ==> a.tasks[k] == b.tasks[k]) {
      PollEachAt(w, ids, last, now, k);
    }
    SameMap(a.tasks, b.tasks);
    forall k ensures (k in a.ledger.accounts <==> k in b.ledger.accounts) &&
                     (k in a.ledger.accounts ==> a.ledger.accounts[k] == b.ledger.accounts[k]) {
      PollEachAt(w, ids, last, now, k);
      PollAccountOf(w, now, k);
    }
    SameMap(a.ledger.accounts, b.ledger.accounts);
    PollEachAt(w, ids, last, now, 0);
  }

  lemma PollInSteps(w: World, ids: seq<int>, now: int)
    requires CoversTable(ids, w)
    ensures var last := Remembered(w.lastMinute, now);
            var w2 := PollEach(w.(lastMinute := last), ids, last, now);
            w2.lastMinute == last && w2.(lastMinute := NextMinute(last, now)) == Poll(w, now)
  {
    var last := Remembered(w.lastMinute, now);
    PollEachIsPoll(w, ids, now);
    PollEachLater(w, last, ids, last, now);
  }

  lemma {:induction false} WaitEachAt(w: World, ids: seq<int>, slept: bool, bad: set<int>, ready: set<int>, k: int)
    requires Distinct(ids) && forall k :: k in ids ==> k in w.tasks
    ensures var w' := WaitEach(w, ids, slept, bad, ready);
            w'.(tasks := w.tasks) == w && (k in w'.tasks <==> k in w.tasks) &&
            (k in w.tasks ==> w'.tasks[k] == if k in ids then WaitTask(w.tasks[k], slept, k in bad, k in ready) else w.tasks[k])
  {
    if ids != [] {
      var n := |ids| - 1;
      var id := ids[n];
      WaitEachAt(w, ids[..n], slept, bad, ready, k);
      WaitEachAt(w, ids[..n], slept, bad, ready, id);
      assert id !in ids[..n] && (k in ids <==> k in ids[..n] || k == id);
    }
  }

  lemma WaitEachIsWait(w: World, ids: seq<int>, now: int, bad: set<int>, ready: set<int>)
    requires CoversTable(ids, w)
    ensures WaitEach(w, ids, !NoSleep(w, now), bad, ready) == Wait(w, now, bad, ready)
  {
    var a, b := WaitEach(w, ids, !NoSleep(w, now), bad, ready), Wait(w, now, bad, ready);
    forall k ensures (k in a.tasks <==> k in b.tasks) && (k in a.tasks ==> a.tasks[k] == b.tasks[k]) {
      WaitEachAt(w, ids, !NoSleep(w, now), bad, ready, k);
    }
    SameMap(a.tasks, b.tasks);
    WaitEachAt(w, ids, !NoSleep(w, now), bad, ready, 0);
  }

  /** The sleep a wake-up time gives, in whole milliseconds and at most a second. */
  function TimeoutFor(d: int, now: int): int {
    var ms := (if d > now then d - now else 0) / 1000;
    if ms > MAX_SLEEP_MS then MAX_SLEEP_MS else ms
  }

  /** No deadline of the task is before `d`. */
  ghost predicate NotBefore(w: World, t: Task, d: int) {
    forall x :: IsDeadline(w, t, x) ==> d <= x
  }

  /** The sleep ends no later than any deadline, and unless cut to a second less than a millisecond before the earliest. */
  lemma NeverOversleeps(w: World, now: int, d: int, k: int, x: int)
    requires Earliest(w, now, d)
    ensures var slept := TimeoutFor(d, now);
            0 <= slept <= MAX_SLEEP_MS && now + slept * USECS_PER_MSEC <= (if EndOfMinute(now) > now then EndOfMinute(now) else now) &&
            (k in w.tasks && IsDeadline(w, w.tasks[k], x) ==> now + slept * USECS_PER_MSEC <= if x > now then x else now) &&
            (slept < MAX_SLEEP_MS ==> d < now + (slept + 1) * USECS_PER_MSEC)
  {
    var slept := TimeoutFor(d, now);
    assert slept * 1000 <= if d > now then d - now else 0;
    assert k in w.tasks && IsDeadline(w, w.tasks[k], x) ==> d <= x;
  }

  lemma EarliestUnique(w: World, now: int, d: int, d': int)
    requires Earliest(w, now, d) && Earliest(w, now, d')
    ensures d == d'
  {
  }

  lemma MillisecondsOf(usecs: int)
    requires usecs >= 0
    ensures usecs / USECS_PER_SEC * 1000 + usecs % USECS_PER_SEC / 1000 == usecs / 1000
  {
    var secs, rest := usecs / USECS_PER_SEC, usecs % USECS_PER_SEC;
    assert usecs == secs * 1000 * 1000 + rest;
  }

  // ---- The fold of the wait, over the tasks listed so far ----

  ghost predicate SomeRunWaits(w: World) {
    exists k :: k in w.tasks && HasWaitingRun(w.tasks[k])
  }

  /** `views` are the tasks of the table. */
  ghost predicate AreTasks(views: seq<Task>, w: World) {
    (forall t :: t in views ==> t.jobId in w.tasks && w.tasks[t.jobId] == t) &&
    forall k :: k in w.tasks ==> w.tasks[k] in views
  }

  /** No run waits among the first `n` tasks, and `d` is the earliest of the next minute and their deadlines. */
  ghost predicate EarliestSoFar(w: World, views: seq<Task>, n: nat, now: int, d: int)
    requires n <= |views|
  {
    d <= EndOfMinute(now) && (d == EndOfMinute(now) || exists i :: 0 <= i < n && IsDeadline(w, views[i], d)) &&
    forall i :: 0 <= i < n ==> NotBefore(w, views[i], d) && !HasWaitingRun(views[i])
  }

  lemma EarliestStep(w: World, views: seq<Task>, n: nat, now: int, before: int, d: int)
    requires n < |views| && EarliestSoFar(w, views, n, now, before) && !HasWaitingRun(views[n])
    requires d <= before && (d == before || IsDeadline(w, views[n], d)) && NotBefore(w, views[n], d)
    ensures EarliestSoFar(w, views, n + 1, now, d)
  {
    forall i | 0 <= i < n + 1 ensures NotBefore(w, views[i], d) && !HasWaitingRun(views[i]) {
      assert i < n ==> NotBefore(w, views[i], before);
    }
  }

  lemma EarliestOfAll(w: World, views: seq<Task>, now: int, d: int)
    requires AreTasks(views, w) && EarliestSoFar(w, views, |views|, now, d)
    ensures Earliest(w, now, d) && !SomeRunWaits(w)
  {
    forall k | k in w.tasks ensures NotBefore(w, w.tasks[k], d) && !HasWaitingRun(w.tasks[k]) {
      assert w.tasks[k] in views;
    }
    if d != EndOfMinute(now) {
      var i :| 0 <= i < |views| && IsDeadline(w, views[i], d);
      assert views[i] in views;
    }
  }

  lemma RunWaits(w: World, views: seq<Task>)
    requires AreTasks(views, w) && exists i :: 0 <= i < |views| && HasWaitingRun(views[i])
    ensures SomeRunWaits(w)
  {
    var i :| 0 <= i < |views| && HasWaitingRun(views[i]);
    assert views[i] in views;
  }

  /** The timeout is zero when a run waits, else the time to the earliest deadline. */
  ghost predicate SleepsFor(w: World, now: int, timeoutMs: int) {
    if SomeRunWaits(w) then timeoutMs == 0
    else exists d :: Earliest(w, now, d) && timeoutMs == TimeoutFor(d, now)
  }

  /** The timeout is zero exactly when the model's worker does not sleep. */
  lemma ZeroTimeoutIsNoSleep(w: World, now: int, timeoutMs: int)
    requires SleepsFor(w, now, timeoutMs)
    ensures timeoutMs == 0 <==> NoSleep(w, now)
  {
    if !SomeRunWaits(w) {
      var d :| Earliest(w, now, d) && timeoutMs == TimeoutFor(d, now);
      forall d' | Earliest(w, now, d') ensures d' == d {
        EarliestUnique(w, now, d, d');
      }
    }
  }

  function Ids(list: seq<CronTask>): (ids: seq<int>)
    ensures |ids| == |list| && forall i :: 0 <= i < |ids| ==> ids[i] == list[i].jobId
  {
    seq(|list|, i requires 0 <= i < |list| => list[i].jobId)
  }

  ghost function Views(list: seq<CronTask>): (views: seq<Task>)
    reads list
    ensures |views| == |list| && forall i :: 0 <= i < |views| ==> views[i] == list[i].View()
  {
    seq(|list|, i requires 0 <= i < |list| reads list => list[i].View())
  }

  class Worker {
    var jobs: map<int, Job>
    var tasks: map<int, CronTask>
    var lastMinute: int
    const server: Server

    /** The task records the table holds. */
    ghost function Objects(): set<CronTask>
      reads this
    {
      set k | k in tasks :: tasks[k]
    }

    ghost predicate Valid()
      reads this
    {
      forall k :: k in tasks ==> tasks[k].jobId == k
    }

    ghost function TaskViews(): map<int, Task>
      reads this, Objects()
    {
      map k | k in tasks :: tasks[k].View()
    }

    ghost function View(): World
      reads this, Objects(), server
    {
      World(jobs, TaskViews(), server.View(), lastMinute)
    }

    constructor ()
      ensures Valid() && View() == EMPTY_WORLD && fresh(server)
    {
      jobs, tasks, lastMinute := map[], map[], 0;
      server := new Server();
    }

    /** `list` holds every task of the table once, in some order. */
    ghost predicate Listed(list: seq<CronTask>)
      reads this
    {
      (forall i :: 0 <= i < |list| ==> list[i].jobId in tasks && tasks[list[i].jobId] == list[i]) &&
      (forall i, j :: 0 <= i < j < |list| ==> list[i] != list[j]) &&
      forall k :: k in tasks ==> tasks[k] in list
    }

    // ---- Reloading ----

    /** `LoadJobsList` and `TupleToJob`: rows whose schedule does not parse are skipped. */
    method LoadJobsList(rows: seq<JobRow>) returns (list: seq<int>)
      modifies this`jobs
      ensures jobs == LoadJobs(rows)
      ensures forall k :: k in jobs <==> k in list
    {
      jobs, list := map[], [];
      for i := 0 to |rows|
        invariant jobs == LoadJobs(rows[..i])
        invariant forall k :: k in jobs <==> k in list
      {
        assert rows[..i + 1][..i] == rows[..i];
        var row := rows[i];
        var schedule, error := ParseWithError(row.scheduleText);
        if schedule != null {
          jobs := jobs[row.jobId := Job(row.scheduleText, schedule.View(), row.command)];
          list := list + [row.jobId];
        }
      }
      assert rows[..|rows|] == rows;
    }

    /** `getCronTask`: the task of a job id, created and initialised when the table has none. */
    method GetCronTask(jobId: int, entry: Task) returns (task: CronTask)
      requires Valid()
      modifies this`tasks
      ensures Valid() && jobId in tasks && tasks[jobId] == task
      ensures jobId in old(tasks) ==> tasks == old(tasks)
      ensures jobId !in old(tasks) ==> tasks == old(tasks)[jobId := task] && fresh(task) && task.View() == InitTask(entry, jobId)
    {
      if jobId !in tasks {
        var created := new CronTask(entry, jobId);
        tasks := tasks[jobId := created];
      }
      task := tasks[jobId];
    }

    method DeactivateAll()
      requires Valid()
      modifies Objects()
      ensures Valid() && TaskViews() == Deactivated(old(TaskViews()))
    {
      forall k | k in tasks {
        tasks[k].isActive := false;
      }
      forall k | k in tasks ensures TaskViews()[k] == Deactivated(old(TaskViews()))[k] {
        assert tasks[k].View() == old(tasks[k].View()).(isActive := false);
      }
      SameMap(TaskViews(), Deactivated(old(TaskViews())));
    }

    /** The body of the second loop of `ReloadCronJobs`. */
    method ActivateOne(id: int, entry: Task)
      requires Valid()
      modifies this`tasks, Objects()
      ensures Valid() && fresh(Objects() - old(Objects()))
      ensures TaskViews() == Activated(old(TaskViews()), id, entry)
    {
      var task := GetCronTask(id, entry);
      task.isActive := true;
      forall k | k in tasks ensures TaskViews()[k] == Activated(old(TaskViews()), id, entry)[k] {
        if k != id {
          assert tasks[k] != task && tasks[k].View() == old(tasks[k].View());
        }
      }
      SameMap(TaskViews(), Activated(old(TaskViews()), id, entry));
    }

    /** `ReloadCronJobs`: every task goes inactive, then the loaded jobs' tasks are made or revived. */
    method ReloadCronJobs(rows: seq<JobRow>, entries: int -> Task)
      requires Valid()
      modifies this, Objects()
      ensures Valid() && View() == Reload(old(View()), rows, entries) && fresh(Objects() - old(Objects()))
    {
      ghost var views := TaskViews();
      DeactivateAll();
      var list := LoadJobsList(rows);
      for i := 0 to |list|
        invariant Valid() && jobs == LoadJobs(rows) && lastMinute == old(lastMinute) && fresh(Objects() - old(Objects()))
        invariant TaskViews() == AllActivated(Deactivated(views), list[..i], entries)
      {
        assert list[..i + 1][..i] == list[..i];
        ActivateOne(list[i], entries(list[i]));
      }
      assert list[..|list|] == list;
      ReloadedViews(views, jobs, list, entries);
    }

    // ---- Looking for due jobs ----

    /** `LoadTasksList`: the table in whatever order it is walked. */
    method LoadTasksList() returns (list: seq<CronTask>)
      requires Valid()
      ensures Listed(list) && CoversTable(Ids(list), View())
    {
      var keys := Enumerate(tasks.Keys);
      list := [];
      for i := 0 to |keys|
        invariant |list| == i
        invariant forall j :: 0 <= j < i ==>
          list[j].jobId == keys[j] && list[j].jobId in tasks && tasks[list[j].jobId] == list[j]
      {
        var key := keys[i];
        assert key in keys && key in tasks;
        list := list + [tasks[key]];
      }
      forall k | k in tasks ensures tasks[k] in list {
        assert k in keys;
        var j :| 0 <= j < |keys| && keys[j] == k;
        assert list[j] == tasks[k];
      }
      ListedCovers(list);
    }

    /** One look of `StartPendingTask` at one minute. */
    method Look(task: CronTask, schedule: Schedule, minute: int, floating: bool, fixed: bool) returns (ghost fires: seq<int>)
      modifies task`pendingRunCount
      ensures fires == OneMinute(schedule, minute, floating, fixed)
      ensures task.pendingRunCount == old(task.pendingRunCount) + |fires|
    {
      fires := [];
      if ShouldRunTask(schedule, minute, floating, fixed) {
        task.pendingRunCount := task.pendingRunCount + 1;
        fires := [minute];
      }
    }

    /** The replay loop of `StartPendingTask`. */
    method CatchUp(task: CronTask, schedule: Schedule, last: int, currentMinute: int, floating: bool, fixed: bool)
      returns (ghost fires: seq<int>)
      modifies task`pendingRunCount
      ensures fires == Replay(schedule, last, currentMinute, floating, fixed)
      ensures task.pendingRunCount == old(task.pendingRunCount) + |fires|
    {
      var virtTime := last;
      fires := [];
      ghost var rest := Replay(schedule, last, currentMinute, floating, fixed);
      ghost var all := rest;
      while virtTime < currentMinute
        invariant rest == Replay(schedule, virtTime, currentMinute, floating, fixed) && fires + rest == all
        invariant virtTime >= currentMinute ==> rest == []
        invariant task.pendingRunCount == old(task.pendingRunCount) + |fires|
        decreases currentMinute - virtTime
      {
        ghost var before := fires;
        virtTime := PlusMilliseconds(virtTime, 60 * 1000);
        rest := Replay(schedule, virtTime, currentMinute, floating, fixed);
        ghost var head := Look(task, schedule, virtTime, floating, fixed);
        fires := before + head;
        Regroup(before, head, rest);
      }
    }

    /** `StartPendingTask`; the ghost result lists the minutes at which the queue grew. */
    method StartPendingTask(task: CronTask, schedule: Schedule, clockStatus: ClockStatus, last: int, currentTime: int)
      returns (ghost fires: seq<int>)
      modifies task`pendingRunCount
      ensures fires == Fires(schedule, clockStatus, last, currentTime)
      ensures task.View() == old(task.View()).(pendingRunCount := old(task.pendingRunCount) + |fires|)
    {
      var currentMinute := StartOfMinute(currentTime);
      match clockStatus {
        case Progressed =>
          fires := CatchUp(task, schedule, last, currentMinute, true, true);
        case JumpForward =>
          fires := CatchUp(task, schedule, last, currentMinute, false, true);
          ghost var more := Look(task, schedule, currentMinute, true, false);
          fires := fires + more;
        case JumpBackward =>
          fires := Look(task, schedule, currentMinute, true, false);
        case Change =>
          fires := Look(task, schedule, currentMinute, true, true);
      }
    }

    lemma ListedCovers(list: seq<CronTask>)
      requires Valid() && Listed(list)
      ensures CoversTable(Ids(list), View())
    {
      forall k ensures k in tasks <==> k in Ids(list) {
        if k in tasks {
          assert tasks[k] in list;
          var i :| 0 <= i < |list| && list[i] == tasks[k];
          assert Ids(list)[i] == k;
        }
        if k in Ids(list) {
          var i :| 0 <= i < |list| && Ids(list)[i] == k;
          assert list[i].jobId in tasks;
        }
      }
    }

    /** The task is the table's entry for its job id. */
    ghost predicate Owns(task: CronTask)
      reads this
    {
      task.jobId in tasks && tasks[task.jobId] == task
    }

    /** `TaskViews` after one task changed. */
    twostate lemma OneTaskChanged(task: CronTask)
      requires Valid() && old(Valid()) && Owns(task) && tasks == old(tasks)
      requires forall k :: k in tasks && tasks[k] != task ==> unchanged(tasks[k])
      ensures TaskViews() == old(TaskViews())[task.jobId := task.View()]
    {
      var expected := old(TaskViews())[task.jobId := task.View()];
      forall k | k in tasks ensures TaskViews()[k] == expected[k] {
        if k != task.jobId {
          assert tasks[k] != task && unchanged(tasks[k]);
          assert tasks[k].View() == old(tasks[k].View());
        }
      }
      SameMap(TaskViews(), expected);
    }

    /** What the loop of `StartPendingTasks` does to the task of a loaded job. */
    method PollLoaded(task: CronTask, schedule: Schedule, minutesPassed: int, clockStatus: ClockStatus, currentTime: int,
                      ghost before: Account) returns (ghost account: Account)
      requires minutesPassed == MinutesPassed(lastMinute, currentTime) && clockStatus == Classify(minutesPassed)
      modifies task
      ensures task.View() == PollTask(old(task.View()), schedule, lastMinute, currentTime)
      ensures account == PollAccount(before, old(task.View()), schedule, lastMinute, currentTime)
    {
      account := before;
      if schedule.seconds {
        account := PollAccount(before, task.View(), schedule, lastMinute, currentTime);
        task.StartSecondIntervalTask(schedule.interval, currentTime);
      } else if minutesPassed != 0 {
        ghost var fires := StartPendingTask(task, schedule, clockStatus, lastMinute, currentTime);
        account := before.(fires := before.fires + fires);
      } else {
        assert before.fires + [] == before.fires;
      }
    }

    /** The body of the loop of `StartPendingTasks`. */
    method PollTaskOnce(task: CronTask, minutesPassed: int, clockStatus: ClockStatus, currentTime: int)
      requires Valid() && Owns(task)
      requires minutesPassed == MinutesPassed(lastMinute, currentTime) && clockStatus == Classify(minutesPassed)
      modifies task, server`accounts
      ensures Valid() && View() == PollOne(old(View()), task.jobId, lastMinute, currentTime)
    {
      ghost var account := AccountOf(server.View(), task.jobId);
      if task.jobId in jobs {
        account := PollLoaded(task, jobs[task.jobId].schedule, minutesPassed, clockStatus, currentTime, account);
      }
      server.Account(task.jobId, account);
      OneTaskChanged(task);
      SameMap(old(TaskViews())[task.jobId := old(task.View())], old(TaskViews()));
    }

    method PollTasks(list: seq<CronTask>, minutesPassed: int, clockStatus: ClockStatus, currentTime: int)
      requires Valid() && Listed(list)
      requires minutesPassed == MinutesPassed(lastMinute, currentTime) && clockStatus == Classify(minutesPassed)
      modifies Objects(), server`accounts
      ensures Valid() && View() == PollEach(old(View()), Ids(list), lastMinute, currentTime)
    {
      ghost var w, ids := View(), Ids(list);
      for i := 0 to |list|
        invariant Valid() && View() == PollEach(w, ids[..i], lastMinute, currentTime)
      {
        assert ids[..i + 1][..i] == ids[..i];
        assert Owns(list[i]);
        PollTaskOnce(list[i], minutesPassed, clockStatus, currentTime);
      }
      assert ids[..|list|] == ids;
    }

    /** `StartPendingTasks`, first lines: a minute never set is set to the current one. */
    method RememberMinute(currentTime: int)
      modifies this`lastMinute
      ensures View() == old(View()).(lastMinute := Remembered(old(lastMinute), currentTime))
    {
      if lastMinute == 0 {
        lastMinute := StartOfMinute(currentTime);
      }
    }

    /** `StartPendingTasks`, last lines. */
    method AdvanceMinute(clockStatus: ClockStatus, currentTime: int)
      modifies this`lastMinute
      ensures View() == old(View()).(lastMinute := if clockStatus == JumpBackward then old(lastMinute) else StartOfMinute(currentTime))
    {
      if clockStatus != JumpBackward {
        lastMinute := StartOfMinute(currentTime);
      }
    }

    /** `StartPendingTasks` */
    method StartPendingTasks(list: seq<CronTask>, currentTime: int)
      requires Valid() && Listed(list)
      modifies this`lastMinute, Objects(), server
      ensures Valid() && View() == Poll(old(View()), currentTime)
    {
      ghost var w := View();
      ListedCovers(list);
      PollInSteps(w, Ids(list), currentTime);
      RememberMinute(currentTime);
      ghost var w1 := View();
      var clockStatus := Classify(MinutesPassed(lastMinute, currentTime));
      PollTasks(list, MinutesPassed(lastMinute, currentTime), clockStatus, currentTime);
      AdvanceMinute(clockStatus, currentTime);
    }

    // ---- Waiting ----

    /** The fold step of `CalculateWaitTimeout`: the earliest of `nextEventTime` and the task's deadlines. */
    method EarlierDeadline(task: CronTask, nextEventTime: int, ghost w: World, ghost t: Task) returns (earlier: int)
      requires w.jobs == jobs && t == task.View()
      ensures earlier <= nextEventTime && (earlier == nextEventTime || IsDeadline(w, t, earlier))
      ensures NotBefore(w, t, earlier)
    {
      earlier := nextEventTime;
      if task.jobId in jobs && jobs[task.jobId].schedule.seconds && task.nextRunTime != 0 {
        if TimestampDifferenceExceeds(task.nextRunTime, earlier, 0) {
          earlier := task.nextRunTime;
        }
      }
      if (task.state == Connecting || task.state == Sending) && task.startDeadline != 0 {
        if TimestampDifferenceExceeds(task.startDeadline, earlier, 0) {
          earlier := task.startDeadline;
        }
      }
      if task.state == Running && task.runDeadline != 0 && !task.cancelRequested {
        if TimestampDifferenceExceeds(task.runDeadline, earlier, 0) {
          earlier := task.runDeadline;
        }
      }
    }

    /** The last lines of `CalculateWaitTimeout`. */
    static method MillisecondsUntil(nextEventTime: int, currentTime: int) returns (timeoutMs: int)
      ensures timeoutMs == TimeoutFor(nextEventTime, currentTime)
    {
      var (secs, usecs) := TimestampDifference(currentTime, nextEventTime);
      MillisecondsOf(if nextEventTime > currentTime then nextEventTime - currentTime else 0);
      timeoutMs := secs * 1000 + usecs / 1000;
      if timeoutMs < 0 {
        timeoutMs := 0;
      }
      if timeoutMs > MAX_SLEEP_MS {
        timeoutMs := MAX_SLEEP_MS;
      }
    }

    lemma ListedViews(list: seq<CronTask>)
      requires Valid() && Listed(list)
      ensures AreTasks(Views(list), View())
    {
      forall k | k in tasks ensures tasks[k].View() in Views(list) {
        assert tasks[k] in list;
        var j :| 0 <= j < |list| && list[j] == tasks[k];
        assert Views(list)[j] == tasks[k].View();
      }
      forall j | 0 <= j < |list| ensures Views(list)[j].jobId in tasks && TaskViews()[Views(list)[j].jobId] == Views(list)[j] {
        assert Owns(list[j]);
      }
    }

    /** The loop of `CalculateWaitTimeout`: stops at a waiting run, else folds all deadlines. */
    method NextEvent(list: seq<CronTask>, currentTime: int, ghost w: World, ghost views: seq<Task>)
      returns (waiting: bool, nextEventTime: int)
      requires w.jobs == jobs && views == Views(list)
      ensures waiting ==> exists i :: 0 <= i < |views| && HasWaitingRun(views[i])
      ensures !waiting ==> EarliestSoFar(w, views, |views|, currentTime, nextEventTime)
    {
      waiting, nextEventTime := false, EndOfMinute(currentTime);
      for i := 0 to |list|
        invariant views == Views(list) && EarliestSoFar(w, views, i, currentTime, nextEventTime)
      {
        var task := list[i];
        assert task.View() == views[i];
        if task.state == Waiting && task.pendingRunCount > 0 {
          return true, nextEventTime;
        }
        ghost var before := nextEventTime;
        nextEventTime := EarlierDeadline(task, nextEventTime, w, views[i]);
        EarliestStep(w, views, i, currentTime, before, nextEventTime);
      }
    }

    /**
     `CalculateWaitTimeout`: zero when a run waits to start; otherwise exactly the whole
     milliseconds to the earliest of the next minute and all deadlines, at most a second.
     */
    method CalculateWaitTimeout(list: seq<CronTask>, currentTime: int, ghost w: World, ghost views: seq<Task>)
      returns (timeoutMs: int)
      requires w.jobs == jobs && views == Views(list) && AreTasks(views, w)
      ensures SleepsFor(w, currentTime, timeoutMs)
    {
      var waiting, nextEventTime := NextEvent(list, currentTime, w, views);
      if waiting {
        RunWaits(w, views);
        return 0;
      }
      EarliestOfAll(w, views, currentTime, nextEventTime);
      timeoutMs := MillisecondsUntil(nextEventTime, currentTime);
    }

    /** How long `WaitForEvent` sleeps; not at all exactly when the model's worker does not. */
    method Sleep(list: seq<CronTask>, currentTime: int, ghost w: World) returns (timeoutMs: int)
      requires Valid() && Listed(list) && w == View()
      ensures timeoutMs == 0 <==> NoSleep(w, currentTime)
    {
      ListedViews(list);
      timeoutMs := CalculateWaitTimeout(list, currentTime, w, Views(list));
      ZeroTimeoutIsNoSleep(w, currentTime, timeoutMs);
    }

    method MarkTask(task: CronTask, slept: bool, bad: set<int>, ready: set<int>)
      requires Valid() && Owns(task)
      modifies task
      ensures Valid() && View() == WaitOne(old(View()), task.jobId, slept, bad, ready)
    {
      task.MarkAfterWait(slept, task.jobId in bad, task.jobId in ready);
      OneTaskChanged(task);
    }

    method MarkTasks(list: seq<CronTask>, slept: bool, bad: set<int>, ready: set<int>)
      requires Valid() && Listed(list)
      modifies Objects()
      ensures Valid() && View() == WaitEach(old(View()), Ids(list), slept, bad, ready)
    {
      ghost var w, ids := View(), Ids(list);
      for i := 0 to |list|
        invariant Valid() && View() == WaitEach(w, ids[..i], slept, bad, ready)
      {
        assert ids[..i + 1][..i] == ids[..i];
        assert Owns(list[i]);
        MarkTask(list[i], slept, bad, ready);
      }
      assert ids[..|list|] == ids;
    }

    /** `WaitForEvent`, with the sockets it would find bad and the ones it would be told are ready. */
    method WaitForEvent(list: seq<CronTask>, currentTime: int, bad: set<int>, ready: set<int>)
      requires Valid() && Listed(list)
      modifies Objects()
      ensures Valid() && View() == Wait(old(View()), currentTime, bad, ready)
    {
      ListedCovers(list);
      WaitEachIsWait(View(), Ids(list), currentTime, bad, ready);
      var timeoutMs := Sleep(list, currentTime, View());
      MarkTasks(list, timeoutMs != 0, bad, ready);
    }

    // ---- Advancing runs ----

    /** Entries may have gone from the table since it was `table`, but none is new. */
    ghost predicate Within(table: map<int, CronTask>)
      reads this
    {
      forall k :: k in tasks ==> k in table && tasks[k] == table[k]
    }

    /** `ManageCronTask` on an entry of the table, which it may remove. */
    method ManageEntry(task: CronTask, a: Answers, currentTime: int, statementTimeoutMs: int)
      requires Valid() && Owns(task)
      modifies this`tasks, task, server
      ensures Valid() && View() == ManageOne(old(View()), task.jobId, a, currentTime, statementTimeoutMs)
      ensures Within(old(tasks))
      ensures forall k :: k != task.jobId && k in old(tasks) ==> k in tasks
    {
      ghost var views := TaskViews();
      var removed := RunStep.ManageCronTask(task, task.jobId in jobs, server, a, currentTime, statementTimeoutMs);
      OneTaskChanged(task);
      if removed {
        tasks := tasks - {task.jobId};
        forall k | k in tasks ensures TaskViews()[k] == (views - {task.jobId})[k] {
          assert tasks[k] != task;
        }
        SameMap(TaskViews(), views - {task.jobId});
      }
    }

    /** The tasks of a list from the `i`-th on are still in the table. */
    ghost predicate OwnsFrom(list: seq<CronTask>, i: int)
      reads this
    {
      forall j :: 0 <= i <= j < |list| ==> Owns(list[j])
    }

    /** The body of the loop of `ManageCronTasks`: removing one task leaves the later ones in the table. */
    method ManageListed(list: seq<CronTask>, i: int, answers: int -> Answers, currentTime: int, statementTimeoutMs: int)
      requires Valid() && 0 <= i < |list| && OwnsFrom(list, i) && Distinct(Ids(list))
      modifies this`tasks, list[i], server
      ensures Valid() && Within(old(tasks)) && OwnsFrom(list, i + 1)
      ensures var k := list[i].jobId; View() == ManageOne(old(View()), k, answers(k), currentTime, statementTimeoutMs)
    {
      var task := list[i];
      forall j | i < j < |list| ensures list[j].jobId != task.jobId {
        assert Ids(list)[i] != Ids(list)[j];
      }
      ManageEntry(task, answers(task.jobId), currentTime, statementTimeoutMs);
    }

    /** `ManageCronTasks` */
    method ManageCronTasks(list: seq<CronTask>, answers: int -> Answers, currentTime: int, statementTimeoutMs: int)
      requires Valid() && Listed(list)
      modifies this`tasks, Objects(), server
      ensures Valid() && View() == ManageAll(old(View()), Ids(list), answers, currentTime, statementTimeoutMs)
      ensures Objects() <= old(Objects())
    {
      ghost var w, ids, table, objects := View(), Ids(list), tasks, Objects();
      ListedCovers(list);
      for i := 0 to |list|
        invariant Valid() && View() == ManageAll(w, ids[..i], answers, currentTime, statementTimeoutMs)
        invariant Within(table) && OwnsFrom(list, i)
      {
        assert ids[..i + 1][..i] == ids[..i];
        ManageListed(list, i, answers, currentTime, statementTimeoutMs);
      }
      assert ids[..|list|] == ids;
      assert forall k :: k in tasks ==> tasks[k] == table[k] && tasks[k] in objects;
    }

    // ---- The main loop ----

    method LookAndWait(list: seq<CronTask>, turn: Turn)
      requires Valid() && Listed(list)
      modifies this`lastMinute, Objects(), server
      ensures Valid() && View() == Wait(Poll(old(View()), turn.now), turn.waitTime, turn.bad, turn.ready)
      ensures tasks == old(tasks)
    {
      StartPendingTasks(list, turn.now);
      WaitForEvent(list, turn.waitTime, turn.bad, turn.ready);
    }

    /** Look, wait and advance, over one listing of the table. */
    method Advance(list: seq<CronTask>, turn: Turn)
      requires Valid() && Listed(list)
      modifies this`lastMinute, this`tasks, Objects(), server
      ensures Valid() && Objects() <= old(Objects())
      ensures View() == ManageAll(Wait(Poll(old(View()), turn.now), turn.waitTime, turn.bad, turn.ready),
                                  Ids(list), turn.answers, turn.later, turn.statementTimeoutMs)
    {
      LookAndWait(list, turn);
      ManageCronTasks(list, turn.answers, turn.later, turn.statementTimeoutMs);
    }

    /** What every turn of the loop does: look for due jobs, wait, and advance the runs of the tasks listed. */
    method LookWaitAndManage(turn: Turn) returns (ghost ids: seq<int>)
      requires Valid()
      modifies this`lastMinute, this`tasks, Objects(), server
      ensures Valid() && Objects() <= old(Objects()) && CoversTable(ids, old(View()))
      ensures View() == ManageAll(Wait(Poll(old(View()), turn.now), turn.waitTime, turn.bad, turn.ready),
                                  ids, turn.answers, turn.later, turn.statementTimeoutMs)
    {
      var list := LoadTasksList();
      ids := Ids(list);
      Advance(list, turn);
    }

    /** What a turn of the loop does first: reload a stale job cache. */
    method Prepare(turn: Turn, lastReload: int) returns (reloaded: int)
      requires Valid()
      modifies this, Objects(), server
      ensures Valid() && fresh(Objects() - old(Objects())) && reloaded == ReloadTime(turn, lastReload)
      ensures View() == Prepared(old(View()), turn, lastReload)
    {
      ghost var w := View();
      reloaded := lastReload;
      server.DeleteRows(turn.gone);
      assert View() == DeleteRows(w, turn.gone);
      if turn.invalidated || lastReload == 0 || TimestampDifferenceExceeds(lastReload, turn.now, RELOAD_MS) {
        ReloadCronJobs(turn.rows, turn.entries);
        reloaded := turn.now;
      }
    }

    /**
     One turn of the loop of `PgOctopusWorkerMain`; the ghost result lists the tasks it stepped, in
     order. Rows that others delete are taken to go at the start of a turn.
     */
    method Turn(turn: Turn, lastReload: int) returns (reloaded: int, ghost ids: seq<int>)
      requires Valid()
      modifies this, Objects(), server
      ensures Valid() && fresh(Objects() - old(Objects())) && reloaded == ReloadTime(turn, lastReload)
      ensures CoversTable(ids, Prepared(old(View()), turn, lastReload))
      ensures View() == Execute(old(View()), TurnEvents(turn, lastReload, ids))
    {
      ghost var w := View();
      reloaded := Prepare(turn, lastReload);
      ids := LookWaitAndManage(turn);
      TurnInSteps(w, turn, lastReload, ids);
    }

    /**
     The loop of `PgOctopusWorkerMain`, as many turns as it gets before it is told to stop. All it
     does is the model's events, in the loop's order, each pass over the whole table.
     */
    method Run(turns: seq<Turn>) returns (ghost passes: seq<seq<int>>)
      requires Valid()
      modifies this, Objects(), server
      ensures Valid() && |passes| == |turns|
      ensures View() == Execute(old(View()), RunEvents(turns, passes))
      ensures WholeTables(old(View()), turns, passes)
      ensures Inv(old(View())) ==> Inv(View())
    {
      ghost var w := View();
      passes := [];
      var lastReload := 0;
      NoTurns(w, turns);
      for i := 0 to |turns|
        invariant Valid() && fresh(Objects() - old(Objects())) && RunSoFar(w, View(), turns, i, passes, lastReload)
      {
        ghost var before, ids := View(), [];
        ghost var reloadedBefore := lastReload;
        lastReload, ids := Turn(turns[i], lastReload);
        OneMoreTurn(w, before, turns, i, passes, reloadedBefore, ids);
        passes := passes + [ids];
      }
      AllTurns(w, View(), turns, passes, lastReload);
    }
  }

  // ---- Turns of the main loop as events ----

  /** What one turn of the loop meets: deleted rows, the clock three times, the job rows, sockets and libpq's answers. */
  datatype Turn = Turn(
    gone: set<int>, invalidated: bool, now: int, rows: seq<JobRow>, entries: int -> Task,
    waitTime: int, bad: set<int>, ready: set<int>,
    later: int, answers: int -> Answers, statementTimeoutMs: int)

  /** The job cache is stale: invalidated since the last reload, never loaded, or a minute old. */
  predicate NeedsReload(turn: Turn, lastReload: int) {
    turn.invalidated || lastReload == 0 || TimestampDifferenceExceeds(lastReload, turn.now, RELOAD_MS)
  }

  /** A minute is sixty seconds of the clock since the last reload. */
  lemma ReloadsWhenStale(turn: Turn, lastReload: int)
    ensures NeedsReload(turn, lastReload) <==> turn.invalidated || lastReload == 0 || turn.now >= lastReload + 60_000_000
  {
  }

  function ReloadTime(turn: Turn, lastReload: int): int {
    if NeedsReload(turn, lastReload) then turn.now else lastReload
  }

  /** The events of one turn, in the loop's order. */
  function TurnEvents(turn: Turn, lastReload: int, ids: seq<int>): seq<Event> {
    [RowsDeleted(turn.gone)] +
    (if NeedsReload(turn, lastReload) then [Reloaded(turn.rows, turn.entries)] else []) +
    [Polled(turn.now), Waited(turn.waitTime, turn.bad, turn.ready),
     Managed(ids, turn.answers, turn.later, turn.statementTimeoutMs)]
  }

  /** The state in which a turn lists the table. */
  ghost function Prepared(w: World, turn: Turn, lastReload: int): World {
    var kept := DeleteRows(w, turn.gone);
    if NeedsReload(turn, lastReload) then Reload(kept, turn.rows, turn.entries) else kept
  }

  function LastReload(turns: seq<Turn>): int {
    if turns == [] then 0 else ReloadTime(turns[|turns| - 1], LastReload(turns[..|turns| - 1]))
  }

  function RunEvents(turns: seq<Turn>, passes: seq<seq<int>>): seq<Event>
    requires |passes| == |turns|
  {
    if turns == [] then []
    else
      var n := |turns| - 1;
      RunEvents(turns[..n], passes[..n]) + TurnEvents(turns[n], LastReload(turns[..n]), passes[n])
  }

  /** The `i`-th turn looked at every task once. */
  ghost predicate WholeTable(w: World, turns: seq<Turn>, passes: seq<seq<int>>, i: int)
    requires |passes| == |turns| && 0 <= i < |turns|
  {
    CoversTable(passes[i], Prepared(Execute(w, RunEvents(turns[..i], passes[..i])), turns[i], LastReload(turns[..i])))
  }

  ghost predicate WholeTables(w: World, turns: seq<Turn>, passes: seq<seq<int>>)
    requires |passes| == |turns|
  {
    forall i :: 0 <= i < |turns| ==> WholeTable(w, turns, passes, i)
  }

  lemma {:induction false} ExecuteInTwo(w: World, a: seq<Event>, b: seq<Event>)
    ensures Execute(w, a + b) == Execute(Execute(w, a), b)
  {
    if b == [] {
      assert a + b == a;
    } else {
      var n := |b| - 1;
      ExecuteInTwo(w, a, b[..n]);
      assert (a + b)[..|a + b| - 1] == a + b[..n];
    }
  }

  lemma OneEvent(w: World, e: Event)
    ensures Execute(w, [e]) == Step(w, e)
  {
    OneMoreEvent(w, [], e);
    assert [] + [e] == [e];
  }

  lemma TurnInSteps(w: World, turn: Turn, lastReload: int, ids: seq<int>)
    ensures Execute(w, TurnEvents(turn, lastReload, ids)) ==
            ManageAll(Wait(Poll(Prepared(w, turn, lastReload), turn.now), turn.waitTime, turn.bad, turn.ready),
                      ids, turn.answers, turn.later, turn.statementTimeoutMs)
  {
    var deleted, reloaded := [RowsDeleted(turn.gone)], [Reloaded(turn.rows, turn.entries)];
    var prepared := if NeedsReload(turn, lastReload) then deleted + reloaded else deleted;
    OneEvent(w, deleted[0]);
    OneEvent(DeleteRows(w, turn.gone), reloaded[0]);
    ExecuteInTwo(w, deleted, reloaded);
    ThreeEvents(w, prepared, Polled(turn.now), Waited(turn.waitTime, turn.bad, turn.ready),
                Managed(ids, turn.answers, turn.later, turn.statementTimeoutMs));
    assert deleted + [] == deleted;
  }

  /** `now` is where the first `i` turns lead from `w`. */
  ghost predicate RunSoFar(w: World, now: World, turns: seq<Turn>, i: nat, passes: seq<seq<int>>, lastReload: int)
    requires i <= |turns|
  {
    |passes| == i && lastReload == LastReload(turns[..i]) && now == Execute(w, RunEvents(turns[..i], passes)) &&
    WholeTables(w, turns[..i], passes)
  }

  lemma NoTurns(w: World, turns: seq<Turn>)
    ensures RunSoFar(w, w, turns, 0, [], 0)
  {
  }

  lemma AllTurns(w: World, now: World, turns: seq<Turn>, passes: seq<seq<int>>, lastReload: int)
    requires RunSoFar(w, now, turns, |turns|, passes, lastReload)
    ensures |passes| == |turns| && now == Execute(w, RunEvents(turns, passes)) && WholeTables(w, turns, passes)
    ensures Inv(w) ==> Inv(now)
  {
    assert turns[..|turns|] == turns;
    if Inv(w) {
      EveryRunKeeps(w, RunEvents(turns, passes));
    }
  }

  /** What a run says of its first turns stays true when it goes on. */
  lemma OneMoreTurn(w: World, now: World, turns: seq<Turn>, i: nat, passes: seq<seq<int>>, lastReload: int, ids: seq<int>)
    requires i < |turns| && RunSoFar(w, now, turns, i, passes, lastReload)
    requires CoversTable(ids, Prepared(now, turns[i], lastReload))
    ensures RunSoFar(w, Execute(now, TurnEvents(turns[i], lastReload, ids)), turns, i + 1, passes + [ids],
                     ReloadTime(turns[i], lastReload))
  {
    var longer, further := passes + [ids], turns[..i + 1];
    assert further[..i] == turns[..i] && longer[..i] == passes;
    ExecuteInTwo(w, RunEvents(turns[..i], passes), TurnEvents(turns[i], lastReload, ids));
    forall j | 0 <= j < |further| ensures WholeTable(w, further, longer, j) {
      assert further[..j] == turns[..i][..j] && longer[..j] == passes[..j];
      if j < i {
        assert WholeTable(w, turns[..i], passes, j);
      }
    }
  }

  /** The clock after the wait reads after 2000, and the configured timeout is not negative. */
  predicate Timed(turns: seq<Turn>) {
    forall i :: 0 <= i < |turns| ==> turns[i].later > 0 && turns[i].statementTimeoutMs >= 0
  }

  lemma {:induction false} RunEventsTimed(turns: seq<Turn>, passes: seq<seq<int>>)
    requires |passes| == |turns| && Timed(turns)
    ensures forall e :: e in RunEvents(turns, passes) ==> TimedEvent(e)
  {
    if turns != [] {
      RunEventsTimed(turns[..|turns| - 1], passes[..|turns| - 1]);
    }
  }

  lemma PreparedHasDeadlines(w: World, turn: Turn, lastReload: int)
    requires AllHaveDeadlines(w)
    ensures AllHaveDeadlines(Prepared(w, turn, lastReload))
  {
    var kept := DeleteRows(w, turn.gone);
    ReloadKeepsDeadlines(kept, turn.rows, turn.entries);
  }

  lemma LookAndWaitHaveDeadlines(w: World, turn: Turn)
    requires AllHaveDeadlines(w)
    ensures AllHaveDeadlines(Wait(Poll(w, turn.now), turn.waitTime, turn.bad, turn.ready))
  {
    PollKeepsDeadlines(w, turn.now);
    WaitKeepsDeadlines(Poll(w, turn.now), turn.waitTime, turn.bad, turn.ready);
  }

  /** Deadline safety of the loop: each turn with a positive statement timeout ends with no task overdue. */
  lemma LoopMeetsDeadlines(turns: seq<Turn>, passes: seq<seq<int>>)
    requires |passes| == |turns| > 0 && WholeTables(EMPTY_WORLD, turns, passes) && Timed(turns)
    requires turns[|turns| - 1].statementTimeoutMs > 0
    ensures var w := Execute(EMPTY_WORLD, RunEvents(turns, passes));
            NoneOverdue(w, turns[|turns| - 1].later)
  {
    var n := |turns| - 1;
    var turn, lastReload := turns[n], LastReload(turns[..n]);
    var before := Execute(EMPTY_WORLD, RunEvents(turns[..n], passes[..n]));
    assert WholeTable(EMPTY_WORLD, turns, passes, n);
    RunEventsTimed(turns[..n], passes[..n]);
    RunKeepsDeadlines(EMPTY_WORLD, RunEvents(turns[..n], passes[..n]));
    PreparedHasDeadlines(before, turn, lastReload);
    LookAndWaitHaveDeadlines(Prepared(before, turn, lastReload), turn);
    ExecuteInTwo(EMPTY_WORLD, RunEvents(turns[..n], passes[..n]), TurnEvents(turn, lastReload, passes[n]));
    TurnInSteps(before, turn, lastReload, passes[n]);
    var waited := Wait(Poll(Prepared(before, turn, lastReload), turn.now), turn.waitTime, turn.bad, turn.ready);
    FullPassMeetsDeadlines(waited, passes[n], turn.answers, turn.later, turn.statementTimeoutMs);
  }

  lemma Regroup<T>(a: seq<T>, b: seq<T>, c: seq<T>)
    ensures a + (b + c) == a + b + c
  {
  }
}
