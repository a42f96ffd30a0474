/**
 One run of a job as src/nedo_cron.c drives it, on values: the task, the outside world it writes
 to (run rows of src/cron_sql.c, libpq connections), and one step of its state machine.
 The answers of libpq are an input of each step.
 */
module TaskMachine {
  import opened Options
  import opened CronTime

  const TASK_TIMEOUT_MS := 10000
  const MAX_PENDING_TASKS := 20

  datatype TaskState = Waiting | Start | Connecting | Sending | Running | Done | Error

  /** `PostgresPollingStatusType`; its zero is `PollFailed`. */
  datatype Polling = PollFailed | PollReading | PollWriting | PollOk | PollActive

  /** `status` of a run row: 'starting', 'running', 'succeeded', 'failed', 'timeout'. */
  datatype RunStatus = Starting | Executing | Succeeded | Failed | Timeout

  /** `CronTask`; run id 0 and connection 0 stand for none. */
  datatype Task = Task(
    jobId: int, runId: int, state: TaskState, polling: Polling, pendingRunCount: int,
    startDeadline: int, nextRunTime: int, runDeadline: int, conn: int, errorMessage: Option<string>,
    isActive: bool, isSocketReady: bool, timedOut: bool, cancelRequested: bool)

  /** A result set of the query, as `PQgetResult` hands it out. */
  datatype QueryResult =
    | TuplesOk
    | CommandOk
    | Faulty(sqlState: Option<string>, message: string)
    | Copying
    | OtherResult

  /** What libpq answers during one step. */
  datatype Answers = Answers(
    connectStarted: bool, nonblockingSet: bool, connectionBad: bool, errorText: string,
    poll: Polling, backendPid: int, querySent: bool,
    cancelHandle: bool, cancelSent: bool, cancelError: string,
    inputConsumed: bool, busy: bool, results: seq<QueryResult>)

  // ---- The outside world, with its history ----

  /** A row of nedo_cron.job_run_details. */
  datatype Row = Row(jobId: int, status: RunStatus, pid: Option<int>, message: Option<string>)

  /** The history of a run: was its query sent, how often cancelled, which final updates were made. */
  datatype Run = Run(jobId: int, sent: bool, cancels: nat, finals: seq<RunStatus>)

  datatype Conn = Conn(jobId: int, closes: nat)

  /**
   The history of a job id, across removal and re-creation of its task: minutes at which the
   minute schedule added a run, due points of the seconds schedule and the runs they added, runs
   moved to Start, cut at Done, dropped with a removed task, and given up in Start.
   */
  datatype Account = Account(
    fires: seq<int>, points: seq<int>, ticks: nat, moved: nat, cut: nat, dropped: nat, abandoned: nat)

  const NEW_ACCOUNT := Account([], [], 0, 0, 0, 0, 0)

  datatype Ledger = Ledger(
    rows: map<int, Row>, runs: map<int, Run>, conns: map<int, Conn>, accounts: map<int, Account>,
    nextRun: int, nextConn: int)

  const EMPTY_LEDGER := Ledger(map[], map[], map[], map[], 1, 1)

  function AccountOf(l: Ledger, k: int): Account {
    if k in l.accounts then l.accounts[k] else NEW_ACCOUNT
  }

  function Post(l: Ledger, k: int, a: Account): Ledger {
    l.(accounts := l.accounts[k := a])
  }

  /** `InsertRunDetailsStart`: the row and its run id, drawn from the table's sequence. */
  function InsertRun(l: Ledger, jobId: int): Ledger {
    l.(rows := l.rows[l.nextRun := Row(jobId, Starting, None, None)],
       runs := l.runs[l.nextRun := Run(jobId, false, 0, [])],
       nextRun := l.nextRun + 1)
  }

  /** `UpdatePID`: a row that has been deleted meanwhile stays deleted. */
  function UpdatePid(l: Ledger, runId: int, pid: int): Ledger {
    if pid == 0 || runId !in l.rows then l
    else l.(rows := l.rows[runId := l.rows[runId].(status := Executing, pid := Some(pid))])
  }

  /** `UpdateRunDetailsFinish` */
  function FinishRun(l: Ledger, runId: int, status: RunStatus, message: Option<string>): Ledger {
    var noted := if runId !in l.runs then l
                 else l.(runs := l.runs[runId := l.runs[runId].(finals := l.runs[runId].finals + [status])]);
    if runId !in l.rows then noted
    else noted.(rows := l.rows[runId := l.rows[runId].(status := status, message := message)])
  }

  function MarkSent(l: Ledger, runId: int): Ledger {
    if runId !in l.runs then l else l.(runs := l.runs[runId := l.runs[runId].(sent := true)])
  }

  function MarkCancel(l: Ledger, runId: int): Ledger {
    if runId !in l.runs then l
    else l.(runs := l.runs[runId := l.runs[runId].(cancels := l.runs[runId].cancels + 1)])
  }

  function OpenConn(l: Ledger, jobId: int): Ledger {
    l.(conns := l.conns[l.nextConn := Conn(jobId, 0)], nextConn := l.nextConn + 1)
  }

  /** `PQfinish` */
  function CloseConn(l: Ledger, conn: int): Ledger {
    if conn !in l.conns then l else l.(conns := l.conns[conn := l.conns[conn].(closes := l.conns[conn].closes + 1)])
  }

  // ---- The state machine ----

  /** What becomes of a task and the world in one step; a removed task is `None`. */
  datatype Outcome = Outcome(task: Option<Task>, ledger: Ledger)

  /** `InitCronTask` on a fresh table entry: polling status and start deadline keep what they held. */
  function InitTask(entry: Task, jobId: int): Task {
    entry.(runId := 0, jobId := jobId, state := Waiting, pendingRunCount := 0, conn := 0, isActive := true,
           errorMessage := None, isSocketReady := false, nextRunTime := 0, runDeadline := 0,
           cancelRequested := false, timedOut := false)
  }

  /** `ResetCronTaskAfterRun` */
  function ResetTask(t: Task): Task {
    t.(runId := 0, state := Waiting, polling := PollFailed, startDeadline := 0, conn := 0, errorMessage := None,
       isSocketReady := false, runDeadline := 0, cancelRequested := false, timedOut := false)
  }

  /** `SetTaskError` never stores an empty text. */
  function ErrorText(message: string): string {
    if message == "" then "unknown error, message text = '\\0'" else message
  }

  /** The move to Error that every failing branch makes. */
  function FailTask(t: Task, message: string): Task {
    t.(state := Error, polling := PollFailed, errorMessage := Some(ErrorText(message)))
  }

  function RemoveTask(t: Task, l: Ledger): Outcome {
    var a := AccountOf(l, t.jobId);
    Outcome(None, Post(l, t.jobId, a.(dropped := a.dropped + if t.pendingRunCount > 0 then t.pendingRunCount else 0)))
  }

  function ManageWaiting(t: Task, l: Ledger): Outcome {
    if !t.isActive then RemoveTask(t, l)
    else if t.pendingRunCount == 0 then Outcome(Some(t), l)
    else
      var a := AccountOf(l, t.jobId);
      Outcome(Some(t.(pendingRunCount := t.pendingRunCount - 1, state := Start)),
              Post(l, t.jobId, a.(moved := a.moved + 1)))
  }

  function ManageStart(t: Task, l: Ledger, a: Answers, now: int): Outcome {
    var inserted := InsertRun(l, t.jobId);
    var t1 := t.(runId := l.nextRun);
    if !a.connectStarted then Outcome(Some(FailTask(t1, "PQconnectStartParams returned NULL")), inserted)
    else
      var linked := OpenConn(inserted, t.jobId);
      var t2 := t1.(conn := l.nextConn);
      if !a.nonblockingSet then Outcome(Some(FailTask(t2, a.errorText)), linked)
      else if a.connectionBad then Outcome(Some(FailTask(t2, a.errorText)), linked)
      else Outcome(Some(t2.(startDeadline := PlusMilliseconds(now, TASK_TIMEOUT_MS), polling := PollWriting, state := Connecting)), linked)
  }

  function ManageConnecting(t: Task, l: Ledger, a: Answers, now: int): Outcome {
    if !t.isActive then Outcome(Some(FailTask(t, "job has been removed")), l)
    else if TimestampDifferenceExceeds(t.startDeadline, now, 0) then Outcome(Some(FailTask(t, "timeout reached")), l)
    else if a.connectionBad then Outcome(Some(FailTask(t, a.errorText)), l)
    else if !t.isSocketReady then Outcome(Some(t), l)
    else if a.poll == PollOk then
      Outcome(Some(t.(polling := PollWriting, state := Sending)), UpdatePid(l, t.runId, a.backendPid))
    else if a.poll == PollFailed then Outcome(Some(FailTask(t, a.errorText)), l)
    else Outcome(Some(t.(polling := a.poll)), l)
  }

  function ManageSending(t: Task, l: Ledger, a: Answers, now: int, timeoutMs: int): Outcome {
    if !t.isActive then Outcome(Some(FailTask(t, "job has been removed")), l)
    else if TimestampDifferenceExceeds(t.startDeadline, now, 0) then Outcome(Some(FailTask(t, "timeout reached")), l)
    else if a.connectionBad then Outcome(Some(FailTask(t, a.errorText)), l)
    else if !t.isSocketReady then Outcome(Some(t), l)
    else if a.querySent then
      Outcome(Some(t.(polling := PollReading, state := Running, startDeadline := 0,
                      runDeadline := PlusMilliseconds(now, timeoutMs), cancelRequested := false, timedOut := false)),
              MarkSent(l, t.runId))
    else Outcome(Some(FailTask(t, a.errorText)), l)
  }

  predicate RunTimeoutReached(t: Task, now: int) {
    TimestampDifferenceExceeds(t.runDeadline, now, 0) && t.runDeadline != 0 && !t.cancelRequested
  }

  /** The marks a cancel request leaves, whether it could be sent or not. */
  function MarkCancelled(t: Task): Task {
    t.(cancelRequested := true, timedOut := true, runDeadline := 0)
  }

  /** After a cancel that was sent, the task waits for the server's answer. */
  function AwaitCancel(t: Task): Task {
    MarkCancelled(t).(polling := PollReading)
  }

  function ManageRunning(t: Task, l: Ledger, a: Answers, now: int): Outcome {
    if !t.isActive then Outcome(Some(FailTask(t, "job has been removed")), l)
    else if a.connectionBad then Outcome(Some(FailTask(t, a.errorText)), l)
    else if RunTimeoutReached(t, now) then
      if !a.cancelHandle then
        Outcome(Some(FailTask(t.(timedOut := true), "could not cancel timed out job: PQgetCancel returned NULL")), l)
      else
        if !a.cancelSent then
          Outcome(Some(FailTask(MarkCancelled(t), "could not cancel timed out job: " + a.cancelError)), MarkCancel(l, t.runId))
        else ReadRunning(AwaitCancel(t), MarkCancel(l, t.runId), a)
    else ReadRunning(t, l, a)
  }

  /** The loop over result sets: the first faulty one decides, and ends the reading. */
  function ReadResults(t: Task, results: seq<QueryResult>): Task {
    if results == [] then t
    else
      match results[0]
      case Faulty(sqlState, message) =>
        FailTask(if sqlState == Some("57014") then t.(timedOut := true) else t, message)
      case Copying => FailTask(t, "COPY not supported")
      case _ => ReadResults(t, results[1..])
  }

  /** The ledger once the task's connection, if any, is finished. */
  function CloseTask(t: Task, l: Ledger): Ledger {
    if t.conn != 0 then CloseConn(l, t.conn) else l
  }

  function ReadRunning(t: Task, l: Ledger, a: Answers): Outcome {
    if !t.isSocketReady then Outcome(Some(t), l)
    else if !a.inputConsumed then Outcome(Some(FailTask(t, a.errorText)), l)
    else if a.busy then Outcome(Some(t), l)
    else
      var read := ReadResults(t, a.results);
      var closed := CloseTask(t, l);
      var ended := read.(conn := 0, polling := PollFailed, isSocketReady := false);
      if ended.state == Error then Outcome(Some(ended), closed)
      else Outcome(Some(ended.(state := Done)), FinishRun(closed, t.runId, Succeeded, Some("OK")))
  }

  /** The status of a run that went to Error. */
  function ErrorStatus(t: Task): RunStatus {
    if t.timedOut then Timeout else Failed
  }

  /** The ledger once the task's run, if any, is finalised. */
  function FinishError(t: Task, l: Ledger): Ledger {
    if t.runId != 0 then FinishRun(l, t.runId, ErrorStatus(t), t.errorMessage) else l
  }

  function EndError(t: Task): Task {
    t.(state := Done, polling := PollFailed, startDeadline := 0, runDeadline := 0,
       cancelRequested := false, isSocketReady := false)
  }

  function ManageError(t: Task, l: Ledger): Outcome {
    var closed := CloseTask(t, FinishError(t, l));
    var t1 := t.(runId := 0, conn := 0);
    if !t.isActive then RemoveTask(t1, closed) else Outcome(Some(EndError(t1)), closed)
  }

  /** The queue of one job is cut to its limit. */
  function CutQueue(t: Task): Task {
    if t.pendingRunCount > MAX_PENDING_TASKS then t.(pendingRunCount := MAX_PENDING_TASKS) else t
  }

  function PostCut(t: Task, l: Ledger): Ledger {
    var a := AccountOf(l, t.jobId);
    if t.pendingRunCount > MAX_PENDING_TASKS
    then Post(l, t.jobId, a.(cut := a.cut + t.pendingRunCount - MAX_PENDING_TASKS))
    else l
  }

  function ManageDone(t: Task, l: Ledger): Outcome {
    Outcome(Some(ResetTask(CutQueue(t))), PostCut(t, l))
  }

  /** A task whose job is gone is sent to the Error case of the same step, unless it is Done. */
  function LoseJob(t: Task, l: Ledger): (Task, Ledger) {
    var a := AccountOf(l, t.jobId);
    (t.(state := Error, errorMessage := Some("job metadata not found")),
     if t.state == Start then Post(l, t.jobId, a.(abandoned := a.abandoned + 1)) else l)
  }

  /** `ManageCronTask` */
  function Manage(t: Task, jobLoaded: bool, l: Ledger, a: Answers, now: int, timeoutMs: int): Outcome {
    if !jobLoaded && t.state != Done then
      var (t1, l1) := LoseJob(t, l);
      ManageError(t1, l1)
    else
      match t.state
      case Waiting => ManageWaiting(t, l)
      case Start => ManageStart(t, l, a, now)
      case Connecting => ManageConnecting(t, l, a, now)
      case Sending => ManageSending(t, l, a, now, timeoutMs)
      case Running => ManageRunning(t, l, a, now)
      case Error => ManageError(t, l)
      case Done => ManageDone(t, l)
  }

  // ---- Waiting for sockets, and seconds schedules ----

  predicate NeedsSocketWait(t: Task) {
    t.state == Connecting || t.state == Sending || t.state == Running
  }

  /** The marks `WaitForEvent` leaves on a task, given whether it slept and what it saw. */
  function WaitTask(t: Task, slept: bool, socketBad: bool, ready: bool): Task {
    var t1 := t.(isSocketReady := false);
    if !slept || !NeedsSocketWait(t) || (t.polling != PollReading && t.polling != PollWriting) then t1
    else if t.conn == 0 then
      t1.(state := Error, polling := PollFailed, errorMessage := Some("connection is NULL"))
    else if socketBad then
      t1.(state := Error, polling := PollReading, errorMessage := Some("connection socket < 0"))
    else t1.(isSocketReady := ready)
  }

  /** When `StartSecondIntervalTask` looks, the deadline it compares with. */
  function SecondsDeadline(t: Task, interval: int, now: int): int {
    if t.nextRunTime == 0 then PlusMilliseconds(now, 1000 * interval) else t.nextRunTime
  }

  predicate SecondsDue(t: Task, interval: int, now: int) {
    TimestampDifferenceExceeds(SecondsDeadline(t, interval, now), now, 0)
  }

  /** `StartSecondIntervalTask` */
  function SecondsTask(t: Task, interval: int, now: int): Task {
    if SecondsDue(t, interval, now) then
      t.(pendingRunCount := if t.pendingRunCount == 0 then 1 else t.pendingRunCount,
         nextRunTime := PlusMilliseconds(now, 1000 * interval))
    else t.(nextRunTime := SecondsDeadline(t, interval, now))
  }
}
