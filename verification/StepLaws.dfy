/**
 Single steps spelled out by what an observer sees of the task, its row and its socket, without
 reference to the functions that make the step.
 */
module StepLaws {
  import opened Options
  import opened TaskMachine
  import opened TaskInvariant

  // ---- The queue ----

  /** A waiting task of a loaded job moves one run to Start if it has one, and otherwise stays as it is. */
  lemma WaitingStarts(t: Task, l: Ledger, a: Answers, now: int, timeoutMs: int)
    requires t.state == Waiting && t.isActive
    ensures var o := Manage(t, true, l, a, now, timeoutMs);
            if t.pendingRunCount == 0 then o == Outcome(Some(t), l)
            else
              o.task == Some(t.(state := Start, pendingRunCount := t.pendingRunCount - 1)) &&
              o.ledger.(accounts := l.accounts) == l &&
              AccountOf(o.ledger, t.jobId) == AccountOf(l, t.jobId).(moved := AccountOf(l, t.jobId).moved + 1)
  {
  }

  /** A finished task waits again, with at most 20 runs pending and nothing left of the run. */
  lemma DoneWaits(t: Task, jobLoaded: bool, l: Ledger, a: Answers, now: int, timeoutMs: int)
    requires t.state == Done
    ensures Manage(t, jobLoaded, l, a, now, timeoutMs).task ==
            Some(Task(t.jobId, 0, Waiting, PollFailed, if t.pendingRunCount > 20 then 20 else t.pendingRunCount,
                      0, t.nextRunTime, 0, 0, None, t.isActive, false, false, false))
  {
  }

  /**
   A look at a seconds job: the first sets the due point, one before the due point changes nothing,
   one at or after it makes a run due unless one is pending, and sets the next point from the clock.
   */
  lemma SecondsLook(t: Task, n: int, now: int)
    requires n >= 1
    ensures SecondsTask(t, n, now) ==
            if t.nextRunTime == 0 then t.(nextRunTime := now + n * 1_000_000)
            else if now < t.nextRunTime then t
            else t.(nextRunTime := now + n * 1_000_000,
                    pendingRunCount := if t.pendingRunCount == 0 then 1 else t.pendingRunCount)
  {
  }

  // ---- The wait ----

  /** The wait registers the socket of this task. */
  predicate Registered(t: Task, slept: bool) {
    slept && (t.state == Connecting || t.state == Sending || t.state == Running) &&
    (t.polling == PollReading || t.polling == PollWriting)
  }

  /** After a wait exactly the tasks registered and reported are ready, and those without a good socket have failed. */
  lemma WaitMarks(t: Task, slept: bool, socketBad: bool, ready: bool)
    ensures var t' := WaitTask(t, slept, socketBad, ready);
            (t'.isSocketReady <==> Registered(t, slept) && t.conn != 0 && !socketBad && ready) &&
            if Registered(t, slept) && (t.conn == 0 || socketBad)
            then t'.state == Error && t'.errorMessage.Some? &&
                 t' == t.(state := Error, polling := t'.polling, errorMessage := t'.errorMessage, isSocketReady := false)
            else t' == t.(isSocketReady := t'.isSocketReady)
  {
  }

  // ---- Waiting on the server ----

  /** While the connection comes up, the task waits for whatever libpq says it waits for. */
  lemma StaysConnecting(t: Task, l: Ledger, a: Answers, now: int, timeoutMs: int)
    requires t.state == Connecting && t.isActive && now < t.startDeadline && !a.connectionBad
    requires t.isSocketReady ==> a.poll == PollReading || a.poll == PollWriting || a.poll == PollActive
    ensures Manage(t, true, l, a, now, timeoutMs) ==
            Outcome(Some(t.(polling := if t.isSocketReady then a.poll else t.polling)), l)
  {
  }

  /** While the server works on the query, nothing changes. */
  lemma StaysRunning(t: Task, l: Ledger, a: Answers, now: int, timeoutMs: int)
    requires t.state == Running && t.isActive && !a.connectionBad
    requires t.runDeadline == 0 || now < t.runDeadline || t.cancelRequested
    requires t.isSocketReady ==> a.inputConsumed && a.busy
    ensures Manage(t, true, l, a, now, timeoutMs) == Outcome(Some(t), l)
  {
  }

  // ---- Run rows ----

  /** A row still there becomes running with the pid; pid 0 and deleted rows change nothing. */
  lemma PidRecorded(l: Ledger, r: int, pid: int)
    ensures UpdatePid(l, r, pid) ==
            if pid == 0 || r !in l.rows then l
            else l.(rows := l.rows[r := Row(l.rows[r].jobId, Executing, Some(pid), l.rows[r].message)])
  {
  }

  /** How a run stands in the history and in its row, if the row is still there. */
  predicate EndedAs(l: Ledger, r: int, status: RunStatus, message: Option<string>) {
    r in l.runs && l.runs[r].finals == [status] &&
    (r in l.rows ==> l.rows[r].status == status && l.rows[r].message == message)
  }

  lemma FinishRecorded(l: Ledger, r: int, status: RunStatus, message: Option<string>)
    requires r in l.runs && l.runs[r].finals == []
    ensures EndedAs(FinishRun(l, r, status, message), r, status, message)
  {
    assert [] + [status] == [status];
  }

  lemma CloseKeepsRows(t: Task, l: Ledger)
    ensures CloseTask(t, l).rows == l.rows && CloseTask(t, l).runs == l.runs
  {
  }

  /** A failed task's run is recorded with its message: timeout if marked so, else failed. */
  lemma ErrorRecorded(k: int, t: Task, jobLoaded: bool, l: Ledger, a: Answers, now: int, timeoutMs: int)
    requires JobInv(k, Some(t), l) && t.state == Error && t.runId != 0 && jobLoaded
    ensures EndedAs(Manage(t, jobLoaded, l, a, now, timeoutMs).ledger, t.runId,
                    if t.timedOut then Timeout else Failed, t.errorMessage)
  {
    var finished := FinishError(t, l);
    FinishRecorded(l, t.runId, ErrorStatus(t), t.errorMessage);
    CloseKeepsRows(t, finished);
  }

  // ---- Results ----

  predicate Good(r: QueryResult) { r == TuplesOk || r == CommandOk || r == OtherResult }

  function Complaint(r: QueryResult): string
    requires !Good(r)
  {
    match r
    case Faulty(_, message) => if message == "" then "unknown error, message text = '\\0'" else message
    case Copying => "COPY not supported"
  }

  /** SQLSTATE 57014, the code of a cancelled query. */
  predicate SaysCancelled(r: QueryResult) {
    r.Faulty? && r.sqlState == Some("57014")
  }

  /** Reading stops at the first bad result, keeps its message, and notes a cancelled query. */
  lemma {:induction false} ReadStops(t: Task, results: seq<QueryResult>, i: nat)
    requires i < |results| && !Good(results[i]) && forall j :: 0 <= j < i ==> Good(results[j])
    ensures ReadResults(t, results) ==
            t.(state := Error, polling := PollFailed, errorMessage := Some(Complaint(results[i])),
               timedOut := t.timedOut || SaysCancelled(results[i]))
  {
    if i > 0 {
      assert Good(results[0]);
      assert forall j :: 0 <= j < i - 1 ==> results[1..][j] == results[j + 1];
      ReadStops(t, results[1..], i - 1);
    }
  }

  /** The run timeout is reached in a step at `now`. */
  predicate Overdue(t: Task, now: int) {
    t.runDeadline != 0 && now >= t.runDeadline && !t.cancelRequested
  }

  /** The task after a step that read a first bad result at `i`. */
  lemma FaultStep(k: int, t: Task, l: Ledger, a: Answers, now: int, timeoutMs: int, i: nat)
    requires JobInv(k, Some(t), l) && t.state == Running && t.isActive && t.isSocketReady
    requires !a.connectionBad && a.inputConsumed && !a.busy && (Overdue(t, now) ==> a.cancelHandle && a.cancelSent)
    requires i < |a.results| && !Good(a.results[i]) && forall j :: 0 <= j < i ==> Good(a.results[j])
    ensures var o := Manage(t, true, l, a, now, timeoutMs);
            o.task.Some? && o.task.value.state == Error && o.task.value.runId == t.runId && o.task.value.isActive &&
            o.task.value.errorMessage == Some(Complaint(a.results[i])) &&
            o.task.value.timedOut == (t.timedOut || Overdue(t, now) || SaysCancelled(a.results[i]))
  {
    if Overdue(t, now) {
      ReadStops(AwaitCancel(t), a.results, i);
    } else {
      ReadStops(t, a.results, i);
    }
  }

  /**
   A run whose results hold a fault is recorded in the next step, with the first fault's message:
   as timeout exactly if it was cancelled for its timeout or the fault is SQLSTATE 57014, else as failed.
   */
  lemma FaultRecorded(k: int, t: Task, l: Ledger, a: Answers, a2: Answers, now: int, now2: int, timeoutMs: int, i: nat)
    requires JobInv(k, Some(t), l) && LedgerSound(l) && t.state == Running && t.isActive && t.isSocketReady
    requires !a.connectionBad && a.inputConsumed && !a.busy && (Overdue(t, now) ==> a.cancelHandle && a.cancelSent)
    requires i < |a.results| && !Good(a.results[i]) && forall j :: 0 <= j < i ==> Good(a.results[j])
    ensures var o := Manage(t, true, l, a, now, timeoutMs);
            o.task.Some? &&
            EndedAs(Manage(o.task.value, true, o.ledger, a2, now2, timeoutMs).ledger, t.runId,
                    if t.timedOut || Overdue(t, now) || SaysCancelled(a.results[i]) then Timeout else Failed,
                    Some(Complaint(a.results[i])))
  {
    var o := Manage(t, true, l, a, now, timeoutMs);
    FaultStep(k, t, l, a, now, timeoutMs, i);
    ManageKeeps(k, t, true, l, a, now, timeoutMs);
    ErrorRecorded(k, o.task.value, true, o.ledger, a2, now2, timeoutMs);
  }

  /** What libpq says of a broken connection, as it is recorded. */
  function LostText(a: Answers): string {
    if a.errorText == "" then "unknown error, message text = '\\0'" else a.errorText
  }

  /** A connection lost before the deadline fails the task at once, with libpq's message. */
  lemma LostConnection(t: Task, l: Ledger, a: Answers, now: int, timeoutMs: int)
    requires (t.state == Connecting || t.state == Sending || t.state == Running) && t.isActive && a.connectionBad
    requires t.state != Running ==> now < t.startDeadline
    ensures Manage(t, true, l, a, now, timeoutMs) ==
            Outcome(Some(t.(state := Error, polling := PollFailed, errorMessage := Some(LostText(a)))), l)
  {
  }

  /** And the next step records it. */
  lemma LostConnectionRecorded(k: int, t: Task, l: Ledger, a: Answers, a2: Answers, now: int, now2: int, timeoutMs: int)
    requires JobInv(k, Some(t), l) && LedgerSound(l)
    requires (t.state == Connecting || t.state == Sending || t.state == Running) && t.isActive && a.connectionBad
    requires t.state != Running ==> now < t.startDeadline
    ensures var o := Manage(t, true, l, a, now, timeoutMs);
            o.task.Some? &&
            EndedAs(Manage(o.task.value, true, o.ledger, a2, now2, timeoutMs).ledger, t.runId,
                    if t.timedOut then Timeout else Failed, Some(LostText(a)))
  {
    var o := Manage(t, true, l, a, now, timeoutMs);
    LostConnection(t, l, a, now, timeoutMs);
    ManageKeeps(k, t, true, l, a, now, timeoutMs);
    ErrorRecorded(k, o.task.value, true, o.ledger, a2, now2, timeoutMs);
  }

  /** A connection not up, or a query not out, by the start deadline fails the run: never as a timeout. */
  lemma LateStartRecorded(k: int, t: Task, l: Ledger, a: Answers, a2: Answers, now: int, now2: int, timeoutMs: int)
    requires JobInv(k, Some(t), l) && LedgerSound(l)
    requires (t.state == Connecting || t.state == Sending) && t.isActive && now >= t.startDeadline
    ensures var o := Manage(t, true, l, a, now, timeoutMs);
            o.task.Some? &&
            EndedAs(Manage(o.task.value, true, o.ledger, a2, now2, timeoutMs).ledger, t.runId, Failed, Some("timeout reached"))
  {
    var o := Manage(t, true, l, a, now, timeoutMs);
    assert o.task == Some(FailTask(t, "timeout reached"));
    ManageKeeps(k, t, true, l, a, now, timeoutMs);
    ErrorRecorded(k, o.task.value, true, o.ledger, a2, now2, timeoutMs);
  }

  /** Whatever else libpq refuses in time fails the task at once, with libpq's message. */
  lemma RefusalFails(t: Task, l: Ledger, a: Answers, now: int, timeoutMs: int)
    requires t.isActive && t.isSocketReady && !a.connectionBad
    requires (t.state == Connecting && now < t.startDeadline && a.poll == PollFailed) ||
             (t.state == Sending && now < t.startDeadline && !a.querySent) ||
             (t.state == Running && !Overdue(t, now) && !a.inputConsumed)
    ensures Manage(t, true, l, a, now, timeoutMs) ==
            Outcome(Some(t.(state := Error, polling := PollFailed, errorMessage := Some(LostText(a)))), l)
  {
  }

  /** A connection that cannot even be started leaves its new run to be recorded as failed, with the reason. */
  lemma FailedStartRecorded(k: int, t: Task, l: Ledger, a: Answers, a2: Answers, now: int, now2: int, timeoutMs: int)
    requires JobInv(k, Some(t), l) && LedgerSound(l) && t.state == Start && t.isActive
    requires !a.connectStarted || !a.nonblockingSet || a.connectionBad
    ensures var o := Manage(t, true, l, a, now, timeoutMs);
            o.task.Some? &&
            EndedAs(Manage(o.task.value, true, o.ledger, a2, now2, timeoutMs).ledger, l.nextRun, Failed,
                    Some(if a.connectStarted then LostText(a) else "PQconnectStartParams returned NULL"))
  {
    var o := Manage(t, true, l, a, now, timeoutMs);
    StartFails(t, l, a, now, timeoutMs);
    ManageKeeps(k, t, true, l, a, now, timeoutMs);
    ErrorRecorded(k, o.task.value, true, o.ledger, a2, now2, timeoutMs);
  }

  lemma StartFails(t: Task, l: Ledger, a: Answers, now: int, timeoutMs: int)
    requires LedgerSound(l) && t.state == Start && t.isActive && (!a.connectStarted || !a.nonblockingSet || a.connectionBad)
    ensures var o := Manage(t, true, l, a, now, timeoutMs);
            o.task.Some? && o.task.value.state == Error && o.task.value.runId == l.nextRun != 0 && o.task.value.isActive &&
            o.task.value.timedOut == t.timedOut &&
            o.task.value.errorMessage == Some(if a.connectStarted then LostText(a) else "PQconnectStartParams returned NULL")
  {
  }

  // ---- Cancelling ----

  /** A step past the run deadline cancels the query and, with nothing to read yet, waits for the server. */
  lemma CancelWaits(t: Task, l: Ledger, a: Answers, now: int, timeoutMs: int)
    requires t.state == Running && t.isActive && !a.connectionBad && Overdue(t, now) && !t.isSocketReady
    requires a.cancelHandle && a.cancelSent && t.runId in l.runs
    ensures Manage(t, true, l, a, now, timeoutMs) ==
            Outcome(Some(t.(cancelRequested := true, timedOut := true, runDeadline := 0, polling := PollReading)),
                    l.(runs := l.runs[t.runId := l.runs[t.runId].(cancels := l.runs[t.runId].cancels + 1)]))
  {
  }

  /** A cancel that fails ends the run as a timeout, with the reason. */
  lemma FailedCancelRecorded(k: int, t: Task, l: Ledger, a: Answers, a2: Answers, now: int, now2: int, timeoutMs: int)
    requires JobInv(k, Some(t), l) && LedgerSound(l)
    requires t.state == Running && t.isActive && !a.connectionBad && Overdue(t, now) && (!a.cancelHandle || !a.cancelSent)
    ensures var o := Manage(t, true, l, a, now, timeoutMs);
            o.task.Some? &&
            EndedAs(Manage(o.task.value, true, o.ledger, a2, now2, timeoutMs).ledger, t.runId, Timeout,
                    Some("could not cancel timed out job: " + if a.cancelHandle then a.cancelError else "PQgetCancel returned NULL"))
  {
    var o := Manage(t, true, l, a, now, timeoutMs);
    CancelFails(t, l, a, now, timeoutMs);
    ManageKeeps(k, t, true, l, a, now, timeoutMs);
    ErrorRecorded(k, o.task.value, true, o.ledger, a2, now2, timeoutMs);
  }

  lemma CancelFails(t: Task, l: Ledger, a: Answers, now: int, timeoutMs: int)
    requires t.state == Running && t.isActive && !a.connectionBad && Overdue(t, now) && (!a.cancelHandle || !a.cancelSent)
    ensures var o := Manage(t, true, l, a, now, timeoutMs);
            o.task.Some? && o.task.value.state == Error && o.task.value.runId == t.runId && o.task.value.isActive &&
            o.task.value.timedOut &&
            o.task.value.errorMessage ==
            Some("could not cancel timed out job: " + if a.cancelHandle then a.cancelError else "PQgetCancel returned NULL")
  {
    assert "could not cancel timed out job: " + "PQgetCancel returned NULL" ==
           "could not cancel timed out job: PQgetCancel returned NULL";
  }
}
