/**
 What every step of a task keeps true of its job, whatever libpq answers and whatever the clock
 shows. The invariant speaks of one job id only, so other jobs keep theirs by framing.
 */
module TaskInvariant {
  import opened Options
  import opened CronTime
  import opened TaskMachine

  /** A run is open from its insertion until a final status is written for it. */
  predicate Open(t: Task) { t.runId != 0 && t.state != Done }

  function RunsOf(l: Ledger, k: int): set<int> {
    set r | r in l.runs && l.runs[r].jobId == k
  }

  predicate IsFinal(s: RunStatus) { s == Succeeded || s == Failed || s == Timeout }

  /** A row agrees with its run: unfinished, or ended with the one final status and a message. */
  ghost predicate RowAgrees(row: Row, run: Run) {
    row.jobId == run.jobId &&
    if run.finals == [] then row.status == Starting || row.status == Executing
    else row.status == run.finals[0] && row.message.Some?
  }

  /**
   A run is finalised at most once and cancelled at most once; a success or a timeout is recorded
   only after its query was sent.
   */
  ghost predicate RunSound(l: Ledger, r: int)
    requires r in l.runs
  {
    var run := l.runs[r];
    |run.finals| <= 1 && run.cancels <= 1 && (run.cancels == 1 ==> run.sent) &&
    (run.finals != [] ==> IsFinal(run.finals[0]) && (run.finals[0] != Failed ==> run.sent)) &&
    (r in l.rows ==> RowAgrees(l.rows[r], run))
  }

  ghost predicate LedgerSound(l: Ledger) {
    l.nextRun > 0 && l.nextConn > 0 &&
    (forall r :: r in l.runs ==> 0 < r < l.nextRun) &&
    (forall c :: c in l.conns ==> 0 < c < l.nextConn) &&
    l.rows.Keys <= l.runs.Keys
  }

  /** The facts about a task in a given state. */
  ghost predicate TaskSound(k: int, t: Task, l: Ledger) {
    t.jobId == k && t.pendingRunCount >= 0 &&
    (t.runId != 0 ==> t.runId in l.runs && l.runs[t.runId].jobId == k) &&
    (Open(t) ==> l.runs[t.runId].finals == []) &&
    (t.conn != 0 ==> t.conn in l.conns && l.conns[t.conn] == Conn(k, 0)) &&
    (NeedsSocketWait(t) ==> t.runId != 0 && t.conn != 0) &&
    (t.state == Waiting || t.state == Start ==> t.runId == 0) &&
    (t.state == Waiting || t.state == Start || t.state == Done ==> t.conn == 0) &&
    (t.state == Error ==> t.errorMessage.Some?) &&
    (t.timedOut ==> t.state == Running || t.state == Error || t.state == Done) &&
    (t.timedOut && t.runId != 0 ==> l.runs[t.runId].sent) &&
    (t.state == Connecting || t.state == Sending ==> !l.runs[t.runId].sent) &&
    (t.state == Running ==> l.runs[t.runId].sent && (!t.cancelRequested ==> l.runs[t.runId].cancels == 0))
  }

  ghost predicate RunsSound(k: int, t: Option<Task>, l: Ledger) {
    forall r :: r in l.runs && l.runs[r].jobId == k ==>
      RunSound(l, r) && (l.runs[r].finals == [] ==> t.Some? && Open(t.value) && t.value.runId == r)
  }

  ghost predicate ConnsSound(k: int, t: Option<Task>, l: Ledger) {
    forall c :: c in l.conns && l.conns[c].jobId == k ==>
      l.conns[c].closes <= 1 && (l.conns[c].closes == 0 ==> t.Some? && t.value.conn == c)
  }

  /** Runs made due are moved to Start, still pending, cut or dropped; runs moved are inserted or given up. */
  ghost predicate Balanced(k: int, t: Option<Task>, l: Ledger) {
    var a := AccountOf(l, k);
    |a.fires| + a.ticks == a.moved + (if t.Some? then t.value.pendingRunCount else 0) + a.cut + a.dropped &&
    a.moved == |RunsOf(l, k)| + (if t.Some? && t.value.state == Start then 1 else 0) + a.abandoned
  }

  ghost predicate JobInv(k: int, t: Option<Task>, l: Ledger) {
    (t.Some? ==> TaskSound(k, t.value, l)) && RunsSound(k, t, l) && ConnsSound(k, t, l) && Balanced(k, t, l)
  }

  /** A step of job `k` leaves every other job's runs, connections, rows and account alone. */
  ghost predicate RunsFrame(k: int, l: Ledger, l': Ledger) {
    (forall r :: r in l.runs ==> r in l'.runs && l'.runs[r].jobId == l.runs[r].jobId) &&
    (forall r :: r in l'.runs && l'.runs[r].jobId != k ==> r in l.runs && SameRun(l, l', r))
  }

  predicate SameRun(l: Ledger, l': Ledger, r: int)
    requires r in l.runs && r in l'.runs
  {
    l'.runs[r] == l.runs[r] && (r in l'.rows <==> r in l.rows) && (r in l.rows ==> l'.rows[r] == l.rows[r])
  }

  ghost predicate ConnsFrame(k: int, l: Ledger, l': Ledger) {
    (forall c :: c in l.conns ==> c in l'.conns && l'.conns[c].jobId == l.conns[c].jobId) &&
    (forall c :: c in l'.conns && l'.conns[c].jobId != k ==> c in l.conns && l'.conns[c] == l.conns[c])
  }

  ghost predicate AccountsFrame(k: int, l: Ledger, l': Ledger) {
    forall j :: j != k ==> AccountOf(l', j) == AccountOf(l, j)
  }

  ghost predicate Frame(k: int, l: Ledger, l': Ledger) {
    RunsFrame(k, l, l') && ConnsFrame(k, l, l') && AccountsFrame(k, l, l')
  }

  ghost predicate Kept(k: int, l: Ledger, o: Outcome) {
    JobInv(k, o.task, o.ledger) && LedgerSound(o.ledger) && Frame(k, l, o.ledger)
  }

  lemma FrameRuns(k: int, j: int, l: Ledger, l': Ledger)
    requires RunsFrame(k, l, l') && j != k
    ensures RunsOf(l', j) == RunsOf(l, j)
    ensures forall r :: r in RunsOf(l, j) ==> r in l'.runs && SameRun(l, l', r)
  {
    forall r ensures r in RunsOf(l', j) <==> r in RunsOf(l, j) {
      if r in l.runs && l.runs[r].jobId == j {
        assert r in l'.runs && l'.runs[r].jobId == j;
      }
      if r in l'.runs && l'.runs[r].jobId == j {
        assert r in l.runs && SameRun(l, l', r);
      }
    }
  }

  lemma FrameKeeps(k: int, j: int, t: Option<Task>, l: Ledger, l': Ledger)
    requires Frame(k, l, l') && j != k && JobInv(j, t, l)
    ensures JobInv(j, t, l')
  {
    FrameRuns(k, j, l, l');
    if t.Some? {
      assert t.value.runId != 0 ==> t.value.runId in RunsOf(l, j);
    }
    assert RunsSound(j, t, l') by {
      forall r | r in l'.runs && l'.runs[r].jobId == j
        ensures RunSound(l', r) && (l'.runs[r].finals == [] ==> t.Some? && Open(t.value) && t.value.runId == r)
      {
        assert r in RunsOf(l', j) && r in RunsOf(l, j) && RunSound(l, r);
      }
    }
  }

  lemma FrameChain(k: int, l1: Ledger, l2: Ledger, l3: Ledger)
    requires Frame(k, l1, l2) && Frame(k, l2, l3)
    ensures Frame(k, l1, l3)
  {
    forall r | r in l3.runs && l3.runs[r].jobId != k ensures r in l1.runs && SameRun(l1, l3, r) {
      assert r in l2.runs && SameRun(l2, l3, r);
      assert SameRun(l1, l2, r);
    }
  }

  // ---- Effects one at a time ----

  /** Changing only the bookkeeping of a task. */
  lemma TaskOnly(k: int, t: Task, t': Task, l: Ledger)
    requires JobInv(k, Some(t), l) && LedgerSound(l) && TaskSound(k, t', l)
    requires t'.runId == t.runId && t'.conn == t.conn && t'.pendingRunCount == t.pendingRunCount
    requires Open(t') == Open(t) && (t'.state == Start <==> t.state == Start)
    ensures Kept(k, l, Outcome(Some(t'), l))
  {
  }

  /** Any task past Start may fail, with a message. */
  lemma FailKeeps(k: int, t: Task, l: Ledger, message: string)
    requires JobInv(k, Some(t), l) && LedgerSound(l) && NeedsSocketWait(t)
    ensures Kept(k, l, Outcome(Some(FailTask(t, message)), l))
  {
    TaskOnly(k, t, FailTask(t, message), l);
  }

  lemma InsertLedger(k: int, l: Ledger)
    requires LedgerSound(l)
    ensures var l' := InsertRun(l, k);
            LedgerSound(l') && Frame(k, l, l') && l.nextRun !in l.runs && RunsOf(l', k) == RunsOf(l, k) + {l.nextRun}
    ensures forall r :: r in l.runs && RunSound(l, r) ==> RunSound(InsertRun(l, k), r)
    ensures RunSound(InsertRun(l, k), l.nextRun)
  {
    assert l.nextRun !in l.runs;
  }

  lemma InsertKeeps(k: int, t: Task, l: Ledger, message: string)
    requires JobInv(k, Some(t), l) && LedgerSound(l) && t.state == Start
    ensures Kept(k, l, Outcome(Some(FailTask(t.(runId := l.nextRun), message)), InsertRun(l, k)))
  {
    InsertLedger(k, l);
    var t', l' := FailTask(t.(runId := l.nextRun), message), InsertRun(l, k);
    assert RunsSound(k, Some(t'), l') by {
      forall r | r in l'.runs && l'.runs[r].jobId == k
        ensures RunSound(l', r) && (l'.runs[r].finals == [] ==> Open(t') && t'.runId == r)
      {
        assert r != l.nextRun ==> r in l.runs && RunSound(l, r);
      }
    }
  }

  lemma OpenKeeps(k: int, t: Task, l: Ledger)
    requires JobInv(k, Some(t), l) && LedgerSound(l) && t.state == Error && t.conn == 0
    ensures Kept(k, l, Outcome(Some(t.(conn := l.nextConn)), OpenConn(l, k)))
  {
    var l' := OpenConn(l, k);
    assert l.nextConn !in l.conns;
    assert RunsOf(l', k) == RunsOf(l, k);
  }

  lemma CloseKeeps(k: int, t: Task, l: Ledger)
    requires JobInv(k, Some(t), l) && LedgerSound(l) && t.state == Error && t.conn != 0
    ensures Kept(k, l, Outcome(Some(t.(conn := 0)), CloseConn(l, t.conn)))
  {
    assert RunsOf(CloseConn(l, t.conn), k) == RunsOf(l, k);
  }

  lemma PidLedger(k: int, l: Ledger, r: int, pid: int)
    requires LedgerSound(l) && r in l.runs && l.runs[r].jobId == k && l.runs[r].finals == [] && RunSound(l, r)
    ensures var l' := UpdatePid(l, r, pid); LedgerSound(l') && Frame(k, l, l') && l'.(rows := l.rows) == l
    ensures forall r' :: r' in l.runs && RunSound(l, r') ==> RunSound(UpdatePid(l, r, pid), r')
  {
  }

  lemma PidKeeps(k: int, t: Task, l: Ledger, pid: int)
    requires JobInv(k, Some(t), l) && LedgerSound(l) && Open(t)
    ensures Kept(k, l, Outcome(Some(t), UpdatePid(l, t.runId, pid)))
  {
    PidLedger(k, l, t.runId, pid);
    assert RunsOf(UpdatePid(l, t.runId, pid), k) == RunsOf(l, k);
  }

  lemma SentKeeps(k: int, t: Task, t': Task, l: Ledger)
    requires JobInv(k, Some(t), l) && LedgerSound(l) && t.state == Sending && t'.state == Running
    requires t'.jobId == t.jobId && t'.runId == t.runId && t'.conn == t.conn && t'.pendingRunCount == t.pendingRunCount
    ensures Kept(k, l, Outcome(Some(t'), MarkSent(l, t.runId)))
  {
    var l' := MarkSent(l, t.runId);
    assert RunsOf(l', k) == RunsOf(l, k);
    assert forall r :: r in l.runs && RunSound(l, r) ==> RunSound(l', r);
  }

  lemma CancelKeeps(k: int, t: Task, t': Task, l: Ledger)
    requires JobInv(k, Some(t), l) && LedgerSound(l) && t.state == Running && !t.cancelRequested
    requires t'.state == Running && t'.cancelRequested
    requires t'.jobId == t.jobId && t'.runId == t.runId && t'.conn == t.conn && t'.pendingRunCount == t.pendingRunCount
    ensures Kept(k, l, Outcome(Some(t'), MarkCancel(l, t.runId)))
  {
    var l' := MarkCancel(l, t.runId);
    assert RunsOf(l', k) == RunsOf(l, k);
    assert forall r :: r in l.runs && r != t.runId && RunSound(l, r) ==> RunSound(l', r);
  }

  lemma FinishLedger(k: int, l: Ledger, r: int, status: RunStatus, message: Option<string>)
    requires LedgerSound(l) && r in l.runs && l.runs[r].jobId == k && l.runs[r].finals == [] && RunSound(l, r)
    requires IsFinal(status) && (status != Failed ==> l.runs[r].sent) && message.Some?
    ensures var l' := FinishRun(l, r, status, message);
            LedgerSound(l') && Frame(k, l, l') && RunsOf(l', k) == RunsOf(l, k) &&
            l'.runs == l.runs[r := l.runs[r].(finals := [status])] && RunSound(l', r)
    ensures forall r' :: r' in l.runs && r' != r && RunSound(l, r') ==> RunSound(FinishRun(l, r, status, message), r')
  {
    assert [] + [status] == [status];
  }

  lemma FinishRuns(k: int, t: Task, t': Task, l: Ledger, status: RunStatus, message: Option<string>)
    requires TaskSound(k, t, l) && RunsSound(k, Some(t), l) && LedgerSound(l) && Open(t) && !Open(t')
    requires IsFinal(status) && (status != Failed ==> l.runs[t.runId].sent) && message.Some?
    ensures RunsSound(k, Some(t'), FinishRun(l, t.runId, status, message))
  {
    FinishLedger(k, l, t.runId, status, message);
    var l' := FinishRun(l, t.runId, status, message);
    forall r | r in l'.runs && l'.runs[r].jobId == k ensures RunSound(l', r) && l'.runs[r].finals != [] {
      assert r in l.runs && RunSound(l, r);
    }
  }

  /** Writing the final status of an open run whose connection is closed or about to be. */
  lemma FinishKeeps(k: int, t: Task, t': Task, l: Ledger, status: RunStatus, message: Option<string>)
    requires JobInv(k, Some(t), l) && LedgerSound(l) && t.state == Error && t.runId != 0
    requires IsFinal(status) && (status != Failed ==> l.runs[t.runId].sent) && message.Some?
    requires t'.jobId == t.jobId && t'.conn == t.conn && t'.pendingRunCount == t.pendingRunCount
    requires (t'.runId == 0 && t'.state == Error && t'.errorMessage.Some?) ||
             (t'.runId == t.runId && t'.state == Done && t'.conn == 0 && t'.timedOut == t.timedOut)
    ensures Kept(k, l, Outcome(Some(t'), FinishRun(l, t.runId, status, message)))
  {
    FinishLedger(k, l, t.runId, status, message);
    FinishRuns(k, t, t', l, status, message);
  }

  lemma RemoveKeeps(k: int, t: Task, l: Ledger)
    requires JobInv(k, Some(t), l) && LedgerSound(l) && t.runId == 0 && t.conn == 0 && t.state != Start
    ensures Kept(k, l, RemoveTask(t, l))
  {
    assert RunsOf(RemoveTask(t, l).ledger, k) == RunsOf(l, k);
  }

  lemma Then(k: int, l: Ledger, o: Outcome, o': Outcome)
    requires Kept(k, l, o) && Kept(k, o.ledger, o')
    ensures Kept(k, l, o')
  {
    FrameChain(k, l, o.ledger, o'.ledger);
  }

  // ---- The states ----

  lemma WaitingKeeps(k: int, t: Task, l: Ledger)
    requires JobInv(k, Some(t), l) && LedgerSound(l) && t.state == Waiting
    ensures Kept(k, l, ManageWaiting(t, l))
  {
    assert RunsOf(ManageWaiting(t, l).ledger, k) == RunsOf(l, k);
  }

  lemma StartKeeps(k: int, t: Task, l: Ledger, a: Answers, now: int)
    requires JobInv(k, Some(t), l) && LedgerSound(l) && t.state == Start
    ensures Kept(k, l, ManageStart(t, l, a, now))
  {
    var message := if a.connectStarted then a.errorText else "PQconnectStartParams returned NULL";
    var failed := Outcome(Some(FailTask(t.(runId := l.nextRun), message)), InsertRun(l, k));
    InsertKeeps(k, t, l, message);
    if a.connectStarted {
      OpenKeeps(k, failed.task.value, failed.ledger);
      var linked := Outcome(Some(failed.task.value.(conn := l.nextConn)), OpenConn(failed.ledger, k));
      Then(k, l, failed, linked);
      if a.nonblockingSet && !a.connectionBad {
        var o := ManageStart(t, l, a, now);
        TaskOnly(k, linked.task.value, o.task.value, linked.ledger);
        Then(k, l, linked, o);
      }
    }
  }

  /** Start inserts one row under a fresh run id and opens at most one connection; the task holds both, failed or not. */
  lemma StartOpens(t: Task, l: Ledger, a: Answers, now: int)
    requires LedgerSound(l) && t.state == Start && t.conn == 0
    ensures var o := ManageStart(t, l, a, now);
            l.nextRun !in l.runs && l.nextConn !in l.conns &&
            o.ledger.rows == l.rows[l.nextRun := Row(t.jobId, Starting, None, None)] &&
            o.ledger.runs.Keys == l.runs.Keys + {l.nextRun} && o.task.Some? && o.task.value.runId == l.nextRun &&
            o.task.value.state == (if a.connectStarted && a.nonblockingSet && !a.connectionBad then Connecting else Error) &&
            if a.connectStarted then o.ledger.conns == l.conns[l.nextConn := Conn(t.jobId, 0)] && o.task.value.conn == l.nextConn
            else o.ledger.conns == l.conns && o.task.value.conn == 0
  {
    assert l.nextRun !in l.runs && l.nextConn !in l.conns;
  }

  lemma ConnectingKeeps(k: int, t: Task, l: Ledger, a: Answers, now: int)
    requires JobInv(k, Some(t), l) && LedgerSound(l) && t.state == Connecting
    ensures Kept(k, l, ManageConnecting(t, l, a, now))
  {
    if !t.isActive {
      FailKeeps(k, t, l, "job has been removed");
    } else if TimestampDifferenceExceeds(t.startDeadline, now, 0) {
      FailKeeps(k, t, l, "timeout reached");
    } else if a.connectionBad || (t.isSocketReady && a.poll == PollFailed) {
      FailKeeps(k, t, l, a.errorText);
    } else if t.isSocketReady && a.poll == PollOk {
      ConnectedKeeps(k, t, l, a.backendPid);
    } else {
      TaskOnly(k, t, ManageConnecting(t, l, a, now).task.value, l);
    }
  }

  lemma ConnectedKeeps(k: int, t: Task, l: Ledger, pid: int)
    requires JobInv(k, Some(t), l) && LedgerSound(l) && t.state == Connecting
    ensures Kept(k, l, Outcome(Some(t.(polling := PollWriting, state := Sending)), UpdatePid(l, t.runId, pid)))
  {
    var t' := t.(polling := PollWriting, state := Sending);
    TaskOnly(k, t, t', l);
    PidKeeps(k, t', l, pid);
  }

  lemma SendingKeeps(k: int, t: Task, l: Ledger, a: Answers, now: int, timeoutMs: int)
    requires JobInv(k, Some(t), l) && LedgerSound(l) && t.state == Sending
    ensures Kept(k, l, ManageSending(t, l, a, now, timeoutMs))
  {
    if !t.isActive {
      FailKeeps(k, t, l, "job has been removed");
    } else if TimestampDifferenceExceeds(t.startDeadline, now, 0) {
      FailKeeps(k, t, l, "timeout reached");
    } else if a.connectionBad || (t.isSocketReady && !a.querySent) {
      FailKeeps(k, t, l, a.errorText);
    } else if t.isSocketReady {
      SentKeeps(k, t, ManageSending(t, l, a, now, timeoutMs).task.value, l);
    } else {
      TaskOnly(k, t, t, l);
    }
  }

  /** `r` is `t` after a faulty result: only the error marks differ, and there is a message. */
  predicate FaultRead(t: Task, r: Task) {
    r.errorMessage.Some? && (t.timedOut ==> r.timedOut) &&
    r == t.(state := Error, polling := PollFailed, errorMessage := r.errorMessage, timedOut := r.timedOut)
  }

  lemma {:induction false} ReadResultsMarks(t: Task, results: seq<QueryResult>)
    ensures ReadResults(t, results) == t || FaultRead(t, ReadResults(t, results))
  {
    if results != [] {
      ReadResultsMarks(t, results[1..]);
    }
  }

  lemma FaultKeeps(k: int, t: Task, r: Task, l: Ledger)
    requires JobInv(k, Some(t), l) && LedgerSound(l) && t.state == Running && FaultRead(t, r)
    ensures Kept(k, l, Outcome(Some(r.(conn := 0, isSocketReady := false)), CloseConn(l, t.conn)))
  {
    TaskOnly(k, t, r, l);
    CloseKeeps(k, r, l);
    var closed := Outcome(Some(r.(conn := 0)), CloseConn(l, t.conn));
    var o := Outcome(Some(r.(conn := 0, isSocketReady := false)), closed.ledger);
    TaskOnly(k, closed.task.value, o.task.value, closed.ledger);
    Then(k, l, closed, o);
  }

  lemma SuccessKeeps(k: int, t: Task, l: Ledger)
    requires JobInv(k, Some(t), l) && LedgerSound(l) && t.state == Running
    ensures Kept(k, l, Outcome(Some(t.(conn := 0, polling := PollFailed, isSocketReady := false, state := Done)),
                               FinishRun(CloseConn(l, t.conn), t.runId, Succeeded, Some("OK"))))
  {
    var failed := FailTask(t, "");
    TaskOnly(k, t, failed, l);
    CloseKeeps(k, failed, l);
    var t', l' := failed.(conn := 0), CloseConn(l, t.conn);
    var ended := t.(conn := 0, polling := PollFailed, isSocketReady := false, state := Done);
    FinishKeeps(k, t', ended, l', Succeeded, Some("OK"));
    Then(k, l, Outcome(Some(t'), l'), Outcome(Some(ended), FinishRun(l', t.runId, Succeeded, Some("OK"))));
  }

  lemma ReadKeeps(k: int, t: Task, l: Ledger, a: Answers)
    requires JobInv(k, Some(t), l) && LedgerSound(l) && t.state == Running
    ensures Kept(k, l, ReadRunning(t, l, a))
  {
    if !t.isSocketReady || !a.inputConsumed || a.busy {
      TaskOnly(k, t, ReadRunning(t, l, a).task.value, l);
    } else {
      ReadResultsMarks(t, a.results);
      if ReadResults(t, a.results) == t {
        SuccessKeeps(k, t, l);
      } else {
        FaultKeeps(k, t, ReadResults(t, a.results), l);
      }
    }
  }

  lemma CancelFails(k: int, t: Task, l: Ledger, message: string)
    requires JobInv(k, Some(t), l) && LedgerSound(l) && t.state == Running && !t.cancelRequested
    ensures Kept(k, l, Outcome(Some(FailTask(MarkCancelled(t), message)), MarkCancel(l, t.runId)))
  {
    var t', l' := MarkCancelled(t), MarkCancel(l, t.runId);
    CancelKeeps(k, t, t', l);
    FailKeeps(k, t', l', message);
    Then(k, l, Outcome(Some(t'), l'), Outcome(Some(FailTask(t', message)), l'));
  }

  lemma CancelReads(k: int, t: Task, l: Ledger, a: Answers)
    requires JobInv(k, Some(t), l) && LedgerSound(l) && t.state == Running && !t.cancelRequested
    ensures Kept(k, l, ReadRunning(AwaitCancel(t), MarkCancel(l, t.runId), a))
  {
    var t', l' := AwaitCancel(t), MarkCancel(l, t.runId);
    CancelKeeps(k, t, t', l);
    ReadKeeps(k, t', l', a);
    Then(k, l, Outcome(Some(t'), l'), ReadRunning(t', l', a));
  }

  lemma RunningKeeps(k: int, t: Task, l: Ledger, a: Answers, now: int)
    requires JobInv(k, Some(t), l) && LedgerSound(l) && t.state == Running
    ensures Kept(k, l, ManageRunning(t, l, a, now))
  {
    if !t.isActive {
      FailKeeps(k, t, l, "job has been removed");
    } else if a.connectionBad {
      FailKeeps(k, t, l, a.errorText);
    } else if !RunTimeoutReached(t, now) {
      ReadKeeps(k, t, l, a);
    } else if !a.cancelHandle {
      TaskOnly(k, t, ManageRunning(t, l, a, now).task.value, l);
    } else if !a.cancelSent {
      CancelFails(k, t, l, "could not cancel timed out job: " + a.cancelError);
    } else {
      CancelReads(k, t, l, a);
    }
  }

  lemma FinishErrorKeeps(k: int, t: Task, l: Ledger)
    requires JobInv(k, Some(t), l) && LedgerSound(l) && t.state == Error
    ensures Kept(k, l, Outcome(Some(t.(runId := 0)), FinishError(t, l)))
  {
    if t.runId != 0 {
      FinishKeeps(k, t, t.(runId := 0), l, ErrorStatus(t), t.errorMessage);
    } else {
      TaskOnly(k, t, t.(runId := 0), l);
    }
  }

  lemma CloseErrorKeeps(k: int, t: Task, l: Ledger)
    requires JobInv(k, Some(t), l) && LedgerSound(l) && t.state == Error
    ensures Kept(k, l, Outcome(Some(t.(conn := 0)), CloseTask(t, l)))
  {
    if t.conn != 0 {
      CloseKeeps(k, t, l);
    } else {
      TaskOnly(k, t, t.(conn := 0), l);
    }
  }

  lemma EndErrorKeeps(k: int, t: Task, l: Ledger)
    requires JobInv(k, Some(t), l) && LedgerSound(l) && t.state == Error && t.runId == 0 && t.conn == 0
    ensures Kept(k, l, if t.isActive then Outcome(Some(EndError(t)), l) else RemoveTask(t, l))
  {
    if t.isActive {
      TaskOnly(k, t, EndError(t), l);
    } else {
      RemoveKeeps(k, t, l);
    }
  }

  lemma ErrorKeeps(k: int, t: Task, l: Ledger)
    requires JobInv(k, Some(t), l) && LedgerSound(l) && t.state == Error
    ensures Kept(k, l, ManageError(t, l))
  {
    var t1, l1 := t.(runId := 0), FinishError(t, l);
    FinishErrorKeeps(k, t, l);
    var t2, l2 := t1.(conn := 0), CloseTask(t1, l1);
    CloseErrorKeeps(k, t1, l1);
    Then(k, l, Outcome(Some(t1), l1), Outcome(Some(t2), l2));
    EndErrorKeeps(k, t2, l2);
    Then(k, l, Outcome(Some(t2), l2), ManageError(t, l));
  }

  lemma FinishErrorFinals(k: int, t: Task, l: Ledger)
    requires JobInv(k, Some(t), l) && t.state == Error
    ensures var l' := FinishError(t, l);
            l'.conns == l.conns &&
            (t.runId != 0 ==> t.runId in l'.runs && l'.runs[t.runId].finals == [ErrorStatus(t)])
  {
    assert [] + [ErrorStatus(t)] == [ErrorStatus(t)];
  }

  lemma CloseTaskOnce(t: Task, l: Ledger)
    requires t.conn != 0 ==> t.conn in l.conns && l.conns[t.conn].closes == 0
    ensures var l' := CloseTask(t, l);
            l'.runs == l.runs && (t.conn != 0 ==> t.conn in l'.conns && l'.conns[t.conn].closes == 1)
  {
  }

  /** Error settles its task: the run is finalised, the connection finished, and the task is Done or removed. */
  lemma ErrorSettles(k: int, t: Task, l: Ledger)
    requires JobInv(k, Some(t), l) && t.state == Error
    ensures var o := ManageError(t, l);
            (t.runId != 0 ==> t.runId in o.ledger.runs && o.ledger.runs[t.runId].finals == [ErrorStatus(t)]) &&
            (t.conn != 0 ==> t.conn in o.ledger.conns && o.ledger.conns[t.conn].closes == 1) &&
            (o.task.None? <==> !t.isActive) &&
            (o.task.Some? ==> o.task.value.state == Done && o.task.value.runId == 0 && o.task.value.conn == 0)
  {
    FinishErrorFinals(k, t, l);
    CloseTaskOnce(t, FinishError(t, l));
  }

  lemma CutKeeps(k: int, t: Task, l: Ledger)
    requires JobInv(k, Some(t), l) && LedgerSound(l)
    ensures Kept(k, l, Outcome(Some(CutQueue(t)), PostCut(t, l)))
  {
    assert RunsOf(PostCut(t, l), k) == RunsOf(l, k);
  }

  lemma ResetKeeps(k: int, t: Task, l: Ledger)
    requires JobInv(k, Some(t), l) && LedgerSound(l) && t.state == Done
    ensures Kept(k, l, Outcome(Some(ResetTask(t)), l))
  {
  }

  lemma DoneKeeps(k: int, t: Task, l: Ledger)
    requires JobInv(k, Some(t), l) && LedgerSound(l) && t.state == Done
    ensures Kept(k, l, ManageDone(t, l))
  {
    CutKeeps(k, t, l);
    ResetKeeps(k, CutQueue(t), PostCut(t, l));
    Then(k, l, Outcome(Some(CutQueue(t)), PostCut(t, l)), ManageDone(t, l));
  }

  lemma LoseKeeps(k: int, t: Task, l: Ledger)
    requires JobInv(k, Some(t), l) && LedgerSound(l) && t.state != Done
    ensures var (t', l') := LoseJob(t, l); Kept(k, l, Outcome(Some(t'), l')) && t'.state == Error
  {
    var (t', l') := LoseJob(t, l);
    if t.state == Start {
      assert RunsOf(l', k) == RunsOf(l, k);
    } else {
      TaskOnly(k, t, t', l);
    }
  }

  /** Every step of a task, under every answer and clock reading, keeps the job's invariant. */
  lemma ManageKeeps(k: int, t: Task, jobLoaded: bool, l: Ledger, a: Answers, now: int, timeoutMs: int)
    requires JobInv(k, Some(t), l) && LedgerSound(l)
    ensures Kept(k, l, Manage(t, jobLoaded, l, a, now, timeoutMs))
  {
    if !jobLoaded && t.state != Done {
      LoseKeeps(k, t, l);
      var (t', l') := LoseJob(t, l);
      ErrorKeeps(k, t', l');
      Then(k, l, Outcome(Some(t'), l'), ManageError(t', l'));
    } else {
      match t.state
      case Waiting => WaitingKeeps(k, t, l);
      case Start => StartKeeps(k, t, l, a, now);
      case Connecting => ConnectingKeeps(k, t, l, a, now);
      case Sending => SendingKeeps(k, t, l, a, now, timeoutMs);
      case Running => RunningKeeps(k, t, l, a, now);
      case Error => ErrorKeeps(k, t, l);
      case Done => DoneKeeps(k, t, l);
    }
  }
}
