/**
 What the invariant says of the whole worker: every run row is finalised once, every connection
 finished once, and the status of a row only moves forward, over every run.
 */
module Conservation {
  import opened Options
  import opened TaskMachine
  import opened TaskInvariant
  import opened World

  // ---- Counting ----

  /** Two sets matched one to one have the same size. */
  lemma {:induction false} Matched<A, B>(a: set<A>, b: set<B>, f: map<A, B>)
    requires f.Keys == a && (forall x :: x in a ==> f[x] in b)
    requires forall x, y :: x in a && y in a && f[x] == f[y] ==> x == y
    requires forall z :: z in b ==> exists x :: x in a && f[x] == z
    ensures |a| == |b|
    decreases |a|
  {
    if x :| x in a {
      forall z | z in b - {f[x]} ensures exists y :: y in a - {x} && f[y] == z {
        var y :| y in a && f[y] == z;
      }
      Matched(a - {x}, b - {f[x]}, f - {x});
    } else {
      assert a == {} && b == {};
    }
  }

  function Unfinished(l: Ledger): set<int> {
    set r | r in l.runs && l.runs[r].finals == []
  }

  function Finalised(l: Ledger): set<int> {
    set r | r in l.runs && l.runs[r].finals != []
  }

  function OpenTasks(w: World): set<int> {
    set k | k in w.tasks && Open(w.tasks[k])
  }

  function LiveConns(l: Ledger): set<int> {
    set c | c in l.conns && l.conns[c].closes == 0
  }

  function Connected(w: World): set<int> {
    set k | k in w.tasks && w.tasks[k].conn != 0
  }

  predicate HeldRun(w: World, r: int) {
    r in w.ledger.runs && w.ledger.runs[r].jobId in OpenTasks(w) && w.tasks[w.ledger.runs[r].jobId].runId == r
  }

  predicate HeldConn(w: World, c: int) {
    c in w.ledger.conns && w.ledger.conns[c].jobId in Connected(w) && w.tasks[w.ledger.conns[c].jobId].conn == c
  }

  /** One run: finalised at most once, and unfinished exactly when its job's task has it open. */
  lemma RunFinalised(w: World, r: int)
    requires Inv(w) && r in w.ledger.runs
    ensures |w.ledger.runs[r].finals| <= 1 && (r in Unfinished(w.ledger) <==> HeldRun(w, r))
  {
    var k := w.ledger.runs[r].jobId;
    assert JobInv(k, TaskOf(w, k), w.ledger) && RunSound(w.ledger, r);
  }

  lemma OpenRunUnfinished(w: World, k: int)
    requires Inv(w) && k in OpenTasks(w)
    ensures w.tasks[k].runId in Unfinished(w.ledger) && w.ledger.runs[w.tasks[k].runId].jobId == k
  {
    assert JobInv(k, TaskOf(w, k), w.ledger);
  }

  lemma OpenTasksMatched(w: World)
    requires Inv(w)
    ensures |OpenTasks(w)| == |Unfinished(w.ledger)|
  {
    var f := map k | k in OpenTasks(w) :: w.tasks[k].runId;
    forall k | k in OpenTasks(w) ensures f[k] in Unfinished(w.ledger) && w.ledger.runs[f[k]].jobId == k {
      OpenRunUnfinished(w, k);
    }
    forall r | r in Unfinished(w.ledger) ensures exists k :: k in OpenTasks(w) && f[k] == r {
      RunFinalised(w, r);
      assert w.ledger.runs[r].jobId in OpenTasks(w);
    }
    Matched(OpenTasks(w), Unfinished(w.ledger), f);
  }

  lemma RunsSplit(l: Ledger)
    ensures |l.runs| == |Finalised(l)| + |Unfinished(l)|
  {
    assert l.runs.Keys == Finalised(l) + Unfinished(l);
  }

  /**
   Every run row is finalised exactly once. The unfinished runs are the runs of the open tasks,
   one each; so a job has at most one, inserted rows exceed finalised ones by the open tasks, and
   no run is finalised twice.
   */
  lemma RunsFinalisedOnce(w: World)
    requires Inv(w)
    ensures forall r :: r in Unfinished(w.ledger) <==> HeldRun(w, r)
    ensures forall r1, r2 | r1 in Unfinished(w.ledger) && r2 in Unfinished(w.ledger) ::
              w.ledger.runs[r1].jobId == w.ledger.runs[r2].jobId ==> r1 == r2
    ensures |w.ledger.runs| == |Finalised(w.ledger)| + |OpenTasks(w)|
    ensures forall r :: r in w.ledger.runs ==> |w.ledger.runs[r].finals| <= 1
  {
    forall r | r in w.ledger.runs
      ensures |w.ledger.runs[r].finals| <= 1 && (r in Unfinished(w.ledger) <==> HeldRun(w, r))
    {
      RunFinalised(w, r);
    }
    OpenTasksMatched(w);
    RunsSplit(w.ledger);
  }

  lemma ConnFinished(w: World, c: int)
    requires Inv(w) && c in w.ledger.conns
    ensures w.ledger.conns[c].closes <= 1 && (c in LiveConns(w.ledger) <==> HeldConn(w, c))
  {
    var k := w.ledger.conns[c].jobId;
    assert JobInv(k, TaskOf(w, k), w.ledger);
  }

  lemma HeldConnLive(w: World, k: int)
    requires Inv(w) && k in w.tasks
    ensures k in Connected(w) ==> w.tasks[k].conn in LiveConns(w.ledger) && w.ledger.conns[w.tasks[k].conn].jobId == k
    ensures w.tasks[k].state in {Waiting, Start, Done} ==> w.tasks[k].conn == 0
  {
    assert JobInv(k, TaskOf(w, k), w.ledger);
  }

  lemma ConnectedMatched(w: World)
    requires Inv(w)
    ensures |Connected(w)| == |LiveConns(w.ledger)|
  {
    var f := map k | k in Connected(w) :: w.tasks[k].conn;
    forall k | k in Connected(w) ensures f[k] in LiveConns(w.ledger) && w.ledger.conns[f[k]].jobId == k {
      HeldConnLive(w, k);
    }
    forall c | c in LiveConns(w.ledger) ensures exists k :: k in Connected(w) && f[k] == c {
      ConnFinished(w, c);
      assert w.ledger.conns[c].jobId in Connected(w);
    }
    Matched(Connected(w), LiveConns(w.ledger), f);
  }

  lemma ConnsSplit(l: Ledger)
    ensures |l.conns.Keys - LiveConns(l)| == |l.conns| - |LiveConns(l)|
  {
    assert LiveConns(l) <= l.conns.Keys;
  }

  /**
   Connections are conserved: those opened exceed those finished by the tasks holding one, each
   is finished at most once, and exactly the unfinished ones are held, by the task that opened them.
   */
  lemma ConnectionsFinishedOnce(w: World)
    requires Inv(w)
    ensures forall c :: c in w.ledger.conns ==> w.ledger.conns[c].closes <= 1
    ensures forall c :: c in LiveConns(w.ledger) <==> HeldConn(w, c)
    ensures |w.ledger.conns| == |w.ledger.conns.Keys - LiveConns(w.ledger)| + |Connected(w)|
    ensures forall k :: k in w.tasks && w.tasks[k].state in {Waiting, Start, Done} ==> w.tasks[k].conn == 0
  {
    forall c | c in w.ledger.conns
      ensures w.ledger.conns[c].closes <= 1 && (c in LiveConns(w.ledger) <==> HeldConn(w, c))
    {
      ConnFinished(w, c);
    }
    forall k | k in w.tasks && w.tasks[k].state in {Waiting, Start, Done} ensures w.tasks[k].conn == 0 {
      HeldConnLive(w, k);
    }
    ConnectedMatched(w);
    ConnsSplit(w.ledger);
  }

  // ---- Status over time ----

  /** The moves a status may make: from starting on to running, and on to one final status. */
  predicate Progress(a: RunStatus, b: RunStatus) {
    a == b || (a == Starting && b == Executing) || (!IsFinal(a) && IsFinal(b))
  }

  /** History is only added to, deleted rows stay deleted, and no row goes back to 'starting'. */
  ghost predicate Evolves(l: Ledger, l': Ledger) {
    forall r :: r in l.runs ==>
      r in l'.runs && l'.runs[r].jobId == l.runs[r].jobId && l.runs[r].finals <= l'.runs[r].finals &&
      (l.runs[r].sent ==> l'.runs[r].sent) &&
      (r in l'.rows ==> r in l.rows && (l'.rows[r].status == Starting ==> l.rows[r].status == Starting))
  }

  lemma EvolvesChain(a: Ledger, b: Ledger, c: Ledger)
    requires Evolves(a, b) && Evolves(b, c)
    ensures Evolves(a, c)
  {
    forall r | r in a.runs
      ensures r in c.runs && c.runs[r].jobId == a.runs[r].jobId && a.runs[r].finals <= c.runs[r].finals
      ensures a.runs[r].sent ==> c.runs[r].sent
      ensures r in c.rows ==> r in a.rows && (c.rows[r].status == Starting ==> a.rows[r].status == Starting)
    {
      assert r in b.runs;
    }
  }

  lemma InsertEvolves(l: Ledger, k: int)
    requires LedgerSound(l)
    ensures Evolves(l, InsertRun(l, k))
  {
  }

  lemma PidEvolves(l: Ledger, r: int, pid: int)
    ensures Evolves(l, UpdatePid(l, r, pid))
  {
  }

  lemma MarksEvolve(l: Ledger, r: int)
    ensures Evolves(l, MarkSent(l, r)) && Evolves(l, MarkCancel(l, r))
  {
  }

  lemma FinishEvolves(l: Ledger, r: int, status: RunStatus, message: Option<string>)
    requires status != Starting
    ensures Evolves(l, FinishRun(l, r, status, message))
  {
  }

  /** Connections and accounts are no part of a run's history. */
  lemma SameRunsEvolve(l: Ledger, l': Ledger)
    requires l'.runs == l.runs && l'.rows == l.rows
    ensures Evolves(l, l')
  {
  }

  lemma ReadEvolves(t: Task, l: Ledger, a: Answers)
    ensures Evolves(l, ReadRunning(t, l, a).ledger)
  {
    var closed := CloseTask(t, l);
    SameRunsEvolve(l, l);
    SameRunsEvolve(l, closed);
    FinishEvolves(closed, t.runId, Succeeded, Some("OK"));
    EvolvesChain(l, closed, FinishRun(closed, t.runId, Succeeded, Some("OK")));
  }

  lemma CancelEvolves(t: Task, l: Ledger, a: Answers)
    ensures Evolves(l, MarkCancel(l, t.runId))
    ensures Evolves(l, ReadRunning(AwaitCancel(t), MarkCancel(l, t.runId), a).ledger)
  {
    var l' := MarkCancel(l, t.runId);
    MarksEvolve(l, t.runId);
    ReadEvolves(AwaitCancel(t), l', a);
    EvolvesChain(l, l', ReadRunning(AwaitCancel(t), l', a).ledger);
  }

  lemma RunningEvolves(t: Task, l: Ledger, a: Answers, now: int)
    ensures Evolves(l, ManageRunning(t, l, a, now).ledger)
  {
    SameRunsEvolve(l, l);
    CancelEvolves(t, l, a);
    ReadEvolves(t, l, a);
  }

  lemma CloseEvolves(t: Task, l: Ledger)
    ensures Evolves(l, FinishError(t, l)) && Evolves(l, CloseTask(t, FinishError(t, l)))
  {
    var finished := FinishError(t, l);
    SameRunsEvolve(l, l);
    FinishEvolves(l, t.runId, ErrorStatus(t), t.errorMessage);
    SameRunsEvolve(finished, CloseTask(t, finished));
    EvolvesChain(l, finished, CloseTask(t, finished));
  }

  lemma ErrorEvolves(t: Task, l: Ledger)
    ensures Evolves(l, ManageError(t, l).ledger)
  {
    var closed := CloseTask(t, FinishError(t, l));
    CloseEvolves(t, l);
    SameRunsEvolve(closed, ManageError(t, l).ledger);
    EvolvesChain(l, closed, ManageError(t, l).ledger);
  }

  lemma StartEvolves(t: Task, l: Ledger, a: Answers, now: int)
    requires LedgerSound(l)
    ensures Evolves(l, ManageStart(t, l, a, now).ledger)
  {
    InsertEvolves(l, t.jobId);
    SameRunsEvolve(InsertRun(l, t.jobId), ManageStart(t, l, a, now).ledger);
    EvolvesChain(l, InsertRun(l, t.jobId), ManageStart(t, l, a, now).ledger);
  }

  lemma ManageEvolves(t: Task, jobLoaded: bool, l: Ledger, a: Answers, now: int, timeoutMs: int)
    requires LedgerSound(l)
    ensures Evolves(l, Manage(t, jobLoaded, l, a, now, timeoutMs).ledger)
  {
    if !jobLoaded && t.state != Done {
      var (t', l') := LoseJob(t, l);
      SameRunsEvolve(l, l');
      ErrorEvolves(t', l');
      EvolvesChain(l, l', ManageError(t', l').ledger);
    } else {
      match t.state
      case Waiting => SameRunsEvolve(l, ManageWaiting(t, l).ledger);
      case Start => StartEvolves(t, l, a, now);
      case Connecting =>
        SameRunsEvolve(l, l);
        PidEvolves(l, t.runId, a.backendPid);
      case Sending =>
        SameRunsEvolve(l, l);
        MarksEvolve(l, t.runId);
      case Running => RunningEvolves(t, l, a, now);
      case Error => ErrorEvolves(t, l);
      case Done => SameRunsEvolve(l, ManageDone(t, l).ledger);
    }
  }

  lemma {:induction false} ManageAllEvolves(w: World, list: seq<int>, answers: int -> Answers, now: int, timeoutMs: int)
    requires Inv(w)
    ensures Evolves(w.ledger, ManageAll(w, list, answers, now, timeoutMs).ledger)
  {
    if list != [] {
      var n := |list| - 1;
      var mid := ManageAll(w, list[..n], answers, now, timeoutMs);
      ManageAllEvolves(w, list[..n], answers, now, timeoutMs);
      ManageAllKeeps(w, list[..n], answers, now, timeoutMs);
      if list[n] in mid.tasks {
        ManageEvolves(mid.tasks[list[n]], list[n] in mid.jobs, mid.ledger, answers(list[n]), now, timeoutMs);
        EvolvesChain(w.ledger, mid.ledger, ManageAll(w, list, answers, now, timeoutMs).ledger);
      }
    }
  }

  lemma StepEvolves(w: World, e: Event)
    requires Inv(w)
    ensures Evolves(w.ledger, Step(w, e).ledger)
  {
    if e.Managed? {
      ManageAllEvolves(w, e.list, e.answers, e.now, e.timeoutMs);
    }
  }

  lemma {:induction false} RunEvolves(w: World, events: seq<Event>)
    requires Inv(w)
    ensures Evolves(w.ledger, Execute(w, events).ledger)
  {
    if events != [] {
      var mid := Execute(w, events[..|events| - 1]);
      RunEvolves(w, events[..|events| - 1]);
      EveryRunKeeps(w, events[..|events| - 1]);
      StepEvolves(mid, events[|events| - 1]);
      EvolvesChain(w.ledger, mid.ledger, Execute(w, events).ledger);
    }
  }

  /**
   The status automaton, between any two moments of any run: a row moves only forward, a final
   status is never left, and the run's final updates stay what they were.
   */
  lemma StatusMovesForward(w: World, events: seq<Event>, r: int)
    requires Inv(w) && r in w.ledger.runs
    ensures var l, l' := w.ledger, Execute(w, events).ledger;
            r in l'.runs && (l.runs[r].finals != [] ==> l'.runs[r].finals == l.runs[r].finals) &&
            (r in l'.rows ==> r in l.rows && Progress(l.rows[r].status, l'.rows[r].status))
  {
    var w' := Execute(w, events);
    RunEvolves(w, events);
    EveryRunKeeps(w, events);
    var k := w.ledger.runs[r].jobId;
    assert JobInv(k, TaskOf(w, k), w.ledger) && RunSound(w.ledger, r);
    assert JobInv(k, TaskOf(w', k), w'.ledger) && RunSound(w'.ledger, r);
  }

  // ---- Which final status ----

  /** What the final updates of run `r` become in a step that leaves the task as `t'`. */
  predicate FinalsAre(l: Ledger, r: int, finals: seq<RunStatus>) {
    r in l.runs && l.runs[r].finals == finals
  }

  lemma ReadFinals(t: Task, l: Ledger, a: Answers)
    requires FinalsAre(l, t.runId, []) && t.state == Running
    ensures var o := ReadRunning(t, l, a);
            FinalsAre(o.ledger, t.runId, if o.task.value.state == Done then [Succeeded] else [])
  {
    assert [] + [Succeeded] == [Succeeded];
  }

  lemma CancelFinals(t: Task, l: Ledger, a: Answers)
    requires FinalsAre(l, t.runId, []) && t.state == Running
    ensures FinalsAre(MarkCancel(l, t.runId), t.runId, [])
    ensures var o := ReadRunning(AwaitCancel(t), MarkCancel(l, t.runId), a);
            FinalsAre(o.ledger, t.runId, if o.task.value.state == Done then [Succeeded] else [])
  {
    ReadFinals(AwaitCancel(t), MarkCancel(l, t.runId), a);
  }

  lemma RunningFinals(t: Task, l: Ledger, a: Answers, now: int)
    requires FinalsAre(l, t.runId, []) && t.state == Running
    ensures var o := ManageRunning(t, l, a, now);
            FinalsAre(o.ledger, t.runId, if o.task.value.state == Done then [Succeeded] else [])
  {
    if RunTimeoutReached(t, now) {
      CancelFinals(t, l, a);
    } else {
      ReadFinals(t, l, a);
    }
  }

  lemma EarlierFinals(t: Task, l: Ledger, a: Answers, now: int, timeoutMs: int)
    requires FinalsAre(l, t.runId, [])
    ensures t.state == Connecting ==> FinalsAre(ManageConnecting(t, l, a, now).ledger, t.runId, [])
    ensures t.state == Connecting ==> ManageConnecting(t, l, a, now).task.value.state != Done
    ensures t.state == Sending ==> FinalsAre(ManageSending(t, l, a, now, timeoutMs).ledger, t.runId, [])
    ensures t.state == Sending ==> ManageSending(t, l, a, now, timeoutMs).task.value.state != Done
  {
  }

  lemma ErrorFinals(t: Task, l: Ledger)
    requires FinalsAre(l, t.runId, []) && t.runId != 0
    ensures FinalsAre(ManageError(t, l).ledger, t.runId, [if t.timedOut then Timeout else Failed])
  {
    assert [] + [Timeout] == [Timeout] && [] + [Failed] == [Failed];
  }

  /**
   The final status a step writes for an open run: timeout or failed exactly in the Error case
   (where a step also goes when the job is gone), by whether `timedOut` is set; succeeded exactly
   when the run has ended clean.
   */
  lemma FinalStatusExactly(k: int, t: Task, jobLoaded: bool, l: Ledger, a: Answers, now: int, timeoutMs: int)
    requires JobInv(k, Some(t), l) && LedgerSound(l) && Open(t)
    ensures var o := Manage(t, jobLoaded, l, a, now, timeoutMs);
            FinalsAre(o.ledger, t.runId,
                      if t.state == Error || !jobLoaded then [if t.timedOut then Timeout else Failed]
                      else if o.task.Some? && o.task.value.state == Done then [Succeeded]
                      else [])
  {
    if t.state == Error || !jobLoaded {
      var (t', l') := LoseJob(t, l);
      ErrorFinals(t, l);
      ErrorFinals(t', l');
    } else if t.state == Running {
      RunningFinals(t, l, a, now);
    } else {
      EarlierFinals(t, l, a, now, timeoutMs);
    }
  }

  /** A timeout is recorded only after the query was sent: failing to connect in time is 'failed'. */
  lemma TimeoutsWereSent(w: World, r: int)
    requires Inv(w) && r in w.ledger.runs && w.ledger.runs[r].finals == [Timeout]
    ensures w.ledger.runs[r].sent
  {
    var k := w.ledger.runs[r].jobId;
    assert JobInv(k, TaskOf(w, k), w.ledger) && RunSound(w.ledger, r);
  }

  predicate Clean(results: seq<QueryResult>) {
    forall i :: 0 <= i < |results| ==> !results[i].Faulty? && !results[i].Copying?
  }

  lemma {:induction false} CleanReads(t: Task, results: seq<QueryResult>)
    ensures t.state == Running ==> (ReadResults(t, results) == t <==> Clean(results))
    ensures Clean(results) ==> ReadResults(t, results) == t
  {
    if results != [] {
      CleanReads(t, results[1..]);
      assert Clean(results) <==> !results[0].Faulty? && !results[0].Copying? && Clean(results[1..]);
    }
  }

  lemma CleanFinals(t: Task, l: Ledger, a: Answers)
    requires FinalsAre(l, t.runId, []) && t.state == Running
    requires t.isSocketReady && a.inputConsumed && !a.busy
    ensures FinalsAre(ReadRunning(t, l, a).ledger, t.runId, if Clean(a.results) then [Succeeded] else [])
  {
    CleanReads(t, a.results);
    ReadResultsMarks(t, a.results);
    ReadFinals(t, l, a);
  }

  /**
   A run whose results arrive succeeds exactly when they are clean, no matter whether it was
   cancelled for its timeout before, is cancelled in this very step, or never was.
   */
  lemma CancelledRunCanSucceed(k: int, t: Task, l: Ledger, a: Answers, now: int, timeoutMs: int)
    requires JobInv(k, Some(t), l) && LedgerSound(l) && t.state == Running && t.isActive && t.isSocketReady
    requires RunTimeoutReached(t, now) ==> a.cancelHandle && a.cancelSent
    requires !a.connectionBad && a.inputConsumed && !a.busy
    ensures FinalsAre(Manage(t, true, l, a, now, timeoutMs).ledger, t.runId, if Clean(a.results) then [Succeeded] else [])
  {
    if RunTimeoutReached(t, now) {
      CancelFinals(t, l, a);
      CleanFinals(AwaitCancel(t), MarkCancel(l, t.runId), a);
    } else {
      CleanFinals(t, l, a);
    }
  }

  /** The step that finds the run timeout reached sends the run's only cancel. */
  lemma CancelSentOnce(k: int, t: Task, l: Ledger, a: Answers, now: int, timeoutMs: int)
    requires JobInv(k, Some(t), l) && LedgerSound(l) && t.state == Running && t.isActive && !a.connectionBad
    ensures var run := Manage(t, true, l, a, now, timeoutMs).ledger.runs[t.runId];
            run.cancels == l.runs[t.runId].cancels + (if RunTimeoutReached(t, now) && a.cancelHandle then 1 else 0) <= 1
  {
    ReadKeepsCancels(t, l, a);
    ReadKeepsCancels(AwaitCancel(t), MarkCancel(l, t.runId), a);
  }

  lemma ReadKeepsCancels(t: Task, l: Ledger, a: Answers)
    requires t.runId in l.runs
    ensures var l' := ReadRunning(t, l, a).ledger;
            t.runId in l'.runs && l'.runs[t.runId].cancels == l.runs[t.runId].cancels
  {
  }
}
