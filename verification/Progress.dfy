/**
 A run that is pending and meets no trouble ends well: over six turns of the worker, with every
 other job doing whatever it does, its row is inserted, marked running with the server's pid, and
 ended as succeeded.
 */
module Progress {
  import opened Options
  import opened TaskMachine
  import opened TaskInvariant
  import opened World
  import opened StepLaws

  // ---- What the steps of other jobs leave alone ----

  /** Job `k` stands in `w'` as it stood in `w`; other jobs may have moved. */
  ghost predicate SameJob(w: World, w': World, k: int) {
    TaskOf(w', k) == TaskOf(w, k) && w'.jobs == w.jobs && RunsKept(w.ledger, w'.ledger, k)
  }

  ghost predicate RunsKept(l: Ledger, l': Ledger, k: int) {
    (forall r :: r in l.runs ==> r in l'.runs && l'.runs[r].jobId == l.runs[r].jobId) &&
    (forall r :: r in l'.runs && l'.runs[r].jobId == k ==> r in l.runs && SameRun(l, l', r))
  }

  lemma RunsKeptChain(a: Ledger, b: Ledger, c: Ledger, k: int)
    requires RunsKept(a, b, k) && RunsKept(b, c, k)
    ensures RunsKept(a, c, k)
  {
    forall r | r in c.runs && c.runs[r].jobId == k ensures r in a.runs && SameRun(a, c, r) {
      assert r in b.runs && SameRun(b, c, r);
      assert SameRun(a, b, r);
    }
  }

  lemma OtherStep(w: World, j: int, k: int, a: Answers, now: int, timeoutMs: int)
    requires Inv(w) && j != k
    ensures SameJob(w, ManageOne(w, j, a, now, timeoutMs), k)
  {
    if j in w.tasks {
      assert JobInv(j, TaskOf(w, j), w.ledger);
      ManageKeeps(j, w.tasks[j], j in w.jobs, w.ledger, a, now, timeoutMs);
      OthersKept(j, k, w.ledger, ManageOne(w, j, a, now, timeoutMs).ledger);
    } else {
      SelfKept(w.ledger, k);
    }
  }

  lemma OthersKept(j: int, k: int, l: Ledger, l': Ledger)
    requires Frame(j, l, l') && j != k
    ensures RunsKept(l, l', k)
  {
  }

  lemma SelfKept(l: Ledger, k: int)
    ensures RunsKept(l, l, k)
  {
  }

  lemma {:induction false} OthersPass(w: World, list: seq<int>, answers: int -> Answers, now: int, timeoutMs: int, k: int)
    requires Inv(w) && k !in list
    ensures SameJob(w, ManageAll(w, list, answers, now, timeoutMs), k)
  {
    if list == [] {
      SelfKept(w.ledger, k);
    } else {
      var n := |list| - 1;
      var mid := ManageAll(w, list[..n], answers, now, timeoutMs);
      OthersPass(w, list[..n], answers, now, timeoutMs, k);
      ManageAllKeeps(w, list[..n], answers, now, timeoutMs);
      OtherStep(mid, list[n], k, answers(list[n]), now, timeoutMs);
      RunsKeptChain(w.ledger, mid.ledger, ManageAll(w, list, answers, now, timeoutMs).ledger, k);
    }
  }

  /** How often a pass steps the task of job `k`. */
  function Occurs(list: seq<int>, k: int): nat {
    if list == [] then 0 else Occurs(list[..|list| - 1], k) + if list[|list| - 1] == k then 1 else 0
  }

  lemma {:induction false} OccursNot(list: seq<int>, k: int)
    requires Occurs(list, k) == 0
    ensures k !in list
  {
    if list != [] {
      OccursNot(list[..|list| - 1], k);
    }
  }

  /** A pass is, for job `k`, one step of its task, taken in a state in which it stands as before the pass. */
  ghost predicate StepsOnce(w: World, w': World, k: int, a: Answers, now: int, timeoutMs: int) {
    exists mid :: Inv(mid) && SameJob(w, mid, k) && SameJob(ManageOne(mid, k, a, now, timeoutMs), w', k)
  }

  lemma {:induction false} PassStepsOnce(w: World, list: seq<int>, answers: int -> Answers, now: int, timeoutMs: int, k: int)
    requires Inv(w) && Occurs(list, k) == 1
    ensures StepsOnce(w, ManageAll(w, list, answers, now, timeoutMs), k, answers(k), now, timeoutMs)
  {
    var n := |list| - 1;
    var before := ManageAll(w, list[..n], answers, now, timeoutMs);
    ManageAllKeeps(w, list[..n], answers, now, timeoutMs);
    if list[n] == k {
      OccursNot(list[..n], k);
      OthersPass(w, list[..n], answers, now, timeoutMs, k);
      SelfKept(ManageOne(before, k, answers(k), now, timeoutMs).ledger, k);
    } else {
      PassStepsOnce(w, list[..n], answers, now, timeoutMs, k);
      var mid :| Inv(mid) && SameJob(w, mid, k) && SameJob(ManageOne(mid, k, answers(k), now, timeoutMs), before, k);
      OtherStep(before, list[n], k, answers(list[n]), now, timeoutMs);
      RunsKeptChain(ManageOne(mid, k, answers(k), now, timeoutMs).ledger, before.ledger,
                    ManageAll(w, list, answers, now, timeoutMs).ledger, k);
    }
  }

  // ---- Turns ----

  /** What a turn of the worker without a reload meets. */
  datatype Turn = Turn(
    look: int, waitTime: int, bad: set<int>, ready: set<int>,
    list: seq<int>, answers: int -> Answers, now: int, timeoutMs: int)

  ghost function Waited(w: World, u: Turn): World {
    Wait(Poll(w, u.look), u.waitTime, u.bad, u.ready)
  }

  ghost function After(w: World, u: Turn): World {
    ManageAll(Waited(w, u), u.list, u.answers, u.now, u.timeoutMs)
  }

  /** The worker slept in this turn, and the task's socket was good and reported. */
  ghost predicate SocketFired(w: World, u: Turn, k: int) {
    !NoSleep(Poll(w, u.look), u.waitTime) && k !in u.bad && k in u.ready
  }

  /** The two tasks differ at most in what a look at the clock and a wait may change of a good task. */
  predicate SameButQueue(t: Task, t': Task) {
    t' == t.(pendingRunCount := t'.pendingRunCount, nextRunTime := t'.nextRunTime, isSocketReady := t'.isSocketReady) &&
    t'.pendingRunCount >= t.pendingRunCount
  }

  ghost predicate OnlyTasksMoved(w: World, w': World) {
    w'.tasks.Keys == w.tasks.Keys && w'.jobs == w.jobs && w'.ledger.(accounts := w.ledger.accounts) == w.ledger
  }

  lemma SecondsQueue(t: Task, interval: int, now: int)
    ensures SameButQueue(t, SecondsTask(t, interval, now))
  {
  }

  lemma PolledTask(w: World, now: int, k: int)
    requires k in w.tasks
    ensures k in Poll(w, now).tasks && SameButQueue(w.tasks[k], Poll(w, now).tasks[k])
  {
    if k in w.jobs && w.jobs[k].schedule.seconds {
      SecondsQueue(w.tasks[k], w.jobs[k].schedule.interval, now);
    }
  }

  lemma OnlyTasksPolled(w: World, now: int)
    ensures OnlyTasksMoved(w, Poll(w, now))
  {
    SameKeys(w.tasks, Poll(w, now).tasks);
  }

  lemma OnlyTasksWaited(w: World, now: int, bad: set<int>, ready: set<int>)
    ensures OnlyTasksMoved(w, Wait(w, now, bad, ready))
  {
    SameKeys(w.tasks, Wait(w, now, bad, ready).tasks);
  }

  lemma SameKeys<K, V>(a: map<K, V>, b: map<K, V>)
    requires forall k :: k in a <==> k in b
    ensures a.Keys == b.Keys
  {
  }

  /** What the wait leaves of a task whose socket fired, or that has none to watch. */
  lemma WaitedTask(w: World, now: int, bad: set<int>, ready: set<int>, k: int)
    requires k in w.tasks
    ensures var t, t' := w.tasks[k], Wait(w, now, bad, ready).tasks[k];
            (Registered(t, true) && t.conn != 0 && !NoSleep(w, now) && k !in bad && k in ready ==> t' == t.(isSocketReady := true)) &&
            (t.state == Waiting || t.state == Start || t.state == Done ==> t' == t.(isSocketReady := false))
  {
    WaitMarks(w.tasks[k], !NoSleep(w, now), k in bad, k in ready);
  }

  /** The task a turn steps: the same but for its queue, and ready if its socket fired. */
  lemma SteppedTask(w: World, u: Turn, k: int)
    requires k in w.tasks
    ensures OnlyTasksMoved(w, Waited(w, u)) && k in Waited(w, u).tasks
    ensures var t, t' := w.tasks[k], Waited(w, u).tasks[k];
            (Registered(t, true) && t.conn != 0 && SocketFired(w, u, k) ==> SameButQueue(t, t') && t'.isSocketReady) &&
            (t.state == Waiting || t.state == Start || t.state == Done ==> SameButQueue(t, t'))
  {
    PolledTask(w, u.look, k);
    OnlyTasksPolled(w, u.look);
    OnlyTasksWaited(Poll(w, u.look), u.waitTime, u.bad, u.ready);
    WaitedTask(Poll(w, u.look), u.waitTime, u.bad, u.ready, k);
  }

  lemma WaitedKeeps(w: World, u: Turn)
    requires Inv(w)
    ensures Inv(Waited(w, u))
  {
    PollKeeps(w, u.look);
    WaitKeeps(Poll(w, u.look), u.waitTime, u.bad, u.ready);
  }

  /** A turn is, for job `k`, one step from its task after the wait. */
  lemma TurnSteps(w: World, u: Turn, k: int)
    requires Inv(w) && Occurs(u.list, k) == 1
    ensures Inv(After(w, u)) && StepsOnce(Waited(w, u), After(w, u), k, u.answers(k), u.now, u.timeoutMs)
  {
    WaitedKeeps(w, u);
    PassStepsOnce(Waited(w, u), u.list, u.answers, u.now, u.timeoutMs, k);
    ManageAllKeeps(Waited(w, u), u.list, u.answers, u.now, u.timeoutMs);
  }

  /** A turn is three events of the worker. */
  lemma TurnIsEvents(w: World, u: Turn)
    ensures After(w, u) ==
            Execute(w, [] + [Polled(u.look), Event.Waited(u.waitTime, u.bad, u.ready), Managed(u.list, u.answers, u.now, u.timeoutMs)])
  {
    ThreeEvents(w, [], Polled(u.look), Event.Waited(u.waitTime, u.bad, u.ready), Managed(u.list, u.answers, u.now, u.timeoutMs));
  }

  // ---- The stages of a run ----

  /** Job `k` is loaded and its task is in state `s`. */
  ghost predicate InState(w: World, k: int, s: TaskState) {
    k in w.jobs && k in w.tasks && w.tasks[k].isActive && w.tasks[k].state == s
  }

  /** Run `r` of job `k` has this row, this history and nothing more. */
  predicate RunIs(l: Ledger, k: int, r: int, row: Row, sent: bool, finals: seq<RunStatus>) {
    r in l.runs && l.runs[r].jobId == k && l.runs[r].sent == sent && l.runs[r].finals == finals && r in l.rows && l.rows[r] == row
  }

  lemma RunIsKept(l: Ledger, l': Ledger, k: int, r: int, row: Row, sent: bool, finals: seq<RunStatus>)
    requires RunsKept(l, l', k) && RunIs(l, k, r, row, sent, finals)
    ensures RunIs(l', k, r, row, sent, finals)
  {
    assert r in l'.runs && l'.runs[r].jobId == k && SameRun(l, l', r);
  }

  ghost predicate Queued(w: World, k: int) {
    InState(w, k, Waiting) && w.tasks[k].pendingRunCount > 0
  }

  ghost predicate Connects(w: World, k: int, r: int, deadline: int) {
    InState(w, k, Connecting) && RunIs(w.ledger, k, r, Row(k, Starting, None, None), false, []) &&
    var t := w.tasks[k]; t.runId == r && t.conn != 0 && t.polling == PollWriting && t.startDeadline == deadline
  }

  ghost predicate Sends(w: World, k: int, r: int, deadline: int, pid: int) {
    InState(w, k, Sending) && RunIs(w.ledger, k, r, Row(k, Executing, Some(pid), None), false, []) &&
    var t := w.tasks[k]; t.runId == r && t.conn != 0 && t.polling == PollWriting && t.startDeadline == deadline
  }

  ghost predicate Runs(w: World, k: int, r: int, deadline: int, pid: int) {
    InState(w, k, Running) && RunIs(w.ledger, k, r, Row(k, Executing, Some(pid), None), true, []) &&
    var t := w.tasks[k];
    t.runId == r && t.conn != 0 && t.polling == PollReading && t.runDeadline == deadline && !t.cancelRequested && !t.timedOut
  }

  ghost predicate Ended(w: World, k: int, r: int, pid: int) {
    InState(w, k, Done) && RunIs(w.ledger, k, r, Row(k, Succeeded, Some(pid), Some("OK")), true, [Succeeded]) &&
    w.tasks[k].conn == 0
  }

  // ---- One stage after another ----

  /** A pending run is moved to Start. */
  lemma TurnStarts(w: World, u: Turn, k: int)
    requires Inv(w) && Queued(w, k) && Occurs(u.list, k) == 1
    ensures Inv(After(w, u)) && InState(After(w, u), k, Start)
  {
    SteppedTask(w, u, k);
    TurnSteps(w, u, k);
    var mid :| Inv(mid) && SameJob(Waited(w, u), mid, k) &&
               SameJob(ManageOne(mid, k, u.answers(k), u.now, u.timeoutMs), After(w, u), k);
    WaitingStarts(mid.tasks[k], mid.ledger, u.answers(k), u.now, u.timeoutMs);
  }

  predicate ConnectionOpens(a: Answers) {
    a.connectStarted && a.nonblockingSet && !a.connectionBad
  }

  lemma StartConnects(k: int, t: Task, l: Ledger, a: Answers, now: int, timeoutMs: int)
    requires LedgerSound(l) && t.jobId == k && t.state == Start && t.isActive && ConnectionOpens(a)
    ensures var o := Manage(t, true, l, a, now, timeoutMs);
            l.nextRun !in l.runs && o.task.Some? &&
            o.task.value == t.(state := Connecting, runId := l.nextRun, conn := l.nextConn, polling := PollWriting,
                               startDeadline := now + 10_000_000) && l.nextConn != 0 &&
            RunIs(o.ledger, k, l.nextRun, Row(k, Starting, None, None), false, [])
  {
  }

  /** Start inserts a new row and has ten seconds for the connection. */
  lemma TurnConnects(w: World, u: Turn, k: int) returns (r: int)
    requires Inv(w) && InState(w, k, Start) && Occurs(u.list, k) == 1 && ConnectionOpens(u.answers(k))
    ensures Inv(After(w, u)) && r !in w.ledger.runs && Connects(After(w, u), k, r, u.now + 10_000_000)
  {
    SteppedTask(w, u, k);
    TurnSteps(w, u, k);
    var mid :| Inv(mid) && SameJob(Waited(w, u), mid, k) &&
               SameJob(ManageOne(mid, k, u.answers(k), u.now, u.timeoutMs), After(w, u), k);
    assert JobInv(k, TaskOf(mid, k), mid.ledger);
    StartConnects(k, mid.tasks[k], mid.ledger, u.answers(k), u.now, u.timeoutMs);
    r := mid.ledger.nextRun;
    RunIsKept(ManageOne(mid, k, u.answers(k), u.now, u.timeoutMs).ledger, After(w, u).ledger, k, r,
              Row(k, Starting, None, None), false, []);
  }

  lemma ConnectingSends(k: int, t: Task, l: Ledger, a: Answers, now: int, timeoutMs: int, r: int)
    requires t.jobId == k && t.state == Connecting && t.isActive && t.isSocketReady && t.runId == r && now < t.startDeadline
    requires !a.connectionBad && a.poll == PollOk && a.backendPid != 0
    requires RunIs(l, k, r, Row(k, Starting, None, None), false, [])
    ensures var o := Manage(t, true, l, a, now, timeoutMs);
            o.task == Some(t.(state := Sending, polling := PollWriting)) &&
            RunIs(o.ledger, k, r, Row(k, Executing, Some(a.backendPid), None), false, [])
  {
  }

  /** Once the connection is up, the row is running, with the server's pid. */
  lemma TurnSends(w: World, u: Turn, k: int, r: int, deadline: int)
    requires Inv(w) && Connects(w, k, r, deadline) && Occurs(u.list, k) == 1 && SocketFired(w, u, k) && u.now < deadline
    requires var a := u.answers(k); !a.connectionBad && a.poll == PollOk && a.backendPid != 0
    ensures Inv(After(w, u)) && Sends(After(w, u), k, r, deadline, u.answers(k).backendPid)
  {
    SteppedTask(w, u, k);
    TurnSteps(w, u, k);
    var mid :| Inv(mid) && SameJob(Waited(w, u), mid, k) &&
               SameJob(ManageOne(mid, k, u.answers(k), u.now, u.timeoutMs), After(w, u), k);
    assert JobInv(k, TaskOf(w, k), w.ledger);
    RunIsKept(Waited(w, u).ledger, mid.ledger, k, r, Row(k, Starting, None, None), false, []);
    ConnectingSends(k, mid.tasks[k], mid.ledger, u.answers(k), u.now, u.timeoutMs, r);
    RunIsKept(ManageOne(mid, k, u.answers(k), u.now, u.timeoutMs).ledger, After(w, u).ledger, k, r,
              Row(k, Executing, Some(u.answers(k).backendPid), None), false, []);
  }

  lemma SendingRuns(k: int, t: Task, l: Ledger, a: Answers, now: int, timeoutMs: int, r: int, row: Row)
    requires t.jobId == k && t.state == Sending && t.isActive && t.isSocketReady && t.runId == r && now < t.startDeadline
    requires !a.connectionBad && a.querySent && RunIs(l, k, r, row, false, [])
    ensures var o := Manage(t, true, l, a, now, timeoutMs);
            o.task == Some(t.(state := Running, polling := PollReading, startDeadline := 0,
                              runDeadline := now + timeoutMs * 1000, cancelRequested := false, timedOut := false)) &&
            RunIs(o.ledger, k, r, row, true, [])
  {
  }

  /** The query goes out, and has the statement timeout. */
  lemma TurnRuns(w: World, u: Turn, k: int, r: int, deadline: int, pid: int)
    requires Inv(w) && Sends(w, k, r, deadline, pid) && Occurs(u.list, k) == 1 && SocketFired(w, u, k) && u.now < deadline
    requires var a := u.answers(k); !a.connectionBad && a.querySent
    ensures Inv(After(w, u)) && Runs(After(w, u), k, r, u.now + u.timeoutMs * 1000, pid)
  {
    var row := Row(k, Executing, Some(pid), None);
    SteppedTask(w, u, k);
    TurnSteps(w, u, k);
    var mid :| Inv(mid) && SameJob(Waited(w, u), mid, k) &&
               SameJob(ManageOne(mid, k, u.answers(k), u.now, u.timeoutMs), After(w, u), k);
    assert JobInv(k, TaskOf(w, k), w.ledger);
    RunIsKept(Waited(w, u).ledger, mid.ledger, k, r, row, false, []);
    SendingRuns(k, mid.tasks[k], mid.ledger, u.answers(k), u.now, u.timeoutMs, r, row);
    RunIsKept(ManageOne(mid, k, u.answers(k), u.now, u.timeoutMs).ledger, After(w, u).ledger, k, r, row, true, []);
  }

  predicate AllGood(results: seq<QueryResult>) {
    forall i :: 0 <= i < |results| ==> Good(results[i])
  }

  lemma {:induction false} GoodReads(t: Task, results: seq<QueryResult>)
    requires AllGood(results)
    ensures ReadResults(t, results) == t
  {
    if results != [] {
      assert Good(results[0]);
      GoodReads(t, results[1..]);
    }
  }

  lemma RunningEnds(k: int, t: Task, l: Ledger, a: Answers, now: int, timeoutMs: int, r: int, pid: int)
    requires t.jobId == k && t.state == Running && t.isActive && t.isSocketReady && t.runId == r && now < t.runDeadline
    requires !a.connectionBad && a.inputConsumed && !a.busy && AllGood(a.results)
    requires RunIs(l, k, r, Row(k, Executing, Some(pid), None), true, [])
    ensures var o := Manage(t, true, l, a, now, timeoutMs);
            o.task == Some(t.(state := Done, conn := 0, polling := PollFailed, isSocketReady := false)) &&
            RunIs(o.ledger, k, r, Row(k, Succeeded, Some(pid), Some("OK")), true, [Succeeded])
  {
    GoodReads(t, a.results);
    FinishRecorded(CloseTask(t, l), r, Succeeded, Some("OK"));
  }

  /** Results without a fault end the run as succeeded. */
  lemma TurnEnds(w: World, u: Turn, k: int, r: int, deadline: int, pid: int)
    requires Inv(w) && Runs(w, k, r, deadline, pid) && Occurs(u.list, k) == 1 && SocketFired(w, u, k) && u.now < deadline
    requires var a := u.answers(k); !a.connectionBad && a.inputConsumed && !a.busy && AllGood(a.results)
    ensures Inv(After(w, u)) && Ended(After(w, u), k, r, pid)
  {
    SteppedTask(w, u, k);
    TurnSteps(w, u, k);
    var mid :| Inv(mid) && SameJob(Waited(w, u), mid, k) &&
               SameJob(ManageOne(mid, k, u.answers(k), u.now, u.timeoutMs), After(w, u), k);
    assert JobInv(k, TaskOf(w, k), w.ledger);
    RunIsKept(Waited(w, u).ledger, mid.ledger, k, r, Row(k, Executing, Some(pid), None), true, []);
    RunningEnds(k, mid.tasks[k], mid.ledger, u.answers(k), u.now, u.timeoutMs, r, pid);
    RunIsKept(ManageOne(mid, k, u.answers(k), u.now, u.timeoutMs).ledger, After(w, u).ledger, k, r,
              Row(k, Succeeded, Some(pid), Some("OK")), true, [Succeeded]);
  }

  lemma DoneKeepsRuns(t: Task, l: Ledger, a: Answers, now: int, timeoutMs: int)
    requires t.state == Done
    ensures var o := Manage(t, true, l, a, now, timeoutMs); o.ledger.runs == l.runs && o.ledger.rows == l.rows
  {
  }

  /** The task waits again, and the row stays. */
  lemma TurnRests(w: World, u: Turn, k: int, r: int, pid: int)
    requires Inv(w) && Ended(w, k, r, pid) && Occurs(u.list, k) == 1
    ensures Inv(After(w, u)) && InState(After(w, u), k, Waiting)
    ensures RunIs(After(w, u).ledger, k, r, Row(k, Succeeded, Some(pid), Some("OK")), true, [Succeeded])
  {
    var row := Row(k, Succeeded, Some(pid), Some("OK"));
    SteppedTask(w, u, k);
    TurnSteps(w, u, k);
    var mid :| Inv(mid) && SameJob(Waited(w, u), mid, k) &&
               SameJob(ManageOne(mid, k, u.answers(k), u.now, u.timeoutMs), After(w, u), k);
    RunIsKept(Waited(w, u).ledger, mid.ledger, k, r, row, true, [Succeeded]);
    DoneWaits(mid.tasks[k], true, mid.ledger, u.answers(k), u.now, u.timeoutMs);
    DoneKeepsRuns(mid.tasks[k], mid.ledger, u.answers(k), u.now, u.timeoutMs);
    RunIsKept(ManageOne(mid, k, u.answers(k), u.now, u.timeoutMs).ledger, After(w, u).ledger, k, r, row, true, [Succeeded]);
  }

  /** The socket did not fire, and is good: the task is stepped as it was, not ready. */
  lemma WaitedUnready(w: World, now: int, bad: set<int>, ready: set<int>, k: int)
    requires k in w.tasks && w.tasks[k].conn != 0 && k !in bad && (NoSleep(w, now) || k !in ready)
    ensures Wait(w, now, bad, ready).tasks[k] == w.tasks[k].(isSocketReady := false)
  {
    WaitMarks(w.tasks[k], !NoSleep(w, now), k in bad, k in ready);
  }

  lemma UnreadyStays(t: Task, l: Ledger, a: Answers, now: int, timeoutMs: int)
    requires (t.state == Connecting || t.state == Sending || t.state == Running) && t.isActive && !t.isSocketReady
    requires !a.connectionBad && if t.state == Running then now < t.runDeadline || t.cancelRequested else now < t.startDeadline
    ensures Manage(t, true, l, a, now, timeoutMs) == Outcome(Some(t), l)
  {
  }

  /** A turn in which the socket does not fire costs nothing but time: before its deadline the run stays where it is. */
  lemma TurnIdles(w: World, u: Turn, k: int, r: int, row: Row, sent: bool)
    requires Inv(w) && k in w.jobs && k in w.tasks && w.tasks[k].isActive && w.tasks[k].conn != 0
    requires RunIs(w.ledger, k, r, row, sent, []) && Occurs(u.list, k) == 1
    requires !u.answers(k).connectionBad && k !in u.bad && !SocketFired(w, u, k)
    requires var t := w.tasks[k];
             (t.state == Connecting || t.state == Sending || t.state == Running) &&
             if t.state == Running then u.now < t.runDeadline || t.cancelRequested else u.now < t.startDeadline
    ensures Inv(After(w, u)) && k in After(w, u).jobs && k in After(w, u).tasks
    ensures SameButQueue(w.tasks[k], After(w, u).tasks[k]) && RunIs(After(w, u).ledger, k, r, row, sent, [])
  {
    PolledTask(w, u.look, k);
    OnlyTasksPolled(w, u.look);
    WaitedUnready(Poll(w, u.look), u.waitTime, u.bad, u.ready, k);
    OnlyTasksWaited(Poll(w, u.look), u.waitTime, u.bad, u.ready);
    TurnSteps(w, u, k);
    var mid :| Inv(mid) && SameJob(Waited(w, u), mid, k) &&
               SameJob(ManageOne(mid, k, u.answers(k), u.now, u.timeoutMs), After(w, u), k);
    UnreadyStays(mid.tasks[k], mid.ledger, u.answers(k), u.now, u.timeoutMs);
    RunIsKept(Waited(w, u).ledger, mid.ledger, k, r, row, sent, []);
    RunIsKept(mid.ledger, After(w, u).ledger, k, r, row, sent, []);
  }

  // ---- The whole run ----

  /** The pass of the turn steps the task once. */
  predicate Passes(u: Turn, k: int) { Occurs(u.list, k) == 1 }

  predicate Opens(u: Turn, k: int) { Passes(u, k) && ConnectionOpens(u.answers(k)) }

  /** In this turn, in time, the connection is up. */
  ghost predicate ComesUp(w: World, u: Turn, k: int, deadline: int) {
    var a := u.answers(k);
    Passes(u, k) && SocketFired(w, u, k) && u.now < deadline && !a.connectionBad && a.poll == PollOk && a.backendPid != 0
  }

  /** In this turn, in time, the query is sent. */
  ghost predicate GoesOut(w: World, u: Turn, k: int, deadline: int) {
    var a := u.answers(k);
    Passes(u, k) && SocketFired(w, u, k) && u.now < deadline && !a.connectionBad && a.querySent
  }

  /** In this turn, in time, all results are in and none is bad. */
  ghost predicate ComesBack(w: World, u: Turn, k: int, deadline: int) {
    var a := u.answers(k);
    Passes(u, k) && SocketFired(w, u, k) && u.now < deadline && !a.connectionBad && a.inputConsumed && !a.busy && AllGood(a.results)
  }

  lemma FirstThreeTurns(w0: World, w1: World, w2: World, w3: World, u1: Turn, u2: Turn, u3: Turn, k: int) returns (r: int)
    requires Inv(w0) && Queued(w0, k) && w1 == After(w0, u1) && w2 == After(w1, u2) && w3 == After(w2, u3)
    requires Passes(u1, k) && Opens(u2, k) && ComesUp(w2, u3, k, u2.now + 10_000_000)
    ensures Inv(w3) && r !in w0.ledger.runs && InState(w1, k, Start)
    ensures Connects(w2, k, r, u2.now + 10_000_000)
    ensures Sends(w3, k, r, u2.now + 10_000_000, u3.answers(k).backendPid)
  {
    TurnStarts(w0, u1, k);
    r := TurnConnects(w1, u2, k);
    TurnSends(w2, u3, k, r, u2.now + 10_000_000);
    FirstRunIsNew(w0, u1, r);
  }

  lemma LastThreeTurns(w3: World, w4: World, w5: World, w6: World, u4: Turn, u5: Turn, u6: Turn,
                       k: int, r: int, deadline: int, pid: int)
    requires Inv(w3) && Sends(w3, k, r, deadline, pid) && w4 == After(w3, u4) && w5 == After(w4, u5) && w6 == After(w5, u6)
    requires GoesOut(w3, u4, k, deadline) && ComesBack(w4, u5, k, u4.now + u4.timeoutMs * 1000) && Passes(u6, k)
    ensures Runs(w4, k, r, u4.now + u4.timeoutMs * 1000, pid) && Ended(w5, k, r, pid) && InState(w6, k, Waiting)
    ensures RunIs(w6.ledger, k, r, Row(k, Succeeded, Some(pid), Some("OK")), true, [Succeeded])
  {
    TurnRuns(w3, u4, k, r, deadline, pid);
    TurnEnds(w4, u5, k, r, u4.now + u4.timeoutMs * 1000, pid);
    TurnRests(w5, u6, k, r, pid);
  }

  /**
   A pending run that meets no trouble succeeds. From any sound state, whatever the other jobs do:
   a new row is 'starting' after two turns, 'running' with the server's pid after three, its query
   is sent after four, it is 'succeeded' with the message OK after five, and after six the task
   waits again and the row stays.
   */
  lemma UntroubledRunSucceeds(w0: World, w1: World, w2: World, w3: World, w4: World, w5: World, w6: World,
                              u1: Turn, u2: Turn, u3: Turn, u4: Turn, u5: Turn, u6: Turn, k: int) returns (r: int)
    requires Inv(w0) && Queued(w0, k)
    requires w1 == After(w0, u1) && w2 == After(w1, u2) && w3 == After(w2, u3)
    requires w4 == After(w3, u4) && w5 == After(w4, u5) && w6 == After(w5, u6)
    requires Passes(u1, k) && Opens(u2, k) && Passes(u6, k)
    requires ComesUp(w2, u3, k, u2.now + 10_000_000) && GoesOut(w3, u4, k, u2.now + 10_000_000)
    requires ComesBack(w4, u5, k, u4.now + u4.timeoutMs * 1000)
    ensures var pid := u3.answers(k).backendPid;
            r !in w0.ledger.runs && InState(w1, k, Start) &&
            Connects(w2, k, r, u2.now + 10_000_000) && Sends(w3, k, r, u2.now + 10_000_000, pid) &&
            Runs(w4, k, r, u4.now + u4.timeoutMs * 1000, pid) && Ended(w5, k, r, pid) && InState(w6, k, Waiting) &&
            RunIs(w6.ledger, k, r, Row(k, Succeeded, Some(pid), Some("OK")), true, [Succeeded])
  {
    r := FirstThreeTurns(w0, w1, w2, w3, u1, u2, u3, k);
    LastThreeTurns(w3, w4, w5, w6, u4, u5, u6, k, r, u2.now + 10_000_000, u3.answers(k).backendPid);
  }

  lemma FirstRunIsNew(w: World, u: Turn, r: int)
    requires Inv(w) && r !in After(w, u).ledger.runs
    ensures r !in w.ledger.runs
  {
    WaitedKeeps(w, u);
    OnlyTasksPolled(w, u.look);
    OnlyTasksWaited(Poll(w, u.look), u.waitTime, u.bad, u.ready);
    if r in w.ledger.runs {
      PassKeepsRuns(Waited(w, u), u.list, u.answers, u.now, u.timeoutMs, r);
    }
  }

  lemma {:induction false} PassKeepsRuns(w: World, list: seq<int>, answers: int -> Answers, now: int, timeoutMs: int, r: int)
    requires Inv(w) && r in w.ledger.runs
    ensures r in ManageAll(w, list, answers, now, timeoutMs).ledger.runs
  {
    if list != [] {
      var n := |list| - 1;
      var mid := ManageAll(w, list[..n], answers, now, timeoutMs);
      PassKeepsRuns(w, list[..n], answers, now, timeoutMs, r);
      ManageAllKeeps(w, list[..n], answers, now, timeoutMs);
      if list[n] in mid.tasks {
        assert JobInv(list[n], TaskOf(mid, list[n]), mid.ledger);
        ManageKeeps(list[n], mid.tasks[list[n]], list[n] in mid.jobs, mid.ledger, answers(list[n]), now, timeoutMs);
      }
    }
  }
}
