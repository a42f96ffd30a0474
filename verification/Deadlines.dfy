/** Deadlines are met after every pass over the tasks, and a lost job is cleared away in two. */
module Deadlines {
  import opened Options
  import opened CronTime
  import opened TaskMachine
  import opened TaskInvariant
  import opened World

  // ---- Deadlines ----

  /** No connect deadline has passed unnoticed, and no run deadline without a cancel. */
  predicate MeetsDeadlines(t: Task, now: int) {
    (t.state == Connecting || t.state == Sending ==> now < t.startDeadline) &&
    (t.state == Running ==> t.cancelRequested || now < t.runDeadline)
  }

  /** A running task that has not been cancelled carries a run deadline. */
  predicate HasDeadline(t: Task) {
    t.state == Running && !t.cancelRequested ==> t.runDeadline > 0
  }

  lemma ReadDeadlines(t: Task, l: Ledger, a: Answers, now: int)
    requires t.state == Running && HasDeadline(t) && MeetsDeadlines(t, now)
    ensures var t' := ReadRunning(t, l, a).task.value; HasDeadline(t') && MeetsDeadlines(t', now)
  {
    ReadResultsMarks(t, a.results);
  }

  lemma RunningDeadlines(t: Task, l: Ledger, a: Answers, now: int)
    requires t.state == Running && HasDeadline(t)
    ensures ManageRunning(t, l, a, now).task.Some?
    ensures var t' := ManageRunning(t, l, a, now).task.value; HasDeadline(t') && MeetsDeadlines(t', now)
  {
    if RunTimeoutReached(t, now) {
      var cancelled := AwaitCancel(t);
      ReadDeadlines(cancelled, MarkCancel(l, t.runId), a, now);
    } else {
      ReadDeadlines(t, l, a, now);
    }
  }

  /** What `StepMeetsDeadlines` says of an outcome. */
  predicate LeavesDeadlines(o: Outcome, now: int, timeoutMs: int) {
    o.task.Some? ==>
      (timeoutMs > 0 ==> MeetsDeadlines(o.task.value, now)) && (timeoutMs >= 0 ==> HasDeadline(o.task.value))
  }

  lemma WaitingDeadlines(t: Task, l: Ledger, now: int, timeoutMs: int)
    requires t.state == Waiting
    ensures LeavesDeadlines(ManageWaiting(t, l), now, timeoutMs)
  {
  }

  lemma StartDeadlines(t: Task, l: Ledger, a: Answers, now: int, timeoutMs: int)
    ensures LeavesDeadlines(ManageStart(t, l, a, now), now, timeoutMs)
  {
  }

  lemma ConnectingDeadlines(t: Task, l: Ledger, a: Answers, now: int, timeoutMs: int)
    requires t.state == Connecting
    ensures LeavesDeadlines(ManageConnecting(t, l, a, now), now, timeoutMs)
  {
  }

  lemma SendingDeadlines(t: Task, l: Ledger, a: Answers, now: int, timeoutMs: int)
    requires t.state == Sending && now > 0
    ensures LeavesDeadlines(ManageSending(t, l, a, now, timeoutMs), now, timeoutMs)
  {
  }

  lemma EndDeadlines(t: Task, l: Ledger, now: int, timeoutMs: int)
    ensures LeavesDeadlines(ManageError(t, l), now, timeoutMs) && LeavesDeadlines(ManageDone(t, l), now, timeoutMs)
  {
  }

  /** After a step at `now` with a positive statement timeout, the task has no overdue deadline. */
  lemma StepMeetsDeadlines(t: Task, jobLoaded: bool, l: Ledger, a: Answers, now: int, timeoutMs: int)
    requires HasDeadline(t) && now > 0
    ensures LeavesDeadlines(Manage(t, jobLoaded, l, a, now, timeoutMs), now, timeoutMs)
  {
    if !jobLoaded && t.state != Done {
      var (t', l') := LoseJob(t, l);
      EndDeadlines(t', l', now, timeoutMs);
    } else {
      match t.state
      case Waiting => WaitingDeadlines(t, l, now, timeoutMs);
      case Start => StartDeadlines(t, l, a, now, timeoutMs);
      case Connecting => ConnectingDeadlines(t, l, a, now, timeoutMs);
      case Sending => SendingDeadlines(t, l, a, now, timeoutMs);
      case Running => RunningDeadlines(t, l, a, now);
      case Error => EndDeadlines(t, l, now, timeoutMs);
      case Done => EndDeadlines(t, l, now, timeoutMs);
    }
  }

  /** A zero timeout is the only way to leave a task overdue: the query just sent is due at once. */
  lemma ZeroTimeoutIsOverdue(t: Task, l: Ledger, a: Answers, now: int, timeoutMs: int)
    requires t.state == Sending && timeoutMs >= 0 && ManageSending(t, l, a, now, timeoutMs).task.value.state == Running
    ensures MeetsDeadlines(ManageSending(t, l, a, now, timeoutMs).task.value, now) <==> timeoutMs > 0
  {
  }

  ghost predicate AllHaveDeadlines(w: World) {
    forall k :: k in w.tasks ==> HasDeadline(w.tasks[k])
  }

  lemma {:induction false} PassMeetsDeadlines(w: World, list: seq<int>, answers: int -> Answers, now: int, timeoutMs: int)
    requires AllHaveDeadlines(w) && now > 0 && timeoutMs >= 0
    ensures var w' := ManageAll(w, list, answers, now, timeoutMs);
            AllHaveDeadlines(w') && w'.tasks.Keys <= w.tasks.Keys &&
            (timeoutMs > 0 ==> forall k :: k in list && k in w'.tasks ==> MeetsDeadlines(w'.tasks[k], now))
  {
    if list != [] {
      var n := |list| - 1;
      PassMeetsDeadlines(w, list[..n], answers, now, timeoutMs);
      var mid := ManageAll(w, list[..n], answers, now, timeoutMs);
      var next := list[n];
      assert forall k :: k in mid.tasks ==> HasDeadline(mid.tasks[k]);
      if next in mid.tasks {
        assert HasDeadline(mid.tasks[next]);
        StepMeetsDeadlines(mid.tasks[next], next in mid.jobs, mid.ledger, answers(next), now, timeoutMs);
      }
      assert forall k :: k in list ==> k == list[n] || k in list[..n];
    }
  }

  /** Clock readings are after 2000 and the configured timeout is not negative. */
  predicate TimedEvent(e: Event) {
    e.Managed? ==> e.now > 0 && e.timeoutMs >= 0
  }

  lemma ReloadKeepsDeadlines(w: World, rows: seq<JobRow>, entries: int -> Task)
    requires AllHaveDeadlines(w)
    ensures AllHaveDeadlines(Reload(w, rows, entries))
  {
  }

  lemma PollKeepsDeadlines(w: World, now: int)
    requires AllHaveDeadlines(w)
    ensures AllHaveDeadlines(Poll(w, now))
  {
  }

  lemma WaitKeepsDeadlines(w: World, now: int, bad: set<int>, ready: set<int>)
    requires AllHaveDeadlines(w)
    ensures AllHaveDeadlines(Wait(w, now, bad, ready))
  {
  }

  lemma EventKeepsDeadlines(w: World, e: Event)
    requires AllHaveDeadlines(w) && TimedEvent(e)
    ensures AllHaveDeadlines(Step(w, e))
  {
    match e
    case Reloaded(rows, entries) => ReloadKeepsDeadlines(w, rows, entries);
    case Polled(now) => PollKeepsDeadlines(w, now);
    case Waited(now, bad, ready) => WaitKeepsDeadlines(w, now, bad, ready);
    case Managed(list, answers, now, timeoutMs) => PassMeetsDeadlines(w, list, answers, now, timeoutMs);
    case RowsDeleted(_) =>
  }

  lemma {:induction false} RunKeepsDeadlines(w: World, events: seq<Event>)
    requires AllHaveDeadlines(w) && forall i :: 0 <= i < |events| ==> TimedEvent(events[i])
    ensures AllHaveDeadlines(Execute(w, events))
  {
    if events != [] {
      RunKeepsDeadlines(w, events[..|events| - 1]);
      EventKeepsDeadlines(Execute(w, events[..|events| - 1]), events[|events| - 1]);
    }
  }

  ghost predicate NoneOverdue(w: World, now: int) {
    forall k :: k in w.tasks ==> MeetsDeadlines(w.tasks[k], now)
  }

  lemma FullPassMeetsDeadlines(w: World, list: seq<int>, answers: int -> Answers, now: int, timeoutMs: int)
    requires AllHaveDeadlines(w) && now > 0 && timeoutMs > 0
    requires forall k :: k in w.tasks ==> k in list
    ensures NoneOverdue(ManageAll(w, list, answers, now, timeoutMs), now)
  {
    PassMeetsDeadlines(w, list, answers, now, timeoutMs);
  }

  lemma TimedRunHasDeadlines(events: seq<Event>)
    requires forall i :: 0 <= i < |events| ==> TimedEvent(events[i])
    ensures AllHaveDeadlines(Execute(EMPTY_WORLD, events))
  {
    RunKeepsDeadlines(EMPTY_WORLD, events);
  }

  /**
   Deadline safety: after any run, a pass over all tasks at time `now` leaves none connecting or
   sending past its start deadline, and none running past its run deadline uncancelled.
   */
  lemma DeadlinesMet(events: seq<Event>, list: seq<int>, answers: int -> Answers, now: int, timeoutMs: int)
    requires forall i :: 0 <= i < |events| ==> TimedEvent(events[i])
    requires now > 0 && timeoutMs > 0
    requires forall k :: k in Execute(EMPTY_WORLD, events).tasks ==> k in list
    ensures NoneOverdue(Step(Execute(EMPTY_WORLD, events), Managed(list, answers, now, timeoutMs)), now)
  {
    TimedRunHasDeadlines(events);
    FullPassMeetsDeadlines(Execute(EMPTY_WORLD, events), list, answers, now, timeoutMs);
  }

  /** `PQcancel` is called at most once for a run, and only after its query was sent. */
  lemma CancelledAtMostOnce(events: seq<Event>, r: int)
    requires r in Execute(EMPTY_WORLD, events).ledger.runs
    ensures var run := Execute(EMPTY_WORLD, events).ledger.runs[r]; run.cancels <= 1 && (run.cancels == 1 ==> run.sent)
  {
    var w := Execute(EMPTY_WORLD, events);
    EveryReachableWorld(events);
    var k := w.ledger.runs[r].jobId;
    assert JobInv(k, TaskOf(w, k), w.ledger) && RunSound(w.ledger, r);
  }

  // ---- Reclamation ----

  /** How many more steps a task without a job takes to be removed. */
  function StepsLeft(t: Option<Task>): nat {
    if t.None? then 0 else if t.value.state != Done then 1 else 2
  }

  /** One step of a task whose job is gone takes it nearer to removal. */
  lemma LostTaskSteps(t: Task, l: Ledger, a: Answers, now: int, timeoutMs: int)
    requires !t.isActive
    ensures StepsLeft(Manage(t, false, l, a, now, timeoutMs).task) == StepsLeft(Some(t)) - 1
  {
  }

  ghost predicate Lost(w: World, k: int) {
    k !in w.jobs && (k in w.tasks ==> !w.tasks[k].isActive)
  }

  lemma ManageOneLost(w: World, j: int, k: int, a: Answers, now: int, timeoutMs: int)
    requires Lost(w, k)
    ensures var w' := ManageOne(w, j, a, now, timeoutMs);
            Lost(w', k) && StepsLeft(TaskOf(w', k)) <= StepsLeft(TaskOf(w, k)) &&
            (j == k && k in w.tasks ==> StepsLeft(TaskOf(w', k)) < StepsLeft(TaskOf(w, k)))
  {
    if j in w.tasks {
      ManageActivity(w.tasks[j], j in w.jobs, w.ledger, a, now, timeoutMs);
      if j == k {
        LostTaskSteps(w.tasks[k], w.ledger, a, now, timeoutMs);
      }
    }
  }

  lemma {:induction false} PassNearsRemoval(w: World, list: seq<int>, k: int, answers: int -> Answers, now: int, timeoutMs: int)
    requires Lost(w, k)
    ensures var w' := ManageAll(w, list, answers, now, timeoutMs);
            Lost(w', k) && StepsLeft(TaskOf(w', k)) <= StepsLeft(TaskOf(w, k)) &&
            (k in list && k in w.tasks ==> StepsLeft(TaskOf(w', k)) < StepsLeft(TaskOf(w, k)))
  {
    if list != [] {
      var n := |list| - 1;
      PassNearsRemoval(w, list[..n], k, answers, now, timeoutMs);
      ManageOneLost(ManageAll(w, list[..n], answers, now, timeoutMs), list[n], k, answers(list[n]), now, timeoutMs);
      assert k in list ==> k == list[n] || k in list[..n];
    }
  }

  /** How many passes of a run step the task of job `k`. */
  function Passes(events: seq<Event>, k: int): nat {
    if events == [] then 0
    else
      var e := events[|events| - 1];
      Passes(events[..|events| - 1], k) + (if e.Managed? && k in e.list then 1 else 0)
  }

  lemma {:induction false} PassesNearRemoval(w: World, events: seq<Event>, k: int)
    requires Lost(w, k) && forall i :: 0 <= i < |events| ==> !events[i].Reloaded?
    ensures var w' := Execute(w, events);
            Lost(w', k) && StepsLeft(TaskOf(w', k)) <= StepsLeft(TaskOf(w, k)) &&
            (k in w'.tasks ==> StepsLeft(TaskOf(w', k)) + Passes(events, k) <= StepsLeft(TaskOf(w, k)))
  {
    if events != [] {
      var before, e := events[..|events| - 1], events[|events| - 1];
      PassesNearRemoval(w, before, k);
      if e.Managed? {
        PassNearsRemoval(Execute(w, before), e.list, k, e.answers, e.now, e.timeoutMs);
      }
    }
  }

  /**
   Reclamation: once a job is gone, two passes over its task remove it (one, unless it was Done),
   whatever else happens short of a reload; by then each of its connections is finished exactly
   once and each of its runs finalised exactly once.
   */
  lemma LostTaskReclaimed(w: World, events: seq<Event>, k: int)
    requires Inv(w) && k !in w.jobs && forall i :: 0 <= i < |events| ==> !events[i].Reloaded?
    requires Passes(events, k) >= StepsLeft(TaskOf(w, k))
    ensures StepsLeft(TaskOf(w, k)) <= 2
    ensures var w' := Execute(w, events);
            k !in w'.tasks &&
            (forall r :: r in w'.ledger.runs && w'.ledger.runs[r].jobId == k ==> |w'.ledger.runs[r].finals| == 1) &&
            (forall c :: c in w'.ledger.conns && w'.ledger.conns[c].jobId == k ==> w'.ledger.conns[c].closes == 1)
  {
    var w' := Execute(w, events);
    PassesNearRemoval(w, events, k);
    EveryRunKeeps(w, events);
    assert JobInv(k, TaskOf(w', k), w'.ledger);
    forall r | r in w'.ledger.runs && w'.ledger.runs[r].jobId == k ensures |w'.ledger.runs[r].finals| == 1 {
      assert RunSound(w'.ledger, r);
    }
  }
}
