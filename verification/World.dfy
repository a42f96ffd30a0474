/**
 The whole worker on values: both tables, the outside world and the remembered minute, and the
 events that move it. A run is any sequence of events, so every interleaving of reloads, clock
 readings, socket readiness and libpq answers is one.
 */
module World {
  import opened Options
  import opened CronTime
  import opened CronExpr
  import opened CronParser
  import opened Scheduler
  import opened TaskMachine
  import opened TaskInvariant

  /** A row of nedo_cron.jobs. */
  datatype JobRow = JobRow(jobId: int, scheduleText: string, command: string)

  /** `CronJob` */
  datatype Job = Job(scheduleText: string, schedule: Schedule, command: string)

  datatype World = World(jobs: map<int, Job>, tasks: map<int, Task>, ledger: Ledger, lastMinute: int)

  const EMPTY_WORLD := World(map[], map[], EMPTY_LEDGER, 0)

  function TaskOf(w: World, k: int): Option<Task> {
    if k in w.tasks then Some(w.tasks[k]) else None
  }

  // ---- Reloading ----

  /** `TupleToJob`: a row whose schedule does not parse is left out of the table. */
  ghost function LoadRow(jobs: map<int, Job>, row: JobRow): map<int, Job> {
    match Parse(row.scheduleText)
    case Err(_) => jobs
    case Ok(schedule) => jobs[row.jobId := Job(row.scheduleText, schedule, row.command)]
  }

  /** `LoadJobsList` */
  ghost function LoadJobs(rows: seq<JobRow>): map<int, Job> {
    if rows == [] then map[] else LoadRow(LoadJobs(rows[..|rows| - 1]), rows[|rows| - 1])
  }

  /** `ReloadCronJobs`; `entries` is what a new table entry holds before it is initialised. */
  ghost function Reload(w: World, rows: seq<JobRow>, entries: int -> Task): World {
    var jobs := LoadJobs(rows);
    w.(jobs := jobs,
       tasks := map k | k in w.tasks.Keys + jobs.Keys ::
         if k in w.tasks then w.tasks[k].(isActive := k in jobs) else InitTask(entries(k), k))
  }

  /** The row's text spells a legal schedule. */
  ghost predicate GoodRow(row: JobRow) {
    exists e :: Legal(e) && Spelled(row.scheduleText, e)
  }

  lemma GoodRowParses(row: JobRow)
    ensures Parse(row.scheduleText).Ok? <==> GoodRow(row)
  {
    RejectedExactly(row.scheduleText);
  }

  /** Some row of job `k` is good. */
  ghost predicate HasGoodRow(rows: seq<JobRow>, k: int) {
    exists i :: 0 <= i < |rows| && rows[i].jobId == k && GoodRow(rows[i])
  }

  lemma HasGoodRowLast(rows: seq<JobRow>, k: int)
    requires rows != []
    ensures var n := |rows| - 1;
            HasGoodRow(rows, k) <==> HasGoodRow(rows[..n], k) || (rows[n].jobId == k && GoodRow(rows[n]))
  {
    var n := |rows| - 1;
    if HasGoodRow(rows[..n], k) {
      var i :| 0 <= i < n && rows[..n][i].jobId == k && GoodRow(rows[..n][i]);
      assert rows[i].jobId == k && GoodRow(rows[i]);
    }
    if HasGoodRow(rows, k) {
      var i :| 0 <= i < |rows| && rows[i].jobId == k && GoodRow(rows[i]);
      assert i < n ==> rows[..n][i].jobId == k && GoodRow(rows[..n][i]);
    }
  }

  /** The job table holds exactly the ids of the rows whose text spells a legal schedule. */
  lemma {:induction false} LoadsGoodRows(rows: seq<JobRow>, k: int)
    ensures k in LoadJobs(rows) <==> HasGoodRow(rows, k)
  {
    if rows != [] {
      var n := |rows| - 1;
      LoadsGoodRows(rows[..n], k);
      HasGoodRowLast(rows, k);
      GoodRowParses(rows[n]);
    }
  }

  lemma GoodRowLoads(jobs: map<int, Job>, row: JobRow, e: Expr)
    requires Legal(e) && Spelled(row.scheduleText, e)
    ensures LoadRow(jobs, row) == jobs[row.jobId := Job(row.scheduleText, Meaning(e), row.command)]
  {
    ParsedMeaning(row.scheduleText, e);
  }

  /** A row keeps other jobs as they are, and its own too unless it is good. */
  lemma LoadRowKeeps(jobs: map<int, Job>, row: JobRow, k: int)
    requires row.jobId == k ==> !GoodRow(row)
    ensures (k in LoadRow(jobs, row) <==> k in jobs) && (k in jobs ==> LoadRow(jobs, row)[k] == jobs[k])
  {
    GoodRowParses(row);
  }

  ghost predicate NoLaterGoodRow(rows: seq<JobRow>, i: int) {
    0 <= i < |rows| && forall j :: i < j < |rows| && rows[j].jobId == rows[i].jobId ==> !GoodRow(rows[j])
  }

  lemma NoLaterInit(rows: seq<JobRow>, i: nat)
    requires NoLaterGoodRow(rows, i) && i < |rows| - 1
    ensures NoLaterGoodRow(rows[..|rows| - 1], i) && rows[..|rows| - 1][i] == rows[i]
  {
    var init := rows[..|rows| - 1];
    forall j | i < j < |init| && init[j].jobId == rows[i].jobId ensures !GoodRow(init[j]) {
      assert init[j] == rows[j];
    }
  }

  /** For each it holds the text, the meaning of the text and the command of the last such row. */
  lemma {:induction false} LoadsLastGoodRow(rows: seq<JobRow>, i: nat, e: Expr)
    requires NoLaterGoodRow(rows, i) && Legal(e) && Spelled(rows[i].scheduleText, e)
    ensures rows[i].jobId in LoadJobs(rows)
    ensures LoadJobs(rows)[rows[i].jobId] == Job(rows[i].scheduleText, Meaning(e), rows[i].command)
  {
    var n := |rows| - 1;
    if i == n {
      GoodRowLoads(LoadJobs(rows[..n]), rows[n], e);
    } else {
      NoLaterInit(rows, i);
      LoadsLastGoodRow(rows[..n], i, e);
      LoadRowKeeps(LoadJobs(rows[..n]), rows[n], rows[i].jobId);
    }
  }

  /**
   A reload keeps every task, active exactly if its job has a good row, and gives every other job
   with a good row a task that waits with nothing pending and no due point.
   */
  lemma ReloadTables(w: World, rows: seq<JobRow>, entries: int -> Task, k: int)
    ensures var w' := Reload(w, rows, entries);
            w'.ledger == w.ledger && w'.lastMinute == w.lastMinute &&
            (k in w'.jobs <==> HasGoodRow(rows, k)) &&
            (k in w'.tasks <==> k in w.tasks || HasGoodRow(rows, k)) &&
            (k in w.tasks ==> w'.tasks[k] == w.tasks[k].(isActive := HasGoodRow(rows, k))) &&
            (k !in w.tasks && HasGoodRow(rows, k) ==>
              w'.tasks[k] == Task(k, 0, Waiting, entries(k).polling, 0, entries(k).startDeadline, 0, 0, 0, None, true, false, false, false))
  {
    LoadsGoodRows(rows, k);
  }

  // ---- Looking for due jobs ----

  /** What one look does to the task of a loaded job. */
  function PollTask(t: Task, s: Schedule, lastMinute: int, now: int): Task {
    if s.seconds then SecondsTask(t, s.interval, now)
    else t.(pendingRunCount := t.pendingRunCount + |PollFires(s, lastMinute, now)|)
  }

  function PollAccount(a: Account, t: Task, s: Schedule, lastMinute: int, now: int): Account {
    if !s.seconds then a.(fires := a.fires + PollFires(s, lastMinute, now))
    else if !SecondsDue(t, s.interval, now) then a
    else a.(points := a.points + [now], ticks := a.ticks + if t.pendingRunCount == 0 then 1 else 0)
  }

  /** `StartPendingTasks` */
  function Poll(w: World, now: int): World {
    var last := Remembered(w.lastMinute, now);
    w.(tasks := map k | k in w.tasks ::
         if k in w.jobs then PollTask(w.tasks[k], w.jobs[k].schedule, last, now) else w.tasks[k],
       ledger := w.ledger.(accounts := map k | k in w.tasks.Keys + w.ledger.accounts.Keys ::
         if k in w.tasks && k in w.jobs
         then PollAccount(AccountOf(w.ledger, k), w.tasks[k], w.jobs[k].schedule, last, now)
         else AccountOf(w.ledger, k)),
       lastMinute := NextMinute(last, now))
  }

  // ---- Waiting ----

  /** A moment at which the task wants the worker awake. */
  predicate IsDeadline(w: World, t: Task, x: int) {
    (t.jobId in w.jobs && w.jobs[t.jobId].schedule.seconds && t.nextRunTime != 0 && x == t.nextRunTime) ||
    ((t.state == Connecting || t.state == Sending) && t.startDeadline != 0 && x == t.startDeadline) ||
    (t.state == Running && t.runDeadline != 0 && !t.cancelRequested && x == t.runDeadline)
  }

  predicate HasWaitingRun(t: Task) { t.state == Waiting && t.pendingRunCount > 0 }

  /** `d` is the earliest of the next minute and all deadlines. */
  ghost predicate Earliest(w: World, now: int, d: int) {
    (d == EndOfMinute(now) || exists k :: k in w.tasks && IsDeadline(w, w.tasks[k], d)) &&
    d <= EndOfMinute(now) && forall k, x :: k in w.tasks && IsDeadline(w, w.tasks[k], x) ==> d <= x
  }

  /** The timeout is zero, so `WaitForEvent` returns at once. */
  ghost predicate NoSleep(w: World, now: int) {
    (exists k :: k in w.tasks && HasWaitingRun(w.tasks[k])) ||
    exists d :: Earliest(w, now, d) && d - now < 1000
  }

  /** `WaitForEvent`: the sockets found bad, and the sockets reported ready. */
  ghost function Wait(w: World, now: int, bad: set<int>, ready: set<int>): World {
    var slept := !NoSleep(w, now);
    w.(tasks := map k | k in w.tasks :: WaitTask(w.tasks[k], slept, k in bad, k in ready))
  }

  // ---- Advancing runs ----

  /** `ManageCronTask` on the task of job `k`. */
  function ManageOne(w: World, k: int, a: Answers, now: int, timeoutMs: int): World {
    if k !in w.tasks then w
    else
      var o := Manage(w.tasks[k], k in w.jobs, w.ledger, a, now, timeoutMs);
      w.(tasks := if o.task.Some? then w.tasks[k := o.task.value] else w.tasks - {k}, ledger := o.ledger)
  }

  /** `ManageCronTasks`: each listed task takes one step, in the list's order. */
  function ManageAll(w: World, list: seq<int>, answers: int -> Answers, now: int, timeoutMs: int): World {
    if list == [] then w
    else
      var n := |list| - 1;
      ManageOne(ManageAll(w, list[..n], answers, now, timeoutMs), list[n], answers(list[n]), now, timeoutMs)
  }

  /** Rows vanish when their job is deleted, or when someone deletes history. */
  function DeleteRows(w: World, gone: set<int>): World {
    w.(ledger := w.ledger.(rows := w.ledger.rows - gone))
  }

  // ---- Runs ----

  datatype Event =
    | Reloaded(rows: seq<JobRow>, entries: int -> Task)
    | Polled(now: int)
    | Waited(now: int, bad: set<int>, ready: set<int>)
    | Managed(list: seq<int>, answers: int -> Answers, now: int, timeoutMs: int)
    | RowsDeleted(gone: set<int>)

  ghost function Step(w: World, e: Event): World {
    match e
    case Reloaded(rows, entries) => Reload(w, rows, entries)
    case Polled(now) => Poll(w, now)
    case Waited(now, bad, ready) => Wait(w, now, bad, ready)
    case Managed(list, answers, now, timeoutMs) => ManageAll(w, list, answers, now, timeoutMs)
    case RowsDeleted(gone) => DeleteRows(w, gone)
  }

  ghost function Execute(w: World, events: seq<Event>): World {
    if events == [] then w else Step(Execute(w, events[..|events| - 1]), events[|events| - 1])
  }

  lemma OneMoreEvent(w: World, events: seq<Event>, e: Event)
    ensures Execute(w, events + [e]) == Step(Execute(w, events), e)
  {
    assert (events + [e])[..|events|] == events;
  }

  lemma ThreeAppended<T>(s: seq<T>, a: T, b: T, c: T)
    ensures s + [a, b, c] == s + [a] + [b] + [c]
  {
  }

  /** `Execute` of a run that goes on with an event, the run and the state before given by name. */
  lemma NextEvent(w: World, events: seq<Event>, before: World, e: Event, after: World)
    requires before == Execute(w, events) && after == Step(before, e)
    ensures Execute(w, events + [e]) == after
  {
    OneMoreEvent(w, events, e);
  }

  lemma ThreeEvents(w: World, events: seq<Event>, a: Event, b: Event, c: Event)
    ensures Execute(w, events + [a, b, c]) == Step(Step(Step(Execute(w, events), a), b), c)
  {
    var w0 := Execute(w, events);
    var w1 := Step(w0, a);
    var w2 := Step(w1, b);
    NextEvent(w, events, w0, a, w1);
    NextEvent(w, events + [a], w1, b, w2);
    NextEvent(w, events + [a] + [b], w2, c, Step(w2, c));
    ThreeAppended(events, a, b, c);
  }

  // ---- The invariant ----

  /** Every loaded job has a task, a task is active exactly while its job is loaded, jobs are parsed texts. */
  ghost predicate Coherent(w: World) {
    w.jobs.Keys <= w.tasks.Keys &&
    (forall k :: k in w.tasks ==> (w.tasks[k].isActive <==> k in w.jobs)) &&
    (forall k :: k in w.jobs ==> Parse(w.jobs[k].scheduleText) == Ok(w.jobs[k].schedule))
  }

  ghost predicate Inv(w: World) {
    LedgerSound(w.ledger) && Coherent(w) && forall k :: JobInv(k, TaskOf(w, k), w.ledger)
  }

  lemma EmptyWorldInv()
    ensures Inv(EMPTY_WORLD)
  {
    forall k ensures JobInv(k, TaskOf(EMPTY_WORLD, k), EMPTY_LEDGER) {
      assert RunsOf(EMPTY_LEDGER, k) == {};
    }
  }

  lemma {:induction false} LoadedJobsParse(rows: seq<JobRow>)
    ensures forall k :: k in LoadJobs(rows) ==> Parse(LoadJobs(rows)[k].scheduleText) == Ok(LoadJobs(rows)[k].schedule)
  {
    if rows != [] {
      LoadedJobsParse(rows[..|rows| - 1]);
    }
  }

  lemma ActiveKeeps(k: int, t: Task, l: Ledger, active: bool)
    requires JobInv(k, Some(t), l)
    ensures JobInv(k, Some(t.(isActive := active)), l)
  {
  }

  lemma NewTaskKeeps(k: int, entry: Task, l: Ledger)
    requires JobInv(k, None, l)
    ensures JobInv(k, Some(InitTask(entry, k)), l)
  {
  }

  lemma ReloadKeeps(w: World, rows: seq<JobRow>, entries: int -> Task)
    requires Inv(w)
    ensures Inv(Reload(w, rows, entries))
  {
    var w' := Reload(w, rows, entries);
    LoadedJobsParse(rows);
    forall k ensures JobInv(k, TaskOf(w', k), w'.ledger) {
      assert JobInv(k, TaskOf(w, k), w.ledger);
      if k in w.tasks {
        ActiveKeeps(k, w.tasks[k], w.ledger, k in w'.jobs);
      } else if k in w'.jobs {
        NewTaskKeeps(k, entries(k), w.ledger);
      }
    }
  }

  lemma SlideKeeps(k: int, t: Option<Task>, l: Ledger, l': Ledger)
    requires JobInv(k, t, l) && l'.(accounts := l.accounts) == l
    ensures (t.Some? ==> TaskSound(k, t.value, l')) && RunsSound(k, t, l') && ConnsSound(k, t, l') && RunsOf(l', k) == RunsOf(l, k)
  {
  }

  lemma PollTaskSound(k: int, t: Task, t': Task, l: Ledger)
    requires TaskSound(k, t, l) && RunsSound(k, Some(t), l) && ConnsSound(k, Some(t), l)
    requires t'.pendingRunCount >= 0 && t' == t.(pendingRunCount := t'.pendingRunCount, nextRunTime := t'.nextRunTime)
    ensures TaskSound(k, t', l) && RunsSound(k, Some(t'), l) && ConnsSound(k, Some(t'), l)
  {
  }

  lemma PollJobKeeps(k: int, t: Task, l: Ledger, l': Ledger, s: Schedule, lastMinute: int, now: int)
    requires JobInv(k, Some(t), l) && l'.(accounts := l.accounts) == l
    requires AccountOf(l', k) == PollAccount(AccountOf(l, k), t, s, lastMinute, now)
    ensures JobInv(k, Some(PollTask(t, s, lastMinute, now)), l')
  {
    if s.seconds {
      SecondsKeeps(k, t, l, l', s, lastMinute, now);
    } else {
      FiresKeep(k, t, l, l', PollFires(s, lastMinute, now));
    }
  }

  lemma FiresKeep(k: int, t: Task, l: Ledger, l': Ledger, fires: seq<int>)
    requires JobInv(k, Some(t), l) && l'.(accounts := l.accounts) == l
    requires AccountOf(l', k) == AccountOf(l, k).(fires := AccountOf(l, k).fires + fires)
    ensures JobInv(k, Some(t.(pendingRunCount := t.pendingRunCount + |fires|)), l')
  {
    SlideKeeps(k, Some(t), l, l');
    PollTaskSound(k, t, t.(pendingRunCount := t.pendingRunCount + |fires|), l');
  }

  lemma SecondsShape(t: Task, interval: int, now: int)
    requires t.pendingRunCount >= 0
    ensures var t' := SecondsTask(t, interval, now);
            t'.pendingRunCount >= 0 && t' == t.(pendingRunCount := t'.pendingRunCount, nextRunTime := t'.nextRunTime)
  {
  }

  lemma QueueKeeps(k: int, t: Task, t': Task, l: Ledger, l': Ledger)
    requires JobInv(k, Some(t), l) && l'.(accounts := l.accounts) == l && Balanced(k, Some(t'), l')
    requires t'.pendingRunCount >= 0 && t' == t.(pendingRunCount := t'.pendingRunCount, nextRunTime := t'.nextRunTime)
    ensures JobInv(k, Some(t'), l')
  {
    SlideKeeps(k, Some(t), l, l');
    PollTaskSound(k, t, t', l');
  }

  lemma SecondsKeeps(k: int, t: Task, l: Ledger, l': Ledger, s: Schedule, lastMinute: int, now: int)
    requires JobInv(k, Some(t), l) && l'.(accounts := l.accounts) == l && s.seconds
    requires AccountOf(l', k) == PollAccount(AccountOf(l, k), t, s, lastMinute, now)
    ensures JobInv(k, Some(SecondsTask(t, s.interval, now)), l')
  {
    SecondsShape(t, s.interval, now);
    SlideKeeps(k, Some(t), l, l');
    TicksBalance(k, t, l, l', s, lastMinute, now);
    QueueKeeps(k, t, SecondsTask(t, s.interval, now), l, l');
  }

  lemma TicksBalance(k: int, t: Task, l: Ledger, l': Ledger, s: Schedule, lastMinute: int, now: int)
    requires t.pendingRunCount >= 0 && Balanced(k, Some(t), l) && RunsOf(l', k) == RunsOf(l, k) && s.seconds
    requires AccountOf(l', k) == PollAccount(AccountOf(l, k), t, s, lastMinute, now)
    ensures Balanced(k, Some(SecondsTask(t, s.interval, now)), l')
  {
  }

  lemma SameAccountKeeps(k: int, t: Option<Task>, l: Ledger, l': Ledger)
    requires JobInv(k, t, l) && l'.(accounts := l.accounts) == l && AccountOf(l', k) == AccountOf(l, k)
    ensures JobInv(k, t, l')
  {
    assert RunsOf(l', k) == RunsOf(l, k);
  }

  lemma PollAccountOf(w: World, now: int, k: int)
    ensures var last := Remembered(w.lastMinute, now);
            AccountOf(Poll(w, now).ledger, k) ==
            if k in w.tasks && k in w.jobs
            then PollAccount(AccountOf(w.ledger, k), w.tasks[k], w.jobs[k].schedule, last, now)
            else AccountOf(w.ledger, k)
  {
  }

  lemma PollKeepsJob(w: World, now: int, k: int)
    requires Inv(w)
    ensures JobInv(k, TaskOf(Poll(w, now), k), Poll(w, now).ledger)
  {
    var w' := Poll(w, now);
    assert JobInv(k, TaskOf(w, k), w.ledger);
    PollAccountOf(w, now, k);
    if k in w.tasks && k in w.jobs {
      PollJobKeeps(k, w.tasks[k], w.ledger, w'.ledger, w.jobs[k].schedule, Remembered(w.lastMinute, now), now);
    } else {
      SameAccountKeeps(k, TaskOf(w, k), w.ledger, w'.ledger);
    }
  }

  lemma PollKeepsTables(w: World, now: int)
    requires LedgerSound(w.ledger) && Coherent(w)
    ensures LedgerSound(Poll(w, now).ledger) && Coherent(Poll(w, now))
  {
  }

  lemma PollKeeps(w: World, now: int)
    requires Inv(w)
    ensures Inv(Poll(w, now))
  {
    PollKeepsTables(w, now);
    forall k ensures JobInv(k, TaskOf(Poll(w, now), k), Poll(w, now).ledger) {
      PollKeepsJob(w, now, k);
    }
  }

  lemma WaitTaskKeeps(k: int, t: Task, l: Ledger, slept: bool, bad: bool, ready: bool)
    requires JobInv(k, Some(t), l) && LedgerSound(l)
    ensures JobInv(k, Some(WaitTask(t, slept, bad, ready)), l)
  {
    TaskOnly(k, t, WaitTask(t, slept, bad, ready), l);
  }

  lemma WaitKeeps(w: World, now: int, bad: set<int>, ready: set<int>)
    requires Inv(w)
    ensures Inv(Wait(w, now, bad, ready))
  {
    var w' := Wait(w, now, bad, ready);
    forall k ensures JobInv(k, TaskOf(w', k), w'.ledger) {
      assert JobInv(k, TaskOf(w, k), w.ledger);
      if k in w.tasks {
        WaitTaskKeeps(k, w.tasks[k], w.ledger, !NoSleep(w, now), k in bad, k in ready);
      }
    }
  }

  lemma ReadActivity(t: Task, l: Ledger, a: Answers)
    ensures var o := ReadRunning(t, l, a); o.task.Some? && o.task.value.isActive == t.isActive
  {
    ReadResultsMarks(t, a.results);
  }

  /** What `ManageActivity` says of an outcome. */
  predicate KeepsActivity(t: Task, o: Outcome) {
    (o.task.None? ==> !t.isActive) && (o.task.Some? ==> o.task.value.isActive == t.isActive)
  }

  lemma RunningActivity(t: Task, l: Ledger, a: Answers, now: int)
    ensures KeepsActivity(t, ManageRunning(t, l, a, now))
  {
    ReadActivity(t, l, a);
    ReadActivity(AwaitCancel(t), MarkCancel(l, t.runId), a);
  }

  lemma StartActivity(t: Task, l: Ledger, a: Answers, now: int)
    ensures KeepsActivity(t, ManageStart(t, l, a, now))
  {
  }

  lemma ConnectActivity(t: Task, l: Ledger, a: Answers, now: int, timeoutMs: int)
    ensures KeepsActivity(t, ManageConnecting(t, l, a, now))
    ensures KeepsActivity(t, ManageSending(t, l, a, now, timeoutMs))
  {
  }

  lemma IdleActivity(t: Task, l: Ledger)
    ensures KeepsActivity(t, ManageWaiting(t, l)) && KeepsActivity(t, ManageError(t, l)) && KeepsActivity(t, ManageDone(t, l))
  {
  }

  /** Only an inactive task is removed, and activity is never changed by a step. */
  lemma ManageActivity(t: Task, jobLoaded: bool, l: Ledger, a: Answers, now: int, timeoutMs: int)
    ensures KeepsActivity(t, Manage(t, jobLoaded, l, a, now, timeoutMs))
  {
    if !jobLoaded && t.state != Done {
      var (t', l') := LoseJob(t, l);
      IdleActivity(t', l');
    } else {
      IdleActivity(t, l);
      StartActivity(t, l, a, now);
      ConnectActivity(t, l, a, now, timeoutMs);
      RunningActivity(t, l, a, now);
    }
  }

  lemma ManageOneKeepsJob(w: World, k: int, a: Answers, now: int, timeoutMs: int, j: int)
    requires Inv(w) && k in w.tasks
    requires Kept(k, w.ledger, Manage(w.tasks[k], k in w.jobs, w.ledger, a, now, timeoutMs))
    ensures var w' := ManageOne(w, k, a, now, timeoutMs); JobInv(j, TaskOf(w', j), w'.ledger)
  {
    var w' := ManageOne(w, k, a, now, timeoutMs);
    assert JobInv(j, TaskOf(w, j), w.ledger);
    if j != k {
      FrameKeeps(k, j, TaskOf(w, j), w.ledger, w'.ledger);
      assert TaskOf(w', j) == TaskOf(w, j);
    } else {
      assert TaskOf(w', k) == Manage(w.tasks[k], k in w.jobs, w.ledger, a, now, timeoutMs).task;
    }
  }

  lemma ManageOneCoherent(w: World, k: int, a: Answers, now: int, timeoutMs: int)
    requires Coherent(w)
    ensures Coherent(ManageOne(w, k, a, now, timeoutMs))
  {
    if k in w.tasks {
      ManageActivity(w.tasks[k], k in w.jobs, w.ledger, a, now, timeoutMs);
    }
  }

  lemma ManageOneKeeps(w: World, k: int, a: Answers, now: int, timeoutMs: int)
    requires Inv(w)
    ensures Inv(ManageOne(w, k, a, now, timeoutMs))
  {
    if k in w.tasks {
      var w' := ManageOne(w, k, a, now, timeoutMs);
      assert JobInv(k, TaskOf(w, k), w.ledger);
      ManageKeeps(k, w.tasks[k], k in w.jobs, w.ledger, a, now, timeoutMs);
      ManageOneCoherent(w, k, a, now, timeoutMs);
      forall j ensures JobInv(j, TaskOf(w', j), w'.ledger) {
        ManageOneKeepsJob(w, k, a, now, timeoutMs, j);
      }
    }
  }

  lemma {:induction false} ManageAllKeeps(w: World, list: seq<int>, answers: int -> Answers, now: int, timeoutMs: int)
    requires Inv(w)
    ensures Inv(ManageAll(w, list, answers, now, timeoutMs))
  {
    if list != [] {
      var n := |list| - 1;
      ManageAllKeeps(w, list[..n], answers, now, timeoutMs);
      ManageOneKeeps(ManageAll(w, list[..n], answers, now, timeoutMs), list[n], answers(list[n]), now, timeoutMs);
    }
  }

  lemma DeleteKeeps(w: World, gone: set<int>)
    requires Inv(w)
    ensures Inv(DeleteRows(w, gone))
  {
    var w' := DeleteRows(w, gone);
    forall k ensures JobInv(k, TaskOf(w', k), w'.ledger) {
      assert JobInv(k, TaskOf(w, k), w.ledger);
      assert RunsOf(w'.ledger, k) == RunsOf(w.ledger, k);
      assert forall r :: r in w.ledger.runs && RunSound(w.ledger, r) ==> RunSound(w'.ledger, r);
    }
  }

  lemma StepKeeps(w: World, e: Event)
    requires Inv(w)
    ensures Inv(Step(w, e))
  {
    match e
    case Reloaded(rows, entries) => ReloadKeeps(w, rows, entries);
    case Polled(now) => PollKeeps(w, now);
    case Waited(now, bad, ready) => WaitKeeps(w, now, bad, ready);
    case Managed(list, answers, now, timeoutMs) => ManageAllKeeps(w, list, answers, now, timeoutMs);
    case RowsDeleted(gone) => DeleteKeeps(w, gone);
  }

  /** The invariant holds after every run from a sound state, whatever the events. */
  lemma {:induction false} EveryRunKeeps(w: World, events: seq<Event>)
    requires Inv(w)
    ensures Inv(Execute(w, events))
  {
    if events != [] {
      EveryRunKeeps(w, events[..|events| - 1]);
      StepKeeps(Execute(w, events[..|events| - 1]), events[|events| - 1]);
    }
  }

  lemma EveryReachableWorld(events: seq<Event>)
    ensures Inv(Execute(EMPTY_WORLD, events))
  {
    EmptyWorldInv();
    EveryRunKeeps(EMPTY_WORLD, events);
  }
}
