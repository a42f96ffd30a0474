/**
 From a schedule text to an exact count of runs: which minutes fire over a whole run, how often,
 and where every run made due ends up.
 */
module EndToEnd {
  import opened Options
  import opened CronTime
  import opened CronExpr
  import opened CronParser
  import opened Matcher
  import opened Scheduler
  import opened TaskMachine
  import opened TaskInvariant
  import opened World

  // ---- What a pass leaves of an account ----

  /** The parts of an account that only the scheduler writes. */
  predicate SameSchedule(a: Account, b: Account) {
    b.fires == a.fires && b.points == a.points && b.ticks == a.ticks
  }

  predicate NothingLost(a: Account, b: Account) {
    b.dropped == a.dropped && b.abandoned == a.abandoned
  }

  lemma ReadAccount(t: Task, l: Ledger, a: Answers, k: int)
    ensures AccountOf(ReadRunning(t, l, a).ledger, k) == AccountOf(l, k)
  {
  }

  lemma RunningAccount(t: Task, l: Ledger, a: Answers, now: int, k: int)
    ensures AccountOf(ManageRunning(t, l, a, now).ledger, k) == AccountOf(l, k)
  {
    if RunTimeoutReached(t, now) {
      ReadAccount(AwaitCancel(t), MarkCancel(l, t.runId), a, k);
    } else {
      ReadAccount(t, l, a, k);
    }
  }

  lemma CloseAccount(t: Task, l: Ledger)
    ensures CloseTask(t, FinishError(t, l)).accounts == l.accounts
  {
  }

  lemma RemovedAccount(t: Task, l: Ledger, k: int)
    ensures var b := AccountOf(RemoveTask(t, l).ledger, k);
            SameSchedule(AccountOf(l, k), b) && b.abandoned == AccountOf(l, k).abandoned &&
            (k != t.jobId ==> b == AccountOf(l, k))
  {
  }

  lemma ErrorAccount(t: Task, l: Ledger, k: int)
    ensures var b := AccountOf(ManageError(t, l).ledger, k);
            SameSchedule(AccountOf(l, k), b) && b.abandoned == AccountOf(l, k).abandoned &&
            (t.isActive || k != t.jobId ==> b == AccountOf(l, k))
  {
    CloseAccount(t, l);
    RemovedAccount(t.(runId := 0, conn := 0), CloseTask(t, FinishError(t, l)), k);
  }

  lemma EarlyAccount(t: Task, l: Ledger, a: Answers, now: int, timeoutMs: int)
    ensures ManageStart(t, l, a, now).ledger.accounts == l.accounts
    ensures ManageConnecting(t, l, a, now).ledger.accounts == l.accounts
    ensures ManageSending(t, l, a, now, timeoutMs).ledger.accounts == l.accounts
  {
  }

  /** A step writes no due minutes, and loses no run of an active task whose job is loaded. */
  lemma ManageAccount(t: Task, jobLoaded: bool, l: Ledger, a: Answers, now: int, timeoutMs: int, k: int)
    ensures var b := AccountOf(Manage(t, jobLoaded, l, a, now, timeoutMs).ledger, k);
            SameSchedule(AccountOf(l, k), b) &&
            ((jobLoaded && t.isActive) || k != t.jobId ==> NothingLost(AccountOf(l, k), b))
  {
    if !jobLoaded && t.state != Done {
      var (t', l') := LoseJob(t, l);
      ErrorAccount(t', l', k);
    } else {
      match t.state
      case Waiting => WaitingAccount(t, l, k);
      case Running => RunningAccount(t, l, a, now, k);
      case Error => ErrorAccount(t, l, k);
      case Done => DoneAccount(t, l, k);
      case _ => EarlyAccount(t, l, a, now, timeoutMs);
    }
  }

  lemma WaitingAccount(t: Task, l: Ledger, k: int)
    ensures var b := AccountOf(ManageWaiting(t, l).ledger, k);
            SameSchedule(AccountOf(l, k), b) && (t.isActive || k != t.jobId ==> NothingLost(AccountOf(l, k), b))
  {
  }

  lemma CutAccount(t: Task, l: Ledger, k: int)
    ensures var b := AccountOf(PostCut(t, l), k);
            SameSchedule(AccountOf(l, k), b) && NothingLost(AccountOf(l, k), b)
  {
  }

  lemma DoneAccount(t: Task, l: Ledger, k: int)
    ensures var b := AccountOf(ManageDone(t, l).ledger, k);
            SameSchedule(AccountOf(l, k), b) && NothingLost(AccountOf(l, k), b)
  {
    CutAccount(t, l, k);
    assert ManageDone(t, l).ledger == PostCut(t, l);
  }

  lemma {:induction false} PassAccounts(w: World, list: seq<int>, answers: int -> Answers, now: int, timeoutMs: int, k: int)
    requires Inv(w)
    ensures var w' := ManageAll(w, list, answers, now, timeoutMs);
            w'.jobs == w.jobs && w'.lastMinute == w.lastMinute &&
            SameSchedule(AccountOf(w.ledger, k), AccountOf(w'.ledger, k)) &&
            (k in w.jobs ==> NothingLost(AccountOf(w.ledger, k), AccountOf(w'.ledger, k)))
  {
    if list != [] {
      var n := |list| - 1;
      var j := list[n];
      PassAccounts(w, list[..n], answers, now, timeoutMs, k);
      var mid := ManageAll(w, list[..n], answers, now, timeoutMs);
      ManageAllKeeps(w, list[..n], answers, now, timeoutMs);
      if j in mid.tasks {
        assert JobInv(j, TaskOf(mid, j), mid.ledger) && TaskSound(j, mid.tasks[j], mid.ledger);
        ManageAccount(mid.tasks[j], j in mid.jobs, mid.ledger, answers(j), now, timeoutMs, k);
      }
    }
  }

  // ---- At most once per minute ----

  ghost predicate FiresOnce(fires: seq<int>, lastMinute: int) {
    Increasing(fires) && forall m :: m in fires ==> m <= lastMinute
  }

  ghost predicate JobFiredOnce(w: World, k: int) {
    FiresOnce(AccountOf(w.ledger, k).fires, w.lastMinute)
  }

  /** No two runs of a job were made due for one minute, in any of its lives, and none ahead of the clock. */
  ghost predicate FiredOnce(w: World) {
    OnMinute(w.lastMinute) && w.lastMinute >= 0 && forall k :: JobFiredOnce(w, k)
  }

  /** A look at the clock enters the backward branch while a loaded floating job is due. */
  ghost predicate SomeJobRefires(w: World, now: int) {
    exists k :: k in w.jobs && Refires(w.jobs[k].schedule, Remembered(w.lastMinute, now), now)
  }

  /** A clock reading after 2000 at which no loaded job refires. */
  ghost predicate TickOk(w: World, e: Event) {
    e.Polled? ==> e.now >= 0 && !SomeJobRefires(w, e.now)
  }

  lemma AppendIncreasing(a: seq<int>, b: seq<int>, bound: int)
    requires Increasing(a) && Increasing(b)
    requires (forall m :: m in a ==> m <= bound) && forall m :: m in b ==> bound < m
    ensures Increasing(a + b)
  {
    forall i, j | 0 <= i < j < |a + b| ensures (a + b)[i] < (a + b)[j] {
      if i < |a| <= j {
        assert a[i] in a && b[j - |a|] in b;
      }
    }
  }

  lemma FiresStayOnce(fires: seq<int>, s: Schedule, lastMinute: int, last: int, now: int)
    requires OnMinute(last) && 0 <= lastMinute <= last && 0 <= now && !Refires(s, last, now) && FiresOnce(fires, lastMinute)
    ensures FiresOnce(fires, NextMinute(last, now)) && FiresOnce(fires + PollFires(s, last, now), NextMinute(last, now))
  {
    AdvanceExactly(s, last, now);
    AppendIncreasing(fires, PollFires(s, last, now), last);
  }

  lemma PolledFires(w: World, now: int, k: int)
    ensures var last, fires := Remembered(w.lastMinute, now), AccountOf(w.ledger, k).fires;
            Poll(w, now).lastMinute == NextMinute(last, now) &&
            AccountOf(Poll(w, now).ledger, k).fires ==
            if k in w.tasks && k in w.jobs then fires + PollFires(w.jobs[k].schedule, last, now) else fires
  {
    PollAccountOf(w, now, k);
  }

  lemma EmptyNeverRefires(lastMinute: int, now: int)
    ensures !Refires(EMPTY_SCHEDULE, lastMinute, now)
  {
  }

  lemma PollJobFiredOnce(w: World, now: int, k: int)
    requires OnMinute(w.lastMinute) && 0 <= w.lastMinute && JobFiredOnce(w, k) && now >= 0 && !SomeJobRefires(w, now)
    ensures JobFiredOnce(Poll(w, now), k)
  {
    var last := Remembered(w.lastMinute, now);
    var s := if k in w.jobs then w.jobs[k].schedule else EMPTY_SCHEDULE;
    PolledFires(w, now, k);
    RememberedMinute(w.lastMinute, now);
    EmptyNeverRefires(last, now);
    assert !Refires(s, last, now);
    FiresStayOnce(AccountOf(w.ledger, k).fires, s, w.lastMinute, last, now);
  }

  /** A refiring look adds the current minute and leaves the remembered one behind it. */
  lemma RefiredAhead(w: World, now: int, k: int)
    requires OnMinute(w.lastMinute) && w.lastMinute >= 0 && now >= 0 && k in w.jobs && k in w.tasks
    requires Refires(w.jobs[k].schedule, Remembered(w.lastMinute, now), now)
    ensures AccountOf(Poll(w, now).ledger, k).fires == AccountOf(w.ledger, k).fires + [StartOfMinute(now)]
    ensures Poll(w, now).lastMinute == w.lastMinute < StartOfMinute(now)
  {
    PollAccountOf(w, now, k);
    RefireEffect(w.jobs[k].schedule, w.lastMinute, now);
  }

  lemma RefiringBreaks(w: World, now: int, k: int)
    requires OnMinute(w.lastMinute) && w.lastMinute >= 0 && now >= 0 && k in w.jobs && k in w.tasks
    requires Refires(w.jobs[k].schedule, Remembered(w.lastMinute, now), now)
    ensures !JobFiredOnce(Poll(w, now), k)
  {
    RefiredAhead(w, now, k);
    assert StartOfMinute(now) in AccountOf(Poll(w, now).ledger, k).fires;
  }

  /** One look keeps at-most-once exactly unless a loaded job refires. */
  lemma PollFiredOnce(w: World, now: int)
    requires Inv(w) && FiredOnce(w) && now >= 0
    ensures FiredOnce(Poll(w, now)) <==> !SomeJobRefires(w, now)
    ensures w.lastMinute <= Poll(w, now).lastMinute
  {
    var w' := Poll(w, now);
    RememberedMinute(w.lastMinute, now);
    AdvanceExactly(EMPTY_SCHEDULE, Remembered(w.lastMinute, now), now);
    if k :| k in w.jobs && Refires(w.jobs[k].schedule, Remembered(w.lastMinute, now), now) {
      RefiringBreaks(w, now, k);
      assert FiredOnce(w') ==> JobFiredOnce(w', k);
    } else {
      forall k ensures JobFiredOnce(w', k) {
        assert JobFiredOnce(w, k);
        PollJobFiredOnce(w, now, k);
      }
    }
  }

  lemma SameFiresOnce(w: World, w': World)
    requires FiredOnce(w) && w'.lastMinute == w.lastMinute
    requires forall k :: AccountOf(w'.ledger, k).fires == AccountOf(w.ledger, k).fires
    ensures FiredOnce(w')
  {
    forall k ensures JobFiredOnce(w', k) {
      assert JobFiredOnce(w, k) && AccountOf(w'.ledger, k).fires == AccountOf(w.ledger, k).fires;
    }
  }

  lemma EventFiredOnce(w: World, e: Event)
    requires Inv(w) && FiredOnce(w) && TickOk(w, e)
    ensures FiredOnce(Step(w, e)) && w.lastMinute <= Step(w, e).lastMinute
  {
    match e
    case Polled(now) => PollFiredOnce(w, now);
    case Managed(list, answers, now, timeoutMs) =>
      PassAccounts(w, list, answers, now, timeoutMs, 0);
      forall k ensures AccountOf(Step(w, e).ledger, k).fires == AccountOf(w.ledger, k).fires {
        PassAccounts(w, list, answers, now, timeoutMs, k);
      }
      SameFiresOnce(w, Step(w, e));
    case _ =>
      SameFiresOnce(w, Step(w, e));
  }

  ghost predicate TicksOk(w: World, events: seq<Event>) {
    forall i :: 0 <= i < |events| ==> TickOk(Execute(w, events[..i]), events[i])
  }

  lemma ExecutePrefix(w: World, events: seq<Event>, i: nat)
    requires i < |events|
    ensures events[..|events| - 1][..i] == events[..i]
  {
  }

  lemma TicksOkPrefix(w: World, events: seq<Event>)
    requires |events| > 0 && TicksOk(w, events)
    ensures TicksOk(w, events[..|events| - 1]) && TickOk(Execute(w, events[..|events| - 1]), events[|events| - 1])
  {
    var before := events[..|events| - 1];
    forall i | 0 <= i < |before| ensures TickOk(Execute(w, before[..i]), before[i]) {
      ExecutePrefix(w, events, i);
    }
  }

  /**
   At most once per minute: under every sequence of clock readings, backward steps and leaps
   included, no minute ever adds two pending runs to a job id, and `lastMinute` never decreases.
   */
  lemma {:induction false} AtMostOncePerMinute(w: World, events: seq<Event>)
    requires Inv(w) && FiredOnce(w) && TicksOk(w, events)
    ensures FiredOnce(Execute(w, events)) && w.lastMinute <= Execute(w, events).lastMinute
  {
    if events != [] {
      var before := events[..|events| - 1];
      TicksOkPrefix(w, events);
      AtMostOncePerMinute(w, before);
      EveryRunKeeps(w, before);
      EventFiredOnce(Execute(w, before), events[|events| - 1]);
    }
  }

  lemma FromTheStartAtMostOnce(events: seq<Event>)
    requires TicksOk(EMPTY_WORLD, events)
    ensures FiredOnce(Execute(EMPTY_WORLD, events))
  {
    EmptyWorldInv();
    AtMostOncePerMinute(EMPTY_WORLD, events);
  }

  // ---- Exact catch-up ----

  /**
   Job `k` keeps its text, and a look at the clock finds a gap no longer than `reach` minutes
   (clock steps backward of any size are allowed).
   */
  ghost predicate SteadyAt(w: World, e: Event, k: int, text: string, reach: int) {
    k in w.jobs && w.jobs[k].scheduleText == text &&
    (e.Polled? ==> e.now >= 0 && NoWrap(w.lastMinute, e.now) && Gap(w.lastMinute, e.now) <= reach)
  }

  ghost predicate Steady(w: World, events: seq<Event>, k: int, text: string, reach: int) {
    forall i :: 0 <= i < |events| ==> SteadyAt(Execute(w, events[..i]), events[i], k, text, reach)
  }

  lemma SteadyPrefix(w: World, events: seq<Event>, k: int, text: string, reach: int)
    requires |events| > 0 && Steady(w, events, k, text, reach)
    ensures Steady(w, events[..|events| - 1], k, text, reach)
    ensures SteadyAt(Execute(w, events[..|events| - 1]), events[|events| - 1], k, text, reach)
  {
    var before := events[..|events| - 1];
    forall i | 0 <= i < |before| ensures SteadyAt(Execute(w, before[..i]), before[i], k, text, reach) {
      ExecutePrefix(w, events, i);
    }
  }

  /** The due minutes after `from` up to `to` that a text denotes, in order. */
  ghost predicate DenotedMinutes(due: seq<int>, e: Expr, from: int, to: int) {
    Increasing(due) && forall m :: m in due <==> from < m <= to && OnMinute(m) && Denotes(e, CalendarAt(m))
  }

  lemma EmptyWindow(s: Schedule, at: int)
    ensures ExactlyDue([], s, at, at, true, true)
  {
  }

  /** What one event adds to the fires of a steady job, and where it leaves `lastMinute`. */
  ghost predicate FiresBetween(w: World, w': World, k: int, s: Schedule) {
    w'.lastMinute >= w.lastMinute &&
    exists due :: AccountOf(w'.ledger, k).fires == AccountOf(w.ledger, k).fires + due &&
                  ExactlyDue(due, s, w.lastMinute, w'.lastMinute, true, true)
  }

  lemma FiresBetweenChain(w1: World, w2: World, w3: World, k: int, s: Schedule)
    requires FiresBetween(w1, w2, k, s) && FiresBetween(w2, w3, k, s)
    ensures FiresBetween(w1, w3, k, s)
  {
    var a :| AccountOf(w2.ledger, k).fires == AccountOf(w1.ledger, k).fires + a &&
             ExactlyDue(a, s, w1.lastMinute, w2.lastMinute, true, true);
    var b :| AccountOf(w3.ledger, k).fires == AccountOf(w2.ledger, k).fires + b &&
             ExactlyDue(b, s, w2.lastMinute, w3.lastMinute, true, true);
    WindowsJoin(a, b, s, w1.lastMinute, w2.lastMinute, w3.lastMinute, true, true);
    assert AccountOf(w3.ledger, k).fires == AccountOf(w1.ledger, k).fires + (a + b);
  }

  lemma NothingFired(w: World, w': World, k: int, s: Schedule)
    requires w'.lastMinute == w.lastMinute && AccountOf(w'.ledger, k).fires == AccountOf(w.ledger, k).fires
    ensures FiresBetween(w, w', k, s)
  {
    EmptyWindow(s, w.lastMinute);
    assert AccountOf(w'.ledger, k).fires == AccountOf(w.ledger, k).fires + [];
  }

  /** `lastMinute` has been set, and is a minute. */
  predicate Ticking(w: World) { w.lastMinute > 0 && w.lastMinute % USECS_PER_MINUTE == 0 }

  lemma PollNextMinute(lastMinute: int, now: int)
    requires OnMinute(lastMinute) && 0 < lastMinute && 0 <= now && NoWrap(lastMinute, now)
    ensures NextMinute(lastMinute, now) == if now < lastMinute then lastMinute else StartOfMinute(now)
    ensures now >= lastMinute ==> StartOfMinute(now) >= lastMinute && OnMinute(StartOfMinute(now))
  {
    GapIsMinutesPassed(lastMinute, now);
  }

  lemma PollCatchesUp(w: World, now: int, k: int)
    requires Inv(w) && Ticking(w) && k in w.jobs && !w.jobs[k].schedule.seconds
    requires now >= 0 && NoWrap(w.lastMinute, now) && Gap(w.lastMinute, now) <= Reach(w.jobs[k].schedule)
    ensures Ticking(Poll(w, now)) && FiresBetween(w, Poll(w, now), k, w.jobs[k].schedule)
  {
    var s, w' := w.jobs[k].schedule, Poll(w, now);
    PollAccountOf(w, now, k);
    PollNextMinute(w.lastMinute, now);
    PollFiresExactly(s, w.lastMinute, now);
    var due := PollFires(s, w.lastMinute, now);
    EmptyWindow(s, w.lastMinute);
    assert ExactlyDue(due, s, w.lastMinute, w'.lastMinute, true, true);
    assert AccountOf(w'.ledger, k).fires == AccountOf(w.ledger, k).fires + due;
  }

  lemma EventCatchesUp(w: World, e: Event, k: int, text: string)
    requires Inv(w) && Ticking(w) && k in w.jobs && !w.jobs[k].schedule.seconds
    requires SteadyAt(w, e, k, text, Reach(w.jobs[k].schedule))
    ensures Ticking(Step(w, e)) && FiresBetween(w, Step(w, e), k, w.jobs[k].schedule)
  {
    match e
    case Polled(now) => PollCatchesUp(w, now, k);
    case Managed(list, answers, now, timeoutMs) =>
      PassAccounts(w, list, answers, now, timeoutMs, k);
      NothingFired(w, Step(w, e), k, w.jobs[k].schedule);
    case _ => NothingFired(w, Step(w, e), k, w.jobs[k].schedule);
  }

  lemma SteadySchedule(w: World, k: int, text: string)
    requires Inv(w) && k in w.jobs && w.jobs[k].scheduleText == text
    ensures Parse(text) == Ok(w.jobs[k].schedule)
  {
  }

  lemma {:induction false} RunCatchesUp(w: World, events: seq<Event>, k: int, text: string, s: Schedule)
    requires Inv(w) && Ticking(w) && Parse(text) == Ok(s) && !s.seconds && Steady(w, events, k, text, Reach(s))
    ensures Ticking(Execute(w, events)) && FiresBetween(w, Execute(w, events), k, s)
  {
    if events == [] {
      NothingFired(w, w, k, s);
    } else {
      var before := events[..|events| - 1];
      var mid := Execute(w, before);
      SteadyPrefix(w, events, k, text, Reach(s));
      RunCatchesUp(w, before, k, text, s);
      EveryRunKeeps(w, before);
      SteadySchedule(mid, k, text);
      EventCatchesUp(mid, events[|events| - 1], k, text);
      FiresBetweenChain(w, mid, Execute(w, events), k, s);
    }
  }

  /** How far the text's schedule is caught up: five minutes if it floats, three hours if fixed. */
  function TextReach(e: Expr): int {
    if Floats(e) then 5 else 180
  }

  lemma DueIsDenoted(due: seq<int>, text: string, e: Expr, from: int, to: int)
    requires Spelled(text, e) && Legal(e) && e.Cron? && ExactlyDue(due, Meaning(e), from, to, true, true)
    ensures DenotedMinutes(due, e, from, to)
  {
    forall m ensures m in due <==> from < m <= to && OnMinute(m) && Denotes(e, CalendarAt(m)) {
      MeaningMatches(e, m);
    }
  }

  /**
   Exact catch-up. Over any run in which a job keeps a text and no gap exceeds the text's reach,
   the minutes fired for it are exactly those the text denotes, in order and once each, from the
   first remembered minute to the last.
   */
  lemma ExactCatchUp(w: World, events: seq<Event>, k: int, text: string, e: Expr)
    requires Inv(w) && Ticking(w) && Spelled(text, e) && Legal(e) && e.Cron?
    requires Steady(w, events, k, text, TextReach(e))
    ensures var w' := Execute(w, events);
            exists due :: AccountOf(w'.ledger, k).fires == AccountOf(w.ledger, k).fires + due &&
                          DenotedMinutes(due, e, w.lastMinute, w'.lastMinute)
  {
    var w', s := Execute(w, events), Meaning(e);
    ParsedMeaning(text, e);
    RunCatchesUp(w, events, k, text, s);
    var due :| AccountOf(w'.ledger, k).fires == AccountOf(w.ledger, k).fires + due &&
               ExactlyDue(due, s, w.lastMinute, w'.lastMinute, true, true);
    DueIsDenoted(due, text, e, w.lastMinute, w'.lastMinute);
  }

  /** `fires` is the current minute if the text denotes it, and nothing otherwise. */
  ghost predicate OnlyNow(fires: seq<int>, e: Expr, current: int) {
    fires == if Denotes(e, CalendarAt(current)) then [current] else []
  }

  lemma OneMinuteDenoted(e: Expr, current: int)
    ensures OnlyNow(OneMinute(Meaning(e), current, true, true), e, current)
  {
    MeaningMatches(e, current);
  }

  /**
   What one look fires for a text, for every forward gap. Up to five minutes all are made up. Up
   to three hours all are made up unless the minute or the hour field has a bare `*`, in which case
   only the current minute is looked at; and beyond, only the current minute is.
   */
  lemma TextFiresExactly(text: string, e: Expr, lastMinute: int, now: int)
    requires Spelled(text, e) && Legal(e) && e.Cron?
    requires OnMinute(lastMinute) && 0 <= lastMinute && 0 <= now && NoWrap(lastMinute, now)
    ensures Parse(text) == Ok(Meaning(e))
    ensures var fires, current := PollFires(Meaning(e), lastMinute, now), StartOfMinute(now);
            var gap := (current - lastMinute) / 60_000_000;
            if now < lastMinute then fires == []
            else if gap <= 5 || (gap <= 180 && Star !in e.minute && Star !in e.hour)
            then DenotedMinutes(fires, e, lastMinute, current)
            else OnlyNow(fires, e, current)
  {
    ParsedMeaning(text, e);
    FloatsByStar(e);
    PollFiresExactly(Meaning(e), lastMinute, now);
    OneMinuteDenoted(e, StartOfMinute(now));
    if now >= lastMinute && Gap(lastMinute, now) <= Reach(Meaning(e)) {
      DueIsDenoted(PollFires(Meaning(e), lastMinute, now), text, e, lastMinute, StartOfMinute(now));
    }
  }

  /** The first look at the clock remembers the minute and makes nothing due for minute schedules. */
  lemma FirstLook(w: World, now: int, k: int)
    requires w.lastMinute == 0 && now >= 0
    ensures Poll(w, now).lastMinute == StartOfMinute(now)
    ensures AccountOf(Poll(w, now).ledger, k).fires == AccountOf(w.ledger, k).fires
    ensures k in w.tasks && k in w.jobs && !w.jobs[k].schedule.seconds ==> Poll(w, now).tasks[k] == w.tasks[k]
  {
    PolledFires(w, now, k);
    FirstLookIsNow(now);
    assert AccountOf(w.ledger, k).fires + [] == AccountOf(w.ledger, k).fires;
  }

  // ---- Where the runs made due end up ----

  ghost predicate LoadedThroughout(w: World, events: seq<Event>, k: int) {
    forall i :: 0 <= i < |events| ==> k in Execute(w, events[..i]).jobs
  }

  lemma LoadedPrefix(w: World, events: seq<Event>, k: int)
    requires |events| > 0 && LoadedThroughout(w, events, k)
    ensures LoadedThroughout(w, events[..|events| - 1], k) && k in Execute(w, events[..|events| - 1]).jobs
  {
    var before := events[..|events| - 1];
    forall i | 0 <= i < |before| ensures k in Execute(w, before[..i]).jobs {
      ExecutePrefix(w, events, i);
    }
  }

  lemma PollLosesNothing(w: World, now: int, k: int)
    ensures NothingLost(AccountOf(w.ledger, k), AccountOf(Poll(w, now).ledger, k))
  {
    PollAccountOf(w, now, k);
  }

  lemma EventLosesNothing(w: World, e: Event, k: int)
    requires Inv(w) && k in w.jobs
    ensures NothingLost(AccountOf(w.ledger, k), AccountOf(Step(w, e).ledger, k))
  {
    match e
    case Polled(now) => PollLosesNothing(w, now, k);
    case Managed(list, answers, now, timeoutMs) => PassAccounts(w, list, answers, now, timeoutMs, k);
    case _ =>
  }

  /**
   While a job is loaded no run of its task is dropped or given up: over every run, for minute and
   seconds schedules, rescheduled or not, whatever the clock shows.
   */
  lemma {:induction false} RunLosesNothing(w: World, events: seq<Event>, k: int)
    requires Inv(w) && LoadedThroughout(w, events, k)
    ensures NothingLost(AccountOf(w.ledger, k), AccountOf(Execute(w, events).ledger, k))
  {
    if events != [] {
      var before := events[..|events| - 1];
      LoadedPrefix(w, events, k);
      RunLosesNothing(w, before, k);
      EveryRunKeeps(w, before);
      EventLosesNothing(Execute(w, before), events[|events| - 1], k);
    }
  }

  lemma EventAddsNoTicks(w: World, e: Event, k: int)
    requires Inv(w) && k in w.jobs && !w.jobs[k].schedule.seconds
    ensures AccountOf(Step(w, e).ledger, k).ticks == AccountOf(w.ledger, k).ticks
  {
    match e
    case Polled(now) => PollAccountOf(w, now, k);
    case Managed(list, answers, now, timeoutMs) => PassAccounts(w, list, answers, now, timeoutMs, k);
    case _ =>
  }

  /** A job that keeps a minute schedule is never made due by the seconds scheduler. */
  lemma {:induction false} RunAddsNoTicks(w: World, events: seq<Event>, k: int, text: string, s: Schedule, reach: int)
    requires Inv(w) && Parse(text) == Ok(s) && !s.seconds && Steady(w, events, k, text, reach)
    ensures AccountOf(Execute(w, events).ledger, k).ticks == AccountOf(w.ledger, k).ticks
  {
    if events != [] {
      var before := events[..|events| - 1];
      SteadyPrefix(w, events, k, text, reach);
      RunAddsNoTicks(w, before, k, text, s, reach);
      EveryRunKeeps(w, before);
      SteadySchedule(Execute(w, before), k, text);
      EventAddsNoTicks(Execute(w, before), events[|events| - 1], k);
    }
  }

  lemma SteadyIsLoaded(w: World, events: seq<Event>, k: int, text: string, reach: int)
    requires Steady(w, events, k, text, reach)
    ensures LoadedThroughout(w, events, k)
  {
    forall i | 0 <= i < |events| ensures k in Execute(w, events[..i]).jobs {
      assert SteadyAt(Execute(w, events[..i]), events[i], k, text, reach);
    }
  }

  /** A run of the job is under way up to its row: moved to Start, not inserted yet. */
  function InStart(w: World, k: int): int {
    if k in w.tasks && w.tasks[k].state == Start then 1 else 0
  }

  function Pending(w: World, k: int): int {
    if k in w.tasks then w.tasks[k].pendingRunCount else 0
  }

  /** All runs a job has had made due, less those still queued, cut, or in Start, have a run row. */
  function RunsAccountedFor(w: World, k: int): int {
    |RunsOf(w.ledger, k)| + Pending(w, k) + AccountOf(w.ledger, k).cut + InStart(w, k)
  }

  lemma FiresAccountedFor(w: World, w': World, k: int, due: seq<int>)
    requires Inv(w) && Inv(w') && AccountOf(w'.ledger, k).fires == AccountOf(w.ledger, k).fires + due
    requires NothingLost(AccountOf(w.ledger, k), AccountOf(w'.ledger, k))
    requires AccountOf(w'.ledger, k).ticks == AccountOf(w.ledger, k).ticks
    ensures |due| == RunsAccountedFor(w', k) - RunsAccountedFor(w, k)
  {
    assert JobInv(k, TaskOf(w, k), w.ledger) && Balanced(k, TaskOf(w, k), w.ledger);
    assert JobInv(k, TaskOf(w', k), w'.ledger) && Balanced(k, TaskOf(w', k), w'.ledger);
  }

  /**
   Queue conservation, over every run and every life of a job's task: runs made due are moved to
   Start, still pending, cut at Done or dropped with a removed task; runs moved to Start have a run
   row, but for one not inserted yet and those given up because the job was gone.
   */
  lemma QueueConserved(events: seq<Event>, k: int)
    ensures var w := Execute(EMPTY_WORLD, events);
            var a := AccountOf(w.ledger, k);
            |a.fires| + a.ticks == a.moved + Pending(w, k) + a.cut + a.dropped &&
            a.moved == |RunsOf(w.ledger, k)| + InStart(w, k) + a.abandoned && Pending(w, k) >= 0
  {
    var w := Execute(EMPTY_WORLD, events);
    EveryReachableWorld(events);
    assert JobInv(k, TaskOf(w, k), w.ledger) && Balanced(k, TaskOf(w, k), w.ledger);
  }

  /** All runs of a job are finalised exactly once, but for the one its task has open. */
  lemma AllButOneFinalised(w: World, k: int)
    requires Inv(w)
    ensures forall r :: r in RunsOf(w.ledger, k) ==>
              |w.ledger.runs[r].finals| == if k in w.tasks && Open(w.tasks[k]) && w.tasks[k].runId == r then 0 else 1
  {
    assert JobInv(k, TaskOf(w, k), w.ledger);
    forall r | r in RunsOf(w.ledger, k)
      ensures |w.ledger.runs[r].finals| == if k in w.tasks && Open(w.tasks[k]) && w.tasks[k].runId == r then 0 else 1
    {
      assert RunSound(w.ledger, r);
    }
  }

  /**
   End to end: while a job keeps a text and no gap exceeds the text's reach, the number of minutes
   the text denotes is the number of run rows inserted for the job, plus the growth of its queue,
   plus the runs cut from the queue, plus the one run moved to Start but not inserted; and every
   run inserted is finalised exactly once, except the one still open.
   */
  lemma TextGivesExactRuns(w: World, events: seq<Event>, k: int, text: string, e: Expr)
    requires Inv(w) && Ticking(w) && Spelled(text, e) && Legal(e) && e.Cron?
    requires Steady(w, events, k, text, TextReach(e))
    ensures var w' := Execute(w, events);
            (exists due :: DenotedMinutes(due, e, w.lastMinute, w'.lastMinute) &&
                           |due| == RunsAccountedFor(w', k) - RunsAccountedFor(w, k)) &&
            forall r :: r in RunsOf(w'.ledger, k) ==>
              |w'.ledger.runs[r].finals| == if k in w'.tasks && Open(w'.tasks[k]) && w'.tasks[k].runId == r then 0 else 1
  {
    var w' := Execute(w, events);
    ExactCatchUp(w, events, k, text, e);
    ParsedMeaning(text, e);
    SteadyIsLoaded(w, events, k, text, TextReach(e));
    RunLosesNothing(w, events, k);
    RunAddsNoTicks(w, events, k, text, Meaning(e), TextReach(e));
    EveryRunKeeps(w, events);
    AllButOneFinalised(w', k);
    var due :| AccountOf(w'.ledger, k).fires == AccountOf(w.ledger, k).fires + due &&
               DenotedMinutes(due, e, w.lastMinute, w'.lastMinute);
    FiresAccountedFor(w, w', k, due);
  }

  // ---- The queue ----

  /** What `QueueMoves` says of an outcome. */
  ghost predicate MovesQueue(k: int, t: Task, l: Ledger, o: Outcome) {
    var before, after := AccountOf(l, k), AccountOf(o.ledger, k);
    o.task.Some? &&
    (after.cut > before.cut ==> t.state == Done && o.task.value.pendingRunCount == 20) &&
    (t.state == Done ==> o.task.value.pendingRunCount <= 20) &&
    t.pendingRunCount - o.task.value.pendingRunCount == (after.cut - before.cut) + (after.moved - before.moved) &&
    before.moved <= after.moved <= before.moved + 1 && before.cut <= after.cut &&
    (after.moved > before.moved ==> t.state == Waiting && o.task.value.state == Start)
  }

  lemma WaitingMoves(k: int, t: Task, l: Ledger)
    requires t.jobId == k && t.isActive && t.state == Waiting
    ensures MovesQueue(k, t, l, ManageWaiting(t, l))
  {
  }

  lemma DoneMoves(k: int, t: Task, l: Ledger)
    requires t.jobId == k && t.state == Done
    ensures MovesQueue(k, t, l, ManageDone(t, l))
  {
  }

  lemma QuietMoves(k: int, t: Task, l: Ledger, o: Outcome)
    requires t.state != Done && o.task.Some? && SameQueue(t, o.task.value) && AccountOf(o.ledger, k) == AccountOf(l, k)
    ensures MovesQueue(k, t, l, o)
  {
  }

  lemma StartQueue(t: Task, l: Ledger, a: Answers, now: int)
    ensures ManageStart(t, l, a, now).task.Some? && SameQueue(t, ManageStart(t, l, a, now).task.value)
  {
  }

  lemma ConnectingQueue(t: Task, l: Ledger, a: Answers, now: int)
    ensures ManageConnecting(t, l, a, now).task.Some? && SameQueue(t, ManageConnecting(t, l, a, now).task.value)
  {
  }

  lemma SendingQueue(t: Task, l: Ledger, a: Answers, now: int, timeoutMs: int)
    ensures ManageSending(t, l, a, now, timeoutMs).task.Some? && SameQueue(t, ManageSending(t, l, a, now, timeoutMs).task.value)
  {
  }

  lemma EarlyQueue(t: Task, l: Ledger, a: Answers, now: int, timeoutMs: int)
    requires t.isActive && (t.state == Start || t.state == Connecting || t.state == Sending)
    ensures var o := Manage(t, true, l, a, now, timeoutMs); o.task.Some? && SameQueue(t, o.task.value)
  {
    StartQueue(t, l, a, now);
    ConnectingQueue(t, l, a, now);
    SendingQueue(t, l, a, now, timeoutMs);
  }

  lemma ErrorQueue(t: Task, l: Ledger)
    requires t.isActive
    ensures ManageError(t, l).task.Some? && SameQueue(t, ManageError(t, l).task.value)
  {
  }

  /** Runs leave the queue for Start one at a time; they are cut only at Done, which leaves at most 20. */
  lemma QueueMoves(k: int, t: Task, l: Ledger, a: Answers, now: int, timeoutMs: int)
    requires JobInv(k, Some(t), l) && LedgerSound(l) && t.isActive
    ensures MovesQueue(k, t, l, Manage(t, true, l, a, now, timeoutMs))
  {
    var o := Manage(t, true, l, a, now, timeoutMs);
    match t.state
    case Waiting => WaitingMoves(k, t, l);
    case Running =>
      RunningAccount(t, l, a, now, k);
      RunningQueue(t, l, a, now);
      QuietMoves(k, t, l, o);
    case Error =>
      ErrorAccount(t, l, k);
      ErrorQueue(t, l);
      QuietMoves(k, t, l, o);
    case Done => DoneMoves(k, t, l);
    case _ =>
      EarlyAccount(t, l, a, now, timeoutMs);
      EarlyQueue(t, l, a, now, timeoutMs);
      QuietMoves(k, t, l, o);
  }

  lemma CancelQueue(t: Task, l: Ledger, a: Answers)
    ensures var o := ReadRunning(AwaitCancel(t), MarkCancel(l, t.runId), a);
            o.task.Some? && SameQueue(t, o.task.value)
  {
    ReadQueue(AwaitCancel(t), MarkCancel(l, t.runId), a);
  }

  lemma RunningQueue(t: Task, l: Ledger, a: Answers, now: int)
    ensures ManageRunning(t, l, a, now).task.Some? && SameQueue(t, ManageRunning(t, l, a, now).task.value)
  {
    if RunTimeoutReached(t, now) {
      CancelQueue(t, l, a);
    } else {
      ReadQueue(t, l, a);
    }
  }

  predicate SameQueue(t: Task, t': Task) {
    t'.pendingRunCount == t.pendingRunCount && t'.nextRunTime == t.nextRunTime
  }

  lemma ReadQueue(t: Task, l: Ledger, a: Answers)
    ensures ReadRunning(t, l, a).task.Some? && SameQueue(t, ReadRunning(t, l, a).task.value)
  {
    ReadResultsMarks(t, a.results);
  }

  // ---- Seconds schedules ----

  /** Job `k` is loaded with the text of an interval of `n` seconds, and the clock reads after 2000. */
  ghost predicate SecondsAt(w: World, e: Event, k: int, text: string) {
    k in w.jobs && w.jobs[k].scheduleText == text && (e.Polled? ==> e.now > 0)
  }

  ghost predicate SecondsThroughout(w: World, events: seq<Event>, k: int, text: string) {
    forall i :: 0 <= i < |events| ==> SecondsAt(Execute(w, events[..i]), events[i], k, text)
  }

  ghost predicate Spaced(points: seq<int>, interval: int) {
    forall i :: 0 < i < |points| ==> points[i - 1] + interval <= points[i]
  }

  /** Since `w`, the due points of job `k` are spaced, and the next one is due an interval after the last. */
  ghost predicate SpacedSince(w: World, w': World, k: int, n: int) {
    k in w'.tasks &&
    exists points :: AccountOf(w'.ledger, k).points == AccountOf(w.ledger, k).points + points &&
                     SpacedUpTo(points, n, w'.tasks[k].nextRunTime)
  }

  ghost predicate SpacedUpTo(points: seq<int>, n: int, nextRunTime: int) {
    Spaced(points, n * USECS_PER_SEC) &&
    (points != [] ==> points[|points| - 1] > 0 && nextRunTime == points[|points| - 1] + n * USECS_PER_SEC)
  }

  lemma IdleQueue(t: Task, l: Ledger)
    requires t.isActive && t.pendingRunCount >= 0
    ensures var o := ManageWaiting(t, l);
            o.task.Some? && o.task.value.pendingRunCount <= t.pendingRunCount && o.task.value.nextRunTime == t.nextRunTime
    ensures var o := ManageDone(t, l);
            o.task.Some? && o.task.value.pendingRunCount <= t.pendingRunCount && o.task.value.nextRunTime == t.nextRunTime
  {
  }

  lemma ManageQueue(k: int, t: Task, l: Ledger, a: Answers, now: int, timeoutMs: int)
    requires JobInv(k, Some(t), l) && LedgerSound(l) && t.isActive
    ensures var o := Manage(t, true, l, a, now, timeoutMs);
            o.task.Some? && o.task.value.pendingRunCount <= t.pendingRunCount && o.task.value.nextRunTime == t.nextRunTime
  {
    match t.state
    case Waiting => IdleQueue(t, l);
    case Running => RunningQueue(t, l, a, now);
    case Error => ErrorQueue(t, l);
    case Done => IdleQueue(t, l);
    case _ => EarlyQueue(t, l, a, now, timeoutMs);
  }

  lemma {:induction false} PassQueue(w: World, list: seq<int>, answers: int -> Answers, now: int, timeoutMs: int, k: int)
    requires Inv(w) && k in w.jobs
    ensures var w' := ManageAll(w, list, answers, now, timeoutMs);
            k in w.tasks && k in w'.tasks && w'.jobs == w.jobs &&
            w'.tasks[k].pendingRunCount <= w.tasks[k].pendingRunCount && w'.tasks[k].nextRunTime == w.tasks[k].nextRunTime
  {
    if list != [] {
      var n := |list| - 1;
      var j := list[n];
      PassQueue(w, list[..n], answers, now, timeoutMs, k);
      var mid := ManageAll(w, list[..n], answers, now, timeoutMs);
      ManageAllKeeps(w, list[..n], answers, now, timeoutMs);
      if j == k {
        assert JobInv(k, TaskOf(mid, k), mid.ledger);
        ManageQueue(k, mid.tasks[k], mid.ledger, answers(k), now, timeoutMs);
      }
    }
  }

  lemma NoPoint(w: World, w1: World, w2: World, k: int, n: int)
    requires SpacedSince(w, w1, k, n) && k in w2.tasks && w2.tasks[k].nextRunTime == w1.tasks[k].nextRunTime
    requires AccountOf(w2.ledger, k).points == AccountOf(w1.ledger, k).points
    ensures SpacedSince(w, w2, k, n)
  {
  }

  lemma NextPoint(points: seq<int>, t: Task, n: int, now: int)
    requires SpacedUpTo(points, n, t.nextRunTime) && n >= 1 && now > 0 && SecondsDue(t, n, now)
    ensures SpacedUpTo(points + [now], n, SecondsTask(t, n, now).nextRunTime)
    ensures t.nextRunTime != 0 ==> SecondsTask(t, n, now).nextRunTime > t.nextRunTime
  {
    var all := points + [now];
    forall i | 0 < i < |all| ensures all[i - 1] + n * USECS_PER_SEC <= all[i] {
      if i < |points| {
        assert points[i - 1] + n * USECS_PER_SEC <= points[i];
      }
    }
  }

  lemma NotDueSpaced(points: seq<int>, t: Task, n: int, now: int)
    requires SpacedUpTo(points, n, t.nextRunTime) && n >= 1 && !SecondsDue(t, n, now)
    ensures SpacedUpTo(points, n, SecondsTask(t, n, now).nextRunTime)
  {
  }

  lemma PolledSeconds(w: World, now: int, k: int)
    requires k in w.tasks && k in w.jobs && w.jobs[k].schedule.seconds
    ensures var n, t, a := w.jobs[k].schedule.interval, w.tasks[k], AccountOf(w.ledger, k);
            k in Poll(w, now).tasks && Poll(w, now).tasks[k] == SecondsTask(t, n, now) &&
            AccountOf(Poll(w, now).ledger, k).points == a.points + if SecondsDue(t, n, now) then [now] else []
  {
    PollAccountOf(w, now, k);
  }

  lemma PollSpaced(w: World, w1: World, now: int, k: int, n: int)
    requires SpacedSince(w, w1, k, n) && now > 0 && n >= 1
    requires k in w1.jobs && w1.jobs[k].schedule.seconds && w1.jobs[k].schedule.interval == n
    ensures SpacedSince(w, Poll(w1, now), k, n)
  {
    var w2, t := Poll(w1, now), w1.tasks[k];
    PolledSeconds(w1, now, k);
    var points :| AccountOf(w1.ledger, k).points == AccountOf(w.ledger, k).points + points &&
                  SpacedUpTo(points, n, t.nextRunTime);
    if SecondsDue(t, n, now) {
      NextPoint(points, t, n, now);
      assert AccountOf(w2.ledger, k).points == AccountOf(w.ledger, k).points + (points + [now]);
    } else {
      NotDueSpaced(points, t, n, now);
      assert AccountOf(w2.ledger, k).points == AccountOf(w.ledger, k).points + points;
    }
  }

  lemma EventSpaced(w: World, w1: World, e: Event, k: int, text: string, n: int)
    requires Inv(w1) && SpacedSince(w, w1, k, n) && SecondsAt(w1, e, k, text) && n >= 1
    requires w1.jobs[k].schedule.seconds && w1.jobs[k].schedule.interval == n && w1.tasks[k].pendingRunCount <= 1
    ensures SpacedSince(w, Step(w1, e), k, n) && Step(w1, e).tasks[k].pendingRunCount <= 1
  {
    match e
    case Polled(now) =>
      PollSpaced(w, w1, now, k, n);
      PolledSeconds(w1, now, k);
    case Managed(list, answers, now, timeoutMs) =>
      PassQueue(w1, list, answers, now, timeoutMs, k);
      PassAccounts(w1, list, answers, now, timeoutMs, k);
      NoPoint(w, w1, Step(w1, e), k, n);
    case _ =>
      QuietEvent(w1, e, k);
      NoPoint(w, w1, Step(w1, e), k, n);
  }

  lemma QuietEvent(w: World, e: Event, k: int)
    requires k in w.tasks && !e.Polled? && !e.Managed?
    ensures var w' := Step(w, e);
            k in w'.tasks && w'.tasks[k].nextRunTime == w.tasks[k].nextRunTime &&
            w'.tasks[k].pendingRunCount == w.tasks[k].pendingRunCount && AccountOf(w'.ledger, k) == AccountOf(w.ledger, k)
  {
  }

  /**
   Seconds spacing: while a job keeps the text of an interval of `n` seconds, its due points are at
   least `n` seconds apart whichever way the clock moves, and it never has more than one pending run.
   */
  lemma {:induction false} SecondsSpaced(w: World, events: seq<Event>, k: int, text: string, n: int)
    requires Inv(w) && k in w.tasks && w.tasks[k].pendingRunCount <= 1
    requires Spelled(text, Seconds(n)) && Legal(Seconds(n)) && SecondsThroughout(w, events, k, text)
    ensures SpacedSince(w, Execute(w, events), k, n) && Execute(w, events).tasks[k].pendingRunCount <= 1
  {
    if events == [] {
      assert AccountOf(w.ledger, k).points == AccountOf(w.ledger, k).points + [];
      assert SpacedUpTo([], n, w.tasks[k].nextRunTime);
    } else {
      var before := events[..|events| - 1];
      var mid := Execute(w, before);
      forall i | 0 <= i < |before| ensures SecondsAt(Execute(w, before[..i]), before[i], k, text) {
        ExecutePrefix(w, events, i);
      }
      SecondsSpaced(w, before, k, text, n);
      EveryRunKeeps(w, before);
      SteadySchedule(mid, k, text);
      ParsedMeaning(text, Seconds(n));
      EventSpaced(w, mid, events[|events| - 1], k, text, n);
    }
  }
}
