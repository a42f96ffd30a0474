# my_nedo_cron, verified

A Dafny 4.11 model of `my_nedo_cron`, the PostgreSQL extension that runs SQL commands on a cron
schedule from one background worker. It covers the four parts that decide whether a job runs, how
often, and what its history says: the schedule language and its parser, the matcher and the clock
that drives it, the state machine of a run, and the worker's tables and loop. They are joined, so
that a schedule text implies an exact number of runs, each finalised once.

Check everything with `dafny verify dfyconfig.toml`.

## How it is built

Every part is written twice and tied together.

- What the program means is given on values. `CronExpr` is a grammar and a denotation that know
  nothing of parsing. `Calendar` pins `gmtime` down by section 4.16 (Seconds Since the Epoch) of the
  Base Definitions of IEEE Std 1003.1-2017. `TaskMachine` is one step of one run. `World` is the
  whole worker with five events (reload, look at the clock, wait, advance the runs, history rows
  deleted by someone else); a run of the worker is any sequence of events, so every interleaving of
  reloads, clock readings, socket readiness and libpq answers is one.
- What the program does is imperative, in the source's own shape. `CronSchedules` fills the five
  bool arrays and the flags in place. `CronTasks`, `CronSql`, `RunStep` and `NedoCron` (all in
  `Worker.dfy`) update task records, run rows and the two tables by assignment and loops. Each
  method's postcondition equates the whole new state with the function it implements, so the
  theorems about values are theorems about the methods. `NedoCron.Worker.Run` is the main loop; it
  is proved to do exactly the model's events, in order.

The ledger in `TaskMachine` holds the run rows and also ghost history no program can see: for each
run, whether its query was sent, how often it was cancelled and which final updates were made; for
each connection, how often it was finished; for each job id, where every run made due went.

| file | models |
|---|---|
| `Text.dfy` | `str_split`, `has_empty_part`, `parse_integer` |
| `CronExpr.dfy` | the schedule language and its meaning |
| `CronParser.dfy` | what `src/cron_parser.c` computes, and that it is the language |
| `ParserLaws.dfy` | the language in terms of the characters typed: letter case, names, numbers, bounds |
| `CronSchedule.dfy` | the parser as it runs, on bool arrays |
| `CronTime.dfy`, `Calendar.dfy` | `src/cron_time.c`, PostgreSQL's timestamp helpers, the calendar |
| `Matcher.dfy`, `Scheduler.dfy` | `ShouldRunTask`; which minutes a look at the clock fires |
| `TaskMachine.dfy`, `TaskInvariant.dfy` | one step of a run, and what it keeps |
| `World.dfy` | tables, events, runs of the worker, the invariant |
| `Conservation.dfy`, `Deadlines.dfy`, `EndToEnd.dfy` | the properties of whole runs |
| `StepLaws.dfy` | what single steps do to the task, its row and its socket, spelled out |
| `Progress.dfy` | a pending run that meets no trouble succeeds |
| `Worker.dfy` | the worker as it runs |
| `Example.dfy` | one concrete job, to show that the premises of the main theorems can be met |

## What the proofs brought to light

- A clock stepped back never reaches the `CLOCK_JUMP_BACKWARD` case: `TimestampDifference` returns
  zeros, and with zero minutes passed no minute job is examined. The comment there
  (`src/nedo_cron.c:930`) promises a check of the current minute that does not happen. The case is
  entered exactly when the elapsed seconds wrap in the cast to `int` into a short window, about 136
  years ahead (`Scheduler.BackwardExactly`), and there a floating job that is due fires at every look:
  `Example.AtMostOnceFails` is such a run. One look keeps at-most-once if and only if no loaded job
  does this (`EndToEnd.PollFiredOnce`), and whole runs keep it under the same condition on each look.
- Gaps of 6 to 180 minutes are made up in full only for schedules with no bare `*` in the minute or
  hour field; all others fire the current minute only (`Scheduler.PollFiresExactly`).
- The end of a range is not checked unless the walk reaches it: `0-70/100` is a legal minute field
  (`CronExpr.EndMayBeOutOfBounds`; exactly when, `CronExpr.LegalSpanExactly`).
- A run cancelled for its timeout is recorded as succeeded exactly if its results arrive clean, in the
  same step or later
  (`Conservation.CancelledRunCanSucceed`). A connection that does not come up in time is recorded as
  failed, never as timeout (`Conservation.TimeoutsWereSent`).
- `nedo_cron.statement_timeout_ms = 0` does not switch the timeout off: the query just sent is due
  at once (`Deadlines.ZeroTimeoutIsOverdue`).
- The repository's `README.md:235` lists a status `cancelled`; the worker never writes it
  (`Conservation.FinalStatusExactly` lists the three it writes).
- libpq's message texts are handed to `SetTaskError` as its printf format (`src/nedo_cron.c:562`, `569`,
  `605`, `626`, `656`, `682`, `699`, `755`, `782`, `787`), so a message holding `%` is not stored as it
  is, and C leaves open what is. In the model the text is stored as it comes.
- `StartOfMinute` rounds times before 2000 up, not down, because C's `%` truncates
  (`CronTime.StartOfMinuteIsFloor`).

## Model

| member | source | states |
|---|---|---|
| `EndToEnd.TextGivesExactRuns` | src/nedo_cron.c:482-1003 | end to end: while a job keeps a text and no gap exceeds the text's reach, the number of minutes the text denotes equals the growth of (run rows inserted + queue + runs cut + the run moved to START and not inserted), and every run of the job is finalised exactly once except the one its task has open |
| `EndToEnd.ExactCatchUp` | src/nedo_cron.c:887-1003 | over any such run the minutes fired are exactly those the text denotes in (first `lastMinute`, last `lastMinute`], in order and once each; reach 5 minutes if the text floats, 180 if not; clock steps back of any size allowed |
| `EndToEnd.TextFiresExactly` | src/nedo_cron.c:887-948 | what one look fires for a text: all denoted minutes after the remembered one for gaps up to 5 minutes, and up to 180 unless the minute or hour field holds a bare `*`; else just the current minute if denoted; nothing on a step back |
| `EndToEnd.FirstLook` | src/nedo_cron.c:956-961 | the first look at the clock remembers its minute and makes no minute schedule due |
| `Progress.UntroubledRunSucceeds` | src/nedo_cron.c:482-880 | progress: a pending run of a loaded job, met by six turns with a connection that comes up, a socket that fires, a query that goes out and results without fault, all in time, whatever the other jobs do, gets a new row that is starting after two turns, running with the server's pid after three, sent after four, succeeded with OK after five; after six the task waits again |
| `Progress.TurnIdles` | src/nedo_cron.c:596-750 | a turn in which the socket does not fire, before the deadline, leaves the run and its row where they are |
| `Progress.PassStepsOnce` | src/nedo_cron.c:473-479 | a pass over all tasks is, for one job, one step of its task from an unchanged standing, however the other tasks are stepped around it |
| `Example.NextMinuteFires` | src/nedo_cron.c:951-1003 | an instance of the exact catch-up on `* * * * *`: after the first look at the clock, a look one minute later fires that minute once and nothing else |
| `EndToEnd.AtMostOncePerMinute` | src/nedo_cron.c:951-1003 | for every sequence of events and clock readings from 2000 on, steps back and leaps included, at which no loaded job refires: no minute fires twice for a job id in any of its lives, none fires ahead of `lastMinute`, and `lastMinute` never decreases |
| `EndToEnd.FromTheStartAtMostOnce` | src/nedo_cron.c:951-1003 | the same from an empty worker |
| `EndToEnd.PollFiredOnce` | src/nedo_cron.c:951-1003 | one look keeps at-most-once if and only if it does not enter the backward case while a loaded floating job is due; it never decreases `lastMinute` |
| `Example.AtMostOnceFails` | src/nedo_cron.c:924-931 | a reachable worker and a clock reading 136 years on at which two looks fire the same minute twice |
| `Example.FarMinuteFiresTwice` | src/cron_time.c:31-36 | the same for one schedule: the elapsed seconds wrap in the cast, and both looks fire exactly that minute |
| `EndToEnd.QueueConserved` | src/nedo_cron.c:494-512 | over every run: runs made due = moved to START + pending + cut + dropped with a removed task, and moved = run rows inserted + the one in START + given up because the job was gone |
| `EndToEnd.QueueMoves` | src/nedo_cron.c:501-513 | runs leave an active task's queue at most one a step, from WAITING into START, or are cut; cutting happens only in DONE, and DONE leaves at most 20 |
| `StepLaws.WaitingStarts` | src/nedo_cron.c:501-513 | a waiting task of a loaded job with a pending run goes to START with one less pending and nothing else changed; without one it stays as it is |
| `StepLaws.DoneWaits` | src/nedo_cron.c:869-876 | DONE waits again with the lesser of its queue and 20 pending, the due point kept, and nothing left of the run |
| `EndToEnd.RunLosesNothing` | src/nedo_cron.c:482-880 | while its job stays loaded no run of a task is dropped or given up, over any run: minute or seconds schedule, rescheduled or not, whatever the clock shows |
| `EndToEnd.RunAddsNoTicks` | src/nedo_cron.c:990-995 | a job that keeps a minute schedule is never made due by the seconds scheduler |
| `EndToEnd.AllButOneFinalised` | src/nedo_cron.c:824-832 | every run of a job is finalised exactly once, except the open one, which has no final update |
| `EndToEnd.SecondsSpaced` | src/cron_task.c:38-56 | while a job keeps `n seconds`, successive due points are at least n seconds apart whichever way the clock moves, and it never has more than one pending run |
| `EndToEnd.NextPoint` | src/cron_task.c:48-55 | at a due point `nextRunTime` strictly increases, to one interval after the point |
| `StepLaws.SecondsLook` | src/cron_task.c:38-56 | the first look sets the due point an interval ahead, one before the point changes nothing, one at or after it makes a run due unless one is pending and sets the next point from the clock |
| `Conservation.RunsFinalisedOnce` | src/cron_sql.c:18-147 | rows inserted = runs finalised + tasks with an open run; the unfinished runs are exactly the open tasks' runs, so at most one per job id; no run is finalised twice |
| `Conservation.ConnectionsFinishedOnce` | src/nedo_cron.c:550-559 | connections opened = connections finished + tasks holding one; none is finished twice; exactly the unfinished ones are held, by the task of the job that opened them; WAITING, START and DONE hold none |
| `Conservation.StatusMovesForward` | src/cron_sql.c:66-147 | between any two moments of any run a row only moves forward (starting, running, one final status), a final status is never left, and deleted rows stay deleted |
| `Conservation.FinalStatusExactly` | src/nedo_cron.c:812-832 | what one step writes for an open run: timeout or failed exactly in the ERROR case by `timedOut`, succeeded exactly when the run ends clean, nothing otherwise |
| `Conservation.TimeoutsWereSent` | src/nedo_cron.c:596-601 | timeout is recorded only for a run whose query was sent |
| `StepLaws.ReadStops` | src/nedo_cron.c:764-815 | reading stops at the first bad result, keeps its message, and notes SQLSTATE 57014 as a timeout |
| `StepLaws.FaultRecorded` | src/nedo_cron.c:764-832 | a run with a bad result is recorded by the next step with the first fault's message, as timeout exactly if cancelled for its timeout or the fault is 57014, else as failed |
| `StepLaws.LostConnectionRecorded` | src/nedo_cron.c:603-609 | a connection lost in time fails the run with libpq's message, recorded by the next step |
| `StepLaws.LateStartRecorded` | src/nedo_cron.c:596-601 | a connection not up, or a query not out, by its deadline is recorded as failed |
| `StepLaws.RefusalFails` | src/nedo_cron.c:623-628 | a failed poll, a query not accepted or input not readable, in time, fails the task at once with libpq's message |
| `StepLaws.FailedStartRecorded` | src/nedo_cron.c:549-573 | a connection that cannot be started leaves its new run recorded as failed by the next step, with the reason |
| `StepLaws.CancelWaits` | src/nedo_cron.c:705-752 | a step past the run deadline sends one cancel and, with nothing to read yet, waits for the server, marked as timed out |
| `StepLaws.FailedCancelRecorded` | src/nedo_cron.c:716-738 | a cancel that fails ends the run as a timeout, recorded by the next step with the reason |
| `StepLaws.ErrorRecorded` | src/nedo_cron.c:824-832 | a failed task's row, if still there, gets the final status and the task's message |
| `Conservation.CancelledRunCanSucceed` | src/nedo_cron.c:705-818 | a run whose results arrive ends succeeded exactly when no result set is faulty or COPY, whether it was cancelled in an earlier step, is cancelled in this one, or never was |
| `Conservation.CancelSentOnce` | src/nedo_cron.c:705-746 | a step adds a cancel to its run exactly when it finds the run timeout reached and gets a cancel handle, and never a second one |
| `Conservation.ManageEvolves` | src/nedo_cron.c:482-880 | a step only adds to every run's history and never moves a row back to starting |
| `Deadlines.DeadlinesMet` | src/nedo_cron.c:574-679 | after any run, a pass over all tasks at `now` leaves none connecting or sending past its start deadline, and none running past its run deadline uncancelled (positive timeout) |
| `Deadlines.StepMeetsDeadlines` | src/nedo_cron.c:596-746 | the same for one step of one task |
| `Deadlines.ZeroTimeoutIsOverdue` | src/nedo_cron.c:668-679 | a query just sent is not overdue exactly when the timeout is positive |
| `Deadlines.CancelledAtMostOnce` | src/nedo_cron.c:705-746 | over every run `PQcancel` is called at most once per run, and only after its query was sent |
| `Deadlines.LostTaskReclaimed` | src/nedo_cron.c:834-858 | once a job is gone its task is removed after two passes over it (one unless DONE), whatever else happens short of a reload, with every run of it finalised once and every connection finished once |
| `Deadlines.LostTaskSteps` | src/nedo_cron.c:494-498 | each step of a task whose job is gone takes it one step nearer to removal |
| `World.EveryReachableWorld` | src/nedo_cron.c:216-293 | the whole invariant holds in every reachable state: tables coherent (every loaded job has a task, active exactly while loaded, schedules are parsed texts), every task, run, connection and queue sound |
| `World.EveryRunKeeps` | src/nedo_cron.c:216-293 | the invariant is kept by every sequence of events |
| `World.StepKeeps` | src/nedo_cron.c:240-291 | the invariant is kept by each event |
| `World.ReloadKeeps` | src/cron_job.c:112-145 | a reload with any rows keeps the invariant and the coherence of both tables |
| `World.LoadsGoodRows` | src/cron_job.c:183-233 | for all rows: a job is loaded if and only if some row has its id and a text that spells a legal schedule |
| `World.LoadsLastGoodRow` | src/cron_job.c:43-97 | and holds the text, the meaning of the text and the command of the last such row (the only one, ids being a primary key) |
| `World.ReloadTables` | src/cron_job.c:112-145 | after a reload every earlier task is there with only its activity changed, active exactly if its job has a good row; every other job with a good row has a task that waits with nothing pending and no due point |
| `World.PollKeeps` | src/nedo_cron.c:951-1003 | a look at any clock reading keeps the invariant |
| `World.WaitKeeps` | src/nedo_cron.c:381-470 | a wait keeps the invariant, whichever sockets are bad or ready |
| `StepLaws.WaitMarks` | src/nedo_cron.c:391-464 | after a wait a task is ready exactly if it connects, sends or runs, waits to read or write, has a good socket and was reported; it fails exactly if registered without a good socket; nothing else changes |
| `World.ManageAllKeeps` | src/nedo_cron.c:473-479 | a pass over any list of tasks keeps the invariant, whatever libpq answers |
| `World.DeleteKeeps` | src/cron_sql.c:92-97 | rows that vanish meanwhile break nothing: the invariant is kept, and with it everything proved of later steps |
| `World.ManageActivity` | src/nedo_cron.c:853-857 | a step removes only an inactive task and never changes whether a task is active |
| `TaskInvariant.ManageKeeps` | src/nedo_cron.c:482-880 | one step of any state, with any answers and any clock, keeps its job's invariant and leaves every other job's runs, rows, connections and account alone |
| `TaskInvariant.FrameKeeps` | src/nedo_cron.c:473-479 | a step of one job keeps every other job's invariant |
| `TaskInvariant.StartKeeps` | src/nedo_cron.c:515-584 | START keeps the invariant on every branch |
| `TaskInvariant.StartOpens` | src/nedo_cron.c:515-584 | START inserts exactly one row, 'starting', under a fresh run id, opens one fresh connection or none, leaves the task holding both, and goes on exactly if libpq took the connection |
| `TaskInvariant.ConnectingKeeps` | src/nedo_cron.c:586-637 | CONNECTING keeps the invariant on every branch |
| `StepLaws.StaysConnecting` | src/nedo_cron.c:611-635 | while the connection comes up the task waits for what libpq asks for, and nothing else changes |
| `TaskInvariant.SendingKeeps` | src/nedo_cron.c:638-689 | SENDING keeps the invariant on every branch |
| `TaskInvariant.RunningKeeps` | src/nedo_cron.c:690-822 | RUNNING keeps the invariant on every branch, cancel branches included |
| `StepLaws.StaysRunning` | src/nedo_cron.c:748-762 | while the server is at work nothing changes |
| `TaskInvariant.ReadResultsMarks` | src/nedo_cron.c:764-815 | reading results either leaves the task as it was or fails it with a message, `timedOut` at most newly set |
| `TaskInvariant.ErrorKeeps` | src/nedo_cron.c:824-868 | ERROR keeps the invariant, for active and removed tasks |
| `TaskInvariant.ErrorSettles` | src/nedo_cron.c:824-868 | ERROR finalises the task's run with timeout or failed, finishes its connection, and removes the task exactly if inactive, else hands it to DONE with neither |
| `TaskInvariant.DoneKeeps` | src/nedo_cron.c:869-876 | the reset in DONE drops no live connection and no open run |
| `Scheduler.PollFiresExactly` | src/nedo_cron.c:887-1003 | what one call fires for every clock reading from 2000 on and less than 68 years ahead: nothing on a step back, all due minutes after the remembered one within reach, only the current minute beyond |
| `Scheduler.PollFiresByMinutes` | src/nedo_cron.c:951-1003 | the same for every clock reading without exception, in terms of the minutes the call counts, wrapped counts and times before 2000 included |
| `Scheduler.NothingMissedExactly` | src/nedo_cron.c:960-979 | a call (from 2000 on, less than 68 years ahead, steps back included) misses nothing due exactly when the gap is within reach or no earlier minute in it is due |
| `Scheduler.ReplayExact` | src/nedo_cron.c:897-907 | the replay loop fires exactly the due minutes after `lastMinute` up to the current one, in order |
| `Scheduler.WindowsJoin` | src/nedo_cron.c:887-907 | what two adjoining windows fire is what their union fires |
| `Scheduler.FiresAdvance` | src/nedo_cron.c:887-1003 | outside the backward case a call fires only minutes after the remembered one and up to the next remembered one |
| `Scheduler.AdvanceExactly` | src/nedo_cron.c:887-1003 | a look keeps to the minutes after the remembered one if and only if it does not enter the backward case with a due floating schedule |
| `Scheduler.BackwardExactly` | src/nedo_cron.c:969-974 | the backward case is entered exactly for elapsed seconds that wrap into a window just below 2^32 |
| `Scheduler.BackwardFiresAgain` | src/nedo_cron.c:924-931 | there a due floating schedule fires, leaves `lastMinute`, and fires the same minute at the next look |
| `Matcher.MatcherRefines` | src/nedo_cron.c:1007-1050 | for every accepted text and time, `ShouldRunTask` with both flags is the text's denotation at the calendar time |
| `Matcher.FlagsPartition` | src/nedo_cron.c:1041-1045 | the two single-flag calls split that answer: the floating one answers only for schedules with MIN_STAR or HOUR_STAR, the fixed one only for those with neither |
| `Matcher.FloatsByStar` | src/cron_parser.c:323-340 | a stored schedule floats exactly when the minute or the hour field of its text holds a bare `*` |
| `Matcher.TimestampsStartAt2000` | src/nedo_cron.c:1009-1018 | timestamp 0 is Saturday, 2000-01-01 00:00:00 |
| `Matcher.CalendarRunsOn` | src/nedo_cron.c:1009-1018 | at every time the calendar fields are the consistent ones that many whole seconds from 2000-01-01 |
| `Matcher.MatcherCycle` | src/nedo_cron.c:1007-1024 | the answers at t and at t + 146097 days are the same, from 2000 on |
| `Matcher.SameWithinMinute` | src/nedo_cron.c:1009-1018 | from 2000 on seconds within a minute do not matter, so testing minute boundaries loses nothing |
| `Calendar.GmtimeInverts` | src/nedo_cron.c:1009-1010 | `gmtime` gives consistent fields whose section 4.16 value is the time |
| `Calendar.GmtimeCharacterised` | src/nedo_cron.c:1009-1010 | and is the only broken-down time that does |
| `Calendar.YearStep` | src/cron_parser.c:86-91 | the leap-year rule and the day count of section 4.16 agree on every year |
| `Calendar.MonthStep` | src/cron_parser.c:111-135 | `days_in_month` adds up to the days of the year, month by month |
| `Calendar.FourHundredYears` | src/cron_parser.c:86-91 | any 400 consecutive years have 146097 days |
| `Calendar.EraCycle` | src/cron_parser.c:86-135 | 146097 days later every calendar field but the year repeats |
| `Calendar.OneLastDayPerMonth` | src/cron_parser.c:105-108 | `$` holds on exactly one day of every month of every year |
| `Calendar.LastDayPrecedesFirst` | src/cron_parser.c:105-135 | `$` holds exactly on the days followed by the first of a month |
| `CronTime.MinuteArithmetic` | src/cron_time.c:31-36 | from an aligned start `MinutesPassed` counts exactly the boundaries up to the current minute, if and only if the elapsed seconds fit an `int` |
| `CronTime.NegativeMinutesExactly` | src/cron_time.c:31-36 | it is negative and above a bound exactly when the cast wraps into the matching window |
| `CronTime.StartOfMinuteIsFloor` | src/cron_time.c:4-28 | the result is on a minute; it is the minute holding the time exactly for times from 2000 on or on a minute |
| `CronTime.EndOfMinuteIsNext` | src/cron_time.c:18-28 | `EndOfMinute` is the first minute boundary after the time |
| `CronParser.ParserCorrect` | src/cron_parser.c:633-700 | a text is accepted if and only if it spells a legal expression of the grammar, and the expression read is the one spelled |
| `CronParser.ParsedMeaning` | src/cron_parser.c:295-423 | the stored bits and flags are exactly the meaning of the spelling |
| `CronParser.RejectedExactly` | src/cron_parser.c:633-700 | a text is rejected if and only if it spells no legal expression |
| `ParserLaws.CaseDoesNotMatter` | src/cron_parser.c:94-102 | changing the case of any ASCII letters of a text changes neither whether it is accepted nor what it means |
| `ParserLaws.MonthNames` | include/cron_parser.h:72-77 | JAN to DEC, in any case, are 1 to 12 |
| `ParserLaws.DayNames` | include/cron_parser.h:80-84 | SUN to SAT, in any case, are 0 to 6 |
| `ParserLaws.SecondsInAnyCase` | src/cron_parser.c:648-668 | `N seconds`, in any case, is accepted exactly for N from 1 to 59 |
| `ParserLaws.NumberReads` | src/cron_parser.c:229-234 | a number written in decimal reads as itself up to 2147483647 and is refused beyond |
| `ParserLaws.OnlyDigitsRead` | src/cron_parser.c:219-227 | nothing but ASCII digits reads as a number |
| `ParserLaws.LeadingZero` | src/cron_parser.c:229-234 | leading zeros change nothing |
| `ParserLaws.NumbersInBounds` | src/cron_parser.c:344-398 | a number is accepted in a field exactly within 0-59, 0-23, 1-31, 1-12 or 0-7, else refused with the message that names them |
| `ParserLaws.NumberMeans` | src/cron_parser.c:400-421 | it sets exactly its own bit, but that of Sunday for day-of-week 7 |
| `Example.DocumentedError` | README.md:121-131 | `* * * * 8` is rejected at field 5 near `8` with the documented message |
| `CronParser.FirstErrorLocated` | src/cron_parser.c:588-685 | the error of a rejected five-field text names the first illegal field and in it the first illegal item, or 0 for list syntax, with a non-empty message |
| `CronParser.ListsAreOrderFree` | src/cron_parser.c:588-630 | reordering or repeating the items of accepted lists gives the same schedule |
| `CronParser.StoredFieldsNotEmpty` | src/cron_parser.c:441-630 | every field of an accepted text sets a bit, except a day-of-month that holds `$` |
| `CronParser.FieldParses` | src/cron_parser.c:588-630 | a field is accepted exactly when it is a comma list of legal items |
| `CronParser.ItemParses` | src/cron_parser.c:441-585 | an item is accepted exactly when it spells a legal item |
| `CronParser.StepReads` | src/cron_parser.c:486-558 | the step branch reads exactly the stepped forms of the grammar |
| `CronParser.RangeReads` | src/cron_parser.c:251-280 | `parse_range` reads exactly the ranges of the grammar |
| `CronParser.FieldValueReads` | src/cron_parser.c:426-438 | `parse_field_value` reads exactly numbers and the field's names, case folded, without ambiguity |
| `CronExpr.LegalSpanExactly` | src/cron_parser.c:295-320 | a span is legal exactly when its first value and the last value its walk reaches are in bounds |
| `CronExpr.EndMayBeOutOfBounds` | src/cron_parser.c:313-318 | `0-70/100` is a legal minute item though 70 is out of bounds |
| `CronExpr.FieldNotEmpty` | src/cron_parser.c:376-423 | a legal list of any field names some value of the field, or contains `$` in day-of-month |
| `CronSchedules.ParseWithError` | src/cron_parser.c:633-700 | returns null and the first error, or a fresh schedule whose arrays and flags hold exactly what the text means |
| `CronSchedules.ParseFiveFields` | src/cron_parser.c:676-699 | the five-field half of it, short-circuiting at the first bad field |
| `CronSchedules.CronSchedule.ParseCronField` | src/cron_parser.c:588-630 | fails with the field's first error, or adds exactly the list's items to the arrays and flags |
| `CronSchedules.CronSchedule.ParseFieldItem` | src/cron_parser.c:441-585 | the same for one item, with the message of the branch that fails |
| `CronSchedules.CronSchedule.ParseStepped` | src/cron_parser.c:486-558 | the same for an item with a step |
| `CronSchedules.CronSchedule.ParsePlainValue` | src/cron_parser.c:574-584 | the same for a single value |
| `CronSchedules.CronSchedule.SetFieldRange` | src/cron_parser.c:295-320 | walks the range in steps, setting exactly the visited values up to the first out of bounds, and fails exactly if there is one, the step is not positive or the range is reversed |
| `CronSchedules.CronSchedule.SetFieldValue` | src/cron_parser.c:376-423 | sets exactly one bit of one field, 0 for day-of-week 7, or fails and changes nothing |
| `CronSchedules.CronSchedule.MarkStarField` | src/cron_parser.c:323-340 | sets the field's star flag and nothing else; month has none |
| `CronSchedules.WalkIsSpan` | src/cron_parser.c:313-318 | the values the loop visits are the values the span denotes |
| `CronSchedules.StarIsFullWalk` | src/cron_parser.c:477-483 | `*` sets every value of the field |
| `CronSchedules.ApplyFills` | src/cron_parser.c:611-628 | a list sets the union of its items' bits, its star flag if it holds `*`, LAST_DOM if it holds `$`, and touches no other field |
| `CronSchedules.FiveFieldsMean` | src/cron_parser.c:676-695 | filling the five fields one after another gives the meaning of the whole expression |
| `Text.JoinSplit` | src/cron_parser.c:158-191 | joining the parts of `str_split` gives the text back, and no part holds the delimiter |
| `Text.SplitJoin` | src/cron_parser.c:158-191 | splitting a join of delimiter-free parts gives the parts back |
| `Text.SplitLength` | src/cron_parser.c:167-173 | the parts number one more than the delimiters, so the array allocated is just large enough |
| `Text.StrSplit` | src/cron_parser.c:158-191 | the scanning loop computes the split |
| `Text.EmptyPartExists` | src/cron_parser.c:62-81 | `has_empty_part` holds exactly when some part of the split is empty |
| `Text.FindEmptyPart` | src/cron_parser.c:62-81 | the scanning loop decides exactly that |
| `Text.ParseInteger` | src/cron_parser.c:215-237 | accepts exactly the non-empty digit strings whose value fits an `int`, and returns the value |
| `CronTasks.CronTask.constructor` | src/cron_task.c:8-21 | `InitCronTask` on a fresh entry: every field but polling status and start deadline is set |
| `CronTasks.CronTask.ResetCronTaskAfterRun` | src/cron_task.c:24-35 | resets the run's fields and keeps queue, activity and `nextRunTime` |
| `CronTasks.CronTask.StartSecondIntervalTask` | src/cron_task.c:38-56 | one look at a seconds job is the model's step |
| `CronTasks.CronTask.MarkAfterWait` | src/nedo_cron.c:391-464 | the state effects of a wait on one task |
| `CronTasks.CronTask.SetTaskError` | src/nedo_cron.c:179-195 | the stored message is the given one, or a fixed text for an empty one, so never empty |
| `CronSql.Server.InsertRunDetailsStart` | src/cron_sql.c:18-63 | inserts exactly one row, 'starting', under a fresh run id |
| `CronSql.Server.UpdatePID` | src/cron_sql.c:66-104 | sets status and pid of a row still there, and nothing for pid 0 or a deleted row |
| `StepLaws.PidRecorded` | src/cron_sql.c:66-104 | a row still there becomes running with the pid and is otherwise unchanged; pid 0 and deleted rows change nothing |
| `CronSql.Server.UpdateRunDetailsFinish` | src/cron_sql.c:107-147 | sets status and message of a row still there |
| `RunStep.ManageCronTask` | src/nedo_cron.c:482-880 | task, rows and connections after the step are exactly the state machine's |
| `RunStep.LoseMissingJob` | src/nedo_cron.c:494-498 | a task whose job is gone goes to ERROR with a message |
| `RunStep.Advance` | src/nedo_cron.c:500-879 | the switch over the states |
| `RunStep.StepWaiting` | src/nedo_cron.c:501-514 | the WAITING case |
| `RunStep.StepStart` | src/nedo_cron.c:515-584 | the START case |
| `RunStep.StepConnecting` | src/nedo_cron.c:586-637 | the CONNECTING case |
| `RunStep.StepSending` | src/nedo_cron.c:638-689 | the SENDING case |
| `RunStep.StepRunning` | src/nedo_cron.c:690-822 | the RUNNING case |
| `RunStep.RequestCancel` | src/nedo_cron.c:705-746 | at most one cancel request, with the marks each of its three endings leaves |
| `RunStep.ConsumeInput` | src/nedo_cron.c:748-822 | draining and closing the connection, and success |
| `RunStep.DrainResults` | src/nedo_cron.c:764-815 | the loop over result sets stops at the first faulty one |
| `RunStep.CloseRun` | src/nedo_cron.c:826-851 | finalises the run if there is one, then finishes the connection if there is one |
| `RunStep.StepError` | src/nedo_cron.c:824-868 | the ERROR case |
| `RunStep.StepDone` | src/nedo_cron.c:869-876 | the DONE case |
| `NedoCron.Worker.Run` | src/nedo_cron.c:239-291 | any number of turns of the main loop is exactly the model's events in the loop's order, every pass goes over the whole table once, and the invariant is kept |
| `NedoCron.Worker.Turn` | src/nedo_cron.c:239-291 | one turn is reload if stale, look, wait, advance; the reload time is kept |
| `NedoCron.Worker.Prepare` | src/nedo_cron.c:243-260 | reloads exactly when invalidated, never loaded or a minute old |
| `NedoCron.ReloadsWhenStale` | src/nedo_cron.c:256-260 | the cache is stale when invalidated, never loaded, or sixty seconds old |
| `NedoCron.Worker.LookWaitAndManage` | src/nedo_cron.c:262-273 | look, wait and advance over one listing of the table |
| `NedoCron.LoopMeetsDeadlines` | src/nedo_cron.c:239-291 | every turn of the loop with a positive timeout ends with no task overdue |
| `NedoCron.Worker.ReloadCronJobs` | src/cron_job.c:112-145 | the whole state after a reload is the model's |
| `NedoCron.Worker.LoadJobsList` | src/cron_job.c:183-233 | the job table holds exactly the rows whose schedule parses, with its parsed schedule |
| `NedoCron.Worker.DeactivateAll` | src/cron_job.c:126-128 | every task goes inactive and changes in nothing else |
| `NedoCron.Worker.ActivateOne` | src/cron_job.c:132-138 | a loaded job's task is created or revived, and no other task changes |
| `NedoCron.Worker.GetCronTask` | src/cron_task.c:59-71 | finds the task of a job id, or enters a fresh one and nothing else |
| `NedoCron.ReloadedViews` | src/cron_job.c:126-138 | both loops together leave each task active exactly when its job is loaded |
| `NedoCron.Worker.LoadTasksList` | src/nedo_cron.c:297-307 | the list holds every task once, in no particular order |
| `NedoCron.Worker.StartPendingTasks` | src/nedo_cron.c:951-1003 | the whole state after a look at the clock is the model's |
| `NedoCron.Worker.StartPendingTask` | src/nedo_cron.c:887-948 | the queue grows by exactly the minutes fired, and nothing else of the task changes |
| `NedoCron.Worker.CatchUp` | src/nedo_cron.c:900-907 | the replay loop adds one run for each due minute |
| `NedoCron.PollEachIsPoll` | src/nedo_cron.c:980-1001 | one task after another, in any order, is all tasks at once |
| `NedoCron.Worker.CalculateWaitTimeout` | src/nedo_cron.c:328-378 | 0 when a WAITING task has a pending run; otherwise min(1000, whole milliseconds to the earliest of the next minute boundary and all applicable deadlines) |
| `NedoCron.Worker.NextEvent` | src/nedo_cron.c:336-367 | the loop stops at a WAITING task with a pending run, or finds the earliest of the next minute and all deadlines |
| `NedoCron.Worker.MillisecondsUntil` | src/nedo_cron.c:369-377 | the remaining time in whole milliseconds, from 0 to 1000 |
| `NedoCron.Worker.EarlierDeadline` | src/nedo_cron.c:346-366 | the fold step: the result is the earlier of what was known and the task's deadlines |
| `NedoCron.NeverOversleeps` | src/nedo_cron.c:369-377 | that timeout ends no later than any deadline, and unless cut to a second less than a millisecond before the earliest |
| `NedoCron.Worker.WaitForEvent` | src/nedo_cron.c:381-470 | the whole state after a wait is the model's |
| `NedoCron.Worker.ManageCronTasks` | src/nedo_cron.c:473-479 | the whole state after a pass is the model's, removals included |
| `NedoCron.Worker.ManageEntry` | src/nedo_cron.c:482-880 | one step on a table entry, which it may remove; every other entry stays |

## Left out

- libpq, WaitEventSet, latches, signals, memory contexts, hash tables and logging: what they answer is an input of each event, and the order in which a table is walked is arbitrary.
- SPI, transactions, snapshots, OID lookup, privileges, configuration variables and the SQL function wrappers: only their effect on rows is modelled, and inserts are taken to succeed with fresh run ids.
- Row columns `database`, `username`, `start_time`, `end_time`, and the job columns that only reach `PQconnectStartParams`.
- Message texts: job ids and the `[my_nedo_cron]` prefix are not interpolated, and buffers do not truncate.
- Freshness of the job cache: invalidation is an input of each turn, so nothing is said of a change that arrives during a reload.
- A guarantee that a RUNNING task ends: after a cancel it waits for the socket.
- EndToEnd.AtMostOncePerMinute: times before 2000, and looks at which a loaded job refires, where it is false (`Example.AtMostOnceFails`; exactly when, `EndToEnd.PollFiredOnce`).
- EndToEnd.ExactCatchUp: times from 2000 on, and gaps below 68 years, so that the cast to `int` does not wrap; `CronTime.MinuteArithmetic` shows the second is needed for the minute count, `CronTime.StartOfMinuteIsFloor` the first for the minute itself.
- Deadlines.DeadlinesMet: requires a positive statement timeout; `Deadlines.ZeroTimeoutIsOverdue` shows it is needed.
- CronSchedules.CronSchedule.SetFieldRange: the step sum `value + step` is a mathematical integer, where C would overflow for steps above INT_MAX - 59.
- CronTasks.CronTask.SetTaskError: does not expand the text as a printf format, as C does with libpq's messages; it stores what it is given.
- Scheduler.PollFiresExactly: in terms of the gap on the clock, so from 2000 on and below the wrap of the cast; `Scheduler.PollFiresByMinutes` has neither limit.
- Scheduler.NothingMissedExactly: the same limits; past the wrap the minutes counted are not those gone by.
- NedoCron.Worker.Run: history rows deleted by others go at the start of a turn; `World.EveryRunKeeps` and the theorems on runs allow them between any two events.
- NedoCron.Worker.GetCronTask: a new entry's polling status and start deadline, which `InitCronTask` does not set, are arbitrary.
- `pendingRunCount` is a mathematical integer; it can pass 20 between two DONE steps.
- Case folding is that of ASCII letters, whatever the locale.
- `fillBooleanArray`, `isEnumeration`, `seconds_names` and the state CRON_TASK_RECEIVING: never reached.
- Out-of-memory branches, and the copying and freeing of schedules.
