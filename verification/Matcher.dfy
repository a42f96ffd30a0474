/** `ShouldRunTask` of src/nedo_cron.c, proved to be the meaning of the schedule text at a time. */
module Matcher {
  import opened Options
  import opened CronTime
  import opened Calendar
  import opened CronExpr
  import opened CronParser

  /** `timestamptz_to_time_t`: 2000-01-01 is 10957 days after the Epoch. */
  function UnixSeconds(time: int): int {
    TruncDiv(time, USECS_PER_SEC) + 10957 * SECS_PER_DAY
  }

  function CalendarAt(time: int): Tm {
    Gmtime(UnixSeconds(time))
  }

  /** The bit tests of `ShouldRunTask` on a broken-down time. */
  predicate FitsCalendar(schedule: Schedule, tm: Tm) {
    var month, year := tm.mon + 1, tm.year + 1900;
    var domMatches := tm.mday in schedule.dom || (schedule.lastDom && IsLastDayOfMonth(tm.mday, month, year));
    var dowMatches := tm.wday in schedule.dow;
    var dayMatches := if schedule.domStar || schedule.dowStar then domMatches && dowMatches else domMatches || dowMatches;
    tm.min in schedule.minute && tm.hour in schedule.hour && month in schedule.month && dayMatches
  }

  predicate IsFloating(schedule: Schedule) { schedule.minStar || schedule.hourStar }

  predicate ShouldRunTask(schedule: Schedule, currentTime: int, floating: bool, fixed: bool) {
    !schedule.seconds && FitsCalendar(schedule, CalendarAt(currentTime)) &&
    ((fixed && !IsFloating(schedule)) || (floating && IsFloating(schedule)))
  }

  lemma CalendarInDomain(time: int)
    ensures var tm := CalendarAt(time);
            InDomain(Minute, tm.min) && InDomain(Hour, tm.hour) && InDomain(Dom, tm.mday) &&
            InDomain(Month, tm.mon + 1) && InDomain(Dow, tm.wday)
  {
    GmtimeInverts(UnixSeconds(time));
  }

  const MILLENNIUM := Tm(0, 0, 0, 1, 0, 100, 6, 0)

  lemma MillenniumTime()
    ensures Consistent(MILLENNIUM) && SecondsSinceEpoch(MILLENNIUM) == 946_684_800
  {
    assert YearStart(2000) == 10957 && MonthStart(2000, 1) == 0;
  }

  lemma ZeroSeconds()
    ensures UnixSeconds(0) == 946_684_800
  {
  }

  /** Timestamp 0 is Saturday, 2000-01-01 00:00:00. */
  lemma TimestampsStartAt2000()
    ensures CalendarAt(0) == Tm(0, 0, 0, 1, 0, 100, 6, 0)
  {
    MillenniumTime();
    ZeroSeconds();
    GmtimeCharacterised(946_684_800, MILLENNIUM);
  }

  lemma SecondsFrom2000(time: int)
    ensures UnixSeconds(time) == 946_684_800 + if time >= 0 then time / 1_000_000 else -(-time / 1_000_000)
  {
  }

  lemma CalendarSeconds(time: int, seconds: int)
    requires UnixSeconds(time) == 946_684_800 + seconds
    ensures Consistent(CalendarAt(time)) && SecondsSinceEpoch(CalendarAt(time)) == 946_684_800 + seconds
  {
    GmtimeInverts(946_684_800 + seconds);
  }

  /**
   The calendar runs on from there, second by second: the fields at a time are the consistent ones
   that many whole seconds from 2000-01-01. Before it, seconds are cut toward it.
   */
  lemma CalendarRunsOn(time: int)
    ensures Consistent(CalendarAt(time))
    ensures SecondsSinceEpoch(CalendarAt(time)) ==
            SecondsSinceEpoch(Tm(0, 0, 0, 1, 0, 100, 6, 0)) + if time >= 0 then time / 1_000_000 else -(-time / 1_000_000)
  {
    var seconds := if time >= 0 then time / 1_000_000 else -(-time / 1_000_000);
    SecondsFrom2000(time);
    CalendarSeconds(time, seconds);
    MillenniumTime();
  }

  /** A stored schedule floats exactly when the minute or the hour field of its text has a bare `*`. */
  lemma FloatsByStar(e: Expr)
    ensures IsFloating(Meaning(e)) <==> e.Cron? && (Star in e.minute || Star in e.hour)
    ensures IsFloating(Meaning(e)) <==> Floats(e)
  {
  }

  /** With both flags the matcher is the denotation of the text, at every time. */
  lemma MatcherRefines(text: string, e: Expr, time: int)
    requires Spelled(text, e) && Legal(e)
    ensures Parse(text) == Ok(Meaning(e))
    ensures ShouldRunTask(Meaning(e), time, true, true) <==> Denotes(e, CalendarAt(time))
  {
    ParsedMeaning(text, e);
    MeaningMatches(e, time);
  }

  lemma BitNames(t: FieldType, items: seq<Item>, v: int)
    requires InDomain(t, v)
    ensures v in Bits(t, items) <==> Names(t, items, v)
  {
  }

  lemma MeaningMatches(e: Expr, time: int)
    ensures ShouldRunTask(Meaning(e), time, true, true) <==> Denotes(e, CalendarAt(time))
  {
    var tm := CalendarAt(time);
    CalendarInDomain(time);
    if e.Cron? {
      BitNames(Minute, e.minute, tm.min);
      BitNames(Hour, e.hour, tm.hour);
      BitNames(Dom, e.dom, tm.mday);
      BitNames(Month, e.month, tm.mon + 1);
      BitNames(Dow, e.dow, tm.wday);
    }
  }

  /** The two single-flag calls split the answer: floating schedules to one, fixed ones to the other. */
  lemma FlagsPartition(schedule: Schedule, time: int)
    ensures ShouldRunTask(schedule, time, true, true)
      <==> ShouldRunTask(schedule, time, true, false) || ShouldRunTask(schedule, time, false, true)
    ensures !(ShouldRunTask(schedule, time, true, false) && ShouldRunTask(schedule, time, false, true))
    ensures !ShouldRunTask(schedule, time, false, false)
    ensures ShouldRunTask(schedule, time, true, false) ==> schedule.minStar || schedule.hourStar
    ensures ShouldRunTask(schedule, time, false, true) ==> !schedule.minStar && !schedule.hourStar
  {
  }

  const ERA_USECS := DAYS_PER_ERA * SECS_PER_DAY * USECS_PER_SEC

  /** Answers repeat every 146097 days. */
  lemma MatcherCycle(schedule: Schedule, time: int, floating: bool, fixed: bool)
    requires time >= 0
    ensures ShouldRunTask(schedule, time + ERA_USECS, floating, fixed) <==> ShouldRunTask(schedule, time, floating, fixed)
  {
    EraLaterSeconds(time);
    EraCycle(UnixSeconds(time));
    FitsEraLater(schedule, CalendarAt(time));
  }

  lemma EraLaterSeconds(time: int)
    requires time >= 0
    ensures UnixSeconds(time + ERA_USECS) == UnixSeconds(time) + DAYS_PER_ERA * SECS_PER_DAY
  {
    assert (time + ERA_USECS) / USECS_PER_SEC == time / USECS_PER_SEC + DAYS_PER_ERA * SECS_PER_DAY;
  }

  lemma FitsEraLater(schedule: Schedule, tm: Tm)
    ensures FitsCalendar(schedule, tm.(year := tm.year + 400)) <==> FitsCalendar(schedule, tm)
  {
    EraShift(tm.year + 1900, 1);
    assert IsLastDayOfMonth(tm.mday, tm.mon + 1, tm.year + 1900 + 400) == IsLastDayOfMonth(tm.mday, tm.mon + 1, tm.year + 1900);
  }

  /** Within a minute the seconds do not matter, so looking at minute boundaries alone loses nothing. */
  lemma SameWithinMinute(schedule: Schedule, time: int, floating: bool, fixed: bool)
    requires time >= 0
    ensures ShouldRunTask(schedule, StartOfMinute(time), floating, fixed) <==> ShouldRunTask(schedule, time, floating, fixed)
  {
    CalendarAtMinute(time);
    FitsIgnoresSeconds(schedule, CalendarAt(time));
  }

  lemma FitsIgnoresSeconds(schedule: Schedule, tm: Tm)
    ensures FitsCalendar(schedule, tm.(sec := 0)) <==> FitsCalendar(schedule, tm)
  {
  }

  lemma CalendarAtMinute(time: int)
    requires time >= 0
    ensures CalendarAt(StartOfMinute(time)) == CalendarAt(time).(sec := 0)
  {
    MinuteOfSeconds(time);
    SameMinute(time, UnixSeconds(time));
  }

  lemma SameMinute(time: int, seconds: int)
    requires UnixSeconds(time) == seconds && UnixSeconds(StartOfMinute(time)) == seconds - seconds % 60
    ensures CalendarAt(StartOfMinute(time)) == CalendarAt(time).(sec := 0)
  {
    GmtimeAtMinute(seconds);
  }

  lemma GmtimeAtMinute(seconds: int)
    ensures Gmtime(seconds - seconds % 60) == Gmtime(seconds).(sec := 0)
  {
    var tm := Gmtime(seconds);
    GmtimeCharacterised(seconds, tm);
    SecondOfMinute(tm);
    GmtimeCharacterised(seconds - seconds % 60, tm.(sec := 0));
  }

  lemma MinuteOfSeconds(time: int)
    requires time >= 0
    ensures UnixSeconds(StartOfMinute(time)) == UnixSeconds(time) - UnixSeconds(time) % 60
  {
    var q := time / USECS_PER_MINUTE;
    var r := time % USECS_PER_MINUTE;
    assert StartOfMinute(time) == q * USECS_PER_MINUTE;
    assert UnixSeconds(StartOfMinute(time)) == 60 * q + 10957 * SECS_PER_DAY;
    assert time == (60 * q) * USECS_PER_SEC + r;
    assert UnixSeconds(time) == 60 * q + r / USECS_PER_SEC + 10957 * SECS_PER_DAY;
  }

  lemma SecondOfMinute(tm: Tm)
    requires Consistent(tm)
    ensures SecondsSinceEpoch(tm) % 60 == tm.sec
    ensures Consistent(tm.(sec := 0)) && SecondsSinceEpoch(tm.(sec := 0)) == SecondsSinceEpoch(tm) - tm.sec
  {
    var day := tm.yday + YearStart(tm.year + 1900);
    SixtyMod(tm.sec, tm.min + tm.hour * 60 + day * 1440);
    assert SecondsSinceEpoch(tm) == tm.sec + tm.min * 60 + tm.hour * 3600 + day * SECS_PER_DAY;
  }

  lemma SixtyMod(a: int, b: int)
    requires 0 <= a < 60
    ensures (a + 60 * b) % 60 == a
  {
  }
}
