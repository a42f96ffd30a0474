/**
 The calendar the matcher reads: `is_leap_year`, `days_in_month`, `isLastDayOfMonth` of
 src/cron_parser.c, and `gmtime` pinned down by the formula of section 4.16 (Seconds Since the
 Epoch) of the Base Definitions of IEEE Std 1003.1-2017, extended to every integer.
 */
module Calendar {

  const SECS_PER_DAY := 86400
  const DAYS_PER_ERA := 146097

  predicate IsLeapYear(year: int) {
    if year % 400 == 0 then true
    else if year % 100 == 0 then false
    else year % 4 == 0
  }

  function DaysInMonth(year: int, month: int): int {
    if month < 1 || month > 12 then 0
    else if month == 2 && IsLeapYear(year) then 29
    else [0, 31, 28, 31, 30, 31, 30, 31, 31, 30, 31, 30, 31][month]
  }

  predicate IsLastDayOfMonth(dom: int, month: int, year: int) {
    DaysInMonth(year, month) == dom
  }

  function DaysInYear(year: int): int {
    if IsLeapYear(year) then 366 else 365
  }

  /** `struct tm`: `mon` counts from 0, `year` from 1900, `wday` from Sunday. */
  datatype Tm = Tm(sec: int, min: int, hour: int, mday: int, mon: int, year: int, wday: int, yday: int)

  // ---- The reference: section 4.16 ----

  /** Days from the Epoch to January 1 of `year`. */
  function YearStart(year: int): int {
    (year - 1970) * 365 + (year - 1969) / 4 - (year - 1901) / 100 + (year - 1601) / 400
  }

  /** The expression of section 4.16. */
  function SecondsSinceEpoch(tm: Tm): int {
    tm.sec + tm.min * 60 + tm.hour * 3600 + (tm.yday + YearStart(tm.year + 1900)) * SECS_PER_DAY
  }

  /** Days of `year` before the first of `month`. */
  function MonthStart(year: int, month: int): int
    requires 1 <= month <= 13
  {
    [0, 0, 31, 59, 90, 120, 151, 181, 212, 243, 273, 304, 334, 365][month] +
    (if month > 2 && IsLeapYear(year) then 1 else 0)
  }

  /** A broken-down time whose parts agree: 1970-01-01 was a Thursday. */
  predicate Consistent(tm: Tm) {
    0 <= tm.sec < 60 && 0 <= tm.min < 60 && 0 <= tm.hour < 24 &&
    0 <= tm.mon < 12 && 1 <= tm.mday <= DaysInMonth(tm.year + 1900, tm.mon + 1) &&
    tm.yday == MonthStart(tm.year + 1900, tm.mon + 1) + tm.mday - 1 &&
    tm.wday == (YearStart(tm.year + 1900) + tm.yday + 4) % 7
  }

  // ---- The computation ----

  /** The year that holds the day `rest` days after January 1 of `year`, and the day's number in it. */
  function FindYear(year: int, rest: nat): (r: (int, nat))
    ensures YearStart(r.0) + r.1 == YearStart(year) + rest && r.1 < DaysInYear(r.0)
    decreases rest
  {
    YearStep(year);
    if rest < DaysInYear(year) then (year, rest) else FindYear(year + 1, rest - DaysInYear(year))
  }

  function FindMonth(year: int, month: int, yday: int): (m: int)
    requires 1 <= month <= 12 && MonthStart(year, month) <= yday < DaysInYear(year)
    ensures 1 <= m <= 12 && MonthStart(year, m) <= yday < MonthStart(year, m) + DaysInMonth(year, m)
    decreases 12 - month
  {
    MonthStep(year, month);
    if yday < MonthStart(year, month + 1) then month else FindMonth(year, month + 1, yday)
  }

  function Gmtime(seconds: int): Tm {
    var day, secs := seconds / SECS_PER_DAY, seconds % SECS_PER_DAY;
    var era := day / DAYS_PER_ERA;
    var (y, yday) := FindYear(1970, day % DAYS_PER_ERA);
    var year := y + 400 * era;
    EraShift(y, era);
    var month := FindMonth(year, 1, yday);
    Tm(secs % 60, secs / 60 % 60, secs / 3600, yday - MonthStart(year, month) + 1, month - 1, year - 1900, (day + 4) % 7, yday)
  }

  // ---- Lengths of years and months ----

  lemma NextQuotient(n: int, d: int)
    requires d == 4 || d == 100 || d == 400
    ensures (n + 1) / d == n / d + (if (n + 1) % d == 0 then 1 else 0)
  {
    if d == 4 {
    } else if d == 100 {
    } else {
    }
  }

  lemma ShiftQuotient(n: int, k: int, d: int)
    requires d == 4 || d == 100 || d == 400
    ensures (n + d * k) / d == n / d + k && (n + d * k) % d == n % d
  {
    if d == 4 {
      assert (n + 4 * k) / 4 == n / 4 + k;
    } else if d == 100 {
      assert (n + 100 * k) / 100 == n / 100 + k;
    } else {
      assert (n + 400 * k) / 400 == n / 400 + k;
    }
  }

  lemma YearStep(year: int)
    ensures YearStart(year + 1) == YearStart(year) + DaysInYear(year)
  {
    NextQuotient(year - 1969, 4);
    NextQuotient(year - 1901, 100);
    NextQuotient(year - 1601, 400);
    LeapTest(year);
  }

  /** The three counters of section 4.16 step in the years the leap rule names. */
  lemma LeapTest(year: int)
    ensures (year - 1968) % 4 == 0 <==> year % 4 == 0
    ensures (year - 1900) % 100 == 0 <==> year % 100 == 0
    ensures (year - 1600) % 400 == 0 <==> year % 400 == 0
    ensures year % 400 == 0 ==> year % 100 == 0
    ensures year % 100 == 0 ==> year % 4 == 0
  {
    assert (year + 4 * -492) % 4 == year % 4 by { ShiftQuotient(year, -492, 4); }
    assert (year + 100 * -19) % 100 == year % 100 by { ShiftQuotient(year, -19, 100); }
    assert (year + 400 * -4) % 400 == year % 400 by { ShiftQuotient(year, -4, 400); }
    HundredsAreFours(year);
  }

  lemma HundredsAreFours(year: int)
    ensures year % 400 == 0 ==> year % 100 == 0
    ensures year % 100 == 0 ==> year % 4 == 0
  {
    if year % 400 == 0 {
      ShiftQuotient(0, 4 * (year / 400), 100);
    }
    if year % 100 == 0 {
      ShiftQuotient(0, 25 * (year / 100), 4);
    }
  }

  lemma MonthStep(year: int, month: int)
    requires 1 <= month <= 12
    ensures MonthStart(year, month + 1) == MonthStart(year, month) + DaysInMonth(year, month)
    ensures MonthStart(year, 13) == DaysInYear(year)
  {
  }

  lemma EraShift(year: int, era: int)
    ensures YearStart(year + 400 * era) == YearStart(year) + DAYS_PER_ERA * era
    ensures IsLeapYear(year + 400 * era) == IsLeapYear(year)
  {
    ShiftQuotient(year - 1969, 100 * era, 4);
    ShiftQuotient(year - 1901, 4 * era, 100);
    ShiftQuotient(year - 1601, era, 400);
    ShiftQuotient(year, 100 * era, 4);
    ShiftQuotient(year, 4 * era, 100);
    ShiftQuotient(year, era, 400);
  }

  function DaysInYears(year: int, count: nat): int {
    if count == 0 then 0 else DaysInYears(year, count - 1) + DaysInYear(year + count - 1)
  }

  lemma {:induction false} DaysInYearsClosed(year: int, count: nat)
    ensures DaysInYears(year, count) == YearStart(year + count) - YearStart(year)
  {
    if count > 0 {
      DaysInYearsClosed(year, count - 1);
      YearStep(year + count - 1);
    }
  }

  /** Any 400 consecutive years have 146097 days. */
  lemma FourHundredYears(year: int)
    ensures DaysInYears(year, 400) == DAYS_PER_ERA
  {
    DaysInYearsClosed(year, 400);
    EraShift(year, 1);
  }

  lemma {:induction false} YearStartIncreases(a: int, b: int)
    requires a < b
    ensures YearStart(a) + DaysInYear(a) <= YearStart(b)
    decreases b - a
  {
    YearStep(a);
    if a + 1 < b {
      YearStartIncreases(a + 1, b);
    }
  }

  lemma {:induction false} MonthStartIncreases(year: int, a: int, b: int)
    requires 1 <= a < b <= 13
    ensures MonthStart(year, a) + DaysInMonth(year, a) <= MonthStart(year, b)
    decreases b - a
  {
    MonthStep(year, a);
    if a + 1 < b {
      MonthStartIncreases(year, a + 1, b);
    }
  }

  // ---- Gmtime is the inverse of section 4.16 ----

  lemma DayAndTime(seconds: int, day: int, h: int, m: int, s: int)
    requires 0 <= s < 60 && 0 <= m < 60 && 0 <= h < 24
    requires seconds == s + m * 60 + h * 3600 + day * SECS_PER_DAY
    ensures seconds / SECS_PER_DAY == day
    ensures var secs := seconds % SECS_PER_DAY; secs % 60 == s && secs / 60 % 60 == m && secs / 3600 == h
  {
    var secs := s + m * 60 + h * 3600;
    assert seconds % SECS_PER_DAY == secs;
    assert secs / 60 == m + h * 60;
  }

  lemma GmtimeInverts(seconds: int)
    ensures Consistent(Gmtime(seconds)) && SecondsSinceEpoch(Gmtime(seconds)) == seconds
  {
    var day := seconds / SECS_PER_DAY;
    var era := day / DAYS_PER_ERA;
    var (y, yday) := FindYear(1970, day % DAYS_PER_ERA);
    EraShift(y, era);
    assert YearStart(1970) == 0;
    assert YearStart(y + 400 * era) + yday == day;
    var secs := seconds % SECS_PER_DAY;
    assert secs == secs % 60 + (secs / 60 % 60) * 60 + (secs / 3600) * 3600;
  }

  /** A consistent broken-down time is what `gmtime` returns for its seconds, and only for those. */
  lemma GmtimeCharacterised(seconds: int, tm: Tm)
    ensures Gmtime(seconds) == tm <==> Consistent(tm) && SecondsSinceEpoch(tm) == seconds
  {
    GmtimeInverts(seconds);
    if Consistent(tm) && SecondsSinceEpoch(tm) == seconds {
      SameMoment(tm, Gmtime(seconds));
    }
  }

  lemma YearDayInYear(tm: Tm)
    requires Consistent(tm)
    ensures 0 <= tm.yday < DaysInYear(tm.year + 1900)
  {
    var y, m := tm.year + 1900, tm.mon + 1;
    MonthStep(y, m);
    if m < 12 {
      MonthStartIncreases(y, m, 13);
    }
  }

  lemma SameYear(ya: int, da: int, yb: int, db: int)
    requires 0 <= da < DaysInYear(ya) && 0 <= db < DaysInYear(yb)
    requires YearStart(ya) + da == YearStart(yb) + db
    ensures ya == yb && da == db
  {
    if ya < yb {
      YearStartIncreases(ya, yb);
    } else if yb < ya {
      YearStartIncreases(yb, ya);
    }
  }

  lemma SameMonth(year: int, ma: int, da: int, mb: int, db: int)
    requires 1 <= ma <= 12 && 1 <= da <= DaysInMonth(year, ma)
    requires 1 <= mb <= 12 && 1 <= db <= DaysInMonth(year, mb)
    requires MonthStart(year, ma) + da == MonthStart(year, mb) + db
    ensures ma == mb && da == db
  {
    if ma < mb {
      MonthStartIncreases(year, ma, mb);
    } else if mb < ma {
      MonthStartIncreases(year, mb, ma);
    }
  }

  lemma SameTimeOfDay(a: Tm, b: Tm)
    requires Consistent(a) && Consistent(b) && SecondsSinceEpoch(a) == SecondsSinceEpoch(b)
    ensures a.sec == b.sec && a.min == b.min && a.hour == b.hour
    ensures a.yday + YearStart(a.year + 1900) == b.yday + YearStart(b.year + 1900)
  {
    var s := SecondsSinceEpoch(a);
    DayAndTime(s, a.yday + YearStart(a.year + 1900), a.hour, a.min, a.sec);
    DayAndTime(s, b.yday + YearStart(b.year + 1900), b.hour, b.min, b.sec);
  }

  lemma SameDay(a: Tm, b: Tm)
    requires Consistent(a) && Consistent(b)
    requires a.yday + YearStart(a.year + 1900) == b.yday + YearStart(b.year + 1900)
    ensures a.year == b.year && a.mon == b.mon && a.mday == b.mday && a.yday == b.yday && a.wday == b.wday
  {
    YearDayInYear(a);
    YearDayInYear(b);
    SameYear(a.year + 1900, a.yday, b.year + 1900, b.yday);
    SameMonth(a.year + 1900, a.mon + 1, a.mday, b.mon + 1, b.mday);
  }

  lemma SameMoment(a: Tm, b: Tm)
    requires Consistent(a) && Consistent(b) && SecondsSinceEpoch(a) == SecondsSinceEpoch(b)
    ensures a == b
  {
    SameTimeOfDay(a, b);
    SameDay(a, b);
  }

  // ---- The last day of a month, and the 400-year cycle ----

  /** The broken-down time one day later. */
  function NextDay(tm: Tm): Tm {
    var y, m := tm.year + 1900, tm.mon + 1;
    var t := tm.(wday := (tm.wday + 1) % 7);
    if !IsLastDayOfMonth(tm.mday, m, y) then t.(mday := tm.mday + 1, yday := tm.yday + 1)
    else if m < 12 then t.(mday := 1, mon := m, yday := tm.yday + 1)
    else t.(mday := 1, mon := 0, year := tm.year + 1, yday := 0)
  }

  lemma NextWeekday(day: int)
    ensures ((day + 4) % 7 + 1) % 7 == (day + 5) % 7
  {
  }

  lemma NextDayConsistent(tm: Tm)
    requires Consistent(tm)
    ensures Consistent(NextDay(tm)) && SecondsSinceEpoch(NextDay(tm)) == SecondsSinceEpoch(tm) + SECS_PER_DAY
  {
    var y, m := tm.year + 1900, tm.mon + 1;
    MonthStep(y, m);
    NextWeekday(YearStart(y) + tm.yday);
    if IsLastDayOfMonth(tm.mday, m, y) && m == 12 {
      YearStep(y);
      assert DaysInMonth(y + 1, 1) == 31 && MonthStart(y + 1, 1) == 0;
    } else if IsLastDayOfMonth(tm.mday, m, y) {
      assert DaysInMonth(y, m + 1) >= 28;
    }
  }

  /** `$` holds on a day exactly when the next day is the first of a month. */
  lemma LastDayPrecedesFirst(seconds: int)
    ensures var tm := Gmtime(seconds);
            IsLastDayOfMonth(tm.mday, tm.mon + 1, tm.year + 1900)
            <==> Gmtime(seconds + SECS_PER_DAY).mday == 1
  {
    GmtimeInverts(seconds);
    var tm := Gmtime(seconds);
    NextDayConsistent(tm);
    GmtimeCharacterised(seconds + SECS_PER_DAY, NextDay(tm));
  }

  /** Days from the Epoch to a date. */
  function DayNumber(year: int, month: int, mday: int): int
    requires 1 <= month <= 12
  {
    YearStart(year) + MonthStart(year, month) + mday - 1
  }

  function Midnight(year: int, month: int, mday: int): Tm
    requires 1 <= month <= 12
  {
    Tm(0, 0, 0, mday, month - 1, year - 1900, (DayNumber(year, month, mday) + 4) % 7, MonthStart(year, month) + mday - 1)
  }

  lemma MidnightTime(year: int, month: int, mday: int)
    requires 1 <= month <= 12 && 1 <= mday <= DaysInMonth(year, month)
    ensures Gmtime(DayNumber(year, month, mday) * SECS_PER_DAY) == Midnight(year, month, mday)
  {
    GmtimeCharacterised(DayNumber(year, month, mday) * SECS_PER_DAY, Midnight(year, month, mday));
  }

  function LastDay(year: int, month: int): int
    requires 1 <= month <= 12
  {
    DayNumber(year, month, DaysInMonth(year, month))
  }

  lemma LastDayTime(year: int, month: int)
    requires 1 <= month <= 12
    ensures var tm := Gmtime(LastDay(year, month) * SECS_PER_DAY);
            tm.year + 1900 == year && tm.mon + 1 == month && tm.mday == DaysInMonth(year, month)
  {
    assert DaysInMonth(year, month) >= 28;
    MidnightTime(year, month, DaysInMonth(year, month));
  }

  /** Every month of every year has exactly one day, counted from the Epoch, on which `$` holds. */
  lemma OneLastDayPerMonth(year: int, month: int, day: int)
    requires 1 <= month <= 12
    ensures var tm := Gmtime(day * SECS_PER_DAY);
            tm.year + 1900 == year && tm.mon + 1 == month && IsLastDayOfMonth(tm.mday, month, year)
            <==> day == LastDay(year, month)
  {
    LastDayTime(year, month);
    DayOfTm(day);
  }

  /** A day counted from the Epoch, read back from its calendar fields. */
  lemma DayOfTm(day: int)
    ensures var tm := Gmtime(day * SECS_PER_DAY);
            Consistent(tm) && day == DayNumber(tm.year + 1900, tm.mon + 1, tm.mday)
  {
    var s := day * SECS_PER_DAY;
    var tm := Gmtime(s);
    GmtimeInverts(s);
    DayAndTime(s, tm.yday + YearStart(tm.year + 1900), tm.hour, tm.min, tm.sec);
  }

  /** 146097 days later the calendar reads the same, 400 years on. */
  lemma EraCycle(seconds: int)
    ensures Gmtime(seconds + DAYS_PER_ERA * SECS_PER_DAY) == Gmtime(seconds).(year := Gmtime(seconds).year + 400)
  {
    GmtimeInverts(seconds);
    var tm := Gmtime(seconds);
    EraLater(tm);
    GmtimeCharacterised(seconds + DAYS_PER_ERA * SECS_PER_DAY, tm.(year := tm.year + 400));
  }

  lemma EraLater(tm: Tm)
    requires Consistent(tm)
    ensures var later := tm.(year := tm.year + 400);
            Consistent(later) && SecondsSinceEpoch(later) == SecondsSinceEpoch(tm) + DAYS_PER_ERA * SECS_PER_DAY
  {
    EraShift(tm.year + 1900, 1);
    WeekdayShift(YearStart(tm.year + 1900) + tm.yday);
  }

  lemma WeekdayShift(day: int)
    ensures (day + DAYS_PER_ERA + 4) % 7 == (day + 4) % 7
  {
    assert DAYS_PER_ERA == 7 * 20871;
  }
}
