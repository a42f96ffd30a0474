/**
 Timestamps of src/cron_time.c: integers counting microseconds from 2000-01-01 UTC, with C's
 truncating division and the wrap of a `long` cast to `int` written out.
 */
module CronTime {

  const USECS_PER_SEC := 1_000_000
  const USECS_PER_MSEC := 1_000
  const USECS_PER_MINUTE := 60_000_000
  const TWO_TO_THE_31 := 0x8000_0000
  const TWO_TO_THE_32 := 0x1_0000_0000

  /** C's `/` and `%`: the quotient is truncated toward zero. */
  function TruncDiv(a: int, b: int): int
    requires b > 0
  {
    if a >= 0 then a / b else -(-a / b)
  }

  function TruncMod(a: int, b: int): int
    requires b > 0
  {
    a - b * TruncDiv(a, b)
  }

  /** The cast `(int)` of a 64-bit `long`. */
  function ToInt32(n: int): int {
    (n + TWO_TO_THE_31) % TWO_TO_THE_32 - TWO_TO_THE_31
  }

  function StartOfMinute(time: int): int {
    time - TruncMod(time, USECS_PER_MINUTE)
  }

  function EndOfMinute(time: int): int {
    StartOfMinute(time) + USECS_PER_MINUTE
  }

  /** PostgreSQL's helper: seconds and microseconds from `start` to `stop`, zeros if not later. */
  function TimestampDifference(start: int, stop: int): (int, int) {
    if stop <= start then (0, 0) else ((stop - start) / USECS_PER_SEC, (stop - start) % USECS_PER_SEC)
  }

  predicate TimestampDifferenceExceeds(start: int, stop: int, msec: int) {
    stop - start >= msec * USECS_PER_MSEC
  }

  function PlusMilliseconds(time: int, msec: int): int {
    time + msec * USECS_PER_MSEC
  }

  function MinutesPassed(start: int, end: int): int {
    TruncDiv(ToInt32(TimestampDifference(start, end).0), 60)
  }

  ghost predicate OnMinute(time: int) { time % USECS_PER_MINUTE == 0 }

  /** `StartOfMinute` is the minute a time lies in, except strictly inside minutes before 2000. */
  lemma StartOfMinuteIsFloor(time: int)
    ensures OnMinute(StartOfMinute(time))
    ensures StartOfMinute(time) <= time < EndOfMinute(time) <==> time >= 0 || OnMinute(time)
  {
    if time < 0 {
      var q := -time / USECS_PER_MINUTE;
      assert StartOfMinute(time) == -q * USECS_PER_MINUTE;
    }
  }

  /** `EndOfMinute` is the first minute boundary after a time. */
  lemma EndOfMinuteIsNext(time: int)
    requires time >= 0
    ensures EndOfMinute(time) > time && EndOfMinute(time) % 60_000_000 == 0
    ensures forall m :: m > time && m % 60_000_000 == 0 ==> EndOfMinute(time) <= m
  {
    StartOfMinuteIsFloor(time);
  }

  /**
   The minutes counted from an aligned start are exactly the boundaries up to the current
   minute, as long as the elapsed seconds fit an `int`, and never otherwise.
   */
  lemma MinuteArithmetic(start: int, now: int)
    requires OnMinute(start) && 0 <= start <= now
    ensures (now - start) / USECS_PER_SEC < TWO_TO_THE_31
      <==> start + MinutesPassed(start, now) * USECS_PER_MINUTE == StartOfMinute(now)
  {
    var d := now - start;
    var secs := d / USECS_PER_SEC;
    assert TimestampDifference(start, now).0 == secs;
    assert secs / 60 == d / USECS_PER_MINUTE;
    assert StartOfMinute(now) == start + (d / USECS_PER_MINUTE) * USECS_PER_MINUTE by {
      var a, b := start / USECS_PER_MINUTE, d / USECS_PER_MINUTE;
      assert now == (a + b) * USECS_PER_MINUTE + d % USECS_PER_MINUTE;
      assert now / USECS_PER_MINUTE == a + b;
    }
    var wrapped := ToInt32(secs);
    if secs < TWO_TO_THE_31 {
      assert wrapped == secs;
    } else {
      assert wrapped < 0 || wrapped <= secs - TWO_TO_THE_32;
      assert TruncDiv(wrapped, 60) < secs / 60;
    }
  }

  /** A negative count appears only when the cast wraps, and exactly for these elapsed seconds. */
  lemma NegativeMinutesExactly(start: int, now: int, bound: int)
    requires 0 < bound <= TWO_TO_THE_31 / 60
    ensures -bound < MinutesPassed(start, now) < 0
      <==> now > start && TWO_TO_THE_32 - 60 * bound < (now - start) / USECS_PER_SEC % TWO_TO_THE_32 <= TWO_TO_THE_32 - 60
  {
    if now > start {
      var secs := (now - start) / USECS_PER_SEC;
      var r := secs % TWO_TO_THE_32;
      assert ToInt32(secs) == if r < TWO_TO_THE_31 then r else r - TWO_TO_THE_32;
    }
  }
}
