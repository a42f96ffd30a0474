/**
 The minute scheduler of src/nedo_cron.c on values: how `StartPendingTasks` classifies the clock,
 and at which minutes `StartPendingTask` makes a run due.
 */
module Scheduler {
  import opened CronTime
  import opened CronExpr
  import opened Matcher

  datatype ClockStatus = JumpBackward | Progressed | JumpForward | Change

  function Classify(minutesPassed: int): ClockStatus {
    if minutesPassed > 3 * 60 then Change
    else if minutesPassed > 5 then JumpForward
    else if minutesPassed > 0 then Progressed
    else if minutesPassed > -3 * 60 then JumpBackward
    else Change
  }

  function OneMinute(s: Schedule, minute: int, floating: bool, fixed: bool): seq<int> {
    if ShouldRunTask(s, minute, floating, fixed) then [minute] else []
  }

  /** The catch-up loop: the minutes after `virt` up to `current` at which the schedule is due. */
  function Replay(s: Schedule, virt: int, current: int, floating: bool, fixed: bool): seq<int>
    decreases current - virt
  {
    if virt >= current then []
    else
      var next := PlusMilliseconds(virt, 60 * 1000);
      OneMinute(s, next, floating, fixed) + Replay(s, next, current, floating, fixed)
  }

  /** The minutes at which one call of `StartPendingTask` adds a pending run, in order. */
  function Fires(s: Schedule, status: ClockStatus, lastMinute: int, now: int): seq<int> {
    var current := StartOfMinute(now);
    match status
    case Progressed => Replay(s, lastMinute, current, true, true)
    case JumpForward => Replay(s, lastMinute, current, false, true) + OneMinute(s, current, true, false)
    case JumpBackward => OneMinute(s, current, true, false)
    case Change => OneMinute(s, current, true, true)
  }

  /** `lastMinute` as a call of `StartPendingTasks` uses it: zero means never set. */
  function Remembered(lastMinute: int, now: int): int {
    if lastMinute == 0 then StartOfMinute(now) else lastMinute
  }

  /** The minutes one call of `StartPendingTasks` fires for a minute schedule. */
  function PollFires(s: Schedule, lastMinute: int, now: int): seq<int> {
    var minutes := MinutesPassed(lastMinute, now);
    if s.seconds || minutes == 0 then [] else Fires(s, Classify(minutes), lastMinute, now)
  }

  /** `lastMinute` after the call. */
  function NextMinute(lastMinute: int, now: int): int {
    if Classify(MinutesPassed(lastMinute, now)) == JumpBackward then lastMinute else StartOfMinute(now)
  }

  // ---- When the backward branch runs ----

  /** The call reaches the backward branch of `StartPendingTask`. */
  predicate EntersBackward(lastMinute: int, now: int) {
    MinutesPassed(lastMinute, now) != 0 && Classify(MinutesPassed(lastMinute, now)) == JumpBackward
  }

  /**
   Stepping the clock back never enters the backward branch: `TimestampDifference` yields zeros.
   It is entered exactly when the elapsed seconds wrap in the cast to `int` to a value between
   -10799 and -60, that is for a forward leap of about 136 years.
   */
  lemma BackwardExactly(lastMinute: int, now: int)
    ensures EntersBackward(lastMinute, now)
      <==> now > lastMinute && TWO_TO_THE_32 - 60 * 180 < (now - lastMinute) / USECS_PER_SEC % TWO_TO_THE_32 <= TWO_TO_THE_32 - 60
  {
    NegativeMinutesExactly(lastMinute, now, 180);
  }

  /** A look enters the backward branch with a floating schedule that is due. */
  predicate Refires(s: Schedule, lastMinute: int, now: int) {
    EntersBackward(lastMinute, now) && ShouldRunTask(s, StartOfMinute(now), true, false)
  }

  /** There the schedule fires its minute, and fires it again at the next look. */
  lemma BackwardFiresAgain(s: Schedule, lastMinute: int, now: int)
    requires Refires(s, lastMinute, now)
    ensures PollFires(s, lastMinute, now) == [StartOfMinute(now)] && NextMinute(lastMinute, now) == lastMinute
    ensures PollFires(s, NextMinute(lastMinute, now), now) == [StartOfMinute(now)]
  {
  }

  // ---- Minutes fired by one call ----

  ghost predicate Increasing(s: seq<int>) {
    forall i, j :: 0 <= i < j < |s| ==> s[i] < s[j]
  }

  /** `fires` lists, in order and once each, exactly the due minutes after `from` up to `to`. */
  ghost predicate ExactlyDue(fires: seq<int>, s: Schedule, from: int, to: int, floating: bool, fixed: bool) {
    Increasing(fires) &&
    forall m :: m in fires <==> from < m <= to && OnMinute(m) && ShouldRunTask(s, m, floating, fixed)
  }

  lemma NextAligned(a: int, b: int)
    requires OnMinute(a) && OnMinute(b) && a < b
    ensures a + USECS_PER_MINUTE <= b && OnMinute(a + USECS_PER_MINUTE)
  {
  }

  /** Minutes that fire are chained: what two adjoining windows fire is what their union fires. */
  lemma WindowsJoin(a: seq<int>, b: seq<int>, s: Schedule, x: int, y: int, z: int, floating: bool, fixed: bool)
    requires x <= y <= z && ExactlyDue(a, s, x, y, floating, fixed) && ExactlyDue(b, s, y, z, floating, fixed)
    ensures ExactlyDue(a + b, s, x, z, floating, fixed)
  {
    assert forall m :: m in a + b <==> m in a || m in b;
    forall i, j | 0 <= i < j < |a + b| ensures (a + b)[i] < (a + b)[j] {
      if i < |a| <= j {
        assert a[i] in a && b[j - |a|] in b;
      }
    }
  }

  lemma OneMinuteExact(s: Schedule, virt: int, floating: bool, fixed: bool)
    requires OnMinute(virt)
    ensures ExactlyDue(OneMinute(s, virt + USECS_PER_MINUTE, floating, fixed), s, virt, virt + USECS_PER_MINUTE, floating, fixed)
  {
    var next := virt + USECS_PER_MINUTE;
    forall m ensures virt < m <= next && OnMinute(m) <==> m == next {
      OneBoundary(virt, m);
    }
    var due := ShouldRunTask(s, next, floating, fixed);
    assert OneMinute(s, next, floating, fixed) == if due then [next] else [];
  }

  lemma OneBoundary(virt: int, m: int)
    requires OnMinute(virt)
    ensures virt < m <= virt + USECS_PER_MINUTE && OnMinute(m) <==> m == virt + USECS_PER_MINUTE
  {
  }

  lemma {:induction false} ReplayExact(s: Schedule, virt: int, current: int, floating: bool, fixed: bool)
    requires OnMinute(virt) && OnMinute(current)
    ensures ExactlyDue(Replay(s, virt, current, floating, fixed), s, virt, current, floating, fixed)
    decreases current - virt
  {
    if virt < current {
      var next := virt + USECS_PER_MINUTE;
      NextAligned(virt, current);
      ReplayExact(s, next, current, floating, fixed);
      OneMinuteExact(s, virt, floating, fixed);
      WindowsJoin(OneMinute(s, next, floating, fixed), Replay(s, next, current, floating, fixed), s, virt, next, current, floating, fixed);
    }
  }

  /** The elapsed time fits the cast to `int`. */
  predicate NoWrap(lastMinute: int, now: int) {
    (now - lastMinute) / USECS_PER_SEC < TWO_TO_THE_31
  }

  /** The whole minutes between the remembered minute and the current one. */
  function Gap(lastMinute: int, now: int): int {
    (StartOfMinute(now) - lastMinute) / USECS_PER_MINUTE
  }

  lemma GapIsMinutesPassed(lastMinute: int, now: int)
    requires OnMinute(lastMinute) && 0 <= lastMinute && 0 <= now && NoWrap(lastMinute, now)
    ensures now >= lastMinute ==> MinutesPassed(lastMinute, now) == Gap(lastMinute, now) >= 0
    ensures now < lastMinute ==> MinutesPassed(lastMinute, now) == 0
    ensures now >= lastMinute ==> StartOfMinute(now) >= lastMinute
    ensures OnMinute(StartOfMinute(now)) && 0 <= StartOfMinute(now)
    ensures Gap(lastMinute, now) == 0 && now >= lastMinute ==> StartOfMinute(now) == lastMinute
  {
    StartOfMinuteIsFloor(now);
    if now >= lastMinute {
      MinuteArithmetic(lastMinute, now);
    }
  }

  /** How far a gap is caught up: floating schedules five minutes, fixed ones three hours. */
  function Reach(s: Schedule): int {
    if IsFloating(s) then 5 else 180
  }

  /**
   What one call fires, for every clock reading. Inside its reach a schedule fires all due
   minutes after the remembered one; beyond it only the current minute.
   */
  lemma PollFiresExactly(s: Schedule, lastMinute: int, now: int)
    requires !s.seconds && OnMinute(lastMinute) && 0 <= lastMinute && 0 <= now && NoWrap(lastMinute, now)
    ensures var fires, current := PollFires(s, lastMinute, now), StartOfMinute(now);
            if now < lastMinute then fires == []
            else if Gap(lastMinute, now) <= Reach(s) then ExactlyDue(fires, s, lastMinute, current, true, true)
            else fires == OneMinute(s, current, true, true)
  {
    GapIsMinutesPassed(lastMinute, now);
    if now >= lastMinute {
      var gap := Gap(lastMinute, now);
      ReplayExact(s, lastMinute, StartOfMinute(now), true, true);
      if 5 < gap <= 180 {
        JumpFires(s, lastMinute, now);
      }
    }
  }

  /** A jump forward makes up all of a fixed schedule, and only the current minute of a floating one. */
  lemma JumpFires(s: Schedule, lastMinute: int, now: int)
    ensures var current := StartOfMinute(now);
            Fires(s, JumpForward, lastMinute, now) ==
            if IsFloating(s) then OneMinute(s, current, true, true) else Replay(s, lastMinute, current, true, true)
  {
    var current := StartOfMinute(now);
    if IsFloating(s) {
      FixedReplayEmpty(s, lastMinute, current);
    } else {
      FixedReplayFull(s, lastMinute, current);
    }
  }

  lemma {:induction false} FixedReplayEmpty(s: Schedule, virt: int, current: int)
    requires IsFloating(s)
    ensures Replay(s, virt, current, false, true) == []
    ensures OneMinute(s, current, true, false) == OneMinute(s, current, true, true)
    decreases current - virt
  {
    if virt < current {
      FixedReplayEmpty(s, virt + USECS_PER_MINUTE, current);
    }
  }

  lemma {:induction false} FixedReplayFull(s: Schedule, virt: int, current: int)
    requires !IsFloating(s)
    ensures Replay(s, virt, current, false, true) == Replay(s, virt, current, true, true)
    ensures OneMinute(s, current, true, false) == []
    decreases current - virt
  {
    if virt < current {
      FixedReplayFull(s, virt + USECS_PER_MINUTE, current);
    }
  }

  /**
   What one call fires in terms of the minutes it counts, with no condition on the clock: a wrapped
   count, and times before 2000, included.
   */
  lemma PollFiresByMinutes(s: Schedule, lastMinute: int, now: int)
    requires OnMinute(lastMinute)
    ensures var fires, current, minutes := PollFires(s, lastMinute, now), StartOfMinute(now), MinutesPassed(lastMinute, now);
            if s.seconds || minutes == 0 then fires == []
            else if 0 < minutes <= Reach(s) then ExactlyDue(fires, s, lastMinute, current, true, true)
            else if -180 < minutes < 0 then fires == OneMinute(s, current, true, false)
            else fires == OneMinute(s, current, true, true)
  {
    StartOfMinuteIsFloor(now);
    ReplayExact(s, lastMinute, StartOfMinute(now), true, true);
    JumpFires(s, lastMinute, now);
  }

  /** Nothing due is missed by a call exactly when the gap is within reach or holds nothing due earlier. */
  lemma NothingMissedExactly(s: Schedule, lastMinute: int, now: int)
    requires !s.seconds && OnMinute(lastMinute) && 0 <= lastMinute && 0 <= now && NoWrap(lastMinute, now)
    ensures var current := StartOfMinute(now);
            ExactlyDue(PollFires(s, lastMinute, now), s, lastMinute, current, true, true)
            <==> Gap(lastMinute, now) <= Reach(s) ||
                 forall m :: lastMinute < m < current && OnMinute(m) ==> !ShouldRunTask(s, m, true, true)
  {
    PollFiresExactly(s, lastMinute, now);
    GapIsMinutesPassed(lastMinute, now);
    StartOfMinuteIsFloor(now);
    var fires, current := PollFires(s, lastMinute, now), StartOfMinute(now);
    if now < lastMinute {
      assert current <= lastMinute;
    } else if Gap(lastMinute, now) > Reach(s) {
      assert forall m :: m in fires ==> m == current;
    }
  }

  // ---- At most once ----

  /** Whatever the clock does, a call outside the backward branch fires only minutes after the remembered one. */
  lemma FiresAdvance(s: Schedule, lastMinute: int, now: int)
    requires OnMinute(lastMinute) && 0 <= lastMinute && 0 <= now && !EntersBackward(lastMinute, now)
    ensures lastMinute <= NextMinute(lastMinute, now) && OnMinute(NextMinute(lastMinute, now))
    ensures Increasing(PollFires(s, lastMinute, now))
    ensures forall m :: m in PollFires(s, lastMinute, now) ==> lastMinute < m <= NextMinute(lastMinute, now)
  {
    StartOfMinuteIsFloor(now);
    var minutes := MinutesPassed(lastMinute, now);
    var current := StartOfMinute(now);
    if minutes != 0 {
      LaterMinute(lastMinute, now);
      ReplayExact(s, lastMinute, current, true, true);
      JumpFires(s, lastMinute, now);
    }
  }

  lemma RememberedMinute(lastMinute: int, now: int)
    requires OnMinute(lastMinute) && 0 <= lastMinute && 0 <= now
    ensures var last := Remembered(lastMinute, now); OnMinute(last) && 0 <= lastMinute <= last
  {
    StartOfMinuteIsFloor(now);
  }

  lemma RefireEffect(s: Schedule, lastMinute: int, now: int)
    requires OnMinute(lastMinute) && 0 <= lastMinute && 0 <= now && Refires(s, Remembered(lastMinute, now), now)
    ensures var last := Remembered(lastMinute, now);
            last == lastMinute && NextMinute(last, now) == last < StartOfMinute(now) &&
            PollFires(s, last, now) == [StartOfMinute(now)] && !s.seconds
  {
    FirstLookIsNow(now);
    StartOfMinuteIsFloor(now);
    BackwardFiresAgain(s, Remembered(lastMinute, now), now);
    LaterMinute(Remembered(lastMinute, now), now);
  }

  lemma FirstLookIsNow(now: int)
    requires 0 <= now
    ensures MinutesPassed(StartOfMinute(now), now) == 0
  {
    StartOfMinuteIsFloor(now);
    assert now - StartOfMinute(now) < USECS_PER_MINUTE;
    assert (now - StartOfMinute(now)) / USECS_PER_SEC < 60;
  }

  /**
   One look keeps to the minutes after the remembered one exactly unless it enters the backward
   branch and a floating schedule is due there.
   */
  lemma AdvanceExactly(s: Schedule, lastMinute: int, now: int)
    requires OnMinute(lastMinute) && 0 <= lastMinute && 0 <= now
    ensures (forall m :: m in PollFires(s, lastMinute, now) ==> lastMinute < m <= NextMinute(lastMinute, now))
      <==> !Refires(s, lastMinute, now)
    ensures Increasing(PollFires(s, lastMinute, now))
    ensures lastMinute <= NextMinute(lastMinute, now) && OnMinute(NextMinute(lastMinute, now))
  {
    if EntersBackward(lastMinute, now) {
      LaterMinute(lastMinute, now);
      if Refires(s, lastMinute, now) {
        BackwardFiresAgain(s, lastMinute, now);
        assert StartOfMinute(now) in PollFires(s, lastMinute, now);
      }
    } else {
      FiresAdvance(s, lastMinute, now);
    }
  }

  lemma LaterMinute(lastMinute: int, now: int)
    requires OnMinute(lastMinute) && 0 <= lastMinute && 0 <= now && MinutesPassed(lastMinute, now) != 0
    ensures lastMinute < StartOfMinute(now)
  {
    StartOfMinuteIsFloor(now);
    assert now > lastMinute;
    var secs := (now - lastMinute) / USECS_PER_SEC;
    assert secs >= 60;
    assert now >= lastMinute + USECS_PER_MINUTE;
  }
}
