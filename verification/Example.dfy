/**
 The premises of the main theorems met by a concrete worker: one job on `* * * * *`, looked at
 once and again a minute later.
 */
module Example {
  import opened Options
  import opened Text
  import opened CronTime
  import opened CronExpr
  import opened CronParser
  import opened ParserLaws
  import opened Matcher
  import opened Scheduler
  import opened TaskMachine
  import opened World
  import opened EndToEnd

  const EVERY_MINUTE := "* * * * *"

  const STARS := Cron([Star], [Star], [Star], [Star], [Star])

  lemma StarSpelled(t: FieldType)
    ensures SpellsField(t, "*", [Star])
  {
    assert Join(["*"], ',') == "*" && SpellsParts(t, ["*"], [Star]);
  }

  lemma StarsLegal()
    ensures Legal(STARS)
  {
    forall t: FieldType ensures LegalItems(t, FieldOf(STARS, t)) {
      assert FieldOf(STARS, t) == [Star];
    }
  }

  lemma StarsSpellFields()
    ensures SpellsFields(["*", "*", "*", "*", "*"], STARS)
  {
    forall i | 0 <= i < 5
      ensures SpellsField(FIELD_TYPES[i], ["*", "*", "*", "*", "*"][i], FieldOf(STARS, FIELD_TYPES[i]))
    {
      StarSpelled(FIELD_TYPES[i]);
    }
  }

  lemma StarsSpelled()
    ensures Spelled(EVERY_MINUTE, STARS)
  {
    FiveJoined("*", "*", "*", "*", "*");
    assert EVERY_MINUTE == Join(["*", "*", "*", "*", "*"], ' ');
    StarsSpellFields();
    SpelledByFields(["*", "*", "*", "*", "*"], STARS);
  }

  lemma SpelledByFields(fields: seq<string>, e: Expr)
    requires |fields| == 5 && SpellsFields(fields, e)
    ensures Spelled(Join(fields, ' '), e)
  {
  }

  lemma FiveJoined(a: string, b: string, c: string, d: string, e: string)
    ensures Join([a, b, c, d, e], ' ') == a + " " + b + " " + c + " " + d + " " + e
  {
    assert [a, b, c, d, e][1..] == [b, c, d, e];
    assert [b, c, d, e][1..] == [c, d, e];
    assert [c, d, e][1..] == [d, e];
    assert [d, e][1..] == [e];
    assert Join([d, e], ' ') == d + " " + e;
    assert Join([c, d, e], ' ') == c + " " + d + " " + e;
    assert Join([b, c, d, e], ' ') == b + " " + c + " " + d + " " + e;
  }

  lemma StarField(t: FieldType, field: int)
    ensures ParseField(t, field, "*") == Ok([Star])
  {
    StarSpelled(t);
    FieldParses(t, field, "*", [Star]);
  }

  lemma EightIsNoDay()
    ensures ParseField(Dow, 5, "8") == Err(ParseError(5, 1, "8", "day-of-week" + " must be " + "0-7"))
  {
    NumbersInBounds(Dow, 8);
    assert Decimal(8) == "8";
    SplitWhole("8", ',');
    var parts := ["8"];
    assert parts[..0] == [];
    assert ParseItems(Dow, 5, parts[..0]) == Ok([]);
  }

  lemma DocumentedSplit()
    ensures Split("* * * * 8", ' ') == ["*", "*", "*", "*", "8"]
  {
    FiveJoined("*", "*", "*", "*", "8");
    assert "* * * * 8" == Join(["*", "*", "*", "*", "8"], ' ');
    SplitJoin(["*", "*", "*", "*", "8"], ' ');
  }

  lemma EightRejected()
    ensures ParseFields(["*", "*", "*", "*", "8"]) == Err(ParseError(5, 1, "8", "day-of-week" + " must be " + "0-7"))
  {
    StarField(Minute, 1);
    StarField(Hour, 2);
    StarField(Dom, 3);
    StarField(Month, 4);
    EightIsNoDay();
  }

  lemma FiveFieldText(text: string, fields: seq<string>)
    requires text != "" && Split(text, ' ') == fields && |fields| == 5
    ensures ParseExpr(text) == ParseFields(fields)
  {
  }

  lemma DocumentedText()
    ensures "day-of-week" + " must be " + "0-7" == "day-of-week must be 0-7"
  {
  }

  /** The rejection that the documentation shows. */
  lemma DocumentedError()
    ensures ParseExpr("* * * * 8") == Err(ParseError(5, 1, "8", "day-of-week must be 0-7"))
  {
    DocumentedSplit();
    FiveFieldText("* * * * 8", ["*", "*", "*", "*", "8"]);
    EightRejected();
    DocumentedText();
  }

  /** The worker after its first reload and its first look at the clock. */
  ghost function Started(command: string, entries: int -> Task, now: int): World {
    Poll(Reload(EMPTY_WORLD, [JobRow(1, EVERY_MINUTE, command)], entries), now)
  }

  lemma StarsParse()
    ensures Parse(EVERY_MINUTE) == Ok(Meaning(STARS))
  {
    StarsSpelled();
    StarsLegal();
    ParsedMeaning(EVERY_MINUTE, STARS);
  }

  lemma OneRowLoaded(row: JobRow, s: Schedule)
    requires Parse(row.scheduleText) == Ok(s)
    ensures LoadJobs([row]) == map[row.jobId := Job(row.scheduleText, s, row.command)]
  {
    var rows := [row];
    assert rows[..0] == [];
    assert LoadJobs(rows) == LoadRow(LoadJobs(rows[..0]), row);
  }

  lemma OneJobLoaded(command: string)
    ensures LoadJobs([JobRow(1, EVERY_MINUTE, command)]) == map[1 := Job(EVERY_MINUTE, Meaning(STARS), command)]
  {
    StarsParse();
    OneRowLoaded(JobRow(1, EVERY_MINUTE, command), Meaning(STARS));
  }

  lemma StartedTicks(command: string, entries: int -> Task, now: int)
    requires now >= USECS_PER_MINUTE
    ensures var w := Started(command, entries, now);
            Inv(w) && Ticking(w) && w.lastMinute == StartOfMinute(now) &&
            w.jobs == map[1 := Job(EVERY_MINUTE, Meaning(STARS), command)]
  {
    OneJobLoaded(command);
    EmptyWorldInv();
    ReloadKeeps(EMPTY_WORLD, [JobRow(1, EVERY_MINUTE, command)], entries);
    PollKeeps(Reload(EMPTY_WORLD, [JobRow(1, EVERY_MINUTE, command)], entries), now);
    StartOfMinuteIsFloor(now);
  }

  lemma MinuteLater(now: int)
    requires now >= USECS_PER_MINUTE
    ensures StartOfMinute(now + USECS_PER_MINUTE) == StartOfMinute(now) + USECS_PER_MINUTE
    ensures Gap(StartOfMinute(now), now + USECS_PER_MINUTE) == 1 && NoWrap(StartOfMinute(now), now + USECS_PER_MINUTE)
  {
    assert (now + USECS_PER_MINUTE) / USECS_PER_MINUTE == now / USECS_PER_MINUTE + 1;
  }

  lemma NextLookIsSteady(w: World, now: int)
    requires 1 in w.jobs && w.jobs[1].scheduleText == EVERY_MINUTE
    requires now >= USECS_PER_MINUTE && w.lastMinute == StartOfMinute(now)
    ensures Steady(w, [Polled(now + USECS_PER_MINUTE)], 1, EVERY_MINUTE, TextReach(STARS))
    ensures Execute(w, [Polled(now + USECS_PER_MINUTE)]) == Poll(w, now + USECS_PER_MINUTE)
  {
    var e := Polled(now + USECS_PER_MINUTE);
    MinuteLater(now);
    OneMoreEvent(w, [], e);
    assert [] + [e] == [e] && [e][..0] == [];
    assert SteadyAt(w, e, 1, EVERY_MINUTE, TextReach(STARS));
  }

  lemma StarsDenoteAll(time: int)
    ensures Denotes(STARS, CalendarAt(time))
  {
    forall t: FieldType, v: int ensures Names(t, [Star], v) {
      assert Covers(t, [Star][0], v);
    }
  }

  lemma CatchesUpOnce(w: World, now: int)
    requires Inv(w) && Ticking(w) && 1 in w.jobs && w.jobs[1].scheduleText == EVERY_MINUTE
    requires now >= USECS_PER_MINUTE && w.lastMinute == StartOfMinute(now)
    ensures var w' := Poll(w, now + USECS_PER_MINUTE);
            exists due :: AccountOf(w'.ledger, 1).fires == AccountOf(w.ledger, 1).fires + due &&
                          DenotedMinutes(due, STARS, w.lastMinute, w'.lastMinute)
  {
    StarsSpelled();
    StarsLegal();
    NextLookIsSteady(w, now);
    ExactCatchUp(w, [Polled(now + USECS_PER_MINUTE)], 1, EVERY_MINUTE, STARS);
  }

  lemma LooksAgain(w: World, now: int)
    requires Inv(w) && Ticking(w) && 1 in w.jobs && w.jobs[1].scheduleText == EVERY_MINUTE
    requires now >= USECS_PER_MINUTE && w.lastMinute == StartOfMinute(now)
    ensures AccountOf(Poll(w, now + USECS_PER_MINUTE).ledger, 1).fires ==
            AccountOf(w.ledger, 1).fires + [w.lastMinute + USECS_PER_MINUTE]
  {
    CatchesUpOnce(w, now);
    LooksAMinuteLater(w, now);
    var w' := Poll(w, now + USECS_PER_MINUTE);
    var due :| AccountOf(w'.ledger, 1).fires == AccountOf(w.ledger, 1).fires + due &&
               DenotedMinutes(due, STARS, w.lastMinute, w'.lastMinute);
    OnlyMinute(due, w.lastMinute);
  }

  lemma LooksAMinuteLater(w: World, now: int)
    requires Ticking(w) && now >= USECS_PER_MINUTE && w.lastMinute == StartOfMinute(now)
    ensures Poll(w, now + USECS_PER_MINUTE).lastMinute == w.lastMinute + USECS_PER_MINUTE
  {
    MinuteLater(now);
    PollNextMinute(w.lastMinute, now + USECS_PER_MINUTE);
  }

  /** The minute that has passed is fired, once, and nothing else is. */
  lemma NextMinuteFires(command: string, entries: int -> Task, now: int)
    requires now >= USECS_PER_MINUTE
    ensures var w := Started(command, entries, now);
            AccountOf(Poll(w, now + USECS_PER_MINUTE).ledger, 1).fires ==
            AccountOf(w.ledger, 1).fires + [StartOfMinute(now) + USECS_PER_MINUTE]
  {
    StartedTicks(command, entries, now);
    LooksAgain(Started(command, entries, now), now);
  }

  lemma OnlyMinute(due: seq<int>, from: int)
    requires OnMinute(from) && DenotedMinutes(due, STARS, from, from + USECS_PER_MINUTE)
    ensures due == [from + USECS_PER_MINUTE]
  {
    forall m ensures m in due <==> m == from + USECS_PER_MINUTE {
      StarsDenoteAll(m);
      OneBoundary(from, m);
    }
    OnlyOne(due, from + USECS_PER_MINUTE);
  }

  lemma OnlyOne(due: seq<int>, m: int)
    requires Increasing(due) && forall x :: x in due <==> x == m
    ensures due == [m]
  {
    assert m in due;
    var last := |due| - 1;
    assert due[0] in due && due[last] in due;
    assert !(0 < last);
  }

  // ---- Where at-most-once fails ----

  const EARLY := 60_000_000

  /** 4294961296 seconds on: the cast to `int` makes them 6000 seconds back. */
  const FAR := EARLY + 4_294_961_296 * USECS_PER_SEC

  lemma FarLooksBack()
    ensures EntersBackward(EARLY, FAR)
  {
    BackwardExactly(EARLY, FAR);
  }

  lemma StarsRunAlways(minute: int)
    ensures ShouldRunTask(Meaning(STARS), minute, true, false)
  {
    StarsDenoteAll(minute);
    MeaningMatches(STARS, minute);
    FlagsPartition(Meaning(STARS), minute);
  }

  /** The same far minute is fired by two looks in a row. */
  lemma FarMinuteFiresTwice()
    ensures var s := Meaning(STARS);
            Refires(s, EARLY, FAR) && NextMinute(EARLY, FAR) == EARLY &&
            PollFires(s, EARLY, FAR) == [StartOfMinute(FAR)] &&
            PollFires(s, NextMinute(EARLY, FAR), FAR) == [StartOfMinute(FAR)]
  {
    FarLooksBack();
    StarsRunAlways(StartOfMinute(FAR));
    BackwardFiresAgain(Meaning(STARS), EARLY, FAR);
  }

  lemma StartedFiredOnce(command: string, entries: int -> Task)
    ensures FiredOnce(Started(command, entries, EARLY))
  {
    var w := Reload(EMPTY_WORLD, [JobRow(1, EVERY_MINUTE, command)], entries);
    EmptyWorldInv();
    ReloadKeeps(EMPTY_WORLD, [JobRow(1, EVERY_MINUTE, command)], entries);
    forall k ensures JobFiredOnce(w, k) {
    }
    forall k | k in w.jobs ensures !EntersBackward(Remembered(0, EARLY), EARLY) {
    }
    PollFiredOnce(w, EARLY);
  }

  /** A worker that looks at the clock once, and twice 136 years later, fires that far minute twice. */
  lemma AtMostOnceFails(command: string, entries: int -> Task)
    ensures var w := Started(command, entries, EARLY);
            Inv(w) && FiredOnce(w) && !FiredOnce(Poll(w, FAR)) &&
            AccountOf(Poll(Poll(w, FAR), FAR).ledger, 1).fires ==
            AccountOf(w.ledger, 1).fires + [StartOfMinute(FAR)] + [StartOfMinute(FAR)]
  {
    var w := Started(command, entries, EARLY);
    StartedTicks(command, entries, EARLY);
    StartedFiredOnce(command, entries);
    FarMinuteFiresTwice();
    RefiredAhead(w, FAR, 1);
    RefiredAhead(Poll(w, FAR), FAR, 1);
    RefiringBreaks(w, FAR, 1);
    assert FiredOnce(Poll(w, FAR)) ==> JobFiredOnce(Poll(w, FAR), 1);
  }
}
