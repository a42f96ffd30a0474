/**
 The parser as src/cron_parser.c runs it: fixed arrays of bits set in place, item after item.
 Each method is tied to the function of CronParser that says what it computes.
 */
module CronSchedules {
  import opened Options
  import opened Text
  import opened CronExpr
  import opened CronParser

  // ---- The effect of items on the stored form ----

  function AddBits(s: Schedule, t: FieldType, bits: set<int>): Schedule {
    match t
    case Minute => s.(minute := s.minute + bits)
    case Hour => s.(hour := s.hour + bits)
    case Dom => s.(dom := s.dom + bits)
    case Month => s.(month := s.month + bits)
    case Dow => s.(dow := s.dow + bits)
  }

  function MarkStar(s: Schedule, t: FieldType): Schedule {
    match t
    case Minute => s.(minStar := true)
    case Hour => s.(hourStar := true)
    case Dom => s.(domStar := true)
    case Dow => s.(dowStar := true)
    case Month => s
  }

  ghost function ApplyItem(s: Schedule, t: FieldType, item: Item): Schedule {
    match item
    case Star => MarkStar(AddBits(s, t, Bits(t, [item])), t)
    case Last => s.(lastDom := true)
    case _ => AddBits(s, t, Bits(t, [item]))
  }

  ghost function ApplyItems(s: Schedule, t: FieldType, items: seq<Item>): Schedule {
    if items == [] then s
    else ApplyItem(ApplyItems(s, t, items[..|items| - 1]), t, items[|items| - 1])
  }

  /** The bits set while walking from `value` to `last`, up to the first value out of bounds. */
  function WalkBits(t: FieldType, value: int, last: int, step: int): set<int>
    requires step > 0
    decreases last - value
  {
    if value > last || !InBounds(t, value) then {}
    else {Stored(t, value)} + WalkBits(t, value + step, last, step)
  }

  lemma {:induction false} WalkBitsContents(t: FieldType, value: int, last: int, step: int, v: int)
    requires step > 0 && WalkInBounds(t, value, last, step)
    ensures v in WalkBits(t, value, last, step) <==> Covers(t, Span(value, last, step), v)
    decreases last - value
  {
    if value <= last {
      WalkBitsContents(t, value + step, last, step, v);
      VisitsNext(value, last, step);
    }
  }

  /** A walk that stays in bounds sets exactly the bits the span denotes. */
  lemma WalkIsSpan(t: FieldType, first: int, last: int, step: int)
    requires step > 0 && WalkInBounds(t, first, last, step)
    ensures WalkBits(t, first, last, step) == Bits(t, [Span(first, last, step)])
  {
    WalkVisits(t, first, last, step);
    var items := [Span(first, last, step)];
    forall v ensures v in WalkBits(t, first, last, step) <==> v in Bits(t, items) {
      WalkBitsContents(t, first, last, step, v);
      if Covers(t, items[0], v) {
        var w :| Visits(first, last, step, w) && Stored(t, w) == v;
        assert InBounds(t, w) && Names(t, items, v);
      }
    }
  }

  lemma StarIsFullWalk(t: FieldType)
    ensures WalkInBounds(t, MinValue(t), MaxValue(t), 1)
    ensures WalkBits(t, MinValue(t), MaxValue(t), 1) == Bits(t, [Star])
  {
    var a, b := MinValue(t), MaxValue(t);
    WalkVisits(t, a, b, 1);
    forall v ensures v in WalkBits(t, a, b, 1) <==> v in Bits(t, [Star]) {
      WalkBitsContents(t, a, b, 1, v);
      assert Covers(t, [Star][0], v) && Names(t, [Star], v);
      if InDomain(t, v) {
        assert Visits(a, b, 1, v);
      }
      if Covers(t, Span(a, b, 1), v) {
        var w :| Visits(a, b, 1, w) && Stored(t, w) == v;
      }
    }
  }

  lemma SingleIsBit(t: FieldType, v: int)
    requires InBounds(t, v)
    ensures Bits(t, [Single(v)]) == {Stored(t, v)}
  {
    forall w ensures w in Bits(t, [Single(v)]) <==> w == Stored(t, v) {
      assert Covers(t, [Single(v)][0], w) <==> w == Stored(t, v);
    }
  }

  // ---- Applying a whole list is taking its meaning ----

  lemma BitsAppend(t: FieldType, items: seq<Item>, item: Item)
    ensures Bits(t, items + [item]) == Bits(t, items) + Bits(t, [item])
  {
    var all := items + [item];
    forall v ensures Names(t, all, v) <==> Names(t, items, v) || Names(t, [item], v) {
      if Names(t, items, v) {
        var i :| 0 <= i < |items| && Covers(t, items[i], v);
        assert Covers(t, all[i], v);
      }
      if Names(t, [item], v) {
        assert Covers(t, all[|items|], v);
      }
      if Names(t, all, v) {
        var i :| 0 <= i < |all| && Covers(t, all[i], v);
        assert i == |items| ==> Covers(t, [item][0], v);
        assert i < |items| ==> Covers(t, items[i], v);
      }
    }
  }

  lemma AddTwice(s: Schedule, t: FieldType, a: set<int>, b: set<int>)
    ensures AddBits(AddBits(s, t, a), t, b) == AddBits(s, t, a + b)
  {
    var x := match t case Minute => s.minute case Hour => s.hour case Dom => s.dom case Month => s.month case Dow => s.dow;
    assert x + a + b == x + (a + b);
  }

  lemma AddNone(s: Schedule, t: FieldType)
    ensures AddBits(s, t, {}) == s
  {
    var x := match t case Minute => s.minute case Hour => s.hour case Dom => s.dom case Month => s.month case Dow => s.dow;
    assert x + {} == x;
  }

  function StarIf(s: Schedule, t: FieldType, star: bool): Schedule {
    if star then MarkStar(s, t) else s
  }

  function LastIf(s: Schedule, last: bool): Schedule {
    if last then s.(lastDom := true) else s
  }

  /** One more value of a walk: set it, and walk on. */
  lemma WalkOn(s: Schedule, t: FieldType, value: int, last: int, step: int)
    requires step > 0
    ensures AddBits(s, t, WalkBits(t, value, last, step)) ==
            if value > last || !InBounds(t, value) then s
            else AddBits(AddBits(s, t, {Stored(t, value)}), t, WalkBits(t, value + step, last, step))
  {
    if value > last || !InBounds(t, value) {
      AddNone(s, t);
    } else {
      AddTwice(s, t, {Stored(t, value)}, WalkBits(t, value + step, last, step));
    }
  }

  /** What a list of items adds to a schedule: its bits, and the flags of `*` and `$`. */
  function Fill(s: Schedule, t: FieldType, bits: set<int>, star: bool, last: bool): Schedule {
    LastIf(StarIf(AddBits(s, t, bits), t, star), last)
  }

  lemma BitsAfterFlags(s: Schedule, t: FieldType, bits: set<int>, star: bool, last: bool)
    ensures AddBits(StarIf(s, t, star), t, bits) == StarIf(AddBits(s, t, bits), t, star)
    ensures AddBits(LastIf(s, last), t, bits) == LastIf(AddBits(s, t, bits), last)
  {
  }

  lemma FlagsTwice(s: Schedule, t: FieldType, starA: bool, lastA: bool, starB: bool, lastB: bool)
    ensures LastIf(StarIf(LastIf(StarIf(s, t, starA), lastA), t, starB), lastB) ==
            LastIf(StarIf(s, t, starA || starB), lastA || lastB)
  {
  }

  lemma FillTwice(s: Schedule, t: FieldType, a: set<int>, starA: bool, lastA: bool, b: set<int>, starB: bool, lastB: bool)
    ensures Fill(Fill(s, t, a, starA, lastA), t, b, starB, lastB) == Fill(s, t, a + b, starA || starB, lastA || lastB)
  {
    var s1 := AddBits(s, t, a);
    BitsAfterFlags(StarIf(s1, t, starA), t, b, starA, lastA);
    BitsAfterFlags(s1, t, b, starA, lastA);
    AddTwice(s, t, a, b);
    FlagsTwice(AddBits(s, t, a + b), t, starA, lastA, starB, lastB);
  }

  lemma ItemFills(s: Schedule, t: FieldType, item: Item)
    ensures ApplyItem(s, t, item) == Fill(s, t, Bits(t, [item]), item == Star, item == Last)
  {
    if item.Last? {
      assert Bits(t, [item]) == {};
      AddNone(s, t);
    }
  }

  lemma {:induction false} ApplyFills(s: Schedule, t: FieldType, items: seq<Item>)
    ensures ApplyItems(s, t, items) == Fill(s, t, Bits(t, items), Star in items, Last in items)
  {
    if items == [] {
      assert Bits(t, items) == {};
      AddNone(s, t);
    } else {
      var n := |items| - 1;
      var init, item := items[..n], items[n];
      assert items == init + [item];
      ApplyFills(s, t, init);
      BitsAppend(t, init, item);
      ItemFills(ApplyItems(s, t, init), t, item);
      FillTwice(s, t, Bits(t, init), Star in init, Last in init, Bits(t, [item]), item == Star, item == Last);
    }
  }

  /** The five fields in order, from the zeroed schedule, give the meaning of the expression. */
  lemma FiveFieldsMean(e: Expr)
    requires e.Cron? && Legal(e)
    ensures var s1 := ApplyItems(EMPTY_SCHEDULE, Minute, e.minute);
            var s2 := ApplyItems(s1, Hour, e.hour);
            var s3 := ApplyItems(s2, Dom, e.dom);
            var s4 := ApplyItems(s3, Month, e.month);
            ApplyItems(s4, Dow, e.dow) == Meaning(e)
  {
    var s1 := ApplyItems(EMPTY_SCHEDULE, Minute, e.minute);
    var s2 := ApplyItems(s1, Hour, e.hour);
    var s3 := ApplyItems(s2, Dom, e.dom);
    var s4 := ApplyItems(s3, Month, e.month);
    OneField(EMPTY_SCHEDULE, e, Minute);
    OneField(s1, e, Hour);
    OneField(s2, e, Dom);
    OneField(s3, e, Month);
    OneField(s4, e, Dow);
  }

  lemma OneField(s: Schedule, e: Expr, t: FieldType)
    requires e.Cron? && Legal(e)
    ensures var items := FieldOf(e, t);
            ApplyItems(s, t, items) == Fill(s, t, Bits(t, items), Star in items, t.Dom? && Last in items)
    ensures forall bits: set<int> :: {} + bits == bits
  {
    ApplyFills(s, t, FieldOf(e, t));
    if !t.Dom? {
      LastOnlyInDom(e, t);
    }
  }

  lemma LastOnlyInDom(e: Expr, t: FieldType)
    requires e.Cron? && Legal(e) && !t.Dom?
    ensures Last !in FieldOf(e, t)
  {
    assert LegalItems(t, FieldOf(e, t));
  }

  // ---- The class ----

  function SetBits(a: array<bool>): set<int>
    reads a
  {
    set i | 0 <= i < a.Length && a[i]
  }

  method SetBit(a: array<bool>, i: int)
    requires 0 <= i < a.Length
    modifies a
    ensures SetBits(a) == old(SetBits(a)) + {i}
  {
    a[i] := true;
  }

  /** `CronSchedule` with its five bit arrays. */
  class CronSchedule {
    const minute: array<bool>
    const hour: array<bool>
    const dayOfMonth: array<bool>
    const month: array<bool>
    const dayOfWeek: array<bool>
    var minStar: bool
    var hourStar: bool
    var domStar: bool
    var dowStar: bool
    var lastDom: bool
    var seconds: bool
    var secondsInterval: int

    ghost predicate Valid() {
      minute.Length == 60 && hour.Length == 24 && dayOfMonth.Length == 32 &&
      month.Length == 13 && dayOfWeek.Length == 7
    }

    function View(): Schedule
      reads this, minute, hour, dayOfMonth, month, dayOfWeek
    {
      Schedule(SetBits(minute), SetBits(hour), SetBits(dayOfMonth), SetBits(month), SetBits(dayOfWeek),
               minStar, hourStar, domStar, dowStar, lastDom, seconds, secondsInterval)
    }

    /** `CronSchedule temp = {0}` */
    constructor ()
      ensures Valid() && View() == EMPTY_SCHEDULE
      ensures fresh(minute) && fresh(hour) && fresh(dayOfMonth) && fresh(month) && fresh(dayOfWeek)
    {
      minute := new bool[60](i => false);
      hour := new bool[24](i => false);
      dayOfMonth := new bool[32](i => false);
      month := new bool[13](i => false);
      dayOfWeek := new bool[7](i => false);
      minStar, hourStar, domStar, dowStar, lastDom := false, false, false, false, false;
      seconds, secondsInterval := false, 0;
    }

    /** `set_field_value` */
    method SetFieldValue(t: FieldType, value: int) returns (fault: Option<string>)
      requires Valid()
      modifies minute, hour, dayOfMonth, month, dayOfWeek
      ensures fault == ItemFault(t, Single(value))
      ensures View() == if fault.None? then AddBits(old(View()), t, {Stored(t, value)}) else old(View())
    {
      if value < MinValue(t) || value > MaxValue(t) {
        return Some(FieldName(t) + " must be " + BoundsText(t));
      }
      match t {
        case Minute => SetBit(minute, value);
        case Hour => SetBit(hour, value);
        case Month => SetBit(month, value);
        case Dom => SetBit(dayOfMonth, value);
        case Dow => SetBit(dayOfWeek, if value == 7 then 0 else value);
      }
      fault := None;
    }

    /** `set_field_range`: the values before the first one out of bounds stay set. */
    method SetFieldRange(t: FieldType, first: int, last: int, step: int) returns (fault: Option<string>)
      requires Valid()
      modifies minute, hour, dayOfMonth, month, dayOfWeek
      ensures fault == ItemFault(t, Span(first, last, step))
      ensures View() == if step <= 0 then old(View()) else AddBits(old(View()), t, WalkBits(t, first, last, step))
    {
      if step <= 0 {
        return Some("step must be greater than 0");
      }
      WalkOn(View(), t, first, last, step);
      if first > last {
        return Some("range start must be less than or equal to range end");
      }
      var value := first;
      while value <= last
        invariant WalkInBounds(t, first, last, step) == WalkInBounds(t, value, last, step)
        invariant AddBits(old(View()), t, WalkBits(t, first, last, step)) == AddBits(View(), t, WalkBits(t, value, last, step))
        decreases last - value
      {
        WalkOn(View(), t, value, last, step);
        fault := SetFieldValue(t, value);
        if fault.Some? {
          return;
        }
        value := value + step;
      }
      WalkOn(View(), t, value, last, step);
      fault := None;
    }

    /** `mark_star_field` */
    method MarkStarField(t: FieldType)
      modifies this
      ensures View() == MarkStar(old(View()), t)
    {
      match t {
        case Minute => minStar := true;
        case Hour => hourStar := true;
        case Dom => domStar := true;
        case Dow => dowStar := true;
        case Month =>
      }
    }

    /** `parse_field_item`: reads one item and sets its bits. */
    method ParseFieldItem(t: FieldType, item: string) returns (fault: Option<string>)
      requires Valid()
      modifies this, minute, hour, dayOfMonth, month, dayOfWeek
      ensures match ReadItem(t, item)
              case Err(m) => fault == Some(m)
              case Ok(read) =>
                fault == ItemFault(t, read) && (fault.None? ==> View() == ApplyItem(old(View()), t, read))
    {
      if item == "" {
        return Some("empty " + FieldName(t) + " value");
      }
      if item == "$" {
        if t != Dom {
          return Some("$ is only allowed in day-of-month");
        }
        lastDom := true;
        return None;
      }
      if item == "*" {
        fault := SetStar(t);
        return;
      }
      if '/' in item {
        fault := ParseStepped(t, item);
        return;
      }
      if '-' in item {
        var range := RangeOf(t, item);
        if range.None? {
          return Some("invalid " + FieldName(t) + " range");
        }
        fault := SetSpan(t, range.value.0, range.value.1, 1);
        return;
      }
      fault := ParsePlainValue(t, item);
    }

    /** The last branch of `parse_field_item`: a number or a name. */
    method ParsePlainValue(t: FieldType, item: string) returns (fault: Option<string>)
      requires Valid()
      modifies minute, hour, dayOfMonth, month, dayOfWeek
      ensures match FieldValue(t, item)
              case None => fault == Some("invalid " + FieldName(t) + " value")
              case Some(v) =>
                fault == ItemFault(t, Single(v)) && (fault.None? ==> View() == ApplyItem(old(View()), t, Single(v)))
    {
      var number := FieldValue(t, item);
      if number.Some? {
        fault := SetFieldValue(t, number.value);
        if fault.None? {
          SingleIsBit(t, number.value);
        }
        return;
      }
      fault := Some("invalid " + FieldName(t) + " value");
    }

    /** The bare `*` branch of `parse_field_item`: the only one that marks the field. */
    method SetStar(t: FieldType) returns (fault: Option<string>)
      requires Valid()
      modifies this, minute, hour, dayOfMonth, month, dayOfWeek
      ensures fault == None && View() == ApplyItem(old(View()), t, Star)
    {
      StarIsFullWalk(t);
      fault := SetFieldRange(t, MinValue(t), MaxValue(t), 1);
      if fault.None? {
        MarkStarField(t);
      }
    }

    /** The stepped branch of `parse_field_item`. */
    method ParseStepped(t: FieldType, item: string) returns (fault: Option<string>)
      requires Valid()
      modifies this, minute, hour, dayOfMonth, month, dayOfWeek
      ensures match ReadStep(t, item)
              case Err(m) => fault == Some(m)
              case Ok(read) =>
                fault == ItemFault(t, read) && (fault.None? ==> View() == ApplyItem(old(View()), t, read))
    {
      EmptyPartExists(item, '/');
      var empty := FindEmptyPart(item, '/');
      if empty {
        return Some("invalid step syntax");
      }
      var parts := StrSplit(item, '/');
      if |parts| != 2 {
        return Some("invalid step syntax");
      }
      var step := ParseInteger(parts[1]);
      if step.None? || step.value <= 0 {
        return Some("step must be a positive integer");
      }
      if parts[0] == "*" || (t == Dom && parts[0] == "$") {
        fault := SetSpan(t, MinValue(t), MaxValue(t), step.value);
        return;
      }
      if '-' in parts[0] {
        var range := RangeOf(t, parts[0]);
        if range.None? {
          return Some("invalid " + FieldName(t) + " range");
        }
        fault := SetSpan(t, range.value.0, range.value.1, step.value);
        return;
      }
      fault := Some("invalid step base for " + FieldName(t));
    }

    /** `set_field_range` seen as the item it came from. */
    method SetSpan(t: FieldType, first: int, last: int, step: int) returns (fault: Option<string>)
      requires Valid()
      modifies minute, hour, dayOfMonth, month, dayOfWeek
      ensures fault == ItemFault(t, Span(first, last, step))
      ensures fault.None? ==> View() == ApplyItem(old(View()), t, Span(first, last, step))
    {
      fault := SetFieldRange(t, first, last, step);
      if fault.None? {
        WalkIsSpan(t, first, last, step);
      }
    }

    /** `parse_cron_field`: one comma list; the first bad item ends it. */
    method ParseCronField(t: FieldType, field: int, text: string) returns (error: Option<ParseError>)
      requires Valid()
      modifies this, minute, hour, dayOfMonth, month, dayOfWeek
      ensures match ParseField(t, field, text)
              case Err(e) => error == Some(e)
              case Ok(items) => error == None && View() == ApplyItems(old(View()), t, items)
    {
      EmptyPartExists(text, ',');
      var empty := FindEmptyPart(text, ',');
      if empty {
        return Some(ParseError(field, 0, text, "invalid list syntax"));
      }
      var items := StrSplit(text, ',');
      var count := |items|;
      for i := 0 to count
        invariant ParseItems(t, field, items[..i]).Ok?
        invariant View() == ApplyItems(old(View()), t, ParseItems(t, field, items[..i]).value)
      {
        ghost var before := ParseItems(t, field, items[..i]).value;
        var fault := ParseFieldItem(t, items[i]);
        PrefixStep(t, field, items, i);
        if fault.Some? {
          PrefixError(t, field, items, i + 1);
          var message := if fault.value == "" then "invalid " + FieldName(t) + " value" else fault.value;
          ItemErrorHasText(t, items[i]);
          return Some(ParseError(field, i + 1, items[i], message));
        }
        ghost var read := ParseItem(t, items[i]).value;
        assert (before + [read])[..|before|] == before;
      }
      assert items[..count] == items;
      error := None;
    }
  }

  lemma PrefixStep(t: FieldType, field: int, parts: seq<string>, i: nat)
    requires i < |parts| && ParseItems(t, field, parts[..i]).Ok?
    ensures ParseItems(t, field, parts[..i + 1]) ==
            match ParseItem(t, parts[i])
            case Ok(item) => Ok(ParseItems(t, field, parts[..i]).value + [item])
            case Err(m) => Err(ParseError(field, i + 1, parts[i], m))
  {
    assert parts[..i + 1][..i] == parts[..i];
  }

  lemma {:induction false} PrefixError(t: FieldType, field: int, parts: seq<string>, n: nat)
    requires n <= |parts| && ParseItems(t, field, parts[..n]).Err?
    ensures ParseItems(t, field, parts) == ParseItems(t, field, parts[..n])
    decreases |parts|
  {
    if n == |parts| {
      assert parts[..n] == parts;
    } else {
      var init := parts[..|parts| - 1];
      assert init[..n] == parts[..n];
      PrefixError(t, field, init, n);
    }
  }

  /**
   `parse_with_error`: null with the first error, or a fresh schedule holding exactly what the
   text means. `temp` is filled in place and handed out only when all five fields are good.
   */
  method ParseWithError(command: string) returns (schedule: CronSchedule?, error: ParseError)
    ensures match Parse(command)
            case Err(e) => schedule == null && error == e
            case Ok(s) => schedule != null && fresh(schedule) && schedule.Valid() && schedule.View() == s
  {
    error := ParseError(0, 0, "", "");
    if command == "" {
      return null, ParseError(0, 0, "", "schedule is empty");
    }
    var fields := StrSplit(command, ' ');
    if |fields| == 2 && SameFolded(fields[1], "seconds") {
      var interval := ParseInteger(fields[0]);
      if interval.None? || interval.value < 1 || interval.value > 59 {
        return null, ParseError(1, 1, fields[0], "seconds interval must be 1-59");
      }
      schedule := new CronSchedule();
      schedule.seconds := true;
      schedule.secondsInterval := interval.value;
      return;
    }
    if |fields| != 5 {
      return null, ParseError(0, 0, "", "expected 5 cron fields or \"N seconds\"");
    }
    schedule, error := ParseFiveFields(command, fields);
  }

  method ParseFiveFields(command: string, fields: seq<string>) returns (schedule: CronSchedule?, error: ParseError)
    requires command != "" && fields == Split(command, ' ') && |fields| == 5
    ensures match Parse(command)
            case Err(e) => schedule == null && error == e
            case Ok(s) => schedule != null && fresh(schedule) && schedule.Valid() && schedule.View() == s
  {
    error := ParseError(0, 0, "", "");
    var temp := new CronSchedule();
    var fault := temp.ParseCronField(Minute, 1, fields[0]);
    if fault.Some? {
      return null, fault.value;
    }
    fault := temp.ParseCronField(Hour, 2, fields[1]);
    if fault.Some? {
      return null, fault.value;
    }
    fault := temp.ParseCronField(Dom, 3, fields[2]);
    if fault.Some? {
      return null, fault.value;
    }
    fault := temp.ParseCronField(Month, 4, fields[3]);
    if fault.Some? {
      return null, fault.value;
    }
    fault := temp.ParseCronField(Dow, 5, fields[4]);
    if fault.Some? {
      return null, fault.value;
    }
    ghost var e := ParseFields(fields).value;
    ParserCorrect(command, e);
    FiveFieldsMean(e);
    schedule := temp;
  }
}
