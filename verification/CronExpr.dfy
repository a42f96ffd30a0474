/**
 The schedule language as a grammar, with a meaning given apart from any parser: the five time
 fields of `crontab` in the Shell and Utilities volume of IEEE Std 1003.1-2017 (INPUT FILES),
 extended with names, steps, `$` and `N seconds`.
 */
module CronExpr {
  import opened Text
  import opened Calendar

  datatype FieldType = Minute | Hour | Dom | Month | Dow

  const FIELD_TYPES: seq<FieldType> := [Minute, Hour, Dom, Month, Dow]

  function TypeIndex(t: FieldType): (i: nat)
    ensures i < 5 && FIELD_TYPES[i] == t
  {
    match t
    case Minute => 0
    case Hour => 1
    case Dom => 2
    case Month => 3
    case Dow => 4
  }

  function MinValue(t: FieldType): int {
    match t
    case Minute => 0
    case Hour => 0
    case Dom => 1
    case Month => 1
    case Dow => 0
  }

  function MaxValue(t: FieldType): int {
    match t
    case Minute => 59
    case Hour => 23
    case Dom => 31
    case Month => 12
    case Dow => 7
  }

  /** Day-of-week 7 is another spelling of Sunday. */
  function Stored(t: FieldType, v: int): int {
    if t.Dow? && v == 7 then 0 else v
  }

  datatype CronName = CronName(name: string, value: int)

  function NameTable(t: FieldType): seq<CronName> {
    match t
    case Month =>
      [CronName("JAN", 1), CronName("FEB", 2), CronName("MAR", 3), CronName("APR", 4),
       CronName("MAY", 5), CronName("JUN", 6), CronName("JUL", 7), CronName("AUG", 8),
       CronName("SEP", 9), CronName("OCT", 10), CronName("NOV", 11), CronName("DEC", 12)]
    case Dow =>
      [CronName("SUN", 0), CronName("MON", 1), CronName("TUE", 2), CronName("WED", 3),
       CronName("THU", 4), CronName("FRI", 5), CronName("SAT", 6)]
    case _ => []
  }

  /** One element of a comma list; `Span` covers ranges and every stepped form. */
  datatype Item =
    | Star
    | Last
    | Single(value: int)
    | Span(first: int, last: int, step: int)

  datatype Expr =
    | Cron(minute: seq<Item>, hour: seq<Item>, dom: seq<Item>, month: seq<Item>, dow: seq<Item>)
    | Seconds(interval: int)

  function FieldOf(e: Expr, t: FieldType): seq<Item>
    requires e.Cron?
  {
    match t
    case Minute => e.minute
    case Hour => e.hour
    case Dom => e.dom
    case Month => e.month
    case Dow => e.dow
  }

  // ---- Which texts spell an expression ----

  predicate IsName(t: FieldType, text: string, v: int) {
    exists n :: n in NameTable(t) && SameFolded(n.name, text) && n.value == v
  }

  predicate IsValue(t: FieldType, text: string, v: int) {
    IsNumber(text, v) || IsName(t, text, v)
  }

  predicate IsRangeEnd(t: FieldType, text: string, v: int) {
    IsValue(t, text, v) || (t.Dom? && text == "$" && v == 31)
  }

  ghost predicate SpellsRange(t: FieldType, text: string, first: int, last: int) {
    exists x, y :: text == x + ['-'] + y && IsValue(t, x, first) && IsRangeEnd(t, y, last)
  }

  ghost predicate SpellsStepBase(t: FieldType, text: string, first: int, last: int) {
    ((text == "*" || (t.Dom? && text == "$")) && first == MinValue(t) && last == MaxValue(t)) ||
    SpellsRange(t, text, first, last)
  }

  ghost predicate SpellsStepped(t: FieldType, text: string, first: int, last: int, step: int) {
    exists x, y :: text == x + ['/'] + y && SpellsStepBase(t, x, first, last) && IsNumber(y, step) && step > 0
  }

  ghost predicate Spells(t: FieldType, text: string, item: Item) {
    match item
    case Star => text == "*"
    case Last => t.Dom? && text == "$"
    case Single(v) => IsValue(t, text, v)
    case Span(first, last, step) =>
      (step == 1 && SpellsRange(t, text, first, last)) || SpellsStepped(t, text, first, last, step)
  }

  ghost predicate SpellsParts(t: FieldType, parts: seq<string>, items: seq<Item>) {
    |parts| == |items| && forall i :: 0 <= i < |parts| ==> Spells(t, parts[i], items[i])
  }

  ghost predicate SpellsField(t: FieldType, text: string, items: seq<Item>) {
    exists parts :: |parts| >= 1 && text == Join(parts, ',') && SpellsParts(t, parts, items)
  }

  ghost predicate SpellsFields(fields: seq<string>, e: Expr)
    requires |fields| == 5
  {
    e.Cron? && forall i :: 0 <= i < 5 ==> SpellsField(FIELD_TYPES[i], fields[i], FieldOf(e, FIELD_TYPES[i]))
  }

  ghost predicate Spelled(text: string, e: Expr) {
    match e
    case Cron(_, _, _, _, _) => exists fields :: |fields| == 5 && text == Join(fields, ' ') && SpellsFields(fields, e)
    case Seconds(n) => exists x, y :: text == x + [' '] + y && IsNumber(x, n) && SameFolded(y, "seconds")
  }

  // ---- Which expressions are legal ----

  predicate InBounds(t: FieldType, v: int) { MinValue(t) <= v <= MaxValue(t) }

  /** The values a span walks through. Its end need not be one of them. */
  predicate Visits(first: int, last: int, step: int, v: int) {
    first <= v <= last && step > 0 && (v - first) % step == 0
  }

  ghost predicate LegalItem(t: FieldType, item: Item) {
    match item
    case Star => true
    case Last => t.Dom?
    case Single(v) => InBounds(t, v)
    case Span(first, last, step) =>
      step > 0 && first <= last && forall v :: Visits(first, last, step, v) ==> InBounds(t, v)
  }

  ghost predicate LegalItems(t: FieldType, items: seq<Item>) {
    |items| >= 1 && forall i :: 0 <= i < |items| ==> LegalItem(t, items[i])
  }

  ghost predicate Legal(e: Expr) {
    match e
    case Cron(_, _, _, _, _) => forall t: FieldType :: LegalItems(t, FieldOf(e, t))
    case Seconds(n) => 1 <= n <= 59
  }

  // ---- What an expression means ----

  /** Whether an item names the calendar value `v`. */
  ghost predicate Covers(t: FieldType, item: Item, v: int) {
    match item
    case Star => true
    case Last => false
    case Single(w) => Stored(t, w) == v
    case Span(first, last, step) => exists w :: Visits(first, last, step, w) && Stored(t, w) == v
  }

  ghost predicate Names(t: FieldType, items: seq<Item>, v: int) {
    exists i :: 0 <= i < |items| && Covers(t, items[i], v)
  }

  /** The rule for days: both day fields must agree if either holds a bare `*`, else one suffices. */
  ghost predicate NamesDay(e: Expr, tm: Tm)
    requires e.Cron?
  {
    var dom := Names(Dom, e.dom, tm.mday) ||
               (Last in e.dom && IsLastDayOfMonth(tm.mday, tm.mon + 1, tm.year + 1900));
    var dow := Names(Dow, e.dow, tm.wday);
    if Star in e.dom || Star in e.dow then dom && dow else dom || dow
  }

  /** The minutes a schedule text denotes. A seconds interval denotes none. */
  ghost predicate Denotes(e: Expr, tm: Tm) {
    e.Cron? && Names(Minute, e.minute, tm.min) && Names(Hour, e.hour, tm.hour) &&
    Names(Month, e.month, tm.mon + 1) && NamesDay(e, tm)
  }

  /** A schedule floats with the clock when its minute or hour field holds a bare `*`. */
  predicate Floats(e: Expr) {
    e.Cron? && (Star in e.minute || Star in e.hour)
  }

  // ---- The stored form ----

  /** `CronSchedule`: the set bits of each array, and the flags. */
  datatype Schedule = Schedule(
    minute: set<int>, hour: set<int>, dom: set<int>, month: set<int>, dow: set<int>,
    minStar: bool, hourStar: bool, domStar: bool, dowStar: bool, lastDom: bool,
    seconds: bool, interval: int)

  const EMPTY_SCHEDULE := Schedule({}, {}, {}, {}, {}, false, false, false, false, false, false, 0)

  /** The values a field's array can hold. */
  predicate InDomain(t: FieldType, v: int) { InBounds(t, v) && Stored(t, v) == v }

  ghost function Bits(t: FieldType, items: seq<Item>): set<int> {
    set v | MinValue(t) <= v <= MaxValue(t) && InDomain(t, v) && Names(t, items, v)
  }

  ghost function Meaning(e: Expr): Schedule {
    match e
    case Cron(minute, hour, dom, month, dow) =>
      Schedule(Bits(Minute, minute), Bits(Hour, hour), Bits(Dom, dom), Bits(Month, month), Bits(Dow, dow),
               Star in minute, Star in hour, Star in dom, Star in dow, Last in dom, false, 0)
    case Seconds(n) => EMPTY_SCHEDULE.(seconds := true, interval := n)
  }

  /** Every field of a legal expression sets some bit, unless it is a day field made of `$` alone. */
  lemma FieldNotEmpty(t: FieldType, items: seq<Item>)
    requires LegalItems(t, items)
    ensures Bits(t, items) != {} || (t.Dom? && Last in items)
  {
    var item := items[0];
    if item.Last? {
      assert Last in items;
    } else {
      var w := match item case Single(v) => v case Span(first, _, _) => first case _ => MinValue(t);
      assert item.Span? ==> Visits(item.first, item.last, item.step, w);
      assert LegalItem(t, items[0]) && InBounds(t, w);
      assert Covers(t, items[0], Stored(t, w));
      assert Names(t, items, Stored(t, w));
      assert Stored(t, w) in Bits(t, items);
    }
  }

  /**
   A span is legal exactly when its first value and the last one it walks to are in bounds. The
   end written in the text is not looked at unless the walk reaches it.
   */
  lemma LegalSpanExactly(t: FieldType, first: int, last: int, step: int)
    requires step > 0 && first <= last
    ensures LegalItem(t, Span(first, last, step)) <==> InBounds(t, first) && InBounds(t, last - (last - first) % step)
  {
    var reached := last - (last - first) % step;
    assert (reached - first) % step == 0 by {
      assert reached - first == step * ((last - first) / step);
      ProductDivides(step, (last - first) / step);
    }
    assert Visits(first, last, step, first) && Visits(first, last, step, reached);
    forall v | Visits(first, last, step, v) ensures first <= v <= reached {
      NoMultipleBetween(last - first, v - first, step);
    }
  }

  lemma ProductGrows(step: int, a: int, b: int)
    requires step > 0 && a <= b
    ensures step * a <= step * b
  {
  }

  lemma ProductDivides(step: int, q: int)
    requires step > 0
    ensures step * q % step == 0
  {
    var p := step * q / step;
    assert step * q == step * p + step * q % step;
    if p < q {
      ProductGrows(step, p + 1, q);
    } else {
      ProductGrows(step, q, p);
    }
  }

  lemma NoMultipleBetween(n: int, m: int, step: int)
    requires step > 0 && 0 <= m <= n && m % step == 0
    ensures m <= n - n % step
  {
    var a, b := m / step, n / step;
    assert m == step * a && n == step * b + n % step;
    if a > b {
      ProductGrows(step, b + 1, a);
      assert false;
    } else {
      ProductGrows(step, a, b);
    }
  }

  /** So a minute field may name an end past 59. */
  lemma EndMayBeOutOfBounds()
    ensures Spells(Minute, "0-70/100", Span(0, 70, 100)) && LegalItem(Minute, Span(0, 70, 100)) && !InBounds(Minute, 70)
  {
    LegalSpanExactly(Minute, 0, 70, 100);
    assert IsNumber("0", 0) && IsNumber("70", 70) && IsNumber("100", 100);
    assert "0-70" == "0" + ['-'] + "70";
    assert "0-70/100" == "0-70" + ['/'] + "100";
    assert IsValue(Minute, "0", 0) && IsRangeEnd(Minute, "70", 70);
    assert SpellsRange(Minute, "0-70", 0, 70);
  }

  /** Only the set of items of a list matters: order and repetition do not. */
  lemma BitsOfItems(t: FieldType, a: seq<Item>, b: seq<Item>)
    requires forall x :: x in a <==> x in b
    ensures Bits(t, a) == Bits(t, b)
  {
    forall v ensures Names(t, a, v) <==> Names(t, b, v) {
      if i :| 0 <= i < |a| && Covers(t, a[i], v) {
        assert a[i] in b;
      }
      if i :| 0 <= i < |b| && Covers(t, b[i], v) {
        assert b[i] in a;
      }
    }
  }
}
