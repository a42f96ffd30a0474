/**
 What src/cron_parser.c computes, as functions, and the proof that it is the grammar of
 CronExpr: the same texts are accepted, and an accepted text gets the meaning of its spelling.
 */
module CronParser {
  import opened Options
  import opened Text
  import opened CronExpr

  // ---- One item ----

  function LookupName(table: seq<CronName>, token: string): Option<int> {
    if |table| == 0 then None
    else if SameFolded(table[0].name, token) then Some(table[0].value)
    else LookupName(table[1..], token)
  }

  /** `parse_field_value` */
  function FieldValue(t: FieldType, token: string): Option<int> {
    match IntegerOf(token)
    case Some(v) => Some(v)
    case None => LookupName(NameTable(t), token)
  }

  /** `parse_range` */
  function RangeOf(t: FieldType, text: string): Option<(int, int)> {
    if HasEmptyPart(text, '-') then None
    else
      var parts := Split(text, '-');
      if |parts| != 2 then None
      else
        match FieldValue(t, parts[0])
        case None => None
        case Some(first) =>
          if t.Dom? && parts[1] == "$" then Some((first, 31))
          else
            match FieldValue(t, parts[1])
            case None => None
            case Some(last) => Some((first, last))
  }

  function FieldName(t: FieldType): string {
    match t
    case Minute => "minute"
    case Hour => "hour"
    case Dom => "day-of-month"
    case Month => "month"
    case Dow => "day-of-week"
  }

  function BoundsText(t: FieldType): string {
    match t
    case Minute => "0-59"
    case Hour => "0-23"
    case Dom => "1-31"
    case Month => "1-12"
    case Dow => "0-7"
  }

  function ReadStep(t: FieldType, text: string): Result<Item, string> {
    if HasEmptyPart(text, '/') then Err("invalid step syntax")
    else
      var parts := Split(text, '/');
      if |parts| != 2 then Err("invalid step syntax")
      else
        var step := IntegerOf(parts[1]);
        if step.None? || step.value <= 0 then Err("step must be a positive integer")
        else if parts[0] == "*" || (t.Dom? && parts[0] == "$") then Ok(Span(MinValue(t), MaxValue(t), step.value))
        else if '-' in parts[0] then
          match RangeOf(t, parts[0])
          case None => Err("invalid " + FieldName(t) + " range")
          case Some(r) => Ok(Span(r.0, r.1, step.value))
        else Err("invalid step base for " + FieldName(t))
  }

  /** The syntax half of `parse_field_item`. */
  function ReadItem(t: FieldType, text: string): Result<Item, string> {
    if text == "" then Err("empty " + FieldName(t) + " value")
    else if text == "$" then
      if t.Dom? then Ok(Last) else Err("$ is only allowed in day-of-month")
    else if text == "*" then Ok(Star)
    else if '/' in text then ReadStep(t, text)
    else if '-' in text then
      match RangeOf(t, text)
      case None => Err("invalid " + FieldName(t) + " range")
      case Some(r) => Ok(Span(r.0, r.1, 1))
    else
      match FieldValue(t, text)
      case None => Err("invalid " + FieldName(t) + " value")
      case Some(v) => Ok(Single(v))
  }

  /** The walk of `set_field_range` from `value` on: does it stay in bounds up to `last`? */
  predicate WalkInBounds(t: FieldType, value: int, last: int, step: int)
    requires step > 0
    decreases last - value
  {
    value > last || (InBounds(t, value) && WalkInBounds(t, value + step, last, step))
  }

  /** The value half of `parse_field_item`: the message of the first value that cannot be set. */
  function ItemFault(t: FieldType, item: Item): Option<string> {
    match item
    case Star => None
    case Last => None
    case Single(v) => if InBounds(t, v) then None else Some(FieldName(t) + " must be " + BoundsText(t))
    case Span(first, last, step) =>
      if step <= 0 then Some("step must be greater than 0")
      else if first > last then Some("range start must be less than or equal to range end")
      else if WalkInBounds(t, first, last, step) then None
      else Some(FieldName(t) + " must be " + BoundsText(t))
  }

  function ParseItem(t: FieldType, text: string): Result<Item, string> {
    var item :- ReadItem(t, text);
    match ItemFault(t, item)
    case None => Ok(item)
    case Some(m) => Err(m)
  }

  // ---- Lists, fields, texts ----

  /** `CronParseError`: field and item are counted from 1, 0 when none is to blame. */
  datatype ParseError = ParseError(fieldIndex: int, tokenIndex: int, token: string, message: string)

  function ParseItems(t: FieldType, field: int, parts: seq<string>): Result<seq<Item>, ParseError> {
    if parts == [] then Ok([])
    else
      var n := |parts| - 1;
      var items :- ParseItems(t, field, parts[..n]);
      match ParseItem(t, parts[n])
      case Ok(item) => Ok(items + [item])
      case Err(m) => Err(ParseError(field, n + 1, parts[n], m))
  }

  function ParseField(t: FieldType, field: int, text: string): Result<seq<Item>, ParseError> {
    if HasEmptyPart(text, ',') then Err(ParseError(field, 0, text, "invalid list syntax"))
    else ParseItems(t, field, Split(text, ','))
  }

  function ParseFields(fields: seq<string>): Result<Expr, ParseError>
    requires |fields| == 5
  {
    var minute :- ParseField(Minute, 1, fields[0]);
    var hour :- ParseField(Hour, 2, fields[1]);
    var dom :- ParseField(Dom, 3, fields[2]);
    var month :- ParseField(Month, 4, fields[3]);
    var dow :- ParseField(Dow, 5, fields[4]);
    Ok(Cron(minute, hour, dom, month, dow))
  }

  /** `parse_with_error`, up to the stored form. */
  function ParseExpr(text: string): Result<Expr, ParseError> {
    if text == "" then Err(ParseError(0, 0, "", "schedule is empty"))
    else
      var fields := Split(text, ' ');
      if |fields| == 2 && SameFolded(fields[1], "seconds") then
        var n := IntegerOf(fields[0]);
        if n.None? || n.value < 1 || n.value > 59
        then Err(ParseError(1, 1, fields[0], "seconds interval must be 1-59"))
        else Ok(Seconds(n.value))
      else if |fields| != 5 then Err(ParseError(0, 0, "", "expected 5 cron fields or \"N seconds\""))
      else ParseFields(fields)
  }

  ghost function Parse(text: string): Result<Schedule, ParseError> {
    var e :- ParseExpr(text);
    Ok(Meaning(e))
  }

  // ---- Values ----

  predicate Plain(text: string) {
    text != "" && forall i :: 0 <= i < |text| ==> IsDigit(text[i]) || IsLetter(text[i])
  }

  lemma PlainHasNoDelimiter(text: string)
    requires Plain(text)
    ensures '*' !in text && '$' !in text && '/' !in text && '-' !in text && ',' !in text && ' ' !in text
  {
  }

  lemma {:induction false} LookupNameFinds(table: seq<CronName>, token: string)
    ensures LookupName(table, token).Some? ==>
              exists n :: n in table && SameFolded(n.name, token) && n.value == LookupName(table, token).value
    ensures LookupName(table, token).None? ==> forall n :: n in table ==> !SameFolded(n.name, token)
  {
    if |table| > 0 {
      LookupNameFinds(table[1..], token);
      assert table == [table[0]] + table[1..];
    }
  }

  predicate IsUpper(c: char) { 'A' <= c <= 'Z' }

  predicate Capitals(s: string) { |s| == 3 && IsUpper(s[0]) && IsUpper(s[1]) && IsUpper(s[2]) }

  lemma NamesAreCapitals(t: FieldType, n: CronName)
    requires n in NameTable(t)
    ensures Capitals(n.name)
  {
    var i :| 0 <= i < |NameTable(t)| && NameTable(t)[i] == n;
    if t.Month? {
      MonthIsCapitals(i);
    } else if t.Dow? {
      DayIsCapitals(i);
    }
  }

  lemma MonthIsCapitals(i: nat)
    requires i < 12
    ensures Capitals(NameTable(Month)[i].name)
  {
    if i < 4 {
    } else if i < 8 {
    } else {
    }
  }

  lemma DayIsCapitals(i: nat)
    requires i < 7
    ensures Capitals(NameTable(Dow)[i].name)
  {
  }

  /** The value of a table name, read off its letters. */
  function ValueOf(t: FieldType, a: char, b: char, c: char): int {
    if t.Dow? then
      if a == 'S' then (if b == 'U' then 0 else 6)
      else if a == 'M' then 1
      else if a == 'T' then (if b == 'U' then 2 else 4)
      else if a == 'W' then 3 else 5
    else
      if a == 'J' then (if b == 'A' then 1 else if c == 'N' then 6 else 7)
      else if a == 'F' then 2
      else if a == 'M' then (if c == 'R' then 3 else 5)
      else if a == 'A' then (if b == 'P' then 4 else 8)
      else if a == 'S' then 9
      else if a == 'O' then 10
      else if a == 'N' then 11 else 12
  }

  lemma NamesHaveValues(t: FieldType, n: CronName)
    requires n in NameTable(t)
    ensures |n.name| == 3 && n.value == ValueOf(t, n.name[0], n.name[1], n.name[2])
  {
    var i :| 0 <= i < |NameTable(t)| && NameTable(t)[i] == n;
    if t.Month? {
      MonthHasValue(i);
    }
  }

  lemma MonthHasValue(i: nat)
    requires i < 12
    ensures var n := NameTable(Month)[i];
            |n.name| == 3 && n.value == ValueOf(Month, n.name[0], n.name[1], n.name[2])
  {
    if i < 4 {
    } else if i < 8 {
    } else {
    }
  }

  lemma CapitalsFold(x: string, y: string, token: string)
    requires Capitals(x) && Capitals(y) && SameFolded(x, token) && SameFolded(y, token)
    ensures x == y
  {
    assert forall i :: 0 <= i < 3 ==> Lower(x[i]) == Lower(token[i]) && Lower(y[i]) == Lower(token[i]);
  }

  /** Names of a table that fold to the same text have the same value. */
  lemma NamesDiffer(t: FieldType, a: CronName, b: CronName, token: string)
    requires a in NameTable(t) && b in NameTable(t)
    requires SameFolded(a.name, token) && SameFolded(b.name, token)
    ensures a.value == b.value
  {
    NamesAreCapitals(t, a);
    NamesAreCapitals(t, b);
    CapitalsFold(a.name, b.name, token);
    NamesHaveValues(t, a);
    NamesHaveValues(t, b);
  }

  lemma NameIsPlain(t: FieldType, token: string, v: int)
    requires IsName(t, token, v)
    ensures Plain(token) && IntegerOf(token).None?
  {
    var n :| n in NameTable(t) && SameFolded(n.name, token) && n.value == v;
    NamesAreCapitals(t, n);
    CapitalsAreLetters(n.name, token);
  }

  lemma CapitalsAreLetters(x: string, token: string)
    requires Capitals(x) && SameFolded(x, token)
    ensures Plain(token) && IntegerOf(token).None?
  {
    assert forall i :: 0 <= i < 3 ==> Lower(x[i]) == Lower(token[i]) && IsLetter(token[i]);
    assert !IsDigit(token[0]);
  }

  /** `parse_field_value` returns the one value its token spells, if there is one. */
  lemma FieldValueReads(t: FieldType, token: string, v: int)
    ensures FieldValue(t, token) == Some(v) <==> IsValue(t, token, v)
    ensures IsValue(t, token, v) ==> Plain(token)
  {
    LookupNameFinds(NameTable(t), token);
    if IsName(t, token, v) {
      NameIsPlain(t, token, v);
      var n :| n in NameTable(t) && SameFolded(n.name, token) && n.value == v;
      var r := LookupName(NameTable(t), token);
      var m :| m in NameTable(t) && SameFolded(m.name, token) && m.value == r.value;
      NamesDiffer(t, n, m, token);
    }
  }

  // ---- Ranges and steps ----

  lemma SplitInTwo(x: string, y: string, d: char)
    requires d !in x && d !in y
    ensures Split(x + [d] + y, d) == [x, y]
    ensures x != "" && y != "" ==> !HasEmptyPart(x + [d] + y, d)
  {
    SplitFirst(x, y, d);
    SplitWhole(y, d);
    EmptyPartExists(x + [d] + y, d);
  }

  lemma TwoParts(text: string, d: char)
    requires |Split(text, d)| == 2
    ensures var parts := Split(text, d); text == parts[0] + [d] + parts[1] && d !in parts[0] && d !in parts[1]
  {
    JoinSplit(text, d);
    var parts := Split(text, d);
    assert Join(parts[1..], d) == parts[1];
  }

  lemma RangeEndReads(t: FieldType, y: string, v: int)
    requires IsRangeEnd(t, y, v)
    ensures y != "" && '-' !in y && '/' !in y && ',' !in y && ' ' !in y
  {
    FieldValueReads(t, y, v);
    if Plain(y) {
      PlainHasNoDelimiter(y);
    }
  }

  lemma RangeReads(t: FieldType, text: string, first: int, last: int)
    ensures RangeOf(t, text) == Some((first, last)) <==> SpellsRange(t, text, first, last)
  {
    if SpellsRange(t, text, first, last) {
      var x, y :| text == x + ['-'] + y && IsValue(t, x, first) && IsRangeEnd(t, y, last);
      FieldValueReads(t, x, first);
      PlainHasNoDelimiter(x);
      RangeEndReads(t, y, last);
      FieldValueReads(t, y, last);
      SplitInTwo(x, y, '-');
    }
    if RangeOf(t, text) == Some((first, last)) {
      TwoParts(text, '-');
      var parts := Split(text, '-');
      FieldValueReads(t, parts[0], first);
      FieldValueReads(t, parts[1], last);
      assert text == parts[0] + ['-'] + parts[1] && IsValue(t, parts[0], first) && IsRangeEnd(t, parts[1], last);
    }
  }

  /** The characters a spelled range is made of. */
  lemma RangeShape(t: FieldType, text: string, first: int, last: int)
    requires SpellsRange(t, text, first, last)
    ensures '-' in text && text != "*" && text != "$" && text != ""
    ensures '/' !in text && ',' !in text && ' ' !in text
  {
    var x, y :| text == x + ['-'] + y && IsValue(t, x, first) && IsRangeEnd(t, y, last);
    FieldValueReads(t, x, first);
    PlainHasNoDelimiter(x);
    RangeEndReads(t, y, last);
    assert text[|x|] == '-';
  }

  lemma StepShape(t: FieldType, x: string, y: string, first: int, last: int, step: int)
    requires SpellsStepBase(t, x, first, last) && IsNumber(y, step)
    ensures x != "" && '/' !in x && ',' !in x && ' ' !in x
    ensures y != "" && '/' !in y && ',' !in y && ' ' !in y
  {
    if SpellsRange(t, x, first, last) {
      RangeShape(t, x, first, last);
    }
    assert Plain(y);
    PlainHasNoDelimiter(y);
  }

  lemma StepReads(t: FieldType, text: string, first: int, last: int, step: int)
    ensures ReadStep(t, text) == Ok(Span(first, last, step)) <==> SpellsStepped(t, text, first, last, step)
    ensures ReadStep(t, text).Ok? ==> ReadStep(t, text).value.Span?
  {
    if SpellsStepped(t, text, first, last, step) {
      var x, y :| text == x + ['/'] + y && SpellsStepBase(t, x, first, last) && IsNumber(y, step) && step > 0;
      StepShape(t, x, y, first, last, step);
      SplitInTwo(x, y, '/');
      RangeReads(t, x, first, last);
      if SpellsRange(t, x, first, last) {
        RangeShape(t, x, first, last);
      }
    }
    if ReadStep(t, text) == Ok(Span(first, last, step)) {
      TwoParts(text, '/');
      var parts := Split(text, '/');
      RangeReads(t, parts[0], first, last);
      assert SpellsStepBase(t, parts[0], first, last);
      assert text == parts[0] + ['/'] + parts[1] && IsNumber(parts[1], step);
    }
  }

  // ---- Items ----

  /** What a spelled item is made of; in particular it is not empty and holds no list or field delimiter. */
  lemma ItemShape(t: FieldType, text: string, item: Item)
    requires Spells(t, text, item)
    ensures text != "" && ',' !in text && ' ' !in text
    ensures item.Single? ==> Plain(text)
    ensures item.Span? ==> text != "*" && text != "$" &&
                           ('/' in text <==> SpellsStepped(t, text, item.first, item.last, item.step))
  {
    match item
    case Star =>
    case Last =>
    case Single(v) =>
      FieldValueReads(t, text, v);
      PlainHasNoDelimiter(text);
    case Span(first, last, step) =>
      if SpellsStepped(t, text, first, last, step) {
        var x, y :| text == x + ['/'] + y && SpellsStepBase(t, x, first, last) && IsNumber(y, step) && step > 0;
        StepShape(t, x, y, first, last, step);
        assert text[|x|] == '/';
      } else {
        RangeShape(t, text, first, last);
      }
  }

  /** The syntax of `parse_field_item` is the grammar: each text spells at most one item, and that is read. */
  lemma ItemReads(t: FieldType, text: string, item: Item)
    ensures ReadItem(t, text) == Ok(item) <==> Spells(t, text, item)
  {
    if Spells(t, text, item) {
      ItemShape(t, text, item);
      match item
      case Star =>
      case Last =>
      case Single(v) =>
        PlainHasNoDelimiter(text);
        FieldValueReads(t, text, v);
      case Span(first, last, step) =>
        StepReads(t, text, first, last, step);
        if !SpellsStepped(t, text, first, last, step) {
          RangeShape(t, text, first, last);
          RangeReads(t, text, first, last);
        }
    }
    if ReadItem(t, text) == Ok(item) {
      match item
      case Star =>
      case Last =>
      case Single(v) =>
        FieldValueReads(t, text, v);
      case Span(first, last, step) =>
        StepReads(t, text, first, last, step);
        RangeReads(t, text, first, last);
    }
  }

  lemma WalkVisits(t: FieldType, value: int, last: int, step: int)
    requires step > 0
    ensures WalkInBounds(t, value, last, step) <==>
            forall v :: Visits(value, last, step, v) ==> InBounds(t, v)
    decreases last - value
  {
    if value <= last {
      WalkVisits(t, value + step, last, step);
      VisitsNext(value, last, step);
    }
  }

  lemma VisitsNext(value: int, last: int, step: int)
    requires step > 0 && value <= last
    ensures forall v :: Visits(value, last, step, v) <==> v == value || Visits(value + step, last, step, v)
  {
    forall v ensures Visits(value, last, step, v) <==> v == value || Visits(value + step, last, step, v) {
      StepBack(v - value, step);
    }
  }

  lemma StepBack(d: int, step: int)
    requires step > 0
    ensures (d - step) % step == d % step
    ensures 0 <= d < step && d % step == 0 ==> d == 0
  {
    assert d - step == (d / step - 1) * step + d % step;
    if d - step != 0 {
      ModUnique(d - step, step, d / step - 1, d % step);
    }
  }

  lemma ModUnique(n: int, d: int, q: int, r: int)
    requires d > 0 && n == q * d + r && 0 <= r < d
    ensures n % d == r
  {
    var q', r' := n / d, n % d;
    assert (q - q') * d == r' - r;
    if q != q' {
      MultipleAtLeast(q - q', d);
    }
  }

  lemma MultipleAtLeast(k: int, d: int)
    requires d > 0 && k != 0
    ensures k * d >= d || k * d <= -d
  {
    if k >= 1 {
      assert (k - 1) * d >= 0;
    } else {
      assert (-k - 1) * d >= 0;
    }
  }

  /** An item is accepted exactly when its values can all be set. */
  lemma FaultlessIsLegal(t: FieldType, text: string, item: Item)
    requires Spells(t, text, item)
    ensures ItemFault(t, item).None? <==> LegalItem(t, item)
  {
    if item.Span? && item.step > 0 {
      WalkVisits(t, item.first, item.last, item.step);
    }
  }

  /** Item by item, `parse_field_item` accepts exactly the legal spellings. */
  lemma ItemParses(t: FieldType, text: string, item: Item)
    ensures ParseItem(t, text) == Ok(item) <==> Spells(t, text, item) && LegalItem(t, item)
  {
    ItemReads(t, text, item);
    if ReadItem(t, text) == Ok(item) {
      FaultlessIsLegal(t, text, item);
    }
  }

  lemma StepErrorHasText(t: FieldType, text: string)
    ensures ReadStep(t, text).Err? ==> ReadStep(t, text).error != ""
  {
  }

  lemma ReadErrorHasText(t: FieldType, text: string)
    ensures ReadItem(t, text).Err? ==> ReadItem(t, text).error != ""
  {
    StepErrorHasText(t, text);
  }

  lemma FaultHasText(t: FieldType, item: Item)
    ensures ItemFault(t, item).Some? ==> ItemFault(t, item).value != ""
  {
  }

  lemma ItemErrorHasText(t: FieldType, text: string)
    ensures ParseItem(t, text).Err? ==> ParseItem(t, text).error != ""
  {
    ReadErrorHasText(t, text);
    if ReadItem(t, text).Ok? {
      FaultHasText(t, ReadItem(t, text).value);
    }
  }

  // ---- Lists ----

  ghost predicate GoodPart(t: FieldType, part: string, item: Item) {
    Spells(t, part, item) && LegalItem(t, item)
  }

  ghost predicate GoodParts(t: FieldType, parts: seq<string>, items: seq<Item>) {
    |parts| == |items| && forall i :: 0 <= i < |parts| ==> GoodPart(t, parts[i], items[i])
  }

  lemma LastGoodPart(t: FieldType, parts: seq<string>, items: seq<Item>)
    requires |parts| == |items| > 0
    ensures var n := |parts| - 1;
            GoodParts(t, parts, items) <==> GoodParts(t, parts[..n], items[..n]) && GoodPart(t, parts[n], items[n])
  {
    var n := |parts| - 1;
    if GoodParts(t, parts[..n], items[..n]) && GoodPart(t, parts[n], items[n]) {
      forall i | 0 <= i < |parts| ensures GoodPart(t, parts[i], items[i]) {
        assert i < n ==> GoodPart(t, parts[..n][i], items[..n][i]);
      }
    }
  }

  lemma ParseItemsLast(t: FieldType, field: int, parts: seq<string>, items: seq<Item>)
    requires |parts| > 0
    ensures var n := |parts| - 1;
            ParseItems(t, field, parts) == Ok(items) <==>
              |items| > 0 && ParseItems(t, field, parts[..n]) == Ok(items[..|items| - 1]) &&
              ParseItem(t, parts[n]) == Ok(items[|items| - 1])
  {
    var n := |parts| - 1;
    var init, last := ParseItems(t, field, parts[..n]), ParseItem(t, parts[n]);
    if init.Ok? && last.Ok? {
      assert ParseItems(t, field, parts) == Ok(init.value + [last.value]);
      LastOfAppend(items, init.value, last.value);
    }
  }

  lemma LastOfAppend<T>(all: seq<T>, init: seq<T>, last: T)
    ensures all == init + [last] <==> |all| > 0 && all[..|all| - 1] == init && all[|all| - 1] == last
  {
    if |all| > 0 {
      assert all == all[..|all| - 1] + [all[|all| - 1]];
    }
  }

  lemma {:induction false} ParsedLength(t: FieldType, field: int, parts: seq<string>)
    ensures ParseItems(t, field, parts).Ok? ==> |ParseItems(t, field, parts).value| == |parts|
  {
    if parts != [] {
      ParsedLength(t, field, parts[..|parts| - 1]);
    }
  }

  lemma {:induction false} ItemsParse(t: FieldType, field: int, parts: seq<string>, items: seq<Item>)
    ensures ParseItems(t, field, parts) == Ok(items) <==> GoodParts(t, parts, items)
  {
    ParsedLength(t, field, parts);
    if parts != [] && |parts| == |items| {
      var n := |parts| - 1;
      ParseItemsLast(t, field, parts, items);
      ItemsParse(t, field, parts[..n], items[..n]);
      ItemParses(t, parts[n], items[n]);
      LastGoodPart(t, parts, items);
    }
  }

  /** `parse_cron_field` accepts exactly the comma lists of legal items. */
  lemma FieldParses(t: FieldType, field: int, text: string, items: seq<Item>)
    ensures ParseField(t, field, text) == Ok(items) <==> SpellsField(t, text, items) && LegalItems(t, items)
  {
    EmptyPartExists(text, ',');
    JoinSplit(text, ',');
    var split := Split(text, ',');
    ItemsParse(t, field, split, items);
    if SpellsField(t, text, items) {
      SpelledSplit(t, text, items);
    }
    if GoodParts(t, split, items) {
      assert forall i :: 0 <= i < |split| ==> GoodPart(t, split[i], items[i]);
      assert SpellsParts(t, split, items);
    }
  }

  lemma SpelledSplit(t: FieldType, text: string, items: seq<Item>)
    requires SpellsField(t, text, items)
    ensures SpellsParts(t, Split(text, ','), items) && "" !in Split(text, ',')
    ensures LegalItems(t, items) ==> GoodParts(t, Split(text, ','), items)
  {
    var parts :| |parts| >= 1 && text == Join(parts, ',') && SpellsParts(t, parts, items);
    forall i | 0 <= i < |parts| ensures ',' !in parts[i] && parts[i] != "" {
      ItemShape(t, parts[i], items[i]);
    }
    SplitJoin(parts, ',');
  }

  lemma {:induction false} JoinAvoids(parts: seq<string>, d: char, c: char)
    requires |parts| >= 1 && c != d
    requires forall i :: 0 <= i < |parts| ==> c !in parts[i]
    ensures c !in Join(parts, d)
  {
    if |parts| > 1 {
      JoinAvoids(parts[1..], d, c);
    }
  }

  lemma FieldShape(t: FieldType, text: string, items: seq<Item>)
    requires SpellsField(t, text, items)
    ensures ' ' !in text
  {
    var parts :| |parts| >= 1 && text == Join(parts, ',') && SpellsParts(t, parts, items);
    forall i | 0 <= i < |parts| ensures ' ' !in parts[i] {
      ItemShape(t, parts[i], items[i]);
    }
    JoinAvoids(parts, ',', ' ');
  }

  ghost predicate GoodField(fields: seq<string>, e: Expr, i: int)
    requires |fields| == 5 && e.Cron? && 0 <= i < 5
  {
    var t := FIELD_TYPES[i];
    SpellsField(t, fields[i], FieldOf(e, t)) && LegalItems(t, FieldOf(e, t))
  }

  lemma GoodFieldsLegal(fields: seq<string>, e: Expr)
    requires |fields| == 5 && e.Cron? && forall i :: 0 <= i < 5 ==> GoodField(fields, e, i)
    ensures SpellsFields(fields, e) && Legal(e)
  {
    forall t: FieldType ensures LegalItems(t, FieldOf(e, t)) {
      assert GoodField(fields, e, TypeIndex(t));
    }
    forall i | 0 <= i < 5 ensures SpellsField(FIELD_TYPES[i], fields[i], FieldOf(e, FIELD_TYPES[i])) {
      assert GoodField(fields, e, i);
    }
  }

  lemma LegalFieldsGood(fields: seq<string>, e: Expr, i: int)
    requires |fields| == 5 && SpellsFields(fields, e) && Legal(e) && 0 <= i < 5
    ensures GoodField(fields, e, i)
  {
    assert LegalItems(FIELD_TYPES[i], FieldOf(e, FIELD_TYPES[i]));
  }

  lemma FieldIsGood(fields: seq<string>, e: Expr, i: int)
    requires |fields| == 5 && e.Cron? && 0 <= i < 5
    ensures ParseFieldAt(fields, i) == Ok(FieldOf(e, FIELD_TYPES[i])) <==> GoodField(fields, e, i)
  {
    FieldParses(FIELD_TYPES[i], i + 1, fields[i], FieldOf(e, FIELD_TYPES[i]));
  }

  lemma ParsedFields(fields: seq<string>, e: Expr)
    requires |fields| == 5 && ParseFields(fields) == Ok(e)
    ensures SpellsFields(fields, e) && Legal(e)
  {
    FieldsCorrespond(fields, e);
    forall i | 0 <= i < 5 ensures GoodField(fields, e, i) {
      FieldIsGood(fields, e, i);
    }
    GoodFieldsLegal(fields, e);
  }

  lemma LegalFieldsParse(fields: seq<string>, e: Expr)
    requires |fields| == 5 && SpellsFields(fields, e) && Legal(e)
    ensures ParseFields(fields) == Ok(e)
  {
    forall i | 0 <= i < 5
      ensures ParseFieldAt(fields, i) == Ok(FieldOf(e, FIELD_TYPES[i]))
    {
      LegalFieldsGood(fields, e, i);
      FieldIsGood(fields, e, i);
    }
    FieldsCorrespond(fields, e);
  }

  function ParseFieldAt(fields: seq<string>, i: int): Result<seq<Item>, ParseError>
    requires |fields| == 5 && 0 <= i < 5
  {
    ParseField(FIELD_TYPES[i], i + 1, fields[i])
  }

  lemma FieldsInOrder(fields: seq<string>)
    requires |fields| == 5
    ensures ParseFieldAt(fields, 0) == ParseField(Minute, 1, fields[0])
    ensures ParseFieldAt(fields, 1) == ParseField(Hour, 2, fields[1])
    ensures ParseFieldAt(fields, 2) == ParseField(Dom, 3, fields[2])
    ensures ParseFieldAt(fields, 3) == ParseField(Month, 4, fields[3])
    ensures ParseFieldAt(fields, 4) == ParseField(Dow, 5, fields[4])
  {
  }

  lemma FieldsCorrespond(fields: seq<string>, e: Expr)
    requires |fields| == 5 && e.Cron?
    ensures ParseFields(fields) == Ok(e)
      <==> forall i :: 0 <= i < 5 ==> ParseFieldAt(fields, i) == Ok(FieldOf(e, FIELD_TYPES[i]))
  {
    FieldsInOrder(fields);
    assert FIELD_TYPES[0] == Minute && FIELD_TYPES[1] == Hour && FIELD_TYPES[2] == Dom;
    assert FIELD_TYPES[3] == Month && FIELD_TYPES[4] == Dow;
  }

  // ---- Texts ----

  lemma FieldsHoldNoSpace(fields: seq<string>, e: Expr)
    requires |fields| == 5 && SpellsFields(fields, e)
    ensures forall i :: 0 <= i < |fields| ==> ' ' !in fields[i]
  {
    forall i | 0 <= i < 5 ensures ' ' !in fields[i] {
      FieldShape(FIELD_TYPES[i], fields[i], FieldOf(e, FIELD_TYPES[i]));
    }
  }

  lemma SecondsSplit(text: string, n: int)
    requires Spelled(text, Seconds(n))
    ensures |Split(text, ' ')| == 2 && SameFolded(Split(text, ' ')[1], "seconds") && IsNumber(Split(text, ' ')[0], n)
  {
    var x, y :| text == x + [' '] + y && IsNumber(x, n) && SameFolded(y, "seconds");
    assert Plain(x);
    PlainHasNoDelimiter(x);
    SecondsWord(y);
    SplitInTwo(x, y, ' ');
  }

  lemma SecondsWord(y: string)
    requires SameFolded(y, "seconds")
    ensures ' ' !in y
  {
    var w := "seconds";
    assert forall i :: 0 <= i < 7 ==> IsLetter(w[i]);
    assert forall i :: 0 <= i < |y| ==> Lower(y[i]) == Lower(w[i]);
  }

  /**
   Parser correctness. A text is accepted exactly when it spells a legal expression, and the
   expression read is the one spelled; so no accepted text is ambiguous.
   */
  lemma ParserCorrect(text: string, e: Expr)
    ensures ParseExpr(text) == Ok(e) <==> Spelled(text, e) && Legal(e)
  {
    var split := Split(text, ' ');
    JoinSplit(text, ' ');
    if Spelled(text, e) && Legal(e) {
      match e
      case Cron(_, _, _, _, _) =>
        var fields :| |fields| == 5 && text == Join(fields, ' ') && SpellsFields(fields, e);
        FieldsHoldNoSpace(fields, e);
        SplitJoin(fields, ' ');
        LegalFieldsParse(fields, e);
      case Seconds(n) =>
        SecondsSplit(text, n);
    }
    if ParseExpr(text) == Ok(e) {
      if |split| == 5 {
        ParsedFields(split, e);
      } else {
        TwoParts(text, ' ');
        assert text == split[0] + [' '] + split[1];
      }
    }
  }

  /** The stored form of an accepted text: exactly the bits and flags its spelling means. */
  lemma ParsedMeaning(text: string, e: Expr)
    requires Spelled(text, e) && Legal(e)
    ensures Parse(text) == Ok(Meaning(e))
  {
    ParserCorrect(text, e);
  }

  lemma RejectedExactly(text: string)
    ensures Parse(text).Err? <==> forall e :: Legal(e) ==> !Spelled(text, e)
  {
    forall e | Legal(e) && Spelled(text, e) ensures Parse(text).Ok? {
      ParserCorrect(text, e);
    }
    if ParseExpr(text).Ok? {
      ParserCorrect(text, ParseExpr(text).value);
    }
  }

  lemma LegalMeaningNotEmpty(e: Expr)
    requires Legal(e) && e.Cron?
    ensures var s := Meaning(e);
            s.minute != {} && s.hour != {} && s.month != {} && s.dow != {} && (s.dom != {} || s.lastDom)
  {
    assert forall t: FieldType :: LegalItems(t, FieldOf(e, t));
    FieldNotEmpty(Minute, FieldOf(e, Minute));
    FieldNotEmpty(Hour, FieldOf(e, Hour));
    FieldNotEmpty(Dom, FieldOf(e, Dom));
    FieldNotEmpty(Month, FieldOf(e, Month));
    FieldNotEmpty(Dow, FieldOf(e, Dow));
  }

  /** Every field of a stored schedule sets a bit, except a day-of-month made of `$` alone. */
  lemma StoredFieldsNotEmpty(text: string)
    requires Parse(text).Ok? && !Parse(text).value.seconds
    ensures var s := Parse(text).value;
            s.minute != {} && s.hour != {} && s.month != {} && s.dow != {} && (s.dom != {} || s.lastDom)
  {
    var e := ParseExpr(text).value;
    ParserCorrect(text, e);
    LegalMeaningNotEmpty(e);
  }

  lemma SameMeaning(e1: Expr, e2: Expr)
    requires Legal(e1) && e1.Cron? && e2.Cron?
    requires forall t: FieldType, x :: x in FieldOf(e1, t) <==> x in FieldOf(e2, t)
    ensures Legal(e2) && Meaning(e2) == Meaning(e1)
  {
    forall t: FieldType ensures LegalItems(t, FieldOf(e2, t)) && Bits(t, FieldOf(e2, t)) == Bits(t, FieldOf(e1, t)) {
      SameItems(e1, e2, t);
    }
    SameItems(e1, e2, Minute);
    SameItems(e1, e2, Hour);
    SameItems(e1, e2, Dom);
    SameItems(e1, e2, Month);
    SameItems(e1, e2, Dow);
  }

  /** Reordering or repeating items of accepted lists leaves the stored schedule the same. */
  lemma ListsAreOrderFree(text1: string, text2: string, e1: Expr, e2: Expr)
    requires Spelled(text1, e1) && Spelled(text2, e2) && Legal(e1) && e1.Cron? && e2.Cron?
    requires forall t: FieldType, x :: x in FieldOf(e1, t) <==> x in FieldOf(e2, t)
    ensures Parse(text1).Ok? && Parse(text1) == Parse(text2)
  {
    SameMeaning(e1, e2);
    ParsedMeaning(text1, e1);
    ParsedMeaning(text2, e2);
  }

  lemma SameItems(e1: Expr, e2: Expr, t: FieldType)
    requires e1.Cron? && e2.Cron? && LegalItems(t, FieldOf(e1, t))
    requires forall x :: x in FieldOf(e1, t) <==> x in FieldOf(e2, t)
    ensures LegalItems(t, FieldOf(e2, t)) && Bits(t, FieldOf(e2, t)) == Bits(t, FieldOf(e1, t))
    ensures (Star in FieldOf(e1, t)) == (Star in FieldOf(e2, t))
    ensures (Last in FieldOf(e1, t)) == (Last in FieldOf(e2, t))
  {
    BitsOfItems(t, FieldOf(e1, t), FieldOf(e2, t));
    OrderFreeLegal(t, FieldOf(e1, t), FieldOf(e2, t));
  }

  lemma OrderFreeLegal(t: FieldType, a: seq<Item>, b: seq<Item>)
    requires LegalItems(t, a) && forall x :: x in a <==> x in b
    ensures LegalItems(t, b)
  {
    assert a[0] in b;
    forall i | 0 <= i < |b| ensures LegalItem(t, b[i]) {
      assert b[i] in a;
    }
  }

  // ---- Errors ----

  ghost predicate LegalPart(t: FieldType, part: string) {
    exists item :: Spells(t, part, item) && LegalItem(t, item)
  }

  ghost predicate LegalField(t: FieldType, text: string) {
    exists items :: SpellsField(t, text, items) && LegalItems(t, items)
  }

  lemma PartParses(t: FieldType, part: string)
    ensures ParseItem(t, part).Ok? <==> LegalPart(t, part)
  {
    if item :| Spells(t, part, item) && LegalItem(t, item) {
      ItemParses(t, part, item);
    }
    if ParseItem(t, part).Ok? {
      ItemParses(t, part, ParseItem(t, part).value);
    }
  }

  /** `error` points at the first part that spells no legal item. */
  ghost predicate PointsAt(t: FieldType, parts: seq<string>, error: ParseError) {
    1 <= error.tokenIndex <= |parts| && error.token == parts[error.tokenIndex - 1] &&
    !LegalPart(t, error.token) && error.message != "" &&
    forall i :: 0 <= i < error.tokenIndex - 1 ==> LegalPart(t, parts[i])
  }

  ghost predicate AllLegal(t: FieldType, parts: seq<string>) {
    forall i :: 0 <= i < |parts| ==> LegalPart(t, parts[i])
  }

  lemma {:induction false} FirstBadItem(t: FieldType, field: int, parts: seq<string>)
    ensures match ParseItems(t, field, parts)
            case Err(error) => error.fieldIndex == field && PointsAt(t, parts, error)
            case Ok(_) => AllLegal(t, parts)
  {
    if parts != [] {
      var n := |parts| - 1;
      FirstBadItem(t, field, parts[..n]);
      if ParseItems(t, field, parts[..n]).Err? {
        PointsFurther(t, parts, n, ParseItems(t, field, parts[..n]).error);
      } else {
        LastPart(t, field, parts);
      }
    }
  }

  lemma LastPart(t: FieldType, field: int, parts: seq<string>)
    requires |parts| > 0 && AllLegal(t, parts[..|parts| - 1])
    ensures var part := parts[|parts| - 1];
            match ParseItem(t, part)
            case Err(m) => PointsAt(t, parts, ParseError(field, |parts|, part, m))
            case Ok(_) => AllLegal(t, parts)
  {
    var n := |parts| - 1;
    PartParses(t, parts[n]);
    ItemErrorHasText(t, parts[n]);
    forall i | 0 <= i < n ensures LegalPart(t, parts[i]) {
      assert LegalPart(t, parts[..n][i]);
    }
  }

  lemma PointsFurther(t: FieldType, parts: seq<string>, n: nat, error: ParseError)
    requires n <= |parts| && PointsAt(t, parts[..n], error)
    ensures PointsAt(t, parts, error)
  {
    assert forall i :: 0 <= i < n ==> parts[..n][i] == parts[i];
  }

  /** Where the error of a rejected field points: 0 for list syntax, else the first illegal item. */
  ghost predicate Blames(t: FieldType, text: string, error: ParseError) {
    var parts := Split(text, ',');
    !LegalField(t, text) && error.message != "" &&
    if "" in parts then error.tokenIndex == 0 && error.token == text
    else PointsAt(t, parts, error)
  }

  lemma FieldBlame(t: FieldType, field: int, text: string)
    ensures var r := ParseField(t, field, text);
            if r.Ok? then LegalField(t, text) else r.error.fieldIndex == field && Blames(t, text, r.error)
  {
    EmptyPartExists(text, ',');
    var r := ParseField(t, field, text);
    if r.Ok? {
      FieldParses(t, field, text, r.value);
    } else {
      FirstBadItem(t, field, Split(text, ','));
      if items :| SpellsField(t, text, items) && LegalItems(t, items) {
        FieldParses(t, field, text, items);
      }
    }
  }

  /**
   The error of a rejected five-field text names the first illegal field, counted from 1, and
   inside it the first illegal item, or 0 when the comma list itself is malformed.
   */
  lemma FirstErrorLocated(text: string)
    requires |Split(text, ' ')| == 5 && ParseExpr(text).Err?
    ensures var fields, error := Split(text, ' '), ParseExpr(text).error;
            1 <= error.fieldIndex <= 5 &&
            Blames(FIELD_TYPES[error.fieldIndex - 1], fields[error.fieldIndex - 1], error) &&
            forall i :: 0 <= i < error.fieldIndex - 1 ==> LegalField(FIELD_TYPES[i], fields[i])
  {
    FirstFieldLocated(Split(text, ' '));
  }

  lemma FirstFieldLocated(fields: seq<string>)
    requires |fields| == 5 && ParseFields(fields).Err?
    ensures var error := ParseFields(fields).error;
            1 <= error.fieldIndex <= 5 &&
            Blames(FIELD_TYPES[error.fieldIndex - 1], fields[error.fieldIndex - 1], error) &&
            forall i :: 0 <= i < error.fieldIndex - 1 ==> LegalField(FIELD_TYPES[i], fields[i])
  {
    var error := ParseFields(fields).error;
    FirstFailure(fields);
    FieldAtBlame(fields, error.fieldIndex - 1);
    forall i | 0 <= i < error.fieldIndex - 1 ensures LegalField(FIELD_TYPES[i], fields[i]) {
      FieldAtBlame(fields, i);
    }
  }

  lemma FieldAtBlame(fields: seq<string>, i: int)
    requires |fields| == 5 && 0 <= i < 5
    ensures if ParseFieldAt(fields, i).Ok? then LegalField(FIELD_TYPES[i], fields[i])
            else Blames(FIELD_TYPES[i], fields[i], ParseFieldAt(fields, i).error)
  {
    FieldBlame(FIELD_TYPES[i], i + 1, fields[i]);
  }

  lemma FieldNumber(t: FieldType, field: int, text: string)
    ensures ParseField(t, field, text).Err? ==> ParseField(t, field, text).error.fieldIndex == field
  {
    FieldBlame(t, field, text);
  }

  lemma FirstFailure(fields: seq<string>)
    requires |fields| == 5 && ParseFields(fields).Err?
    ensures var error := ParseFields(fields).error;
            1 <= error.fieldIndex <= 5 && ParseFieldAt(fields, error.fieldIndex - 1) == Err(error) &&
            forall i :: 0 <= i < error.fieldIndex - 1 ==> ParseFieldAt(fields, i).Ok?
  {
    FieldsInOrder(fields);
    FieldNumber(Minute, 1, fields[0]);
    FieldNumber(Hour, 2, fields[1]);
    FieldNumber(Dom, 3, fields[2]);
    FieldNumber(Month, 4, fields[3]);
    FieldNumber(Dow, 5, fields[4]);
  }
}
