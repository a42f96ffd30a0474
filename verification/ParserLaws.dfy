/**
 What a user may rely on when writing a schedule, in terms of the characters typed: letter case
 never matters, the names are these and mean these values, numbers are decimal, and each field
 takes these values. None of it is said in the parser's own terms.
 */
module ParserLaws {
  import opened Options
  import opened Text
  import opened CronExpr
  import opened CronParser
  import opened CronSchedules

  // ---- Letter case ----

  /** Two characters that are equal or the two cases of one ASCII letter, 32 apart. */
  predicate Recase(a: char, b: char) {
    a == b ||
    ('A' <= a <= 'Z' && b as int == a as int + 32) ||
    ('a' <= a <= 'z' && b as int == a as int - 32)
  }

  predicate Recased(a: string, b: string) {
    |a| == |b| && forall i :: 0 <= i < |a| ==> Recase(a[i], b[i])
  }

  predicate NotALetter(c: char) { !('A' <= c <= 'Z') && !('a' <= c <= 'z') }

  lemma RecaseKeeps(a: char, b: char, d: char)
    requires Recase(a, b) && NotALetter(d)
    ensures (a == d <==> b == d) && Lower(a) == Lower(b) && (IsDigit(a) <==> IsDigit(b))
  {
  }

  lemma RecasedTail(a: string, b: string)
    requires Recased(a, b) && a != ""
    ensures Recased(a[1..], b[1..])
  {
  }

  lemma RecasedMember(a: string, b: string, d: char)
    requires Recased(a, b) && NotALetter(d)
    ensures d in a <==> d in b
  {
    if i :| 0 <= i < |a| && a[i] == d {
      RecaseKeeps(a[i], b[i], d);
    }
    if i :| 0 <= i < |b| && b[i] == d {
      RecaseKeeps(a[i], b[i], d);
    }
  }

  /** A text without letters has no other spelling. */
  lemma RecasedIs(a: string, b: string, lit: string)
    requires Recased(a, b) && forall i :: 0 <= i < |lit| ==> NotALetter(lit[i])
    ensures a == lit <==> b == lit
  {
    if |a| == |lit| {
      forall i | 0 <= i < |lit| ensures a[i] == lit[i] <==> b[i] == lit[i] {
        RecaseKeeps(a[i], b[i], lit[i]);
      }
    }
  }

  lemma RecasedFolds(a: string, b: string, name: string)
    requires Recased(a, b)
    ensures SameFolded(name, a) <==> SameFolded(name, b)
    ensures SameFolded(a, name) <==> SameFolded(b, name)
  {
    forall i | 0 <= i < |a| ensures Lower(a[i]) == Lower(b[i]) {
      RecaseKeeps(a[i], b[i], ' ');
    }
  }

  predicate RecasedParts(a: seq<string>, b: seq<string>) {
    |a| == |b| && forall i :: 0 <= i < |a| ==> Recased(a[i], b[i])
  }

  lemma {:induction false} SplitRecased(a: string, b: string, d: char)
    requires Recased(a, b) && NotALetter(d)
    ensures RecasedParts(Split(a, d), Split(b, d))
  {
    if a != "" {
      RecasedTail(a, b);
      SplitRecased(a[1..], b[1..], d);
      RecaseKeeps(a[0], b[0], d);
      PartsGrow(a[0], b[0], Split(a[1..], d), Split(b[1..], d));
    }
  }

  lemma PartsGrow(x: char, y: char, a: seq<string>, b: seq<string>)
    requires Recase(x, y) && RecasedParts(a, b) && |a| > 0
    ensures RecasedParts([""] + a, [""] + b) && RecasedParts([[x] + a[0]] + a[1..], [[y] + b[0]] + b[1..])
  {
    assert Recased([x] + a[0], [y] + b[0]) by {
      assert Recased(a[0], b[0]);
    }
  }

  lemma EmptyPartRecased(a: string, b: string, d: char)
    requires Recased(a, b) && NotALetter(d)
    ensures HasEmptyPart(a, d) <==> HasEmptyPart(b, d)
  {
    SplitRecased(a, b, d);
    EmptyPartExists(a, d);
    EmptyPartExists(b, d);
    EmptyRecased(Split(a, d), Split(b, d));
  }

  lemma EmptyRecased(a: seq<string>, b: seq<string>)
    requires RecasedParts(a, b)
    ensures "" in a <==> "" in b
  {
    if i :| 0 <= i < |a| && a[i] == "" {
      assert b[i] == "";
    }
    if i :| 0 <= i < |b| && b[i] == "" {
      assert a[i] == "";
    }
  }

  lemma IntegerRecased(a: string, b: string)
    requires Recased(a, b)
    ensures IntegerOf(a) == IntegerOf(b)
  {
    forall i | 0 <= i < |a| ensures IsDigit(a[i]) <==> IsDigit(b[i]) {
      RecaseKeeps(a[i], b[i], ' ');
    }
    if AllDigits(a) {
      RecasedIs(a, b, a);
    }
  }

  lemma {:induction false} LookupRecased(table: seq<CronName>, a: string, b: string)
    requires Recased(a, b)
    ensures LookupName(table, a) == LookupName(table, b)
  {
    if table != [] {
      RecasedFolds(a, b, table[0].name);
      LookupRecased(table[1..], a, b);
    }
  }

  lemma ValueRecased(t: FieldType, a: string, b: string)
    requires Recased(a, b)
    ensures FieldValue(t, a) == FieldValue(t, b)
  {
    IntegerRecased(a, b);
    LookupRecased(NameTable(t), a, b);
  }

  lemma RangeRecased(t: FieldType, a: string, b: string)
    requires Recased(a, b)
    ensures RangeOf(t, a) == RangeOf(t, b)
  {
    EmptyPartRecased(a, b, '-');
    SplitRecased(a, b, '-');
    var x, y := Split(a, '-'), Split(b, '-');
    if |x| == 2 {
      ValueRecased(t, x[0], y[0]);
      ValueRecased(t, x[1], y[1]);
      RecasedIs(x[1], y[1], "$");
    }
  }

  /** Both fail, or both give the same value. */
  predicate SameOk<T(==), E>(a: Result<T, E>, b: Result<T, E>) {
    (a.Ok? <==> b.Ok?) && (a.Ok? ==> a.value == b.value)
  }

  lemma StepRecased(t: FieldType, a: string, b: string)
    requires Recased(a, b)
    ensures SameOk(ReadStep(t, a), ReadStep(t, b))
  {
    EmptyPartRecased(a, b, '/');
    SplitRecased(a, b, '/');
    var x, y := Split(a, '/'), Split(b, '/');
    if |x| == 2 {
      IntegerRecased(x[1], y[1]);
      RecasedIs(x[0], y[0], "*");
      RecasedIs(x[0], y[0], "$");
      RecasedMember(x[0], y[0], '-');
      RangeRecased(t, x[0], y[0]);
    }
  }

  lemma ReadRecased(t: FieldType, a: string, b: string)
    requires Recased(a, b)
    ensures SameOk(ReadItem(t, a), ReadItem(t, b))
  {
    RecasedIs(a, b, "");
    RecasedIs(a, b, "$");
    RecasedIs(a, b, "*");
    RecasedMember(a, b, '/');
    RecasedMember(a, b, '-');
    if '/' in a {
      StepRecased(t, a, b);
    } else if '-' in a {
      RangeRecased(t, a, b);
    } else {
      ValueRecased(t, a, b);
    }
  }

  lemma ItemRecased(t: FieldType, a: string, b: string)
    requires Recased(a, b)
    ensures SameOk(ParseItem(t, a), ParseItem(t, b))
  {
    ReadRecased(t, a, b);
  }

  lemma {:induction false} ItemsRecased(t: FieldType, field: int, a: seq<string>, b: seq<string>)
    requires RecasedParts(a, b)
    ensures SameOk(ParseItems(t, field, a), ParseItems(t, field, b))
  {
    if a != [] {
      var n := |a| - 1;
      ItemsRecased(t, field, a[..n], b[..n]);
      ItemRecased(t, a[n], b[n]);
    }
  }

  lemma FieldRecased(t: FieldType, field: int, a: string, b: string)
    requires Recased(a, b)
    ensures SameOk(ParseField(t, field, a), ParseField(t, field, b))
  {
    EmptyPartRecased(a, b, ',');
    SplitRecased(a, b, ',');
    ItemsRecased(t, field, Split(a, ','), Split(b, ','));
  }

  lemma FieldsRecased(a: seq<string>, b: seq<string>)
    requires RecasedParts(a, b) && |a| == 5
    ensures SameOk(ParseFields(a), ParseFields(b))
  {
    FieldRecased(Minute, 1, a[0], b[0]);
    FieldRecased(Hour, 2, a[1], b[1]);
    FieldRecased(Dom, 3, a[2], b[2]);
    FieldRecased(Month, 4, a[3], b[3]);
    FieldRecased(Dow, 5, a[4], b[4]);
  }

  /** Changing the case of any letters of a schedule changes neither whether it is accepted nor what it means. */
  lemma CaseDoesNotMatter(a: string, b: string)
    requires Recased(a, b)
    ensures SameOk(ParseExpr(a), ParseExpr(b)) && SameOk(Parse(a), Parse(b))
  {
    RecasedIs(a, b, "");
    SplitRecased(a, b, ' ');
    var x, y := Split(a, ' '), Split(b, ' ');
    if |x| == 2 {
      RecasedFolds(x[1], y[1], "seconds");
      IntegerRecased(x[0], y[0]);
    } else if |x| == 5 {
      FieldsRecased(x, y);
    }
  }

  // ---- Decimal numbers ----

  const DIGITS := "0123456789"

  /** A number as people write it. */
  function Decimal(n: nat): (s: string)
    ensures s != ""
  {
    if n < 10 then [DIGITS[n]] else Decimal(n / 10) + [DIGITS[n % 10]]
  }

  lemma DigitValue(k: nat)
    requires k < 10
    ensures IsDigit(DIGITS[k]) && DIGITS[k] as int - '0' as int == k
  {
  }

  lemma {:induction false} DecimalReads(n: nat)
    ensures AllDigits(Decimal(n)) && DecimalValue(Decimal(n)) == n
  {
    if n < 10 {
      DigitValue(n);
      assert Decimal(n)[..0] == "";
    } else {
      DecimalReads(n / 10);
      DigitValue(n % 10);
      assert Decimal(n)[..|Decimal(n)| - 1] == Decimal(n / 10);
    }
  }

  /** A number reads as itself up to 2147483647, and is refused beyond. */
  lemma NumberReads(n: nat)
    ensures IntegerOf(Decimal(n)) == if n <= 2147483647 then Some(n) else None
  {
    DecimalReads(n);
  }

  /** Nothing but digits reads as a number: no sign, no blank, no letter. */
  lemma OnlyDigitsRead(s: string)
    ensures IntegerOf(s).Some? ==> s != "" && forall c :: c in s ==> c in DIGITS
  {
    if IntegerOf(s).Some? {
      forall c | c in s ensures c in DIGITS {
        var k := c as int - '0' as int;
        DigitValue(k);
        assert DIGITS[k] == c;
      }
    }
  }

  /** Leading zeros change nothing. */
  lemma {:induction false} LeadingZero(s: string)
    ensures s != "" ==> IntegerOf("0" + s) == IntegerOf(s)
  {
    if AllDigits(s) {
      ZeroValue(s);
    } else {
      assert forall i :: 0 <= i < |s| ==> ("0" + s)[i + 1] == s[i];
    }
  }

  lemma {:induction false} ZeroValue(s: string)
    requires AllDigits(s)
    ensures AllDigits("0" + s) && DecimalValue("0" + s) == DecimalValue(s)
  {
    var z := "0" + s;
    if s == "" {
      assert z[..0] == "";
    } else {
      ZeroValue(s[..|s| - 1]);
      assert z[..|z| - 1] == "0" + s[..|s| - 1];
    }
  }

  // ---- Names ----

  const MONTHS := ["JAN", "FEB", "MAR", "APR", "MAY", "JUN", "JUL", "AUG", "SEP", "OCT", "NOV", "DEC"]
  const DAYS := ["SUN", "MON", "TUE", "WED", "THU", "FRI", "SAT"]

  lemma FoldedFinds(t: FieldType, n: CronName, s: string)
    requires n in NameTable(t) && Recased(n.name, s)
    ensures FieldValue(t, s) == Some(n.value)
  {
    RecasedFolds(n.name, s, n.name);
    assert SameFolded(n.name, n.name);
    assert IsName(t, s, n.value);
    FieldValueReads(t, s, n.value);
  }

  lemma MonthInTable(i: nat)
    requires i < 12
    ensures CronName(MONTHS[i], i + 1) in NameTable(Month)
  {
    assert NameTable(Month)[i] == CronName(MONTHS[i], i + 1);
  }

  lemma DayInTable(i: nat)
    requires i < 7
    ensures CronName(DAYS[i], i) in NameTable(Dow)
  {
    assert NameTable(Dow)[i] == CronName(DAYS[i], i);
  }

  /** JAN to DEC are 1 to 12, in any case. */
  lemma MonthNames(i: nat, s: string)
    requires i < 12 && Recased(MONTHS[i], s)
    ensures FieldValue(Month, s) == Some(i + 1)
  {
    MonthInTable(i);
    FoldedFinds(Month, CronName(MONTHS[i], i + 1), s);
  }

  /** SUN to SAT are 0 to 6, in any case. */
  lemma DayNames(i: nat, s: string)
    requires i < 7 && Recased(DAYS[i], s)
    ensures FieldValue(Dow, s) == Some(i)
  {
    DayInTable(i);
    FoldedFinds(Dow, CronName(DAYS[i], i), s);
  }

  /** `N seconds`, in any case, is accepted for N from 1 to 59, and for no other number. */
  lemma SecondsInAnyCase(n: nat, word: string)
    requires Recased("seconds", word)
    ensures var r := ParseExpr(Decimal(n) + " " + word);
            if 1 <= n <= 59 then r == Ok(Seconds(n))
            else r == Err(ParseError(1, 1, Decimal(n), "seconds interval must be 1-59"))
  {
    var x := Decimal(n);
    DecimalReads(n);
    NumberReads(n);
    RecasedMember("seconds", word, ' ');
    assert ' ' !in x;
    SplitInTwo(x, word, ' ');
    assert x + [' '] + word == x + " " + word;
    RecasedFolds("seconds", word, "seconds");
  }

  // ---- The values a field takes ----

  /** The least and the greatest number of a field, and how messages name the field and its bounds. */
  function Documented(t: FieldType): (int, int, string, string) {
    match t
    case Minute => (0, 59, "minute", "0-59")
    case Hour => (0, 23, "hour", "0-23")
    case Dom => (1, 31, "day-of-month", "1-31")
    case Month => (1, 12, "month", "1-12")
    case Dow => (0, 7, "day-of-week", "0-7")
  }

  lemma DecimalIsPlain(n: nat)
    ensures var s := Decimal(n); s != "" && s != "$" && s != "*" && '/' !in s && '-' !in s && ',' !in s && ' ' !in s
  {
    DecimalReads(n);
  }

  /** A plain number is accepted in a field exactly within the field's documented bounds. */
  lemma NumbersInBounds(t: FieldType, n: nat)
    requires n <= 2147483647
    ensures var (least, greatest, name, bounds) := Documented(t);
            ParseItem(t, Decimal(n)) == if least <= n <= greatest then Ok(Single(n)) else Err(name + " must be " + bounds)
  {
    DecimalIsPlain(n);
    NumberReads(n);
  }

  /** The value that a number of a field stands for: itself, but Sunday for day-of-week 7. */
  lemma NumberMeans(t: FieldType, n: nat)
    requires var (least, greatest, _, _) := Documented(t); least <= n <= greatest
    ensures Bits(t, [Single(n)]) == if t == Dow && n == 7 then {0} else {n}
  {
    SingleIsBit(t, n);
  }
}
