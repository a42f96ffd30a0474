/**
 String handling of src/cron_parser.c: splitting at a delimiter, empty parts, decimal
 integers and case-insensitive names. A C string is a `string`; its end is the terminator.
 */
module Text {
  import opened Options

  const INT_MAX := 0x7FFF_FFFF
  const LONG_MAX := 0x7FFF_FFFF_FFFF_FFFF

  // ---- Splitting and joining ----

  /** The parts of `s` between delimiters, empty ones included. */
  function Split(s: string, d: char): (parts: seq<string>)
    ensures |parts| >= 1
  {
    if s == "" then [""]
    else
      var rest := Split(s[1..], d);
      if s[0] == d then [""] + rest else [[s[0]] + rest[0]] + rest[1..]
  }

  function Join(parts: seq<string>, d: char): string
    requires |parts| >= 1
  {
    if |parts| == 1 then parts[0] else parts[0] + [d] + Join(parts[1..], d)
  }

  lemma {:induction false} SplitWhole(s: string, d: char)
    requires d !in s
    ensures Split(s, d) == [s]
  {
    if s != "" {
      SplitWhole(s[1..], d);
      assert [s[0]] + s[1..] == s;
    }
  }

  lemma {:induction false} SplitFirst(x: string, y: string, d: char)
    requires d !in x
    ensures Split(x + [d] + y, d) == [x] + Split(y, d)
  {
    var s := x + [d] + y;
    if x == "" {
      assert s[1..] == y;
    } else {
      assert s[1..] == x[1..] + [d] + y;
      SplitFirst(x[1..], y, d);
      assert [x[0]] + x[1..] == x;
    }
  }

  /** Joining what `Split` returns gives the text back, and no part holds the delimiter. */
  lemma {:induction false} JoinSplit(s: string, d: char)
    ensures Join(Split(s, d), d) == s
    ensures forall i :: 0 <= i < |Split(s, d)| ==> d !in Split(s, d)[i]
  {
    if s != "" {
      JoinSplit(s[1..], d);
      var rest := Split(s[1..], d);
      assert s == [s[0]] + s[1..];
      if s[0] == d {
        assert Split(s, d)[1..] == rest;
      } else {
        assert Split(s, d)[1..] == rest[1..];
      }
    }
  }

  /** Splitting a joined list of delimiter-free parts gives the parts back. */
  lemma {:induction false} SplitJoin(parts: seq<string>, d: char)
    requires |parts| >= 1
    requires forall i :: 0 <= i < |parts| ==> d !in parts[i]
    ensures Split(Join(parts, d), d) == parts
  {
    if |parts| == 1 {
      SplitWhole(parts[0], d);
    } else {
      SplitJoin(parts[1..], d);
      SplitFirst(parts[0], Join(parts[1..], d), d);
    }
  }

  function Count(s: string, d: char): nat {
    if s == "" then 0 else (if s[0] == d then 1 else 0) + Count(s[1..], d)
  }

  lemma {:induction false} CountPrefix(s: string, i: nat, d: char)
    requires i < |s|
    ensures Count(s[..i + 1], d) == Count(s[..i], d) + (if s[i] == d then 1 else 0)
  {
    if i == 0 {
      assert s[..1][1..] == "";
    } else {
      CountPrefix(s[1..], i - 1, d);
      assert s[..i + 1][1..] == s[1..][..i];
      assert s[..i][1..] == s[1..][..i - 1];
    }
  }

  lemma {:induction false} SplitLength(s: string, d: char)
    ensures |Split(s, d)| == Count(s, d) + 1
  {
    if s != "" {
      SplitLength(s[1..], d);
    }
  }

  /** The parts already copied, followed by the parts of the unread text, are the whole split. */
  ghost predicate SplitSoFar(s: string, d: char, copied: seq<string>, start: nat) {
    start <= |s| && Split(s, d) == copied + Split(s[start..], d)
  }

  /** One step of the splitting loop: the part that ends at the delimiter at `p` is finished. */
  lemma SplitStep(s: string, d: char, copied: seq<string>, start: nat, p: nat)
    requires SplitSoFar(s, d, copied, start)
    requires start <= p <= |s| && d !in s[start..p] && (p == |s| || s[p] == d)
    ensures |copied| < |Split(s, d)|
    ensures p == |s| ==> Split(s, d) == copied + [s[start..p]]
    ensures p < |s| ==> SplitSoFar(s, d, copied + [s[start..p]], p + 1)
  {
    if p == |s| {
      assert s[start..p] == s[start..];
      SplitWhole(s[start..p], d);
    } else {
      assert s[start..] == s[start..p] + [d] + s[p + 1..];
      SplitFirst(s[start..p], s[p + 1..], d);
      assert copied + ([s[start..p]] + Split(s[p + 1..], d)) == copied + [s[start..p]] + Split(s[p + 1..], d);
    }
  }

  lemma CountWhole(s: string, d: char)
    ensures Count(s[..0], d) == 0 && Count(s[..|s|], d) + 1 == |Split(s, d)|
    ensures SplitSoFar(s, d, [], 0)
  {
    assert s[..|s|] == s && s[0..] == s;
    SplitLength(s, d);
  }

  /**
   `str_split`: one pass counts the delimiters to size the buffer, the next copies the parts.
   The writes never run past the buffer and fill it.
   */
  method StrSplit(s: string, d: char) returns (parts: seq<string>)
    ensures parts == Split(s, d)
  {
    CountWhole(s, d);
    var count := 1;
    for i := 0 to |s|
      invariant count == 1 + Count(s[..i], d)
    {
      CountPrefix(s, i, d);
      if s[i] == d {
        count := count + 1;
      }
    }
    var result := new string[count];
    var start, idx, p := 0, 0, 0;
    while true
      invariant 0 <= start <= p <= |s| && d !in s[start..p]
      invariant 0 <= idx <= result.Length && SplitSoFar(s, d, result[..idx], start)
      decreases |s| - p
    {
      if p == |s| || s[p] == d {
        ghost var copied := result[..idx];
        SplitStep(s, d, copied, start, p);
        result[idx] := s[start..p];
        idx := idx + 1;
        assert result[..idx] == copied + [s[start..p]];
        if p == |s| {
          break;
        }
        start := p + 1;
      }
      p := p + 1;
    }
    parts := result[..];
  }

  /** The test of `has_empty_part`: a delimiter at an end or next to another one. */
  predicate HasEmptyPart(s: string, d: char) {
    s == "" || s[0] == d || s[|s| - 1] == d ||
    exists i :: 1 <= i < |s| && s[i - 1] == d && s[i] == d
  }

  lemma {:induction false} EmptyPartExists(s: string, d: char)
    ensures HasEmptyPart(s, d) <==> "" in Split(s, d)
  {
    if s != "" && s[0] != d {
      var t := s[1..];
      EmptyPartExists(t, d);
      LeadingPart(t, d);
      var rest := Split(t, d);
      assert Split(s, d) == [[s[0]] + rest[0]] + rest[1..];
      assert "" in Split(s, d) <==> "" in rest[1..];
      if t != "" && t[0] != d {
        assert HasEmptyPart(s, d) <==> HasEmptyPart(t, d) by { ShiftAdjacent(s, d); }
        assert rest == [rest[0]] + rest[1..];
      } else if t != "" {
        assert rest[1..] == Split(t[1..], d);
        EmptyPartExists(t[1..], d);
        ShiftAdjacent(s, d);
        if |t| >= 2 {
          ShiftAdjacent(t, d);
        }
        assert HasEmptyPart(s, d) <==> HasEmptyPart(t[1..], d);
      }
    } else if s != "" {
      assert "" in Split(s, d) by { assert Split(s, d)[0] == ""; }
    }
  }

  lemma LeadingPart(s: string, d: char)
    ensures s != "" && s[0] != d ==> Split(s, d)[0] != ""
    ensures s != "" && s[0] == d ==> Split(s, d) == [""] + Split(s[1..], d)
  {
  }

  lemma ShiftAdjacent(s: string, d: char)
    requires |s| >= 2
    ensures (exists i :: 1 <= i < |s| && s[i - 1] == d && s[i] == d) <==>
            (s[0] == d && s[1] == d) ||
            (exists i :: 1 <= i < |s| - 1 && s[1..][i - 1] == d && s[1..][i] == d)
  {
    if i :| 1 <= i < |s| && s[i - 1] == d && s[i] == d && i >= 2 {
      var j := i - 1;
      assert s[1..][j - 1] == d && s[1..][j] == d;
    }
    if i :| 1 <= i < |s| - 1 && s[1..][i - 1] == d && s[1..][i] == d {
      var j := i + 1;
      assert s[j - 1] == d && s[j] == d;
    }
  }

  /** `has_empty_part` decides whether splitting would yield an empty part. */
  method FindEmptyPart(s: string, d: char) returns (found: bool)
    ensures found <==> "" in Split(s, d)
  {
    EmptyPartExists(s, d);
    if s == "" {
      return true;
    }
    if s[0] == d || s[|s| - 1] == d {
      return true;
    }
    for i := 1 to |s|
      invariant forall j :: 1 <= j < i ==> !(s[j] == d && s[j - 1] == d)
    {
      if s[i] == d && s[i - 1] == d {
        return true;
      }
    }
    return false;
  }

  // ---- Decimal integers ----

  predicate IsDigit(c: char) { '0' <= c <= '9' }

  predicate AllDigits(s: string) { forall i :: 0 <= i < |s| ==> IsDigit(s[i]) }

  function DecimalValue(s: string): nat
    requires AllDigits(s)
  {
    if s == "" then 0
    else DecimalValue(s[..|s| - 1]) * 10 + (s[|s| - 1] as int - '0' as int)
  }

  /** `text` is a non-empty run of digits whose value `v` fits a C int. */
  predicate IsNumber(text: string, v: int) {
    text != "" && AllDigits(text) && DecimalValue(text) == v && v <= INT_MAX
  }

  function IntegerOf(s: string): Option<int> {
    if s != "" && AllDigits(s) && DecimalValue(s) <= INT_MAX then Some(DecimalValue(s)) else None
  }

  /** `strtol` on a run of digits: clamps to LONG_MAX and reports ERANGE on overflow. */
  function Strtol(s: string): (int, bool)
    requires AllDigits(s)
  {
    if DecimalValue(s) > LONG_MAX then (LONG_MAX, true) else (DecimalValue(s), false)
  }

  /** `parse_integer`: plain digits only, rejecting everything that overflows an int. */
  method ParseInteger(s: string) returns (r: Option<int>)
    ensures forall v :: r == Some(v) <==> IsNumber(s, v)
    ensures r == IntegerOf(s)
  {
    if s == "" {
      return None;
    }
    for i := 0 to |s|
      invariant forall j :: 0 <= j < i ==> IsDigit(s[j])
    {
      if !IsDigit(s[i]) {
        return None;
      }
    }
    var (result, range) := Strtol(s);
    if range || result > INT_MAX {
      return None;
    }
    r := Some(result);
  }

  // ---- Case-insensitive comparison ----

  function Lower(c: char): char {
    if 'A' <= c <= 'Z' then (c as int + 32) as char else c
  }

  predicate IsLetter(c: char) { 'a' <= Lower(c) <= 'z' }

  /** ASCII `strcasecmp(a, b) == 0`. */
  predicate SameFolded(a: string, b: string) {
    |a| == |b| && forall i :: 0 <= i < |a| ==> Lower(a[i]) == Lower(b[i])
  }
}
