/**
 * String helpers shared by the backend and the frontend: dash stripping,
 * Python's `str.split`, a decimal reading of `float(...)`, code-point
 * ordering of strings and the two ISO 8601 calendar-date spellings.
 */
module Text {
  import opened Wrappers

  // ---------------------------------------------------------------------------
  // Removing every '-' (Python `s.replace("-", "")`, JS `s.replace(/-/g, '')`)
  // ---------------------------------------------------------------------------

  /** Number of occurrences of `c` in `s`. */
  function Count(s: string, c: char): nat
  {
    if s == [] then 0 else (if s[0] == c then 1 else 0) + Count(s[1..], c)
  }

  /** `s` with every '-' removed and every other character kept, in order. */
  function StripDashes(s: string): (r: string)
    ensures '-' !in r
    ensures |r| == |s| - Count(s, '-')
    ensures forall c :: c != '-' ==> (c in r <==> c in s)
  {
    if s == [] then []
    else if s[0] == '-' then StripDashes(s[1..])
    else [s[0]] + StripDashes(s[1..])
  }

  /** Stripping distributes over concatenation: non-dash characters keep their order. */
  lemma {:induction false} StripDashesConcat(a: string, b: string)
    ensures StripDashes(a + b) == StripDashes(a) + StripDashes(b)
  {
    if a != [] {
      assert (a + b)[0] == a[0] && (a + b)[1..] == a[1..] + b;
      StripDashesConcat(a[1..], b);
      if a[0] != '-' {
        assert [a[0]] + StripDashes(a[1..]) + StripDashes(b) == [a[0]] + (StripDashes(a[1..]) + StripDashes(b));
      }
    } else {
      assert a + b == b;
    }
  }

  /** A string without '-' is left alone, so stripping twice is stripping once. */
  lemma {:induction false} StripDashesIdempotent(s: string)
    ensures '-' !in s ==> StripDashes(s) == s
    ensures StripDashes(StripDashes(s)) == StripDashes(s)
  {
    if s != [] {
      StripDashesIdempotent(s[1..]);
    }
    NoDashFixed(StripDashes(s));
  }

  lemma {:induction false} NoDashFixed(s: string)
    requires '-' !in s
    ensures StripDashes(s) == s
  {
    if s != [] {
      NoDashFixed(s[1..]);
    }
  }

  // ---------------------------------------------------------------------------
  // Python str.split(sep) and str.split()
  // ---------------------------------------------------------------------------

  /** Python `s.split(sep)` for a one-character separator: empty parts are kept. */
  function Split(s: string, sep: char): (parts: seq<string>)
    ensures |parts| == Count(s, sep) + 1
    ensures forall i :: 0 <= i < |parts| ==> sep !in parts[i]
  {
    if s == [] then [[]]
    else
      var rest := Split(s[1..], sep);
      if s[0] == sep then [[]] + rest
      else [[s[0]] + rest[0]] + rest[1..]
  }

  /** Joining the parts back with the separator gives the original string. */
  function Join(parts: seq<string>, sep: char): string
  {
    if parts == [] then []
    else if |parts| == 1 then parts[0]
    else parts[0] + [sep] + Join(parts[1..], sep)
  }

  lemma {:induction false} SplitJoin(s: string, sep: char)
    ensures Join(Split(s, sep), sep) == s
  {
    if s != [] {
      SplitJoin(s[1..], sep);
      var rest := Split(s[1..], sep);
      if s[0] != sep {
        if |rest| > 1 {
          assert Join(rest, sep) == rest[0] + [sep] + Join(rest[1..], sep);
        }
      }
    }
  }

  /** A string without the separator is a single part. */
  lemma {:induction false} SplitNoSeparator(s: string, sep: char)
    requires sep !in s
    ensures Split(s, sep) == [s]
  {
    if s != [] {
      SplitNoSeparator(s[1..], sep);
      assert [s[0]] + s[1..] == s;
    }
  }

  /** A separator-free head followed by the separator splits off as the first part. */
  lemma {:induction false} SplitAfterHead(a: string, b: string, sep: char)
    requires sep !in a
    ensures Split(a + [sep] + b, sep) == [a] + Split(b, sep)
  {
    var s := a + [sep] + b;
    if a == [] {
      assert s[0] == sep && s[1..] == b;
    } else {
      assert s[0] == a[0] && s[1..] == a[1..] + [sep] + b;
      SplitAfterHead(a[1..], b, sep);
      assert [a[0]] + a[1..] == a;
    }
  }

  /** Splitting a join of separator-free parts gives the parts back. */
  lemma {:induction false} JoinSplit(parts: seq<string>, sep: char)
    requires parts != []
    requires forall i :: 0 <= i < |parts| ==> sep !in parts[i]
    ensures Split(Join(parts, sep), sep) == parts
  {
    if |parts| == 1 {
      SplitNoSeparator(parts[0], sep);
    } else {
      JoinSplit(parts[1..], sep);
      SplitAfterHead(parts[0], Join(parts[1..], sep), sep);
      assert parts == [parts[0]] + parts[1..];
    }
  }

  /** The part before the first `sep` (Python `s.split(sep)[0]`). */
  function Before(s: string, sep: char): (r: string)
    ensures r == Split(s, sep)[0]
    ensures sep !in r
    ensures r <= s
  {
    if s == [] || s[0] == sep then [] else [s[0]] + Before(s[1..], sep)
  }

  /** The characters Python's argument-less `str.split()` and `str.strip()` treat as blank. */
  predicate IsSpace(c: char)
  {
    c == ' ' || c == '\t' || c == '\n' || c == '\r' || c == '\U{0B}' || c == '\U{0C}'
  }

  predicate Blank(s: string)
  {
    forall i :: 0 <= i < |s| ==> IsSpace(s[i])
  }

  /** Python `s.split()`: the maximal runs of non-blank characters, in order. */
  function SplitWhitespace(s: string): (tokens: seq<string>)
    ensures forall i :: 0 <= i < |tokens| ==> tokens[i] != [] && NoSpace(tokens[i])
    ensures Blank(s) <==> tokens == []
    decreases |s|
  {
    if s == [] then []
    else if IsSpace(s[0]) then SplitWhitespace(s[1..])
    else
      var t := Word(s);
      [t] + SplitWhitespace(s[|t|..])
  }

  predicate NoSpace(s: string)
  {
    forall i :: 0 <= i < |s| ==> !IsSpace(s[i])
  }

  /** The leading run of non-blank characters. */
  function Word(s: string): (t: string)
    ensures t <= s && NoSpace(t)
    ensures s != [] && !IsSpace(s[0]) ==> t != []
    ensures |t| < |s| ==> IsSpace(s[|t|])
  {
    if s == [] || IsSpace(s[0]) then [] else [s[0]] + Word(s[1..])
  }

  /** Python `s.strip()` for the blank characters above. */
  function Strip(s: string): (r: string)
    ensures |r| <= |s|
    ensures r != [] ==> !IsSpace(r[0]) && !IsSpace(r[|r| - 1])
    ensures Blank(s) <==> r == []
    decreases |s|
  {
    if s == [] then []
    else if IsSpace(s[0]) then Strip(s[1..])
    else if IsSpace(s[|s| - 1]) then Strip(s[..|s| - 1])
    else s
  }

  // ---------------------------------------------------------------------------
  // Decimal numbers (the plain-decimal subset of Python `float(...)`)
  // ---------------------------------------------------------------------------

  predicate IsDigit(c: char) { '0' <= c <= '9' }

  predicate AllDigits(s: string) { forall i :: 0 <= i < |s| ==> IsDigit(s[i]) }

  function DigitValue(c: char): nat
    requires IsDigit(c)
  {
    (c as int) - ('0' as int)
  }

  /** The natural number a string of decimal digits denotes. */
  function DigitsValue(s: string): nat
    requires AllDigits(s)
  {
    if s == [] then 0 else DigitsValue(s[..|s| - 1]) * 10 + DigitValue(s[|s| - 1])
  }

  function Pow10(n: nat): (r: nat)
    ensures r >= 1
  {
    if n == 0 then 1 else 10 * Pow10(n - 1)
  }

  /**
   * `float(s)` for plain decimals: optional surrounding blanks, an optional sign,
   * digits with at most one '.', at least one digit.  Anything else (an exponent,
   * `inf`, `nan`, underscores) reads as unparsable here.
   */
  function ParseFloat(s: string): Option<real>
  {
    var t := Strip(s);
    if t == [] then None
    else if t[0] == '-' then
      (match ParseUnsigned(t[1..]) case Some(v) => Some(-v) case None => None)
    else if t[0] == '+' then ParseUnsigned(t[1..])
    else ParseUnsigned(t)
  }

  /** digits [ '.' digits ] with at least one digit in all. */
  function ParseUnsigned(t: string): (r: Option<real>)
    ensures r.Some? ==> r.value >= 0.0
  {
    var whole := Before(t, '.');
    if |whole| == |t| then
      if t != [] && AllDigits(t) then Some(DigitsValue(t) as real) else None
    else
      var frac := t[|whole| + 1..];
      if AllDigits(whole) && AllDigits(frac) && (whole != [] || frac != []) then
        Some(DigitsValue(whole) as real + (DigitsValue(frac) as real) / (Pow10(|frac|) as real))
      else None
  }

  /** `map(parse, tokens)` consumed whole: every token parsed, or `None` when one fails. */
  function ParseAll<T>(tokens: seq<string>, parse: string -> Option<T>): (r: Option<seq<T>>)
    ensures r.Some? <==> forall k :: 0 <= k < |tokens| ==> parse(tokens[k]).Some?
    ensures r.Some? ==> |r.value| == |tokens|
    ensures r.Some? ==> forall k :: 0 <= k < |tokens| ==> parse(tokens[k]) == Some(r.value[k])
  {
    if tokens == [] then Some([])
    else
      var n := |tokens| - 1;
      assert forall k :: 0 <= k < n ==> tokens[..n][k] == tokens[k];
      match ParseAll(tokens[..n], parse)
      case None => None
      case Some(prev) =>
        match parse(tokens[n])
        case None => None
        case Some(v) => Some(prev + [v])
  }

  /** When every token is known to parse to a given value, the whole list parses to those values. */
  lemma ParseAllKnown<T>(tokens: seq<string>, parse: string -> Option<T>, values: seq<T>)
    requires |tokens| == |values|
    requires forall k :: 0 <= k < |tokens| ==> parse(tokens[k]) == Some(values[k])
    ensures ParseAll(tokens, parse) == Some(values)
  {
    var r := ParseAll(tokens, parse);
    assert r.Some?;
    assert forall k :: 0 <= k < |tokens| ==> r.value[k] == values[k];
    assert r.value == values;
  }

  /** The decimal rendering of a natural number. */
  function NatToString(n: nat): (s: string)
    ensures s != [] && AllDigits(s)
  {
    if n < 10 then [('0' as int + n) as char]
    else NatToString(n / 10) + [('0' as int + n % 10) as char]
  }

  lemma {:induction false} DigitsRoundTrip(n: nat)
    ensures DigitsValue(NatToString(n)) == n
  {
    var s := NatToString(n);
    if n >= 10 {
      DigitsRoundTrip(n / 10);
      assert s[..|s| - 1] == NatToString(n / 10);
    }
  }

  /** Reading back a rendered natural number gives the number. */
  lemma ParseFloatNat(n: nat)
    ensures ParseFloat(NatToString(n)) == Some(n as real)
  {
    var s := NatToString(n);
    DigitsRoundTrip(n);
    NotSpaceDigits(s);
    BeforeAbsent(s, '.');
  }

  lemma {:induction false} NotSpaceDigits(s: string)
    requires s != [] && AllDigits(s)
    ensures Strip(s) == s
  {
    assert !IsSpace(s[0]) && !IsSpace(s[|s| - 1]);
  }

  lemma {:induction false} BeforeAbsent(s: string, sep: char)
    requires sep !in s
    ensures Before(s, sep) == s
  {
    if s != [] {
      BeforeAbsent(s[1..], sep);
    }
  }

  // ---------------------------------------------------------------------------
  // Substrings (Python `sub in s`, pandas `str.contains` with a plain pattern)
  // ---------------------------------------------------------------------------

  /** The index of the last `c` in `s`. */
  function LastIndexOf(s: string, c: char): (r: Option<nat>)
    ensures r.None? <==> c !in s
    ensures r.Some? ==> r.value < |s| && s[r.value] == c && c !in s[r.value + 1..]
  {
    if s == [] then None
    else if s[|s| - 1] == c then Some(|s| - 1)
    else
      var r := LastIndexOf(s[..|s| - 1], c);
      assert s == s[..|s| - 1] + [s[|s| - 1]];
      r
  }

  /** The last `c` of `a + b` lies in `b` when `b` has one at its head, in `a` when `b` has none. */
  lemma LastIndexOfSuffix(a: string, b: string, c: char)
    requires (b != [] && b[0] == c && c !in b[1..]) || (c !in b && a != [] && a[|a| - 1] == c)
    ensures LastIndexOf(a + b, c) == (if c !in b then Some(|a| - 1) else Some(|a|))
  {
    var s := a + b;
    var k := if c !in b then |a| - 1 else |a|;
    assert s[k] == c;
    assert s[k + 1..] == if c !in b then b else b[1..];
  }

  /** `sub` occurs in `s` at some position. */
  predicate Contains(s: string, sub: string)
    decreases |s|
  {
    sub <= s || (s != [] && Contains(s[1..], sub))
  }

  /** Every character of an occurring substring occurs in the string. */
  lemma {:induction false} ContainsChars(s: string, sub: string, c: char)
    requires Contains(s, sub) && c in sub
    ensures c in s
  {
    if !(sub <= s) {
      ContainsChars(s[1..], sub, c);
    } else {
      assert s[..|sub|] == sub;
    }
  }

  /** A string lacking one of `sub`'s characters does not contain `sub`. */
  lemma MissingCharNotContains(s: string, sub: string, c: char)
    requires c in sub && c !in s
    ensures !Contains(s, sub)
  {
    if Contains(s, sub) {
      ContainsChars(s, sub, c);
    }
  }

  lemma {:induction false} ContainsAt(s: string, sub: string, i: nat)
    requires i + |sub| <= |s| && s[i..i + |sub|] == sub
    ensures Contains(s, sub)
  {
    if i > 0 {
      assert s[1..][i - 1..i - 1 + |sub|] == s[i..i + |sub|];
      ContainsAt(s[1..], sub, i - 1);
    }
  }

  // ---------------------------------------------------------------------------
  // Code-point order on strings (Python `sorted` on str)
  // ---------------------------------------------------------------------------

  predicate StrLt(a: string, b: string)
  {
    if a == [] then b != []
    else if b == [] then false
    else if a[0] != b[0] then a[0] < b[0]
    else StrLt(a[1..], b[1..])
  }

  predicate StrLe(a: string, b: string)
  {
    a == b || StrLt(a, b)
  }

  lemma {:induction false} StrLtIrreflexive(a: string)
    ensures !StrLt(a, a)
  {
    if a != [] { StrLtIrreflexive(a[1..]); }
  }

  lemma {:induction false} StrLtTotal(a: string, b: string)
    ensures a == b || StrLt(a, b) || StrLt(b, a)
  {
    if a != [] && b != [] && a[0] == b[0] {
      StrLtTotal(a[1..], b[1..]);
      if a[1..] == b[1..] {
        assert a == [a[0]] + a[1..] && b == [b[0]] + b[1..];
      }
    }
  }

  lemma {:induction false} StrLtAsymmetric(a: string, b: string)
    ensures !(StrLt(a, b) && StrLt(b, a))
  {
    if a != [] && b != [] && a[0] == b[0] {
      StrLtAsymmetric(a[1..], b[1..]);
    }
  }

  lemma {:induction false} StrLtTransitive(a: string, b: string, c: string)
    requires StrLt(a, b) && StrLt(b, c)
    ensures StrLt(a, c)
  {
    if a != [] && a[0] == b[0] && b[0] == c[0] {
      StrLtTransitive(a[1..], b[1..], c[1..]);
    }
  }

  lemma StrLeTransitive(a: string, b: string, c: string)
    requires StrLe(a, b) && StrLe(b, c)
    ensures StrLe(a, c)
  {
    if a != b && b != c { StrLtTransitive(a, b, c); }
  }

  lemma StrLeTotal(a: string, b: string)
    ensures StrLe(a, b) || StrLe(b, a)
  {
    StrLtTotal(a, b);
  }

  lemma StrLeAntisymmetric(a: string, b: string)
    requires StrLe(a, b) && StrLe(b, a)
    ensures a == b
  {
    StrLtAsymmetric(a, b);
  }

  // ---------------------------------------------------------------------------
  // Calendar dates, ISO 8601:2004 section 4.1.2.2 (complete representations)
  // ---------------------------------------------------------------------------

  /** A calendar date; its field order is the order of the zero-padded ISO text. */
  datatype Date = Date(year: int, month: int, day: int)

  predicate IsLeapYear(y: int)
  {
    (y % 4 == 0 && y % 100 != 0) || y % 400 == 0
  }

  function DaysInMonth(y: int, m: int): int
  {
    if m == 2 then (if IsLeapYear(y) then 29 else 28)
    else if m == 4 || m == 6 || m == 9 || m == 11 then 30
    else 31
  }

  /** What Python's `datetime` accepts: years 1..9999 and real calendar days. */
  predicate ValidDate(d: Date)
  {
    1 <= d.year <= 9999 && 1 <= d.month <= 12 && 1 <= d.day <= DaysInMonth(d.year, d.month)
  }

  /** Chronological order, which is also the order of the zero-padded ISO text. */
  predicate DateLe(a: Date, b: Date)
  {
    a.year < b.year
    || (a.year == b.year && a.month < b.month)
    || (a.year == b.year && a.month == b.month && a.day <= b.day)
  }

  /** `n` written with exactly `width` digits, zero-padded (requires it to fit). */
  function Pad(n: nat, width: nat): (s: string)
    requires n < Pow10(width)
    ensures |s| == width && AllDigits(s)
    ensures DigitsValue(s) == n
  {
    if width == 0 then []
    else
      assert n / 10 < Pow10(width - 1);
      var s := Pad(n / 10, width - 1) + [('0' as int + n % 10) as char];
      assert s[..|s| - 1] == Pad(n / 10, width - 1);
      s
  }

  /** Basic format YYYYMMDD (Python `strptime(s, '%Y%m%d')` on zero-padded text). */
  function ParseBasicDate(s: string): (r: Option<Date>)
    ensures r.Some? ==> ValidDate(r.value) && |s| == 8
  {
    if |s| == 8 && AllDigits(s) then
      var d := Date(DigitsValue(s[0..4]), DigitsValue(s[4..6]), DigitsValue(s[6..8]));
      if ValidDate(d) then Some(d) else None
    else None
  }

  /** Extended format YYYY-MM-DD (Python `strptime(s, '%Y-%m-%d')` on zero-padded text). */
  function ParseExtendedDate(s: string): (r: Option<Date>)
    ensures r.Some? ==> ValidDate(r.value) && |s| == 10
  {
    if |s| == 10 && s[4] == '-' && s[7] == '-'
      && AllDigits(s[0..4]) && AllDigits(s[5..7]) && AllDigits(s[8..10]) then
      var d := Date(DigitsValue(s[0..4]), DigitsValue(s[5..7]), DigitsValue(s[8..10]));
      if ValidDate(d) then Some(d) else None
    else None
  }

  /** `strftime('%Y-%m-%d')`. */
  function FormatExtendedDate(d: Date): (s: string)
    requires ValidDate(d)
    ensures |s| == 10 && s[4] == '-' && s[7] == '-'
  {
    Pad(d.year, 4) + "-" + Pad(d.month, 2) + "-" + Pad(d.day, 2)
  }

  /** Formatting a valid date and reading it back gives the same date. */
  lemma ExtendedDateRoundTrip(d: Date)
    requires ValidDate(d)
    ensures ParseExtendedDate(FormatExtendedDate(d)) == Some(d)
  {
    var s := FormatExtendedDate(d);
    assert s[0..4] == Pad(d.year, 4);
    assert s[5..7] == Pad(d.month, 2);
    assert s[8..10] == Pad(d.day, 2);
  }

  /** Zero-padding the value of a digit string back to its width gives the string. */
  lemma {:induction false} PadDigits(s: string)
    requires AllDigits(s)
    ensures DigitsValue(s) < Pow10(|s|)
    ensures Pad(DigitsValue(s), |s|) == s
  {
    if s != [] {
      var init := s[..|s| - 1];
      assert AllDigits(init);
      PadDigits(init);
      var v := DigitsValue(s);
      assert v / 10 == DigitsValue(init) && v % 10 == DigitValue(s[|s| - 1]);
      assert s == init + [s[|s| - 1]];
    }
  }

  /** `strptime` then `strftime` on an accepted extended date gives back the same text. */
  lemma ExtendedDateCanonical(s: string)
    requires ParseExtendedDate(s).Some?
    ensures FormatExtendedDate(ParseExtendedDate(s).value) == s
  {
    PadDigits(s[0..4]);
    PadDigits(s[5..7]);
    PadDigits(s[8..10]);
    assert s == s[0..4] + "-" + s[5..7] + "-" + s[8..10];
  }
}
