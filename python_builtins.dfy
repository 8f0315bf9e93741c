/**
  The part of Python's built-in behaviour that the chart code leans on:
  exceptions, `str.strip`, `str.find`, `in`, `str.split`, `float()`, `int()`
  and `str()` on integers. Strings are sequences of characters throughout.
*/
module Py {

  datatype Option<+T> = None | Some(value: T)

  /** The exceptions the modelled code can raise. */
  datatype Exception = ValueError | ZeroDivisionError | UnboundLocalError

  /** The outcome of a Python computation: a value, or an exception that propagates. */
  datatype Outcome<+T> = Ok(value: T) | Raise(exc: Exception) {
    predicate IsFailure() { Raise? }
    function PropagateFailure<U>(): Outcome<U>
      requires Raise?
    {
      Raise(exc)
    }
    function Extract(): T
      requires Ok?
    {
      value
    }
  }

  /** Python's `/` on floats: a zero divisor raises ZeroDivisionError. */
  function Div(a: real, b: real): (r: Outcome<real>)
    ensures r.Raise? <==> b == 0.0
    ensures r.Raise? ==> r.exc == ZeroDivisionError
    ensures r.Ok? ==> r.value * b == a
  {
    if b == 0.0 then Raise(ZeroDivisionError) else Ok(a / b)
  }

  // ---------------------------------------------------------------- characters

  /** The characters `str.isspace` accepts in the ASCII range. */
  predicate IsSpace(c: char) {
    c == ' ' || '\t' <= c <= '\r' || '\U{001C}' <= c <= '\U{001F}'
  }

  predicate IsDigit(c: char) { '0' <= c <= '9' }

  function DigitValue(c: char): (d: nat)
    requires IsDigit(c)
    ensures d <= 9
  {
    (c as int) - ('0' as int)
  }

  function DigitChar(d: nat): (c: char)
    requires d <= 9
    ensures IsDigit(c) && DigitValue(c) == d
  {
    (('0' as int) + d) as char
  }

  // ---------------------------------------------------------------- searching

  /**
    The first index at or after `from` holding one of `chars`, or `|s|` when
    there is none: the shape of every `while i < len(s) and s[i] not in chars`
    loop, and of `str.find` once -1 is read as `|s|`.
  */
  function FindAny(s: string, from: nat, chars: string): (k: nat)
    requires from <= |s|
    ensures from <= k <= |s|
    ensures k < |s| ==> s[k] in chars
    ensures forall j :: from <= j < k ==> s[j] !in chars
    decreases |s| - from
  {
    if from == |s| || s[from] in chars then from else FindAny(s, from + 1, chars)
  }

  /** An index that satisfies `FindAny`'s contract is the one it reports. */
  lemma FindAnyIs(s: string, from: nat, chars: string, k: nat)
    requires from <= k <= |s|
    requires k < |s| ==> s[k] in chars
    requires forall j :: from <= j < k ==> s[j] !in chars
    ensures FindAny(s, from, chars) == k
  {
  }

  /** The first index at or after `from` holding none of `chars`, or `|s|`. */
  function SkipAny(s: string, from: nat, chars: string): (k: nat)
    requires from <= |s|
    ensures from <= k <= |s|
    ensures k < |s| ==> s[k] !in chars
    ensures forall j :: from <= j < k ==> s[j] in chars
    decreases |s| - from
  {
    if from == |s| || s[from] !in chars then from else SkipAny(s, from + 1, chars)
  }

  /** Does `sep` occur in `s` at index `k`? */
  predicate OccursAt(s: string, sep: string, k: nat) {
    k + |sep| <= |s| && s[k..k + |sep|] == sep
  }

  /** The first index at or after `from` where `sep` occurs, or `|s|` when it does not. */
  function FindSub(s: string, sep: string, from: nat): (k: nat)
    requires sep != [] && from <= |s|
    ensures from <= k <= |s|
    ensures k < |s| ==> OccursAt(s, sep, k)
    ensures forall j :: from <= j < k ==> !OccursAt(s, sep, j)
    decreases |s| - from
  {
    if from == |s| || OccursAt(s, sep, from) then from else FindSub(s, sep, from + 1)
  }

  /** Python's `sep in s` for a non-empty substring. */
  predicate ContainsSub(s: string, sep: string)
    requires sep != []
  {
    FindSub(s, sep, 0) < |s|
  }

  lemma {:induction false} ContainsSubWitness(s: string, sep: string, k: nat)
    requires sep != [] && OccursAt(s, sep, k)
    ensures ContainsSub(s, sep)
  {
    assert k < |s|;
  }

  /** An index that satisfies `FindSub`'s contract is the one it reports. */
  lemma FindSubIs(s: string, sep: string, from: nat, k: nat)
    requires sep != [] && from <= k <= |s|
    requires k < |s| ==> OccursAt(s, sep, k)
    requires forall j :: from <= j < k ==> !OccursAt(s, sep, j)
    ensures FindSub(s, sep, from) == k
  {
  }

  function Count(c: char, s: string): (n: nat)
    ensures n <= |s|
    ensures n == 0 <==> c !in s
  {
    if s == [] then 0 else (if s[0] == c then 1 else 0) + Count(c, s[1..])
  }

  lemma {:induction false} CountAppend(c: char, a: string, b: string)
    ensures Count(c, a + b) == Count(c, a) + Count(c, b)
  {
    if a == [] {
      assert a + b == b;
    } else {
      assert (a + b)[1..] == a[1..] + b;
      CountAppend(c, a[1..], b);
    }
  }

  // ---------------------------------------------------------------- strip

  /** The index of the first non-whitespace character at or after `from`, or `|s|`. */
  function SkipSpaces(s: string, from: nat): (k: nat)
    requires from <= |s|
    ensures from <= k <= |s|
    ensures k < |s| ==> !IsSpace(s[k])
    ensures forall j :: from <= j < k ==> IsSpace(s[j])
    decreases |s| - from
  {
    if from == |s| || !IsSpace(s[from]) then from else SkipSpaces(s, from + 1)
  }

  /** The length of `s[..to]` once its trailing whitespace is removed. */
  function TrimEnd(s: string, to: nat): (k: nat)
    requires to <= |s|
    ensures k <= to
    ensures k > 0 ==> !IsSpace(s[k - 1])
    ensures forall j :: k <= j < to ==> IsSpace(s[j])
  {
    if to == 0 || !IsSpace(s[to - 1]) then to else TrimEnd(s, to - 1)
  }

  /**
    Python's `s.strip()`: the slice of `s` between its leading and its
    trailing whitespace.
  */
  function Strip(s: string): (r: string)
    ensures r == [] || (!IsSpace(r[0]) && !IsSpace(r[|r| - 1]))
    ensures r != [] ==> SkipSpaces(s, 0) < TrimEnd(s, |s|) && r == s[SkipSpaces(s, 0)..TrimEnd(s, |s|)]
    ensures r == [] ==> forall k :: 0 <= k < |s| ==> IsSpace(s[k])
  {
    var a := SkipSpaces(s, 0);
    var b := TrimEnd(s, |s|);
    if a < b then s[a..b] else ""
  }

  /** A string that neither starts nor ends with whitespace is its own strip. */
  predicate Trimmed(s: string) {
    s == [] || (!IsSpace(s[0]) && !IsSpace(s[|s| - 1]))
  }

  lemma StripClean(s: string)
    requires Trimmed(s)
    ensures Strip(s) == s
  {
    assert s != [] ==> SkipSpaces(s, 0) == 0 && TrimEnd(s, |s|) == |s| && s[0..|s|] == s;
  }

  // ---------------------------------------------------------------- split

  /** Rebuilds a string from its `split(sep)` parts. */
  function Join(parts: seq<string>, sep: char): string
    requires |parts| >= 1
  {
    if |parts| == 1 then parts[0] else parts[0] + [sep] + Join(parts[1..], sep)
  }

  /**
    Python's `s.split(sep)` for a one-character separator: one more part than
    there are separators, and no part contains the separator.
  */
  function SplitOn(s: string, sep: char): (parts: seq<string>)
    ensures |parts| == Count(sep, s) + 1
    ensures forall k :: 0 <= k < |parts| ==> sep !in parts[k]
    decreases |s|
  {
    var k := FindAny(s, 0, [sep]);
    if k == |s| then
      [s]
    else
      SplitCount(s, sep, k);
      [s[..k]] + SplitOn(s[k + 1..], sep)
  }

  lemma SplitCount(s: string, sep: char, k: nat)
    requires k < |s| && s[k] == sep && sep !in s[..k]
    ensures Count(sep, s) == Count(sep, s[k + 1..]) + 1
  {
    assert s == s[..k] + ([sep] + s[k + 1..]);
    CountAppend(sep, s[..k], [sep] + s[k + 1..]);
    assert ([sep] + s[k + 1..])[1..] == s[k + 1..];
  }

  /** Joining the parts of `s.split(sep)` with `sep` gives back `s`. */
  lemma {:induction false} SplitJoin(s: string, sep: char)
    ensures Join(SplitOn(s, sep), sep) == s
    decreases |s|
  {
    var k := FindAny(s, 0, [sep]);
    if k < |s| {
      SplitJoin(s[k + 1..], sep);
      var parts := SplitOn(s, sep);
      assert parts[1..] == SplitOn(s[k + 1..], sep);
      assert s == s[..k] + [sep] + s[k + 1..];
    }
  }

  /** Splitting `a + [sep] + b` on `sep` gives back `a` and `b` when neither holds `sep`. */
  lemma SplitOnPair(a: string, b: string, sep: char)
    requires sep !in a && sep !in b
    ensures SplitOn(a + [sep] + b, sep) == [a, b]
  {
    var s := a + [sep] + b;
    FindAnyIs(s, 0, [sep], |a|);
    assert s[..|a|] == a && s[|a| + 1..] == b;
    FindAnyIs(b, 0, [sep], |b|);
  }

  // ---------------------------------------------------------------- numbers

  predicate AllDigits(s: string) {
    forall k :: 0 <= k < |s| ==> IsDigit(s[k])
  }

  /** The value of the decimal digits `s[..n]` (0 for none). */
  function DigitsPrefix(s: string, n: nat): nat
    requires n <= |s| && forall k :: 0 <= k < n ==> IsDigit(s[k])
  {
    if n == 0 then 0 else DigitsPrefix(s, n - 1) * 10 + DigitValue(s[n - 1])
  }

  /** The value of a run of decimal digits (0 for the empty run). */
  function DigitsValue(s: string): nat
    requires AllDigits(s)
  {
    DigitsPrefix(s, |s|)
  }

  lemma {:induction false} DigitsPrefixSlice(s: string, t: string, n: nat)
    requires n <= |s| && n <= |t| && s[..n] == t[..n]
    requires forall k :: 0 <= k < n ==> IsDigit(s[k])
    ensures DigitsPrefix(s, n) == DigitsPrefix(t, n)
  {
    if n > 0 {
      assert s[..n - 1] == t[..n - 1] && s[n - 1] == s[..n][n - 1];
      DigitsPrefixSlice(s, t, n - 1);
    }
  }

  /** A slice grown by one character is the old slice with that character appended. */
  lemma SliceSnoc(s: string, a: nat, b: nat)
    requires a <= b < |s|
    ensures s[a..b + 1] == s[a..b] + [s[b]]
  {
    assert s[a..b + 1] == s[a..b] + [s[b]];
  }

  /** Appending a digit to a run multiplies its value by ten and adds the digit. */
  lemma DigitsSnoc(t: string, c: char)
    requires AllDigits(t) && IsDigit(c)
    ensures AllDigits(t + [c]) && DigitsValue(t + [c]) == DigitsValue(t) * 10 + DigitValue(c)
  {
    assert (t + [c])[..|t|] == t[..|t|];
    DigitsPrefixSlice(t + [c], t, |t|);
  }

  /** The value of the digits after a decimal point: `"25"` is 0.25. */
  function FracValue(f: string): (v: real)
    requires AllDigits(f)
    ensures 0.0 <= v <= 1.0
  {
    if f == [] then 0.0 else (DigitValue(f[0]) as real + FracValue(f[1..])) / 10.0
  }

  /** A string without its optional leading sign, and whether that sign was `-`. */
  function Unsigned(t: string): (string, bool) {
    if |t| > 0 && (t[0] == '-' || t[0] == '+') then (t[1..], t[0] == '-') else (t, false)
  }

  /**
    Python's `float(s)` on decimal literals: surrounding whitespace, an
    optional sign, digits with an optional `.` and fractional digits, at
    least one digit in all. Anything else is a ValueError (`None`).
  */
  function ParseFloat(s: string): Option<real> {
    var (body, negative) := Unsigned(Strip(s));
    var dot := FindAny(body, 0, ".");
    var whole := body[..dot];
    var frac := if dot < |body| then body[dot + 1..] else "";
    if AllDigits(whole) && AllDigits(frac) && |whole| + |frac| > 0 then
      var magnitude := DigitsValue(whole) as real + FracValue(frac);
      Some(if negative then -magnitude else magnitude)
    else
      None
  }

  /** A plain decimal literal: digits and dots only, and one `float()` accepts. */
  predicate Numeral(s: string) {
    s != [] && DigitsAndDots(s) && ParseFloat(s).Some?
  }

  predicate DigitsAndDots(s: string) {
    forall k :: 0 <= k < |s| ==> IsDigit(s[k]) || s[k] == '.'
  }

  lemma DigitsDotDigits(w: string, f: string)
    requires AllDigits(w) && AllDigits(f)
    ensures DigitsAndDots(w + "." + f)
  {
    var s := w + "." + f;
    forall k | 0 <= k < |s| ensures IsDigit(s[k]) || s[k] == '.' {
      if k < |w| {
        assert s[k] == w[k];
      } else if k > |w| {
        assert s[k] == f[k - |w| - 1];
      }
    }
  }

  /** The whole-number literal `w` is the float of its digits. */
  lemma {:induction false} ParseFloatWhole(w: string)
    requires w != [] && AllDigits(w)
    ensures ParseFloat(w) == Some(DigitsValue(w) as real)
    ensures Numeral(w)
  {
    StripClean(w);
    assert Unsigned(w) == (w, false);
    FindAnyIs(w, 0, ".", |w|);
    assert w[..|w|] == w;
  }

  /** The literal `w.f` needs no stripping, has no sign, and splits at its one dot. */
  lemma DecimalPieces(w: string, f: string)
    requires AllDigits(w) && AllDigits(f) && |w| + |f| > 0
    ensures var s := w + "." + f;
      && Strip(s) == s && Unsigned(s) == (s, false) && FindAny(s, 0, ".") == |w|
      && s[..|w|] == w && s[|w| + 1..] == f
  {
    var s := w + "." + f;
    assert s[|s| - 1] == if f == [] then '.' else f[|f| - 1];
    assert s[0] == if w == [] then '.' else w[0];
    StripClean(s);
    assert s[|w|] == '.';
    FindAnyIs(s, 0, ".", |w|);
    assert s[..|w|] == w;
    assert s[|w| + 1..] == f;
  }

  /** The literal `w.f` is the float of its whole digits plus its fraction digits. */
  lemma ParseFloatDecimal(w: string, f: string)
    requires AllDigits(w) && AllDigits(f) && |w| + |f| > 0
    ensures ParseFloat(w + "." + f)
         == Some(DigitsValue(w) as real + FracValue(f))
  {
    DecimalPieces(w, f);
    FloatOfPieces(w + "." + f, w, f);
  }

  /** A literal that needs no stripping, has no sign and has its first dot after `w` and `f` after that dot. */
  lemma FloatOfPieces(s: string, w: string, f: string)
    requires AllDigits(w) && AllDigits(f) && |w| + |f| > 0
    requires Strip(s) == s && Unsigned(s) == (s, false) && FindAny(s, 0, ".") == |w| < |s|
    requires s[..|w|] == w && s[|w| + 1..] == f
    ensures ParseFloat(s) == Some(DigitsValue(w) as real + FracValue(f))
  {
  }

  lemma DecimalIsNumeral(w: string, f: string)
    requires AllDigits(w) && AllDigits(f) && |w| + |f| > 0
    ensures Numeral(w + "." + f)
  {
    ParseFloatDecimal(w, f);
    DigitsDotDigits(w, f);
  }

  /** Python's `int(s)`: surrounding whitespace, an optional sign, one or more digits. */
  function ParseInt(s: string): Option<int> {
    var (body, negative) := Unsigned(Strip(s));
    if body != [] && AllDigits(body) then
      Some(if negative then -(DigitsValue(body) as int) else DigitsValue(body) as int)
    else
      None
  }

  /** Python's `str(n)` for a natural number. */
  function NatToString(n: nat): (s: string)
    ensures s != [] && AllDigits(s)
  {
    if n < 10 then [DigitChar(n)] else NatToString(n / 10) + [DigitChar(n % 10)]
  }

  /** Python's `str(n)` for an integer. */
  function IntToString(n: int): (s: string)
    ensures s != []
  {
    if n < 0 then "-" + NatToString(-n) else NatToString(n)
  }

  lemma {:induction false} NatToStringValue(n: nat)
    ensures DigitsValue(NatToString(n)) == n
  {
    if n >= 10 {
      NatToStringValue(n / 10);
      var s := NatToString(n);
      var p := NatToString(n / 10);
      assert s == p + [DigitChar(n % 10)];
      assert s[..|p|] == p[..|p|];
      DigitsPrefixSlice(s, p, |p|);
      assert s[|p|] == DigitChar(n % 10);
      assert DigitsValue(s) == DigitsPrefix(s, |p|) * 10 + DigitValue(s[|p|]);
      assert DigitsValue(s) == (n / 10) * 10 + n % 10;
    } else {
      var s := NatToString(n);
      assert DigitsValue(s) == DigitsPrefix(s, 0) * 10 + DigitValue(s[0]);
    }
  }

  lemma {:induction false} ParseIntDigits(digits: string)
    requires digits != [] && AllDigits(digits)
    ensures ParseInt(digits) == Some(DigitsValue(digits) as int)
  {
    StripClean(digits);
    assert Unsigned(digits) == (digits, false);
  }

  lemma {:induction false} ParseIntNegDigits(digits: string)
    requires digits != [] && AllDigits(digits)
    ensures ParseInt("-" + digits) == Some(-(DigitsValue(digits) as int))
  {
    var minus := "-" + digits;
    StripClean(minus);
    assert minus[1..] == digits;
    assert Unsigned(minus) == (digits, true);
  }

  /** `int(str(n)) == n`: the decimal rendering of an integer parses back to it. */
  lemma {:induction false} IntToStringRoundTrip(n: int)
    ensures ParseInt(IntToString(n)) == Some(n)
  {
    var m: nat := if n < 0 then -n else n;
    NatToStringValue(m);
    if n < 0 {
      ParseIntNegDigits(NatToString(m));
    } else {
      ParseIntDigits(NatToString(m));
    }
  }
}
