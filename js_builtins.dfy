/**
 * The small part of the JavaScript runtime that the modelled code relies on:
 * the truncated remainder `%`, `Array.prototype.find`, and the string
 * operations `trim`, `split`, `slice(0, n)`, `padStart`, `join`, `String(n)`
 * and `Number(s)`. Strings are sequences of `char`; a character outside the
 * Basic Multilingual Plane is one `char` here but two UTF-16 code units in JavaScript.
 */
module JsBuiltins {
  import opened Wrappers

  // ---------------------------------------------------------------- numbers

  /** JavaScript `a % b`: the remainder carries the sign of the dividend. */
  function JsRem(a: int, b: int): (r: int)
    requires b > 0
    ensures a >= 0 ==> r == a % b
    ensures a < 0 ==> -b < r <= 0
  {
    if a >= 0 then a % b else -((-a) % b)
  }

  // ----------------------------------------------------------------- arrays

  /** `xs.find(p)`: the first element satisfying `p`, or `undefined`. */
  function Find<T>(xs: seq<T>, p: T -> bool): (r: Option<T>)
    ensures r.None? <==> forall i :: 0 <= i < |xs| ==> !p(xs[i])
    ensures r.Some? ==> exists i :: 0 <= i < |xs| && xs[i] == r.value && p(xs[i]) &&
                                    forall j :: 0 <= j < i ==> !p(xs[j])
  {
    if xs == [] then None
    else if p(xs[0]) then Some(xs[0])
    else
      var r := Find(xs[1..], p);
      assert forall i :: 1 <= i < |xs| ==> xs[i] == xs[1..][i - 1];
      r
  }

  // ------------------------------------------------------------- whitespace

  /** The characters `String.prototype.trim` removes: WhiteSpace and LineTerminator. */
  predicate IsWhite(c: char) {
    c == '\U{9}' || c == '\U{A}' || c == '\U{B}' || c == '\U{C}' || c == '\U{D}' ||
    c == '\U{20}' || c == '\U{A0}' || c == '\U{1680}' || ('\U{2000}' <= c <= '\U{200A}') ||
    c == '\U{2028}' || c == '\U{2029}' || c == '\U{202F}' || c == '\U{205F}' ||
    c == '\U{3000}' || c == '\U{FEFF}'
  }

  predicate AllWhite(s: string) {
    forall i :: 0 <= i < |s| ==> IsWhite(s[i])
  }

  function TrimStart(s: string): (r: string)
    ensures r == "" || !IsWhite(r[0])
    ensures r == "" <==> AllWhite(s)
    ensures |r| <= |s| && r == s[|s| - |r|..]
  {
    if s != "" && IsWhite(s[0]) then
      var r := TrimStart(s[1..]);
      assert AllWhite(s[1..]) ==> AllWhite(s) by {
        if AllWhite(s[1..]) {
          forall i | 0 <= i < |s| ensures IsWhite(s[i]) {
            if i > 0 { assert s[i] == s[1..][i - 1]; }
          }
        }
      }
      r
    else s
  }

  function TrimEnd(s: string): (r: string)
    ensures r == "" || !IsWhite(r[|r| - 1])
    ensures r == "" <==> AllWhite(s)
    ensures |r| <= |s| && r == s[..|r|]
  {
    if s != "" && IsWhite(s[|s| - 1]) then
      var r := TrimEnd(s[..|s| - 1]);
      assert AllWhite(s[..|s| - 1]) ==> AllWhite(s) by {
        if AllWhite(s[..|s| - 1]) {
          forall i | 0 <= i < |s| ensures IsWhite(s[i]) {
            if i < |s| - 1 { assert s[i] == s[..|s| - 1][i]; }
          }
        }
      }
      r
    else s
  }

  /**
   * `s.trim()`: what is left is a contiguous part of `s` that neither starts
   * nor ends with whitespace, and it is empty exactly when `s` is all whitespace.
   */
  function Trim(s: string): (r: string)
    ensures r == "" <==> AllWhite(s)
    ensures r != "" ==> !IsWhite(r[0]) && !IsWhite(r[|r| - 1])
    ensures |r| <= |s|
    ensures s == "" || (!IsWhite(s[0]) && !IsWhite(s[|s| - 1])) ==> r == s
  {
    var t := TrimStart(s);
    var r := TrimEnd(t);
    r
  }

  // ------------------------------------------------------------------ split

  /** `s.indexOf(c)`: the first position of `c` in `s`, or -1. */
  function IndexOfChar(s: string, c: char): (k: int)
    ensures -1 <= k < |s|
    ensures k == -1 <==> c !in s
    ensures k >= 0 ==> s[k] == c && c !in s[..k]
  {
    if s == "" then -1
    else if s[0] == c then 0
    else
      var k := IndexOfChar(s[1..], c);
      if k == -1 then -1
      else
        assert s[..k + 1] == [s[0]] + s[1..][..k];
        k + 1
  }

  /** `s.split(sep)` for a one-character separator. */
  function Split(s: string, sep: char): (parts: seq<string>)
    ensures |parts| >= 1
    decreases |s|
  {
    var k := IndexOfChar(s, sep);
    if k == -1 then [s] else [s[..k]] + Split(s[k + 1..], sep)
  }

  /** A string without the separator splits into itself alone. */
  lemma SplitNoSeparator(s: string, sep: char)
    requires sep !in s
    ensures Split(s, sep) == [s]
  {
  }

  /** The part before the first separator is split off whole. */
  lemma SplitAt(a: string, sep: char, b: string)
    requires sep !in a
    ensures Split(a + [sep] + b, sep) == [a] + Split(b, sep)
  {
    var s := a + [sep] + b;
    FirstSeparatorAt(a, sep, b);
    assert s[..|a|] == a && s[|a| + 1..] == b;
  }

  /** The first separator after a separator-free part is found right after it. */
  lemma {:induction false} FirstSeparatorAt(a: string, sep: char, b: string)
    requires sep !in a
    ensures IndexOfChar(a + [sep] + b, sep) == |a|
  {
    if a != [] {
      assert (a + [sep] + b)[1..] == a[1..] + [sep] + b;
      FirstSeparatorAt(a[1..], sep, b);
    }
  }

  /** A leading separator splits off an empty first part. */
  lemma SplitLeadingSeparator(b: string, sep: char)
    ensures Split([sep] + b, sep) == [""] + Split(b, sep)
  {
    var s := [sep] + b;
    assert s[..0] == "" && s[1..] == b;
  }

  /** One separator between two separator-free parts gives those two parts. */
  lemma SplitTwo(a: string, b: string, sep: char)
    requires sep !in a && sep !in b
    ensures Split(a + [sep] + b, sep) == [a, b]
  {
    assert [a] + [b] == [a, b];
    SplitAt(a, sep, b);
    SplitNoSeparator(b, sep);
  }

  /** Two separator-free parts, each followed by a separator, are split off whole. */
  lemma SplitTwoThenRest(a: string, b: string, rest: string, sep: char)
    requires sep !in a && sep !in b
    ensures Split(a + [sep] + b + [sep] + rest, sep) == [a, b] + Split(rest, sep)
  {
    assert a + [sep] + b + [sep] + rest == a + [sep] + (b + [sep] + rest);
    assert [a] + ([b] + Split(rest, sep)) == [a, b] + Split(rest, sep);
    SplitAt(a, sep, b + [sep] + rest);
    SplitAt(b, sep, rest);
  }

  /** Two separators between three separator-free parts give those three parts. */
  lemma SplitThree(a: string, b: string, c: string, sep: char)
    requires sep !in a && sep !in b && sep !in c
    ensures Split(a + [sep] + b + [sep] + c, sep) == [a, b, c]
  {
    assert a + [sep] + b + [sep] + c == a + [sep] + (b + [sep] + c);
    assert [a] + ([b] + [c]) == [a, b, c];
    SplitAt(a, sep, b + [sep] + c);
    SplitAt(b, sep, c);
    SplitNoSeparator(c, sep);
  }

  /** A leading separator before three separator-free parts adds an empty fourth part. */
  lemma SplitSignedThree(a: string, b: string, c: string, sep: char)
    requires sep !in a && sep !in b && sep !in c
    ensures Split([sep] + a + [sep] + b + [sep] + c, sep) == ["", a, b, c]
  {
    var rest := a + [sep] + b + [sep] + c;
    assert [sep] + a + [sep] + b + [sep] + c == [sep] + rest;
    assert [""] + [a, b, c] == ["", a, b, c];
    SplitThree(a, b, c, sep);
    SplitLeadingSeparator(rest, sep);
  }

  // --------------------------------------------------------- slice, padding

  /** `s.slice(0, n)` for `n >= 0`. */
  function Prefix(s: string, n: nat): (r: string)
    ensures |r| == if |s| < n then |s| else n
    ensures r <= s
  {
    if |s| < n then s else s[..n]
  }

  function Repeat(c: char, n: nat): (r: string)
    ensures |r| == n && forall i :: 0 <= i < n ==> r[i] == c
  {
    if n == 0 then "" else [c] + Repeat(c, n - 1)
  }

  /** `s.padStart(n, [c])`: prepend copies of `c` until `s` has length `n`. */
  function PadStart(s: string, n: nat, c: char): (r: string)
    ensures |r| == if |s| < n then n else |s|
    ensures s <= r[|r| - |s|..] && forall i :: 0 <= i < |r| - |s| ==> r[i] == c
  {
    if |s| < n then Repeat(c, n - |s|) + s else s
  }

  // ------------------------------------------------------------------- join

  /** `parts.join(sep)`. */
  function Join(parts: seq<string>, sep: string): (r: string)
  {
    if parts == [] then ""
    else if |parts| == 1 then parts[0]
    else parts[0] + sep + Join(parts[1..], sep)
  }

  function TotalLength(parts: seq<string>): nat {
    if parts == [] then 0 else |parts[0]| + TotalLength(parts[1..])
  }

  /** A join is as long as its parts plus one separator between each pair. */
  lemma {:induction false} JoinLength(parts: seq<string>, sep: string)
    requires parts != []
    ensures |Join(parts, sep)| == TotalLength(parts) + (|parts| - 1) * |sep|
  {
    if |parts| > 1 {
      JoinLength(parts[1..], sep);
    }
  }

  // ---------------------------------------------------------------- numbers

  predicate IsDigit(c: char) {
    '0' <= c <= '9'
  }

  predicate AllDigits(s: string) {
    forall i :: 0 <= i < |s| ==> IsDigit(s[i])
  }

  function DigitChar(d: nat): (c: char)
    requires d < 10
    ensures IsDigit(c)
  {
    (d + '0' as int) as char
  }

  function DigitValue(c: char): (d: nat)
    requires IsDigit(c)
    ensures d < 10 && DigitChar(d) == c
  {
    (c as int - '0' as int)
  }

  /** The value of a string of decimal digits; the empty string reads as 0. */
  function DigitsValue(s: string): nat
    requires AllDigits(s)
  {
    if s == "" then 0 else DigitsValue(s[..|s| - 1]) * 10 + DigitValue(s[|s| - 1])
  }

  /**
   * `Number(s)` on decimal-digit strings (including the empty string, which
   * JavaScript reads as 0); every other string is treated as NaN (None).
   */
  function ToNumber(s: string): (r: Option<int>)
    ensures r.Some? <==> AllDigits(s)
    ensures r.Some? ==> r.value >= 0
  {
    if AllDigits(s) then Some(DigitsValue(s)) else None
  }

  /** `String(n)` for a natural number: its shortest decimal numeral. */
  function NatToString(n: nat): (r: string)
    ensures r != "" && AllDigits(r)
    ensures |r| > 1 ==> r[0] != '0'
  {
    if n < 10 then [DigitChar(n)]
    else
      var r := NatToString(n / 10) + [DigitChar(n % 10)];
      assert r[0] == NatToString(n / 10)[0];
      r
  }

  /** `String(i)` for an integer: a minus sign before the numeral of a negative one. */
  function IntToString(i: int): (r: string)
    ensures r != ""
    ensures i >= 0 ==> r == NatToString(i)
    ensures i < 0 ==> r == "-" + NatToString(-i)
  {
    if i < 0 then "-" + NatToString(-i) else NatToString(i)
  }

  lemma {:induction false} NatToStringValue(n: nat)
    ensures DigitsValue(NatToString(n)) == n
  {
    if n >= 10 {
      NatToStringValue(n / 10);
      var r := NatToString(n);
      assert r[..|r| - 1] == NatToString(n / 10);
    }
  }

  /** Leading zeros do not change the value of a digit string. */
  lemma {:induction false} LeadingZerosValue(k: nat, s: string)
    requires AllDigits(s)
    ensures AllDigits(Repeat('0', k) + s)
    ensures DigitsValue(Repeat('0', k) + s) == DigitsValue(s)
    decreases k + |s|
  {
    var t := Repeat('0', k) + s;
    if s == "" {
      assert t == Repeat('0', k);
      if k > 0 {
        assert t[..|t| - 1] == Repeat('0', k - 1) + "";
        LeadingZerosValue(k - 1, "");
      }
    } else {
      assert t[..|t| - 1] == Repeat('0', k) + s[..|s| - 1];
      LeadingZerosValue(k, s[..|s| - 1]);
    }
  }

  /** `String(n).padStart(w, "0")` reads back, through `Number`, as `n`. */
  lemma PaddedNumeralValue(n: nat, w: nat)
    ensures var t := PadStart(NatToString(n), w, '0');
            AllDigits(t) && ToNumber(t) == Some(n)
  {
    var s := NatToString(n);
    NatToStringValue(n);
    if |s| < w {
      LeadingZerosValue(w - |s|, s);
    }
  }

  /** `String(n).padStart(2, "0")`: the two-digit field of a clock or a calendar date. */
  function TwoDigits(n: int): string {
    PadStart(IntToString(n), 2, '0')
  }

  /** A digit string holds no other character. */
  lemma DigitsExclude(s: string, c: char)
    requires AllDigits(s) && !IsDigit(c)
    ensures c !in s
  {
  }

  /** A natural number in a two-digit field reads back through `Number`. */
  lemma TwoDigitsValue(n: nat)
    ensures AllDigits(TwoDigits(n)) && ToNumber(TwoDigits(n)) == Some(n)
  {
    PaddedNumeralValue(n, 2);
  }

  /** A number below 100 pads to exactly two characters. */
  lemma TwoDigitsWidth(n: int)
    requires 0 <= n < 100
    ensures |TwoDigits(n)| == 2
  {
    NumeralLength(n);
  }

  lemma {:induction false} NumeralLength(n: nat)
    ensures n < 10 ==> |NatToString(n)| == 1
    ensures 10 <= n < 100 ==> |NatToString(n)| == 2
    ensures 100 <= n < 1000 ==> |NatToString(n)| == 3
    ensures 1000 <= n < 10000 ==> |NatToString(n)| == 4
  {
    if n >= 10 {
      NumeralLength(n / 10);
    }
  }
}
