/** Small building blocks shared by every module of the model: an Option type,
    the pieces of Python's string handling the program relies on (`str.strip`,
    `str.startswith`, `in` on strings, `str.split`, ASCII case mapping) and the
    two number parsers the program calls on text: `int(text)` and
    `float(text)`. */
module Common {

  datatype Option<+T> = None | Some(value: T)

  // ---------------------------------------------------------------- characters

  predicate IsDigit(c: char) { '0' <= c <= '9' }

  function DigitValue(c: char): (d: nat)
    requires IsDigit(c)
    ensures d < 10
  {
    c as int - '0' as int
  }

  function DigitChar(d: nat): (c: char)
    requires d < 10
    ensures IsDigit(c) && DigitValue(c) == d
  {
    ('0' as int + d) as char
  }

  /** Python's `str.isspace`: every code point that `str.strip()` and
      `int()` treat as white space. */
  predicate IsSpace(c: char)
  {
    c == ' ' || c == '\t' || c == '\n' || c == '\r' || c == '\U{000B}' || c == '\U{000C}'
    || ('\U{001C}' <= c <= '\U{001F}') || c == '\U{0085}' || c == '\U{00A0}' || c == '\U{1680}'
    || ('\U{2000}' <= c <= '\U{200A}') || c == '\U{2028}' || c == '\U{2029}' || c == '\U{202F}'
    || c == '\U{205F}' || c == '\U{3000}'
  }

  function LowerChar(c: char): char
  {
    if 'A' <= c <= 'Z' then (c as int + 32) as char else c
  }

  function UpperChar(c: char): char
  {
    if 'a' <= c <= 'z' then (c as int - 32) as char else c
  }

  // ---------------------------------------------------------------- strings

  predicate AllDigits(s: string)
  {
    forall i :: 0 <= i < |s| ==> IsDigit(s[i])
  }

  predicate Lacks(s: string, c: char)
  {
    forall i :: 0 <= i < |s| ==> s[i] != c
  }

  lemma AppendAssoc<T>(a: seq<T>, b: seq<T>, c: seq<T>)
    ensures a + (b + c) == a + b + c
  {
  }

  predicate StartsWith(s: string, prefix: string)
  {
    |prefix| <= |s| && s[..|prefix|] == prefix
  }

  /** Python's `needle in s` on strings. */
  predicate Contains(s: string, needle: string)
  {
    exists i | 0 <= i <= |s| - |needle| :: StartsWith(s[i..], needle)
  }

  /** `str.lstrip()`: drops the white space in front. */
  function TrimStart(s: string): (r: string)
    ensures |r| <= |s| && r == s[|s| - |r|..]
    ensures r == [] || !IsSpace(r[0])
    ensures forall i :: 0 <= i < |s| - |r| ==> IsSpace(s[i])
    decreases |s|
  {
    if |s| > 0 && IsSpace(s[0]) then TrimStart(s[1..]) else s
  }

  /** `str.rstrip()`: drops the white space at the end. */
  function TrimEnd(s: string): (r: string)
    ensures |r| <= |s| && r == s[..|r|]
    ensures r == [] || !IsSpace(r[|r| - 1])
    ensures forall i :: |r| <= i < |s| ==> IsSpace(s[i])
    decreases |s|
  {
    if |s| > 0 && IsSpace(s[|s| - 1]) then TrimEnd(s[..|s| - 1]) else s
  }

  /** `str.strip()`. */
  function Strip(s: string): (r: string)
    ensures r == [] || (!IsSpace(r[0]) && !IsSpace(r[|r| - 1]))
  {
    TrimEnd(TrimStart(s))
  }

  lemma StripUnchanged(s: string)
    requires s == [] || (!IsSpace(s[0]) && !IsSpace(s[|s| - 1]))
    ensures Strip(s) == s
  {
  }

  /** `str.rstrip("\n")`. */
  function TrimNewlines(s: string): (r: string)
    ensures |r| <= |s| && r == s[..|r|]
    ensures r == [] || r[|r| - 1] != '\n'
    ensures forall i :: |r| <= i < |s| ==> s[i] == '\n'
    decreases |s|
  {
    if |s| > 0 && s[|s| - 1] == '\n' then TrimNewlines(s[..|s| - 1]) else s
  }

  function Lower(s: string): (r: string)
    ensures |r| == |s| && forall i :: 0 <= i < |s| ==> r[i] == LowerChar(s[i])
  {
    seq(|s|, i requires 0 <= i < |s| => LowerChar(s[i]))
  }

  function Upper(s: string): (r: string)
    ensures |r| == |s| && forall i :: 0 <= i < |s| ==> r[i] == UpperChar(s[i])
  {
    seq(|s|, i requires 0 <= i < |s| => UpperChar(s[i]))
  }

  /** `s.replace(c, "")` for a one-character `c`. */
  function RemoveAll(s: string, c: char): (r: string)
    ensures Lacks(r, c)
    ensures |r| <= |s|
    ensures Lacks(s, c) ==> r == s
  {
    if s == [] then []
    else if s[0] == c then RemoveAll(s[1..], c)
    else [s[0]] + RemoveAll(s[1..], c)
  }

  /** Removing a character adds no digit. */
  lemma {:induction false} RemoveAllNoDigit(s: string, c: char)
    requires forall i :: 0 <= i < |s| ==> !IsDigit(s[i])
    ensures forall i :: 0 <= i < |RemoveAll(s, c)| ==> !IsDigit(RemoveAll(s, c)[i])
    decreases |s|
  {
    if s != [] {
      RemoveAllNoDigit(s[1..], c);
    }
  }

  lemma {:induction false} RemoveAllAppend(a: string, b: string, c: char)
    ensures RemoveAll(a + b, c) == RemoveAll(a, c) + RemoveAll(b, c)
    decreases |a|
  {
    if a != [] {
      assert (a + b)[1..] == a[1..] + b;
      RemoveAllAppend(a[1..], b, c);
    } else {
      assert a + b == b;
    }
  }

  function IndexOf(s: string, c: char): (r: Option<nat>)
    ensures r.None? <==> Lacks(s, c)
    ensures r.Some? ==> r.value < |s| && s[r.value] == c && Lacks(s[..r.value], c)
  {
    if s == [] then None
    else if s[0] == c then Some(0)
    else match IndexOf(s[1..], c)
      case None => None
      case Some(i) => Some(i + 1)
  }

  lemma IndexOfAt(s: string, c: char, i: nat)
    requires i < |s| && s[i] == c && Lacks(s[..i], c)
    ensures IndexOf(s, c) == Some(i)
  {
    assert !Lacks(s, c);
  }

  /** Python's `s.split(c)` for a one-character separator. */
  function SplitOn(s: string, c: char): (parts: seq<string>)
    ensures |parts| >= 1
    ensures forall k :: 0 <= k < |parts| ==> Lacks(parts[k], c)
    ensures Lacks(s, c) ==> parts == [s]
    decreases |s|
  {
    match IndexOf(s, c)
    case None => [s]
    case Some(i) => [s[..i]] + SplitOn(s[i + 1..], c)
  }

  lemma SplitOnCons(a: string, c: char, b: string)
    requires Lacks(a, c)
    ensures SplitOn(a + [c] + b, c) == [a] + SplitOn(b, c)
  {
    var v := a + [c] + b;
    assert v[..|a|] == a;
    IndexOfAt(v, c, |a|);
    assert v[|a| + 1..] == b;
  }

  lemma LacksAppend(a: string, b: string, c: char)
    requires Lacks(a, c) && Lacks(b, c)
    ensures Lacks(a + b, c)
  {
    assert forall i :: 0 <= i < |a + b| ==> (a + b)[i] == if i < |a| then a[i] else b[i - |a|];
  }

  /** Splitting three separator-free pieces joined by the separator gives
      back the three pieces. */
  lemma SplitOnThree(a: string, b: string, d: string, c: char)
    requires Lacks(a, c) && Lacks(b, c) && Lacks(d, c)
    ensures SplitOn(a + [c] + b + [c] + d, c) == [a, b, d]
  {
    var rest := b + [c] + d;
    assert a + [c] + b + [c] + d == a + [c] + rest;
    SplitOnCons(a, c, rest);
    SplitOnCons(b, c, d);
  }

  /** Python's `sep.join(parts)`. */
  function JoinWith(parts: seq<string>, sep: string): string
  {
    if |parts| == 0 then []
    else if |parts| == 1 then parts[0]
    else parts[0] + sep + JoinWith(parts[1..], sep)
  }

  /** `s[-n:]`: the last `n` elements (characters, lines), or all of `s` when
      it is shorter. */
  function LastN<T>(s: seq<T>, n: nat): (r: seq<T>)
    ensures |r| == if |s| <= n then |s| else n
    ensures r == s[|s| - |r|..]
  {
    if |s| <= n then s else s[|s| - n..]
  }

  // ---------------------------------------------------------------- numbers

  /** Decimal rendering of a natural number, as Python's `str(n)`. */
  function NatToString(n: nat): (s: string)
    ensures |s| > 0 && AllDigits(s)
    ensures |s| > 1 ==> s[0] != '0'
    ensures n < 10 ==> s == [DigitChar(n)]
  {
    if n < 10 then [DigitChar(n)] else NatToString(n / 10) + [DigitChar(n % 10)]
  }

  /** The number a string of decimal digits denotes (it is only applied to
      digits; anything else would count as a zero digit). */
  function DigitsValue(s: string): nat
  {
    if s == [] then 0
    else DigitsValue(s[..|s| - 1]) * 10 + (if IsDigit(s[|s| - 1]) then DigitValue(s[|s| - 1]) else 0)
  }

  lemma {:induction false} DigitsValueOfNatToString(n: nat)
    ensures DigitsValue(NatToString(n)) == n
  {
    if n >= 10 {
      var s := NatToString(n);
      assert s[..|s| - 1] == NatToString(n / 10);
      DigitsValueOfNatToString(n / 10);
    }
  }

  lemma {:induction false} NatToStringInjective(m: nat, n: nat)
    requires NatToString(m) == NatToString(n)
    ensures m == n
  {
    DigitsValueOfNatToString(m);
    DigitsValueOfNatToString(n);
  }

  lemma DropPrefix(p: string, x: string, y: string)
    requires p + x == p + y
    ensures x == y
  {
    assert x == (p + x)[|p|..];
    assert y == (p + y)[|p|..];
  }

  lemma DigitAfterPrefix(a: string, x: string, b: string, y: string)
    requires AllDigits(b) && |a| < |b| && x != [] && a + x == b + y
    ensures IsDigit(x[0])
  {
    assert (a + x)[|a|] == x[0];
    assert (b + y)[|a|] == b[|a|];
  }

  /** A run of digits followed by something that starts with a non-digit is
      determined by the whole string. */
  lemma DigitsPrefixUnique(a: string, x: string, b: string, y: string)
    requires AllDigits(a) && AllDigits(b)
    requires x != [] && !IsDigit(x[0]) && y != [] && !IsDigit(y[0])
    requires a + x == b + y
    ensures a == b
  {
    if |a| < |b| {
      DigitAfterPrefix(a, x, b, y);
    }
    if |b| < |a| {
      DigitAfterPrefix(b, y, a, x);
    }
    assert a == (a + x)[..|a|];
    assert b == (b + y)[..|b|];
  }

  /** Python's `digitpart`: digits, each pair optionally separated by a single
      underscore (`1_000`). */
  predicate IsDigitPart(b: string)
    decreases |b|
  {
    |b| > 0 && IsDigit(b[0])
    && (|b| == 1
        || (IsDigit(b[1]) && IsDigitPart(b[1..]))
        || (b[1] == '_' && IsDigitPart(b[2..])))
  }

  lemma {:induction false} DigitsAreDigitPart(s: string)
    requires |s| > 0 && AllDigits(s)
    ensures IsDigitPart(s)
    decreases |s|
  {
    if |s| > 1 {
      DigitsAreDigitPart(s[1..]);
    }
  }

  /** The value of a digit part with its underscores dropped. */
  function DigitPartValue(b: string): nat
    requires IsDigitPart(b)
  {
    DigitsValue(RemoveAll(b, '_'))
  }

  /** Python's `int(text)` in base 10: white space around, an optional sign,
      then a digit part. `None` stands for the `ValueError` it raises. */
  function ParsePyInt(s: string): (r: Option<int>)
    ensures r.Some? ==> Strip(s) != []
  {
    var t := Strip(s);
    if |t| > 0 && (t[0] == '+' || t[0] == '-') then
      if IsDigitPart(t[1..]) then
        var v: int := DigitPartValue(t[1..]);
        Some(if t[0] == '-' then -v else v)
      else None
    else if IsDigitPart(t) then Some(DigitPartValue(t))
    else None
  }

  lemma ParsePyIntOfNatToString(n: nat)
    ensures ParsePyInt(NatToString(n)) == Some(n)
  {
    var s := NatToString(n);
    StripUnchanged(s);
    assert Strip(s) == s;
    assert s[0] != '+' && s[0] != '-';
    DigitsAreDigitPart(s);
    assert Lacks(s, '_');
    assert RemoveAll(s, '_') == s;
    DigitsValueOfNatToString(n);
    assert DigitPartValue(s) == n;
  }

  /** Decimal rendering of any integer, as Python's `str(n)`. */
  function IntToString(n: int): (s: string)
    ensures |s| > 0 && Lacks(s, '/')
  {
    if n < 0 then "-" + NatToString(-n) else NatToString(n)
  }

  /** `int(str(n)) == n`. */
  lemma ParsePyIntOfIntToString(n: int)
    ensures ParsePyInt(IntToString(n)) == Some(n)
  {
    if n >= 0 {
      ParsePyIntOfNatToString(n);
    } else {
      var m: nat := -n;
      var s := IntToString(n);
      ParsePyIntOfNegative(m, s);
      var r := ParsePyInt(s);
      assert r == Some(0 - m as int);
      assert r.value == n;
    }
  }

  lemma ParsePyIntOfNegative(m: nat, s: string)
    requires s == "-" + NatToString(m)
    ensures ParsePyInt(s) == Some(0 - m as int)
  {
    NegativeText(m, s);
    NatDigitPart(m);
  }

  lemma NegativeText(m: nat, s: string)
    requires s == "-" + NatToString(m)
    ensures Strip(s) == s && s[0] == '-' && s[1..] == NatToString(m)
  {
    var d := NatToString(m);
    assert s[1..] == d;
    assert s[|s| - 1] == d[|d| - 1];
    StripUnchanged(s);
  }

  lemma NatDigitPart(m: nat)
    ensures IsDigitPart(NatToString(m)) && DigitPartValue(NatToString(m)) == m
  {
    var d := NatToString(m);
    DigitsAreDigitPart(d);
    assert Lacks(d, '_');
    assert RemoveAll(d, '_') == d;
    DigitsValueOfNatToString(m);
  }

  /** `int(text)` only succeeds on text holding at least one digit. */
  lemma ParsePyIntNeedsDigit(s: string)
    requires ParsePyInt(s).Some?
    ensures exists i :: 0 <= i < |s| && IsDigit(s[i])
  {
    var a := TrimStart(s);
    var t := TrimEnd(a);
    assert t == Strip(s);
    var k := if t[0] == '+' || t[0] == '-' then 1 else 0;
    assert IsDigit(t[k]);
    assert t[k] == a[k] == s[|s| - |a| + k];
  }

  /** The value of the digits after a decimal point: `0.d1d2...`. */
  function FractionValue(digits: string): (x: real)
    ensures 0.0 <= x < 1.0
  {
    if digits == [] then 0.0
    else ((if IsDigit(digits[0]) then DigitValue(digits[0]) else 0) as real + FractionValue(digits[1..])) / 10.0
  }

  /** The number written `intDigits.fracDigits`. */
  function DecimalValue(intDigits: string, fracDigits: string): (x: real)
    ensures x >= 0.0
  {
    DigitsValue(intDigits) as real + FractionValue(fracDigits)
  }

  /** Python's `float(text)` for plain decimal notation: white space around,
      an optional sign, then `digitpart`, `digitpart.`, `.digitpart` or
      `digitpart.digitpart`. */
  function ParsePyFloat(s: string): (r: Option<real>)
  {
    var t := Strip(s);
    var negative := |t| > 0 && t[0] == '-';
    var body := if |t| > 0 && (t[0] == '+' || t[0] == '-') then t[1..] else t;
    match ParseUnsignedDecimal(body)
    case None => None
    case Some(x) => Some(if negative then -x else x)
  }

  function ParseUnsignedDecimal(body: string): (r: Option<real>)
    ensures r.Some? ==> r.value >= 0.0
  {
    match IndexOf(body, '.')
    case None =>
      if IsDigitPart(body) then Some(DigitPartValue(body) as real) else None
    case Some(d) =>
      var whole, frac := body[..d], body[d + 1..];
      if (whole == [] || IsDigitPart(whole)) && (frac == [] || IsDigitPart(frac)) && !(whole == [] && frac == []) then
        Some(DecimalValue(RemoveAll(whole, '_'), RemoveAll(frac, '_')))
      else None
  }

  /** A plain run of digits reads as the number it spells. */
  lemma UnsignedDecimalOfDigits(s: string)
    requires |s| > 0 && AllDigits(s)
    ensures ParseUnsignedDecimal(s) == Some(DigitsValue(s) as real)
  {
    assert Lacks(s, '.');
    DigitsAreDigitPart(s);
    assert Lacks(s, '_');
    assert RemoveAll(s, '_') == s;
  }

  /** Text with no white space around and no sign reads as its unsigned
      value. */
  lemma UnsignedFloat(s: string)
    requires |s| > 0 && Strip(s) == s && s[0] != '+' && s[0] != '-'
    ensures ParsePyFloat(s) == ParseUnsignedDecimal(s)
  {
  }

  /** `float(str(n)) == n`. */
  lemma ParsePyFloatOfNatToString(n: nat)
    ensures ParsePyFloat(NatToString(n)) == Some(n as real)
  {
    var s := NatToString(n);
    StripUnchanged(s);
    UnsignedFloat(s);
    UnsignedDecimalOfDigits(s);
    DigitsValueOfNatToString(n);
  }

  /** `int(x)` on a float: truncation toward zero. */
  function Trunc(x: real): (r: int)
    ensures x >= 0.0 ==> r == x.Floor
    ensures x < 0.0 ==> r == -((-x).Floor)
  {
    if x >= 0.0 then x.Floor else -((-x).Floor)
  }

  function Clamp(lo: int, hi: int, x: int): (r: int)
    requires lo <= hi
    ensures lo <= r <= hi
    ensures lo <= x <= hi ==> r == x
  {
    if x < lo then lo else if x > hi then hi else x
  }

  // ---------------------------------------------------------------- real arithmetic

  /** The whole number of `d`-long steps that fit in `b`, and not one
      more. */
  lemma FloorBracket(b: real, d: real)
    requires b >= 0.0 && d > 0.0
    ensures (b / d).Floor >= 0
    ensures (b / d).Floor as real * d <= b < ((b / d).Floor + 1) as real * d
  {
    var q := b / d;
    assert q * d == b;
    assert q >= 0.0;
    assert q.Floor as real <= q < (q.Floor + 1) as real;
    MulMonotone(q.Floor as real, q, d);
    MulStrict(q, (q.Floor + 1) as real, d);
    assert b < (q.Floor + 1) as real * d;
  }

  lemma MulMonotone(x: real, y: real, d: real)
    requires x <= y && d > 0.0
    ensures x * d <= y * d
  {
  }

  lemma MulStrict(x: real, y: real, d: real)
    requires x < y && d > 0.0
    ensures x * d < y * d
  {
  }

  lemma DivAntitone(b: real, s1: real, s2: real)
    requires b >= 0.0 && 0.0 < s1 <= s2
    ensures b / s2 <= b / s1
  {
    assert (b / s1) * s1 == b && (b / s2) * s2 == b;
    assert b / s1 >= 0.0;
    if b / s2 > b / s1 {
      MulStrict(b / s1, b / s2, s2);
      MulMonotone(s1, s2, b / s1);
    }
  }
}
