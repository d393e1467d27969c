/** Character classes and the number parsers the resource code relies on:
    digit runs, `parseInt` without a radix and `parseFloat`, both reading
    the longest numeric prefix after leading white space. Numbers are exact
    (no double rounding). */
module Text {
  import opened Outcomes

  predicate IsDigit(c: char)
  {
    '0' <= c <= '9'
  }

  predicate AllDigits(s: string)
  {
    forall i :: 0 <= i < |s| ==> IsDigit(s[i])
  }

  predicate IsHexDigit(c: char)
  {
    IsDigit(c) || 'a' <= c <= 'f' || 'A' <= c <= 'F'
  }

  predicate AllHexDigits(s: string)
  {
    forall i :: 0 <= i < |s| ==> IsHexDigit(s[i])
  }

  /** `base` raised to `n`. */
  function Pow(base: nat, n: nat): (r: nat)
    ensures base >= 1 ==> r >= 1
  {
    if n == 0 then 1 else base * Pow(base, n - 1)
  }

  lemma {:induction false} PowAdd(base: nat, a: nat, b: nat)
    ensures Pow(base, a + b) == Pow(base, a) * Pow(base, b)
  {
    if a > 0 {
      PowAdd(base, a - 1, b);
      var x, y := Pow(base, a - 1), Pow(base, b);
      assert Pow(base, a + b) == base * (x * y);
      assert Pow(base, a) == base * x;
      assert base * (x * y) == (base * x) * y;
    } else {
      assert Pow(base, a) == 1;
    }
  }

  function DigitValue(c: char): (r: nat)
    requires IsHexDigit(c)
    ensures IsDigit(c) ==> r < 10
    ensures r < 16
  {
    if IsDigit(c) then c as int - '0' as int
    else if 'a' <= c <= 'f' then c as int - 'a' as int + 10
    else c as int - 'A' as int + 10
  }

  /** The decimal number a digit string spells; it has fewer digits than
      the next power of ten. */
  function DigitsValue(s: string): (r: nat)
    requires AllDigits(s)
    ensures r < Pow(10, |s|)
  {
    if s == [] then 0 else DigitsValue(s[..|s| - 1]) * 10 + DigitValue(s[|s| - 1])
  }

  /** The hexadecimal number a hex-digit string spells. */
  function HexValue(s: string): nat
    requires AllHexDigits(s)
  {
    if s == [] then 0 else HexValue(s[..|s| - 1]) * 16 + DigitValue(s[|s| - 1])
  }

  /** `intDigits.fracDigits` read as a decimal number. */
  function DecimalValue(intDigits: string, fracDigits: string): real
    requires AllDigits(intDigits) && AllDigits(fracDigits)
  {
    DigitsValue(intDigits) as real + DigitsValue(fracDigits) as real / Pow(10, |fracDigits|) as real
  }

  /** Ten raised to an integer exponent. */
  function Pow10(e: int): (r: real)
    ensures r > 0.0
  {
    if e >= 0 then Pow(10, e) as real else 1.0 / Pow(10, -e) as real
  }

  /** Length of the leading run of decimal digits. */
  function DigitRun(s: string): (n: nat)
    ensures n <= |s| && AllDigits(s[..n])
    ensures n < |s| ==> !IsDigit(s[n])
  {
    if s == [] || !IsDigit(s[0]) then 0
    else
      var n := 1 + DigitRun(s[1..]);
      assert forall i :: 1 <= i < n ==> s[..n][i] == s[1..][..n - 1][i - 1];
      n
  }

  /** Length of the leading run of hexadecimal digits. */
  function HexRun(s: string): (n: nat)
    ensures n <= |s| && AllHexDigits(s[..n])
    ensures n < |s| ==> !IsHexDigit(s[n])
  {
    if s == [] || !IsHexDigit(s[0]) then 0
    else
      var n := 1 + HexRun(s[1..]);
      assert forall i :: 1 <= i < n ==> s[..n][i] == s[1..][..n - 1][i - 1];
      n
  }

  /** ECMAScript's StrWhiteSpaceChar: the white space and line terminators
      that `parseInt` and `parseFloat` skip before the number. */
  predicate IsJsSpace(c: char)
  {
    || c == '\t' || c == '\n' || c == '\U{000B}' || c == '\U{000C}' || c == '\r'
    || c == ' ' || c == '\U{00A0}' || c == '\U{1680}' || '\U{2000}' <= c <= '\U{200A}'
    || c == '\U{2028}' || c == '\U{2029}' || c == '\U{202F}' || c == '\U{205F}'
    || c == '\U{3000}' || c == '\U{FEFF}'
  }

  /** `s` without its leading white space. */
  function TrimStart(s: string): (r: string)
    ensures |r| <= |s| && r == s[|s| - |r|..]
    ensures r == [] || !IsJsSpace(r[0])
    ensures forall i :: 0 <= i < |s| - |r| ==> IsJsSpace(s[i])
  {
    if s == [] || !IsJsSpace(s[0]) then s
    else
      var r := TrimStart(s[1..]);
      assert forall i :: 1 <= i < |s| - |r| ==> s[i] == s[1..][i - 1];
      r
  }

  /** Leading sign of `t`: -1 after '-', otherwise +1. */
  function SignOf(t: string): int
  {
    if |t| > 0 && t[0] == '-' then -1 else 1
  }

  /** `t` without a leading '+' or '-'. */
  function Unsigned(t: string): string
  {
    if |t| > 0 && (t[0] == '-' || t[0] == '+') then t[1..] else t
  }

  /** JavaScript `parseInt(s)` with no radix: white space, a sign, then
      either `0x`/`0X` and hex digits or decimal digits. None stands for
      NaN (no digit where one was needed). */
  function ParseInt(s: string): Option<int>
  {
    var u := Unsigned(TrimStart(s));
    var sign := SignOf(TrimStart(s));
    if |u| >= 2 && u[0] == '0' && (u[1] == 'x' || u[1] == 'X') then
      var n := HexRun(u[2..]);
      if n == 0 then None else Some(sign * HexValue(u[2..][..n]))
    else
      var n := DigitRun(u);
      if n == 0 then None else Some(sign * DigitsValue(u[..n]))
  }

  /** True when `parseFloat(s)` would read the literal `Infinity`. */
  predicate InfinityPrefix(s: string)
  {
    var u := Unsigned(TrimStart(s));
    |u| >= 8 && u[..8] == "Infinity"
  }

  /** The exponent `e[+-]digits` at the start of `r`, or 0 when there is none. */
  function ExponentPrefix(r: string): int
  {
    if |r| < 2 || (r[0] != 'e' && r[0] != 'E') then 0
    else
      var v := r[1..];
      var w := Unsigned(v);
      var n := DigitRun(w);
      if n == 0 then 0 else SignOf(v) * DigitsValue(w[..n])
  }

  /** JavaScript `parseFloat(s)`: the longest prefix (after white space)
      of the form `[+-] digits [. digits] [e[+-]digits]` with at least one
      mantissa digit. None stands for NaN. */
  function ParseFloat(s: string): Option<real>
    requires !InfinityPrefix(s)
  {
    var u := Unsigned(TrimStart(s));
    var a := DigitRun(u);
    var afterInt := u[a..];
    var hasDot := |afterInt| > 0 && afterInt[0] == '.';
    var frac := if hasDot then afterInt[1..] else "";
    var b := DigitRun(frac);
    if a == 0 && b == 0 then None
    else
      var rest := if hasDot then frac[b..] else afterInt;
      Some(SignOf(TrimStart(s)) as real * DecimalValue(u[..a], frac[..b]) * Pow10(ExponentPrefix(rest)))
  }

  /** JavaScript `Math.trunc` on a real. */
  function Trunc(x: real): int
  {
    if x >= 0.0 then x.Floor else -((-x).Floor)
  }

  /** A string that starts with a digit is read from its first character. */
  lemma DigitLed(s: string)
    requires |s| > 0 && IsDigit(s[0])
    ensures TrimStart(s) == s && Unsigned(s) == s && !InfinityPrefix(s)
  {
    assert !IsJsSpace(s[0]);
  }

  lemma {:induction false} DigitRunOfDigits(a: string, rest: string)
    requires AllDigits(a)
    ensures DigitRun(a + rest) == |a| + DigitRun(rest)
  {
    if a != [] {
      var s := a + rest;
      assert s[0] == a[0] && IsDigit(s[0]);
      assert s[1..] == a[1..] + rest;
      DigitRunOfDigits(a[1..], rest);
    } else {
      assert a + rest == rest;
    }
  }

  lemma DecimalPieces(s: string, a: string, b: string, rest: string)
    requires s == a + "." + b + rest && AllDigits(a) && AllDigits(b)
    requires rest == [] || !IsDigit(rest[0])
    ensures DigitRun(s) == |a| && s[..|a|] == a && s[|a|..] == "." + (b + rest)
    ensures DigitRun(b + rest) == |b| && (b + rest)[..|b|] == b && (b + rest)[|b|..] == rest
  {
    var frac := b + rest;
    assert s == a + ("." + frac);
    assert DigitRun(s) == |a| by {
      DigitRunOfDigits(a, "." + frac);
      assert DigitRun("." + frac) == 0;
    }
    assert DigitRun(frac) == |b| by {
      DigitRunOfDigits(b, rest);
      assert DigitRun(rest) == 0;
    }
  }

  /** `parseFloat` of `<a>.<b>` followed by anything that neither continues
      the digits nor starts an exponent is exactly `a.b`. */
  lemma ParseFloatOfDecimal(s: string, a: string, b: string, rest: string)
    requires TrimStart(s) == s && Unsigned(s) == s && !InfinityPrefix(s)
    requires s == a + "." + b + rest && AllDigits(a) && AllDigits(b) && |b| >= 1
    requires rest == [] || (!IsDigit(rest[0]) && rest[0] != 'e' && rest[0] != 'E')
    ensures ParseFloat(s) == Some(DecimalValue(a, b))
  {
    var frac := b + rest;
    DecimalPieces(s, a, b, rest);
    assert ExponentPrefix(rest) == 0;
    assert SignOf(s) == 1 by {
      if |a| > 0 { assert s[0] == a[0]; } else { assert s[0] == '.'; }
    }
    assert Pow10(0) == 1.0;
  }

  /** A string whose first character is neither white space, a sign, a
      digit, a '.' nor the 'I' of Infinity has no numeric prefix. */
  lemma NoLeadingNumber(s: string)
    requires |s| > 0 && !IsJsSpace(s[0]) && !IsDigit(s[0]) && s[0] !in "+-.I"
    ensures !InfinityPrefix(s) && ParseFloat(s).None?
  {
    assert TrimStart(s) == s && Unsigned(s) == s;
    assert DigitRun(s) == 0 && s[0..] == s;
  }

  /** Index of the first '.' in `s`, or |s|. */
  function DotIndex(s: string): (k: nat)
    ensures k <= |s| && (k < |s| ==> s[k] == '.')
    ensures forall i :: 0 <= i < k ==> s[i] != '.'
  {
    if s == [] || s[0] == '.' then 0 else 1 + DotIndex(s[1..])
  }

  lemma {:induction false} DotIndexOfDigits(a: string, rest: string)
    requires AllDigits(a)
    ensures DotIndex(a + rest) == |a| + DotIndex(rest)
  {
    if a != [] {
      var s := a + rest;
      assert s[0] == a[0] && IsDigit(a[0]) && s[0] != '.';
      assert s[1..] == a[1..] + rest;
      DotIndexOfDigits(a[1..], rest);
      assert DotIndex(s) == 1 + DotIndex(s[1..]);
    } else {
      assert a + rest == rest;
    }
  }
}
