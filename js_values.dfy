/** The JavaScript values the validators inspect: only what truthiness,
    property reads and strict equality need. An object is the list of its
    own properties in the order `Object.entries` reports them (integer-like
    keys first, ascending, then insertion order); the keys of an object that
    stands for a JavaScript object are distinct. */
module JsValues {
  import opened Outcomes
  import opened Text

  datatype Value =
    | Undefined
    | Null
    | Bool(b: bool)
    | Num(n: real)
    | Str(s: string)
    | Obj(fields: seq<(string, Value)>)

  /** JavaScript truthiness (NaN is not a modelled number). */
  predicate Truthy(v: Value)
  {
    match v
    case Undefined => false
    case Null => false
    case Bool(b) => b
    case Num(n) => n != 0.0
    case Str(s) => s != ""
    case Obj(_) => true
  }

  predicate Nullish(v: Value)
  {
    v.Undefined? || v.Null?
  }

  /** The first own property named `key`, or undefined. */
  function Lookup(fields: seq<(string, Value)>, key: string): Value
  {
    if fields == [] then Undefined
    else if fields[0].0 == key then fields[0].1
    else Lookup(fields[1..], key)
  }

  /** `v[key]` on a value that is neither undefined nor null. Primitives
      have none of the property names the modelled code reads, so those
      read as undefined. */
  function Get(v: Value, key: string): Value
    requires !Nullish(v)
  {
    if v.Obj? then Lookup(v.fields, key) else Undefined
  }

  /** `v?.[key]`: optional chaining, undefined on a nullish value. */
  function GetOpt(v: Value, key: string): Value
  {
    if Nullish(v) then Undefined else Get(v, key)
  }

  /** The loop `for (const field of fields) if (!v[field]) throw new
      Error(`Missing required field: ${field}`)` shared by the service
      validators and the Borg spec check: it fails on the first falsy field. */
  function RequireFields(v: Value, fields: seq<string>): (r: Outcome<()>)
    requires !Nullish(v)
    ensures r.Success? <==> forall i :: 0 <= i < |fields| ==> Truthy(Get(v, fields[i]))
    ensures r.Failure? ==>
      exists i :: 0 <= i < |fields| && !Truthy(Get(v, fields[i]))
        && r.error == "Missing required field: " + fields[i]
        && forall j :: 0 <= j < i ==> Truthy(Get(v, fields[j]))
  {
    if fields == [] then Success(())
    else if !Truthy(Get(v, fields[0])) then Failure("Missing required field: " + fields[0])
    else
      var rest := RequireFields(v, fields[1..]);
      assert forall i :: 0 <= i < |fields| - 1 ==> fields[1..][i] == fields[i + 1];
      rest
  }

  /** The decimal spelling of a natural number. */
  function NatText(n: nat): (r: string)
    ensures |r| >= 1
  {
    var d := [('0' as int + n % 10) as char];
    if n < 10 then d else NatText(n / 10) + d
  }

  /** The decimal spelling of an integer, with '-' when negative. */
  function IntText(n: int): string
  {
    if n < 0 then "-" + NatText(-n) else NatText(n)
  }

  /** `n` zeros. */
  function Zeros(n: nat): (r: string)
    ensures |r| == n && forall i :: 0 <= i < n ==> r[i] == '0'
  {
    seq(n, _ => '0')
  }

  predicate IsInteger(x: real)
  {
    x == x.Floor as real
  }

  /** The most fractional digits a double has: 2^-1074 has 1074. */
  const MaxFractionDigits: nat := 1074

  /** `x` times 10^m. */
  function Shifted(x: real, m: nat): real
  {
    x * Pow(10, m) as real
  }

  /** The fewest fractional digits, from `m` on and at most
      `MaxFractionDigits`, that spell `x` exactly. */
  function FractionDigits(x: real, m: nat): (r: Option<nat>)
    decreases MaxFractionDigits - m
    ensures r.Some? ==> m <= r.value <= MaxFractionDigits && IsInteger(Shifted(x, r.value))
  {
    if m > MaxFractionDigits then None
    else if IsInteger(Shifted(x, m)) then Some(m)
    else FractionDigits(x, m + 1)
  }

  /** A positive integer split into the part before its trailing zeros,
      which does not end in 0, and the number of those zeros. */
  function StripZeros(n: nat): (r: (nat, nat))
    requires n > 0
    ensures r.0 > 0 && r.0 % 10 != 0
  {
    if n % 10 == 0 then
      var p := StripZeros(n / 10);
      (p.0, p.1 + 1)
    else (n, 0)
  }

  /** A signed exponent as `Number::toString` writes it after the 'e'. */
  function ExponentText(e: int): string
  {
    if e >= 0 then "+" + NatText(e) else "-" + NatText(-e)
  }

  /** `Number::toString` (section 6.1.6.1.20 of ECMA-262) of the positive
      number `0.digits` times 10^n, where `digits` does not end in 0:
      plain digits up to 21 integer digits, a leading "0.000" down to
      10^-6, and exponent notation otherwise. */
  function DigitsText(digits: string, n: int): string
    requires |digits| >= 1
  {
    var k := |digits|;
    if k <= n <= 21 then digits + Zeros(n - k)
    else if 0 < n <= 21 then digits[..n] + "." + digits[n..]
    else if -6 < n <= 0 then "0." + Zeros(-n) + digits
    else if k == 1 then digits + "e" + ExponentText(n - 1)
    else digits[..1] + "." + digits[1..] + "e" + ExponentText(n - 1)
  }

  /** The text of a positive number. A real whose decimal expansion does
      not end within `MaxFractionDigits` digits is no double; it is
      spelled by its integer part. */
  function PositiveText(x: real): string
    requires x > 0.0
  {
    match FractionDigits(x, 0)
    case None => NatText(x.Floor)
    case Some(m) =>
      PositiveShifted(x, m);
      var stripped := StripZeros(Shifted(x, m).Floor);
      var digits := NatText(stripped.0);
      DigitsText(digits, |digits| + stripped.1 - m)
  }

  lemma PositiveShifted(x: real, m: nat)
    requires x > 0.0
    ensures Shifted(x, m) > 0.0 && (IsInteger(Shifted(x, m)) ==> Shifted(x, m).Floor > 0)
  {
    assert Pow(10, m) as real >= 1.0;
  }

  /** `String(x)` for a number: the shortest decimal digits `s` and
      exponent with `x = s * 10^(n - k)`, written out by `DigitsText`. */
  function NumberText(x: real): string
  {
    if x == 0.0 then "0"
    else if x < 0.0 then "-" + PositiveText(-x)
    else PositiveText(x)
  }

  /** `${v}`: the string a template literal or `String(v)` makes of `v`. */
  function Display(v: Value): string
  {
    match v
    case Undefined => "undefined"
    case Null => "null"
    case Bool(b) => if b then "true" else "false"
    case Num(n) => NumberText(n)
    case Str(s) => s
    case Obj(_) => "[object Object]"
  }

  /** The message of the TypeError that reading `key` from undefined or
      null raises (V8's wording). */
  function ReadError(v: Value, key: string): string
    requires Nullish(v)
  {
    "Cannot read properties of " + Display(v) + " (reading '" + key + "')"
  }

  // ---------------------------------------------------------------------
  // integers print as their digits and parse back

  lemma {:induction false} NatTextDigits(n: nat)
    ensures AllDigits(NatText(n))
  {
    if n >= 10 {
      NatTextDigits(n / 10);
    }
  }

  /** The digits of `n` read back as `n`. */
  lemma {:induction false} NatTextValue(n: nat)
    ensures AllDigits(NatText(n)) && DigitsValue(NatText(n)) == n
  {
    NatTextDigits(n);
    var s := NatText(n);
    if n >= 10 {
      NatTextValue(n / 10);
      assert s[..|s| - 1] == NatText(n / 10);
    }
  }

  /** A positive integer is spelled as its stripped part followed by its
      trailing zeros. */
  lemma {:induction false} StripText(n: nat)
    requires n > 0
    ensures NatText(n) == NatText(StripZeros(n).0) + Zeros(StripZeros(n).1)
  {
    if n % 10 == 0 {
      StripText(n / 10);
      assert n >= 10;
      assert NatText(n) == NatText(n / 10) + "0";
      assert Zeros(StripZeros(n / 10).1) + "0" == Zeros(StripZeros(n).1);
    } else {
      assert Zeros(0) == "";
    }
  }

  /** A number below 10^d has at most d digits. */
  lemma {:induction false} NatTextLength(n: nat, d: nat)
    requires d >= 1 && n < Pow(10, d)
    ensures |NatText(n)| <= d
  {
    if n >= 10 {
      assert d >= 2;
      assert 10 * (n / 10) <= n;
      assert n / 10 < Pow(10, d - 1);
      NatTextLength(n / 10, d - 1);
    }
  }

  /** Integers below 10^21 print as their plain digits. */
  lemma IntegerText(n: nat)
    requires n < Pow(10, 21)
    ensures NumberText(n as real) == NatText(n)
  {
    if n > 0 {
      var st := StripZeros(n);
      var digits := NatText(st.0);
      IntegerDigits(n, st, digits);
      StripText(n);
      assert NatText(n) == digits + Zeros(st.1);
      NatTextLength(n, 21);
      assert |digits| + st.1 == |NatText(n)| <= 21;
      PlainDigits(digits, |digits| + st.1);
      assert DigitsText(digits, |digits| + st.1) == digits + Zeros(st.1);
      assert NumberText(n as real) == NatText(n);
    } else {
      assert NatText(0) == "0";
    }
  }

  /** Up to 21 integer digits are written out in full. */
  lemma PlainDigits(digits: string, n: int)
    requires 1 <= |digits| <= n <= 21
    ensures DigitsText(digits, n) == digits + Zeros(n - |digits|)
  {
  }

  /** A positive integer needs no fractional digit. */
  lemma IntegerDigits(n: nat, st: (nat, nat), digits: string)
    requires n > 0 && st == StripZeros(n) && digits == NatText(st.0)
    ensures NumberText(n as real) == DigitsText(digits, |digits| + st.1)
  {
    var x := n as real;
    assert Shifted(x, 0) == x;
    assert FractionDigits(x, 0) == Some(0);
  }

  /** Reading back an integer's text: `parseInt(String(n))` is `n`. */
  lemma IntegerRoundTrip(n: nat)
    requires n < Pow(10, 21)
    ensures ParseInt(Display(Num(n as real))) == Some(n)
  {
    var s := NatText(n);
    IntegerText(n);
    assert Display(Num(n as real)) == s;
    NatTextValue(n);
    ParseDigits(s);
    assert ParseInt(s) == Some(n);
  }

  /** `parseInt` of a run of decimal digits that does not start "0x"
      reads all of it. */
  lemma ParseDigits(s: string)
    requires |s| >= 1 && AllDigits(s)
    ensures ParseInt(s) == Some(DigitsValue(s))
  {
    DigitLed(s);
    DigitRunOfDigits(s, "");
    assert s + "" == s && s[..|s|] == s;
    assert !(|s| >= 2 && s[0] == '0' && (s[1] == 'x' || s[1] == 'X'));
  }

  /** 10^21, the first integer `Number::toString` writes in exponent notation. */
  lemma Pow10At21()
    ensures Pow(10, 21) == 1000000000000000000000
  {
    assert Pow(10, 3) == 1000;
    assert Pow(10, 6) == 1000 * Pow(10, 3) by { PowAdd(10, 3, 3); }
    assert Pow(10, 12) == Pow(10, 6) * Pow(10, 6) by { PowAdd(10, 6, 6); }
    assert Pow(10, 21) == Pow(10, 12) * Pow(10, 9) by { PowAdd(10, 12, 9); }
    assert Pow(10, 9) == Pow(10, 6) * Pow(10, 3) by { PowAdd(10, 6, 3); }
  }

  /** A fraction prints with its decimal point: `String(1.5)` is "1.5". */
  lemma HalfText()
    ensures NumberText(1.5) == "1.5"
  {
    assert Shifted(1.5, 0) == 1.5;
    assert Shifted(1.5, 1) == 15.0;
    assert FractionDigits(1.5, 0) == Some(1);
    assert StripZeros(15) == (15, 0);
    assert NatText(15) == "15";
  }

  /** A power of ten strips to 1 and its exponent. */
  lemma {:induction false} StripPower(k: nat)
    ensures StripZeros(Pow(10, k)) == (1, k)
  {
    if k > 0 {
      StripPower(k - 1);
      assert Pow(10, k) / 10 == Pow(10, k - 1);
    }
  }

  /** 10^21 is the first integer printed in exponent notation:
      `String(1e21)` is "1e+21". */
  lemma ExponentText21()
    ensures NumberText(1000000000000000000000.0) == "1e+21"
  {
    var x := 1000000000000000000000.0;
    Pow10At21();
    assert Shifted(x, 0) == x;
    assert FractionDigits(x, 0) == Some(0);
    StripPower(21);
    assert NatText(1) == "1" && NatText(21) == "21";
  }

  /** Own property names are unique. */
  predicate DistinctKeys(fields: seq<(string, Value)>)
  {
    forall i, j :: 0 <= i < j < |fields| ==> fields[i].0 != fields[j].0
  }

  /** With unique keys, reading the key of any property finds that property. */
  lemma {:induction false} LookupAt(fields: seq<(string, Value)>, i: nat)
    requires DistinctKeys(fields) && i < |fields|
    ensures Lookup(fields, fields[i].0) == fields[i].1
  {
    if i > 0 {
      assert fields[0].0 != fields[i].0;
      assert fields[1..][i - 1] == fields[i];
      LookupAt(fields[1..], i - 1);
    }
  }

  /** `Object.entries(v)` on a value that is neither undefined nor null:
      an object's own properties, a string's characters under their
      indices, nothing for a number or a boolean. */
  function Entries(v: Value): (r: seq<(string, Value)>)
    requires !Nullish(v)
    ensures v.Obj? ==> r == v.fields
    ensures v.Str? ==> |r| == |v.s| && forall i :: 0 <= i < |v.s| ==> r[i] == (NatText(i), Str([v.s[i]]))
    ensures v.Num? || v.Bool? ==> r == []
  {
    match v
    case Obj(fields) => fields
    case Str(s) => CharEntries(s)
    case _ => []
  }

  /** A string's characters under their indices. */
  function CharEntries(s: string): (r: seq<(string, Value)>)
    ensures |r| == |s| && forall i :: 0 <= i < |s| ==> r[i] == (NatText(i), Str([s[i]]))
  {
    seq(|s|, i requires 0 <= i < |s| => (NatText(i), Str([s[i]])))
  }
}
