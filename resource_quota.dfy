/** Quota accounting over four dimensions (cpu, memory, storage, pods):
    an allocation is checked against every limit before any usage changes,
    a release floors each dimension at zero, and quantities written as
    strings ('0.5', '2Gi', '500M') are normalized to numbers first. */
module ResourceQuotas {
  import opened Outcomes
  import opened Text
  import opened JsValues

  datatype Dim = Cpu | Memory | Storage | Pods

  /** The property name of a dimension. */
  function Name(d: Dim): string
  {
    match d
    case Cpu => "cpu"
    case Memory => "memory"
    case Storage => "storage"
    case Pods => "pods"
  }

  /** One value per dimension: the `{cpu, memory, storage, pods}` objects. */
  datatype PerDim<T> = PerDim(cpu: T, memory: T, storage: T, pods: T)
  {
    function Get(d: Dim): T
    {
      match d
      case Cpu => cpu
      case Memory => memory
      case Storage => storage
      case Pods => pods
    }

    function Set(d: Dim, v: T): PerDim<T>
    {
      match d
      case Cpu => this.(cpu := v)
      case Memory => this.(memory := v)
      case Storage => this.(storage := v)
      case Pods => this.(pods := v)
    }
  }

  lemma PerDimEquality(a: PerDim<real>, b: PerDim<real>)
    requires forall d: Dim :: a.Get(d) == b.Get(d)
    ensures a == b
  {
    assert a.Get(Cpu) == b.Get(Cpu) && a.Get(Memory) == b.Get(Memory);
    assert a.Get(Storage) == b.Get(Storage) && a.Get(Pods) == b.Get(Pods);
  }

  // ---------------------------------------------------------------------
  // normalizeValue

  /** `/^\d*\.?\d+$/`: digits, or digits '.' digits with at least one
      digit after the point. */
  predicate IsPlainDecimal(s: string)
  {
    var k := DotIndex(s);
    if k == |s| then |s| >= 1 && AllDigits(s)
    else k + 1 < |s| && AllDigits(s[..k]) && AllDigits(s[k + 1..])
  }

  /** `parseFloat` of a plain decimal string. */
  function PlainDecimalValue(s: string): real
    requires IsPlainDecimal(s)
  {
    var k := DotIndex(s);
    if k == |s| then DigitsValue(s) as real else DecimalValue(s[..k], s[k + 1..])
  }

  /** The unit letters of `/^(\d+)([KMGTPkeimgt]i?)$/`. */
  predicate IsUnitLetter(c: char)
  {
    c in "KMGTPkeimgt"
  }

  /** `/^(\d+)([KMGTPkeimgt]i?)$/`: the digits and the unit's first letter. */
  function UnitSplit(s: string): (r: Option<(string, char)>)
    ensures r.Some? ==> AllDigits(r.value.0) && |r.value.0| >= 1 && IsUnitLetter(r.value.1)
  {
    if |s| >= 3 && s[|s| - 1] == 'i' && IsUnitLetter(s[|s| - 2]) && AllDigits(s[..|s| - 2]) then
      Some((s[..|s| - 2], s[|s| - 2]))
    else if |s| >= 2 && IsUnitLetter(s[|s| - 1]) && AllDigits(s[..|s| - 1]) then
      Some((s[..|s| - 1], s[|s| - 1]))
    else None
  }

  /** The power of 1024 for `unit[0].toUpperCase()`; None for 'e' and 'i',
      which have no entry in the multiplier table. */
  function UnitExponent(c: char): Option<nat>
  {
    if c == 'K' || c == 'k' then Some(1)
    else if c == 'M' || c == 'm' then Some(2)
    else if c == 'G' || c == 'g' then Some(3)
    else if c == 'T' || c == 't' then Some(4)
    else if c == 'P' then Some(5)
    else None
  }

  /** `parseInt(num) * multipliers[unit[0].toUpperCase()]`, where `num` is all
      digits, so `parseInt` reads the whole of it. */
  function UnitAmount(digits: string, unit: char): real
    requires AllDigits(digits) && UnitExponent(unit).Some?
  {
    DigitsValue(digits) as real * Pow(1024, UnitExponent(unit).value) as real
  }

  /** Quantities `normalizeValue` turns into a number: numbers, and strings
      other than a unit string whose unit has no multiplier (`'5e'`, `'5i'`)
      and other than a string `parseFloat` reads as Infinity. */
  predicate Normalizable(v: Value)
  {
    || v.Num?
    || (v.Str? && !InfinityPrefix(v.s)
        && (UnitSplit(v.s).Some? ==> UnitExponent(UnitSplit(v.s).value.1).Some?))
  }

  /** `normalizeValue`: a number as is; a plain decimal string parsed; a
      unit string as its integer times the unit's power of 1024; any other
      string as its leading numeric prefix, or 0 when it has none. */
  function NormalizeValue(v: Value): real
    requires Normalizable(v)
  {
    if v.Num? then v.n
    else if IsPlainDecimal(v.s) then PlainDecimalValue(v.s)
    else if UnitSplit(v.s).Some? then UnitAmount(UnitSplit(v.s).value.0, UnitSplit(v.s).value.1)
    else
      match ParseFloat(v.s)
      case None => 0.0
      case Some(x) => x
  }

  lemma NormalizePlain(s: string)
    requires Normalizable(Str(s)) && IsPlainDecimal(s)
    ensures NormalizeValue(Str(s)) == PlainDecimalValue(s)
  {
  }

  /** A digit string is read as the integer it spells: `'2'`, `'10'`. */
  lemma IntegerString(b: string)
    requires AllDigits(b) && |b| >= 1
    ensures Normalizable(Str(b)) && NormalizeValue(Str(b)) == DigitsValue(b) as real
  {
    DigitLed(b);
    assert Normalizable(Str(b));
    DotIndexOfDigits(b, "");
    assert b + "" == b;
    assert DotIndex(b) == |b|;
    assert IsPlainDecimal(b);
    NormalizePlain(b);
    assert PlainDecimalValue(b) == DigitsValue(b) as real;
  }

  lemma DecimalParts(a: string, b: string)
    requires AllDigits(a) && AllDigits(b) && |b| >= 1
    ensures IsPlainDecimal(a + "." + b) && PlainDecimalValue(a + "." + b) == DecimalValue(a, b)
  {
    var s := a + "." + b;
    assert DotIndex(s) == |a| by {
      DotIndexOfDigits(a, "." + b);
      assert a + ("." + b) == s;
    }
    assert s[..|a|] == a && s[|a| + 1..] == b;
  }

  lemma DecimalNormalizable(a: string, b: string)
    requires AllDigits(a) && AllDigits(b) && |b| >= 1
    ensures Normalizable(Str(a + "." + b))
  {
    var s := a + "." + b;
    assert UnitSplit(s).None? by {
      assert s[|s| - 1] == b[|b| - 1] && IsDigit(s[|s| - 1]);
    }
    if a == [] {
      assert !IsJsSpace(s[0]) && s[0] == '.';
      assert TrimStart(s) == s && Unsigned(s) == s;
    } else {
      assert s[0] == a[0];
      DigitLed(s);
    }
  }

  /** `<digits>.<digits>` is read as that decimal: `'0.5'`, `'.5'`. */
  lemma DecimalString(a: string, b: string)
    requires AllDigits(a) && AllDigits(b) && |b| >= 1
    ensures Normalizable(Str(a + "." + b)) && NormalizeValue(Str(a + "." + b)) == DecimalValue(a, b)
  {
    DecimalNormalizable(a, b);
    DecimalParts(a, b);
    NormalizePlain(a + "." + b);
  }

  lemma UnitParts(digits: string, unit: char, suffix: string)
    requires AllDigits(digits) && |digits| >= 1
    requires IsUnitLetter(unit) && unit != 'i' && (suffix == "" || suffix == "i")
    ensures UnitSplit(digits + [unit] + suffix) == Some((digits, unit))
  {
    var s := digits + [unit] + suffix;
    if suffix == "" {
      assert s[|s| - 1] == unit && s[..|s| - 1] == digits;
    } else {
      assert s[|s| - 1] == 'i' && s[|s| - 2] == unit && s[..|s| - 2] == digits;
    }
  }

  lemma UnitNotPlain(digits: string, unit: char, suffix: string)
    requires AllDigits(digits) && |digits| >= 1
    requires IsUnitLetter(unit) && (suffix == "" || suffix == "i")
    ensures !IsPlainDecimal(digits + [unit] + suffix)
  {
    var s := digits + [unit] + suffix;
    DotIndexOfDigits(digits, [unit] + suffix);
    assert digits + ([unit] + suffix) == s;
    assert s[|digits|] == unit && !IsDigit(unit) && unit != '.';
    assert DotIndex([unit] + suffix) == 1 + |suffix| by {
      assert ([unit] + suffix)[1..] == suffix;
    }
    assert !AllDigits(s);
  }

  lemma NormalizeUnit(s: string)
    requires Normalizable(Str(s)) && !IsPlainDecimal(s) && UnitSplit(s).Some?
    ensures NormalizeValue(Str(s)) == UnitAmount(UnitSplit(s).value.0, UnitSplit(s).value.1)
  {
  }

  /** `<digits><unit>[i]` is the integer times 1024 to the unit's power, for
      each unit letter with a multiplier, in either case where the pattern
      allows it. */
  lemma UnitStrings(digits: string, unit: char, suffix: string)
    requires AllDigits(digits) && |digits| >= 1
    requires unit in "KMGTPkmgt" && (suffix == "" || suffix == "i")
    ensures UnitExponent(unit).Some?
    ensures Normalizable(Str(digits + [unit] + suffix))
    ensures NormalizeValue(Str(digits + [unit] + suffix)) == UnitAmount(digits, unit)
  {
    var s := digits + [unit] + suffix;
    UnitParts(digits, unit, suffix);
    UnitNotPlain(digits, unit, suffix);
    assert s[0] == digits[0];
    DigitLed(s);
    NormalizeUnit(s);
  }

  /** `'2Gi'`, `'2G'` and `'2g'` all stand for 2 * 1024^3 bytes. */
  lemma TwoGibibytes()
    ensures UnitAmount("2", 'G') == UnitAmount("2", 'g') == 2147483648.0
  {
    assert DigitsValue("2") == 2 by {
      assert "2"[..0] == "";
    }
    assert UnitExponent('G') == UnitExponent('g') == Some(3);
    assert Pow(1024, 3) == 1073741824;
  }

  /** A prefix holding a '.' is not a digit string. */
  lemma DotBlocksDigits(s: string, k: nat, n: nat)
    requires k < n <= |s| && s[k] == '.'
    ensures !AllDigits(s[..n])
  {
    assert s[..n][k] == '.';
  }

  /** A '.' three or more places before the end rules out the unit pattern. */
  lemma DotBlocksUnit(s: string, k: nat)
    requires k + 3 <= |s| && s[k] == '.'
    ensures UnitSplit(s).None?
  {
    DotBlocksDigits(s, k, |s| - 1);
    DotBlocksDigits(s, k, |s| - 2);
  }

  lemma FractionWithUnitShape(a: string, b: string, unit: char, suffix: string)
    requires AllDigits(a) && |a| >= 1 && AllDigits(b) && |b| >= 1
    requires unit in "KMGTPkmgt" && (suffix == "" || suffix == "i")
    ensures !IsPlainDecimal(a + "." + b + [unit] + suffix)
    ensures UnitSplit(a + "." + b + [unit] + suffix).None?
  {
    var s := a + "." + b + [unit] + suffix;
    FractionWithUnitNotPlain(a, b + [unit] + suffix, |b|);
    assert s == a + "." + (b + [unit] + suffix);
    assert s[|a|] == '.' && |s| >= |a| + 3;
    DotBlocksUnit(s, |a|);
  }

  /** `<a>.<tail>` with a non-digit in `tail` is not a plain decimal. */
  lemma FractionWithUnitNotPlain(a: string, tail: string, k: nat)
    requires AllDigits(a) && |a| >= 1 && k < |tail| && !IsDigit(tail[k])
    ensures !IsPlainDecimal(a + "." + tail)
  {
    var s := a + "." + tail;
    assert s == a + ("." + tail);
    DotIndexOfDigits(a, "." + tail);
    assert DotIndex("." + tail) == 0;
    assert s[|a| + 1..] == tail && !AllDigits(tail);
  }

  lemma FractionWithUnitParse(a: string, b: string, unit: char, suffix: string)
    requires AllDigits(a) && |a| >= 1 && AllDigits(b) && |b| >= 1
    requires unit in "KMGTPkmgt" && (suffix == "" || suffix == "i")
    ensures !InfinityPrefix(a + "." + b + [unit] + suffix)
    ensures ParseFloat(a + "." + b + [unit] + suffix) == Some(DecimalValue(a, b))
  {
    var s := a + "." + b + [unit] + suffix;
    assert s == a + "." + b + ([unit] + suffix) && s[0] == a[0];
    DigitLed(s);
    ParseFloatOfDecimal(s, a, b, [unit] + suffix);
  }

  /** A decimal with a unit matches neither pattern and falls back to its
      leading number: `'1.5Gi'` is 1.5, the unit is dropped. */
  lemma FractionWithUnitLosesUnit(a: string, b: string, unit: char, suffix: string)
    requires AllDigits(a) && |a| >= 1 && AllDigits(b) && |b| >= 1
    requires unit in "KMGTPkmgt" && (suffix == "" || suffix == "i")
    ensures Normalizable(Str(a + "." + b + [unit] + suffix))
    ensures NormalizeValue(Str(a + "." + b + [unit] + suffix)) == DecimalValue(a, b)
  {
    FractionWithUnitShape(a, b, unit, suffix);
    FractionWithUnitParse(a, b, unit, suffix);
  }

  lemma LetterLedShape(s: string)
    requires |s| > 0 && 'a' <= s[0] <= 'z'
    ensures !IsPlainDecimal(s) && UnitSplit(s).None?
  {
    assert !IsDigit(s[0]);
    assert DotIndex(s) > 0 ==> !AllDigits(s[..DotIndex(s)]);
    assert !AllDigits(s);
    if |s| >= 2 {
      assert !AllDigits(s[..|s| - 1]) by { assert s[..|s| - 1][0] == s[0]; }
    }
    if |s| >= 3 {
      assert !AllDigits(s[..|s| - 2]) by { assert s[..|s| - 2][0] == s[0]; }
    }
  }

  /** A string that starts with a lower-case letter has no leading number
      and counts as 0: `'abc'` is 0. */
  lemma LetterLedIsZero(s: string)
    requires |s| > 0 && 'a' <= s[0] <= 'z'
    ensures Normalizable(Str(s)) && NormalizeValue(Str(s)) == 0.0
  {
    LetterLedShape(s);
    NoLeadingNumber(s);
  }

  // ---------------------------------------------------------------------
  // allocate and deallocate over normalized requests

  /** A request: the entries of the `resources` object, in order. */
  type Request = seq<(Dim, Value)>

  /** A normalized request. */
  type Amounts = seq<(Dim, real)>

  /** Object keys are unique. */
  predicate DistinctDims<T>(req: seq<(Dim, T)>)
  {
    forall i, j :: 0 <= i < j < |req| ==> req[i].0 != req[j].0
  }

  predicate WellFormedRequest(req: Request)
  {
    DistinctDims(req) && forall i :: 0 <= i < |req| ==> Normalizable(req[i].1)
  }

  /** `normalizeResources`: every entry kept, in order, with its amount
      normalized. */
  function NormalizeResources(req: Request): (r: Amounts)
    requires WellFormedRequest(req)
    ensures |r| == |req| && DistinctDims(r)
    ensures forall i :: 0 <= i < |r| ==> r[i] == (req[i].0, NormalizeValue(req[i].1))
  {
    seq(|req|, i requires 0 <= i < |req| => (req[i].0, NormalizeValue(req[i].1)))
  }

  predicate Requested(req: Amounts, d: Dim)
  {
    exists i :: 0 <= i < |req| && req[i].0 == d
  }

  lemma RequestedSplit(req: Amounts, d: Dim)
    requires req != []
    ensures Requested(req, d) <==> Requested(req[..|req| - 1], d) || req[|req| - 1].0 == d
  {
    var p := req[..|req| - 1];
    if Requested(req, d) && req[|req| - 1].0 != d {
      var i :| 0 <= i < |req| && req[i].0 == d;
      assert p[i] == req[i];
    }
    if Requested(p, d) {
      var i :| 0 <= i < |p| && p[i].0 == d;
      assert req[i] == p[i];
    }
  }

  /** The total amount requested for `d` (0 when `d` is not requested). */
  function AmountOf(req: Amounts, d: Dim): (a: real)
    ensures !Requested(req, d) ==> a == 0.0
  {
    if req == [] then 0.0
    else
      var p := req[..|req| - 1];
      assert forall i :: 0 <= i < |p| ==> p[i] == req[i];
      AmountOf(p, d) + if req[|req| - 1].0 == d then req[|req| - 1].1 else 0.0
  }

  /** With unique keys, the total for a requested dimension is its one entry. */
  lemma {:induction false} AmountOfEntry(req: Amounts, i: nat)
    requires DistinctDims(req) && i < |req|
    ensures AmountOf(req, req[i].0) == req[i].1
  {
    var p := req[..|req| - 1];
    assert forall k :: 0 <= k < |p| ==> p[k] == req[k];
    if i < |req| - 1 {
      AmountOfEntry(p, i);
    } else {
      assert !Requested(p, req[i].0);
    }
  }

  /** Whether adding the entry `e` to the usage `u` stays within `lim`. */
  predicate Fits(u: PerDim<real>, lim: PerDim<real>, e: (Dim, real))
  {
    u.Get(e.0) + e.1 <= lim.Get(e.0)
  }

  /** The first dimension of the request that would exceed its limit. */
  function FirstExceeding(u: PerDim<real>, lim: PerDim<real>, req: Amounts): (r: Option<Dim>)
    ensures r.None? <==> forall i :: 0 <= i < |req| ==> Fits(u, lim, req[i])
    ensures r.Some? ==> exists i :: (0 <= i < |req| && req[i].0 == r.value && !Fits(u, lim, req[i])
      && forall j :: 0 <= j < i ==> Fits(u, lim, req[j]))
  {
    if req == [] then None
    else if !Fits(u, lim, req[0]) then Some(req[0].0)
    else
      var r := FirstExceeding(u, lim, req[1..]);
      assert forall i :: 0 <= i < |req| - 1 ==> req[1..][i] == req[i + 1];
      r
  }

  /** The usage after the update loop of `allocate`: every requested amount
      added, every other dimension unchanged. */
  function Added(u: PerDim<real>, req: Amounts): PerDim<real>
  {
    if req == [] then u
    else
      var p := Added(u, req[..|req| - 1]);
      var (d, a) := req[|req| - 1];
      p.Set(d, p.Get(d) + a)
  }

  /** Each dimension after the update loop is the old usage plus the total
      requested for it. */
  lemma {:induction false} AddedAt(u: PerDim<real>, req: Amounts, x: Dim)
    ensures Added(u, req).Get(x) == u.Get(x) + AmountOf(req, x)
  {
    if req != [] {
      AddedAt(u, req[..|req| - 1], x);
    }
  }

  /** Adding one more entry of a request updates that entry's dimension. */
  lemma AddedStep(u: PerDim<real>, req: Amounts, i: nat)
    requires i < |req|
    ensures Added(u, req[..i + 1]) == Added(u, req[..i]).Set(req[i].0, Added(u, req[..i]).Get(req[i].0) + req[i].1)
  {
    assert req[..i + 1][..i] == req[..i];
  }

  function Max0(x: real): real
  {
    if x < 0.0 then 0.0 else x
  }

  /** The usage after `deallocate`: every requested amount subtracted and
      floored at 0, every other dimension unchanged. */
  function Released(u: PerDim<real>, req: Amounts): PerDim<real>
  {
    if req == [] then u
    else
      var p := Released(u, req[..|req| - 1]);
      var (d, a) := req[|req| - 1];
      p.Set(d, Max0(p.Get(d) - a))
  }

  /** What `deallocate` does to one dimension: nothing when it is not
      requested; otherwise it ends at or above 0, and with unique keys at
      exactly `max(0, usage - amount)`. */
  lemma {:induction false} ReleasedAt(u: PerDim<real>, req: Amounts, x: Dim)
    ensures !Requested(req, x) ==> Released(u, req).Get(x) == u.Get(x)
    ensures Requested(req, x) ==> Released(u, req).Get(x) >= 0.0
    ensures DistinctDims(req) && Requested(req, x) ==>
      Released(u, req).Get(x) == Max0(u.Get(x) - AmountOf(req, x))
  {
    if req != [] {
      var prefix := req[..|req| - 1];
      var (d, a) := req[|req| - 1];
      ReleasedAt(u, prefix, x);
      RequestedSplit(req, x);
      if DistinctDims(req) {
        assert DistinctDims(prefix) by {
          assert forall i :: 0 <= i < |prefix| ==> prefix[i] == req[i];
        }
        if x == d {
          assert !Requested(prefix, x) by {
            assert forall i :: 0 <= i < |prefix| ==> prefix[i].0 == req[i].0 != d;
          }
        }
      }
    }
  }

  /** The new usage and the answer of one `allocate` call. */
  datatype Allocation = Allocation(usage: PerDim<real>, result: Outcome<bool>)

  /** `allocate` on normalized amounts against normalized limits: all or
      nothing. */
  function Allocated(u: PerDim<real>, lim: PerDim<real>, req: Amounts): (a: Allocation)
    ensures a.result.Success? <==> forall i :: 0 <= i < |req| ==> Fits(u, lim, req[i])
    // a refused request names the first dimension over its limit and changes nothing
    ensures a.result.Failure? ==> (a.usage == u
      && exists i :: (0 <= i < |req| && !Fits(u, lim, req[i])
        && a.result.error == "Resource quota exceeded for " + Name(req[i].0)
        && forall j :: 0 <= j < i ==> Fits(u, lim, req[j])))
    // an accepted request adds each amount and leaves the other dimensions alone
    ensures a.result.Success? ==> a.result.value && a.usage == Added(u, req)
    ensures a.result.Success? ==> forall d: Dim :: !Requested(req, d) ==> a.usage.Get(d) == u.Get(d)
    // reaching a limit exactly is allowed, exceeding it is not
    ensures a.result.Success? && DistinctDims(req) ==>
      forall i :: 0 <= i < |req| ==> a.usage.Get(req[i].0) <= lim.Get(req[i].0)
  {
    match FirstExceeding(u, lim, req)
    case Some(d) => Allocation(u, Failure("Resource quota exceeded for " + Name(d)))
    case None =>
      var r := Added(u, req);
      assert forall d: Dim :: r.Get(d) == u.Get(d) + AmountOf(req, d) by {
        forall d: Dim ensures r.Get(d) == u.Get(d) + AmountOf(req, d) {
          AddedAt(u, req, d);
        }
      }
      assert DistinctDims(req) ==> forall i :: 0 <= i < |req| ==> r.Get(req[i].0) == u.Get(req[i].0) + req[i].1 by {
        if DistinctDims(req) {
          forall i | 0 <= i < |req| ensures r.Get(req[i].0) == u.Get(req[i].0) + req[i].1 {
            AmountOfEntry(req, i);
          }
        }
      }
      Allocation(r, Success(true))
  }

  predicate NonNegative(u: PerDim<real>)
  {
    forall d: Dim :: u.Get(d) >= 0.0
  }

  /** Releasing what was just added restores the usage exactly, for any
      non-negative usage. */
  lemma AllocateThenRelease(u: PerDim<real>, req: Amounts)
    requires NonNegative(u) && DistinctDims(req)
    ensures Released(Added(u, req), req) == u
  {
    forall x: Dim ensures Released(Added(u, req), req).Get(x) == u.Get(x) {
      AddedAt(u, req, x);
      ReleasedAt(Added(u, req), req, x);
    }
    PerDimEquality(Released(Added(u, req), req), u);
  }

  /** With non-negative amounts, usage never goes below zero. */
  lemma AddedStaysNonNegative(u: PerDim<real>, req: Amounts)
    requires NonNegative(u) && forall i :: 0 <= i < |req| ==> req[i].1 >= 0.0
    ensures NonNegative(Added(u, req))
  {
    forall d: Dim ensures Added(u, req).Get(d) >= 0.0 {
      AmountNonNegative(req, d);
      AddedAt(u, req, d);
    }
  }

  lemma {:induction false} AmountNonNegative(req: Amounts, d: Dim)
    requires forall i :: 0 <= i < |req| ==> req[i].1 >= 0.0
    ensures AmountOf(req, d) >= 0.0
  {
    if req != [] {
      AmountNonNegative(req[..|req| - 1], d);
    }
  }

  // ---------------------------------------------------------------------
  // the quota object

  /** The limit a constructor option gives: the option when truthy, else
      the default `'2'`, `'2Gi'`, `'10Gi'` or `10`. */
  function LimitOption(options: Value, d: Dim): Value
  {
    var v := GetOpt(options, Name(d));
    if Truthy(v) then v
    else match d
      case Cpu => Str("2")
      case Memory => Str("2Gi")
      case Storage => Str("10Gi")
      case Pods => Num(10.0)
  }

  /** A request whose entry `i` is the first over its limit is refused,
      naming that entry's dimension. */
  lemma RefusedAt(u: PerDim<real>, lim: PerDim<real>, req: Amounts, i: nat)
    requires i < |req| && !Fits(u, lim, req[i]) && forall j :: 0 <= j < i ==> Fits(u, lim, req[j])
    ensures Allocated(u, lim, req) == Allocation(u, Failure("Resource quota exceeded for " + Name(req[i].0)))
  {
  }

  /** A request whose every entry fits is accepted and added. */
  lemma AcceptedAll(u: PerDim<real>, lim: PerDim<real>, req: Amounts)
    requires forall j :: 0 <= j < |req| ==> Fits(u, lim, req[j])
    ensures Allocated(u, lim, req) == Allocation(Added(u, req), Success(true))
  {
  }

  /** The two loops of `allocate`: every entry is checked against its
      limit before any is added, so a refused request changes nothing. */
  method CheckThenAdd(usage: PerDim<real>, lim: PerDim<real>, request: Amounts) returns (a: Allocation)
    ensures a == Allocated(usage, lim, request)
  {
    var i := 0;
    while i < |request|
      invariant i <= |request|
      invariant forall j :: 0 <= j < i ==> Fits(usage, lim, request[j])
    {
      var (d, amount) := request[i];
      if usage.Get(d) + amount > lim.Get(d) {
        RefusedAt(usage, lim, request, i);
        return Allocation(usage, Failure("Resource quota exceeded for " + Name(d)));
      }
      i := i + 1;
    }
    var u := usage;
    i := 0;
    while i < |request|
      invariant i <= |request|
      invariant u == Added(usage, request[..i])
    {
      var (d, amount) := request[i];
      AddedStep(usage, request, i);
      u := u.Set(d, u.Get(d) + amount);
      i := i + 1;
    }
    assert request[..|request|] == request;
    AcceptedAll(usage, lim, request);
    return Allocation(u, Success(true));
  }

  class ResourceQuota {
    const limits: PerDim<Value>
    var usage: PerDim<real>

    /** Every limit can be normalized. */
    predicate Valid()
    {
      && Normalizable(limits.cpu) && Normalizable(limits.memory)
      && Normalizable(limits.storage) && Normalizable(limits.pods)
    }

    /** The limits in normalized units, as `allocate` compares against them. */
    function LimitAmounts(): PerDim<real>
      requires Valid()
    {
      PerDim(NormalizeValue(limits.cpu), NormalizeValue(limits.memory),
             NormalizeValue(limits.storage), NormalizeValue(limits.pods))
    }

    /** `new ResourceQuota(options)`; an absent `options` is `{}`. */
    constructor (options: Value)
      requires !options.Null?
      requires Normalizable(LimitOption(options, Cpu)) && Normalizable(LimitOption(options, Memory))
      requires Normalizable(LimitOption(options, Storage)) && Normalizable(LimitOption(options, Pods))
      ensures Valid()
      ensures limits == PerDim(LimitOption(options, Cpu), LimitOption(options, Memory),
                               LimitOption(options, Storage), LimitOption(options, Pods))
      ensures usage == PerDim(0.0, 0.0, 0.0, 0.0)
    {
      limits := PerDim(LimitOption(options, Cpu), LimitOption(options, Memory),
                       LimitOption(options, Storage), LimitOption(options, Pods));
      usage := PerDim(0.0, 0.0, 0.0, 0.0);
    }

    /** `allocate(resources)`. */
    method Allocate(resources: Request) returns (r: Outcome<bool>)
      requires Valid() && WellFormedRequest(resources)
      modifies this
      ensures var a := Allocated(old(usage), LimitAmounts(), NormalizeResources(resources));
        usage == a.usage && r == a.result
    {
      var a := CheckThenAdd(usage, LimitAmounts(), NormalizeResources(resources));
      usage := a.usage;
      r := a.result;
    }

    /** `deallocate(resources)`: never fails; each dimension floors at 0. */
    method Deallocate(resources: Request)
      requires Valid() && WellFormedRequest(resources)
      modifies this
      ensures usage == Released(old(usage), NormalizeResources(resources))
    {
      var request := NormalizeResources(resources);
      ghost var before := usage;
      var i := 0;
      while i < |request|
        invariant i <= |request|
        invariant usage == Released(before, request[..i])
      {
        var (d, amount) := request[i];
        assert request[..i + 1][..i] == request[..i];
        usage := usage.Set(d, Max0(usage.Get(d) - amount));
        i := i + 1;
      }
      assert request[..|request|] == request;
    }

    /** `getCurrentUsage`: a copy of the usage. */
    function GetCurrentUsage(): (u: PerDim<real>)
      reads this
      ensures u == usage
    {
      usage
    }

    /** `getLimits`: a copy of the limits as configured (not normalized). */
    function GetLimits(): (l: PerDim<Value>)
      ensures l == limits
    {
      limits
    }
  }
}
