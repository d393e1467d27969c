/** The static checks on a service configuration: its type must be one of
    the catalogue's tags, each resource must lie within that type's limit
    (pods compared as integers, everything else in bytes with binary
    units), and its name must be a short run of `[A-Za-z0-9._-]`. */
module ServiceValidators {
  import opened Outcomes
  import opened JsValues
  import opened Text
  import opened ServiceTypes

  /** `validateServiceType(type)`: only the five tags, as strings, pass;
      anything else is named in the error as a template literal spells it. */
  function ValidateServiceType(t: Value): (r: Outcome<()>)
    ensures r.Success? <==> t.Str? && t.s in Tags
    ensures r.Failure? ==> r.error == "Invalid service type: " + Display(t)
  {
    if t.Str? && t.s in Tags then Success(()) else Failure("Invalid service type: " + Display(t))
  }

  // ---------------------------------------------------------------------
  // convertToBytes

  /** The power of 1024 of a trailing `Ki`, `Mi`, `Gi` or `Ti`; 0 without one. */
  function BinaryUnit(s: string): (k: nat)
    ensures k <= 4
  {
    if |s| < 2 || s[|s| - 1] != 'i' then 0
    else if s[|s| - 2] == 'K' then 1
    else if s[|s| - 2] == 'M' then 2
    else if s[|s| - 2] == 'G' then 3
    else if s[|s| - 2] == 'T' then 4
    else 0
  }

  /** The suffix that stands for the `k`-th power of 1024. */
  function UnitSuffix(k: nat): string
    requires k <= 4
  {
    ["", "Ki", "Mi", "Gi", "Ti"][k]
  }

  /** `\d+(\.\d+)?`. */
  predicate IsDecimalNumber(t: string)
  {
    var k := DotIndex(t);
    || (k == |t| && |t| >= 1 && AllDigits(t))
    || (1 <= k && k + 1 < |t| && AllDigits(t[..k]) && AllDigits(t[k + 1..]))
  }

  /** `parseFloat` of a string matching `\d+(\.\d+)?`. */
  function DecimalNumberValue(t: string): real
    requires IsDecimalNumber(t)
  {
    var k := DotIndex(t);
    if k == |t| then DigitsValue(t) as real else DecimalValue(t[..k], t[k + 1..])
  }

  /** `x` times 1024 to the power `k`. */
  function Scaled(x: real, k: nat): real
  {
    if k == 0 then x else 1024.0 * Scaled(x, k - 1)
  }

  /** Scaling by a power of 1024 keeps the order of amounts. */
  lemma {:induction false} ScaledMonotone(x: real, y: real, k: nat)
    ensures x <= y <==> Scaled(x, k) <= Scaled(y, k)
  {
    if k > 0 {
      ScaledMonotone(x, y, k - 1);
    }
  }

  /** `s` without its binary unit. */
  function NumberPart(s: string): string
  {
    if BinaryUnit(s) == 0 then s else s[..|s| - 2]
  }

  /** `convertToBytes(s)`: a number with an optional binary unit, scaled by
      the unit; any other string is `parseInt(s)`. None stands for NaN. */
  function ConvertToBytes(s: string): Option<real>
  {
    var num := NumberPart(s);
    if IsDecimalNumber(num) then Some(Scaled(DecimalNumberValue(num), BinaryUnit(s)))
    else match ParseInt(s)
      case None => None
      case Some(n) => Some(n as real)
  }

  lemma BinaryUnitOf(num: string, k: nat)
    requires IsDecimalNumber(num) && k <= 4
    ensures BinaryUnit(num + UnitSuffix(k)) == k
    ensures NumberPart(num + UnitSuffix(k)) == num
  {
    var s := num + UnitSuffix(k);
    if k == 0 {
      assert s == num;
      var d := DotIndex(num);
      assert IsDigit(num[|num| - 1]) by {
        if d == |num| {
        } else {
          assert num[|num| - 1] == num[d + 1..][|num| - d - 2];
        }
      }
    } else {
      assert |UnitSuffix(k)| == 2;
      assert s[|s| - 1] == 'i' && s[|s| - 2] == "KMGT"[k - 1];
      assert s[..|s| - 2] == num;
    }
  }

  /** A number followed by one of the units, or by none, is that number
      times 1024 to the unit's power: `'512Mi'` is 512 * 1024^2 and
      `'1.5Gi'` is 1.5 * 1024^3. */
  lemma BytesOfQuantity(num: string, k: nat)
    requires IsDecimalNumber(num) && k <= 4
    ensures ConvertToBytes(num + UnitSuffix(k)) == Some(Scaled(DecimalNumberValue(num), k))
  {
    BinaryUnitOf(num, k);
    ConvertMatched(num + UnitSuffix(k), num, k);
  }

  lemma ConvertMatched(s: string, num: string, k: nat)
    requires NumberPart(s) == num && BinaryUnit(s) == k && IsDecimalNumber(num)
    ensures ConvertToBytes(s) == Some(Scaled(DecimalNumberValue(num), k))
  {
    var v := Scaled(DecimalNumberValue(num), k);
    assert ConvertToBytes(s) == Some(v);
  }

  /** A digit string is read as the integer it spells. */
  lemma IntegerNumber(a: string)
    requires AllDigits(a) && |a| >= 1
    ensures IsDecimalNumber(a) && DecimalNumberValue(a) == DigitsValue(a) as real
  {
    DotIndexOfDigits(a, "");
    assert a + "" == a;
  }

  /** `<digits>.<digits>` is read as that decimal. */
  lemma FractionNumber(a: string, b: string)
    requires AllDigits(a) && |a| >= 1 && AllDigits(b) && |b| >= 1
    ensures IsDecimalNumber(a + "." + b) && DecimalNumberValue(a + "." + b) == DecimalValue(a, b)
  {
    var s := a + "." + b;
    assert DotIndex(s) == |a| by {
      DotIndexOfDigits(a, "." + b);
      assert a + ("." + b) == s;
      assert DotIndex("." + b) == 0;
    }
    assert s[..|a|] == a && s[|a| + 1..] == b;
  }

  // ---------------------------------------------------------------------
  // isResourceWithinLimit and validateResources

  /** `parseInt(v)`: the argument is first converted to a string, so a
      number is read from its printed form (`1.5` gives 1, `1e21` gives 1)
      and undefined, null, booleans and objects give NaN (None). */
  function ParseIntValue(v: Value): Option<int>
  {
    ParseInt(Display(v))
  }

  /** The TypeError `value.match(...)` raises on a value that is not a
      string: a read from undefined or null, or a call of the missing
      method (V8's wording). */
  function MatchError(v: Value): string
  {
    if Nullish(v) then ReadError(v, "match") else "value.match is not a function"
  }

  /** `convertToBytes(v)`: a TypeError unless `v` is a string; otherwise
      the byte count, None standing for NaN. */
  function ConvertValue(v: Value): (r: Outcome<Option<real>>)
    ensures r.Success? <==> v.Str?
    ensures r.Success? ==> r.value == ConvertToBytes(v.s)
    ensures r.Failure? ==> r.error == MatchError(v)
  {
    if v.Str? then Success(ConvertToBytes(v.s)) else Failure(MatchError(v))
  }

  /** `isResourceWithinLimit(key, value, limit)`: both bounds inclusive, a
      NaN on either side comparing false; outside pods the value, then the
      limit, must be a string or `.match` throws. */
  function IsResourceWithinLimit(key: string, value: Value, limit: Value): (r: Outcome<bool>)
    // pods are compared as the integers `parseInt` reads, and never throw
    ensures key == "pods" ==> r.Success?
    ensures key == "pods" ==>
      (r.value <==> ParseIntValue(value).Some? && ParseIntValue(limit).Some?
                    && ParseIntValue(value).value <= ParseIntValue(limit).value)
    // other keys compare byte counts of two strings
    ensures key != "pods" ==> (r.Success? <==> value.Str? && limit.Str?)
    ensures key != "pods" && r.Success? ==>
      (r.value <==> ConvertToBytes(value.s).Some? && ConvertToBytes(limit.s).Some?
                    && ConvertToBytes(value.s).value <= ConvertToBytes(limit.s).value)
    // the value is converted first, so its TypeError comes before the limit's
    ensures key != "pods" && !value.Str? ==> r == Failure(MatchError(value))
    ensures key != "pods" && value.Str? && !limit.Str? ==> r == Failure(MatchError(limit))
  {
    if key == "pods" then
      match (ParseIntValue(value), ParseIntValue(limit))
      case (Some(v), Some(l)) => Success(v <= l)
      case _ => Success(false)
    else
      match ConvertValue(value)
      case Failure(e) => Failure(e)
      case Success(v) =>
        match ConvertValue(limit)
        case Failure(e) => Failure(e)
        case Success(l) => Success(v.Some? && l.Some? && v.value <= l.value)
  }

  /** `limits[key]` on a limits row. An inherited member (a function, or
      `Object.prototype` for `__proto__`) is an object without a `match`
      method, which is all `isResourceWithinLimit` observes of it. */
  function LimitValue(limits: Resources, key: string): Value
  {
    if key in PrototypeNames then Obj([]) else Lookup(AsObject(limits).fields, key)
  }

  /** The four resource keys of a limits row. */
  const ResourceKeys: seq<string> := ["cpu", "memory", "storage", "pods"]

  /** What the loop's test makes of one entry. */
  function Verdict(limits: Resources, e: (string, Value)): Outcome<bool>
  {
    IsResourceWithinLimit(e.0, e.1, LimitValue(limits, e.0))
  }

  /** The entry passes the loop's test: no throw, and within its limit. */
  predicate Within(limits: Resources, e: (string, Value))
  {
    Verdict(limits, e) == Success(true)
  }

  /** Whether each entry passes the loop's test. */
  function Verdicts(limits: Resources, entries: seq<(string, Value)>): (r: seq<bool>)
    ensures |r| == |entries|
    ensures forall i :: 0 <= i < |entries| ==> (r[i] <==> Within(limits, entries[i]))
  {
    seq(|entries|, i requires 0 <= i < |entries| => Within(limits, entries[i]))
  }

  /** Position of the first false verdict, or |bs| when there is none. */
  function FirstFalse(bs: seq<bool>): (k: nat)
    ensures k <= |bs| && (k < |bs| ==> !bs[k])
    ensures forall i :: 0 <= i < k ==> bs[i]
  {
    if bs == [] || !bs[0] then 0
    else
      var k := 1 + FirstFalse(bs[1..]);
      assert forall i :: 1 <= i < k ==> bs[i] == bs[1..][i - 1];
      k
  }

  /** Position of the first entry that throws or exceeds its limit, in
      `Object.entries` order; |entries| when every entry is within. */
  function FirstOverLimit(limits: Resources, entries: seq<(string, Value)>): (k: nat)
    ensures k <= |entries|
    ensures forall i :: 0 <= i < k ==> Within(limits, entries[i])
    ensures k < |entries| ==> !Within(limits, entries[k])
  {
    FirstFalse(Verdicts(limits, entries))
  }

  /** The error the loop throws at an entry that fails its test: the
      conversion's TypeError, or the limit message. */
  function EntryError(limits: Resources, e: (string, Value), kind: string): string
  {
    match Verdict(limits, e)
    case Failure(err) => err
    case Success(_) => "Resource " + e.0 + " exceeds limit for " + kind
  }

  /** `validateResources(kind, resources)`. A kind naming an inherited
      property of the limits table is not modelled. */
  function ValidateResources(kind: string, resources: Value): (r: Outcome<()>)
    requires kind !in PrototypeNames
    // a kind without a limits row is refused before any resource is read
    ensures LimitsFor(kind).None? ==> r == Failure("No resource limits defined for type: " + kind)
    // `Object.entries` throws on undefined and null
    ensures LimitsFor(kind).Some? && Nullish(resources) ==> r == Failure("Cannot convert undefined or null to object")
    // otherwise every resource must pass the test, and the first one that fails decides the error
    ensures LimitsFor(kind).Some? && !Nullish(resources) ==>
      (r.Success? <==> forall i :: 0 <= i < |Entries(resources)| ==> Within(LimitsFor(kind).value, Entries(resources)[i]))
    ensures LimitsFor(kind).Some? && !Nullish(resources) && r.Failure? ==>
      exists i :: (0 <= i < |Entries(resources)| && !Within(LimitsFor(kind).value, Entries(resources)[i])
        && (forall j :: 0 <= j < i ==> Within(LimitsFor(kind).value, Entries(resources)[j]))
        && r.error == EntryError(LimitsFor(kind).value, Entries(resources)[i], kind))
  {
    match LimitsFor(kind)
    case None => Failure("No resource limits defined for type: " + kind)
    case Some(limits) =>
      if Nullish(resources) then Failure("Cannot convert undefined or null to object")
      else
        var entries := Entries(resources);
        var k := FirstOverLimit(limits, entries);
        if k == |entries| then Success(())
        else Failure(EntryError(limits, entries[k], kind))
  }

  // ---------------------------------------------------------------------
  // validateServiceConfig

  predicate IsNameChar(c: char)
  {
    'a' <= c <= 'z' || 'A' <= c <= 'Z' || '0' <= c <= '9' || c == '-' || c == '_' || c == '.'
  }

  /** `/^[a-zA-Z0-9-_.]+$/.test(name)`, which tests the string `name`
      converts to: a number passes unless printed with an exponent '+',
      `true` and `false` pass, an object's "[object Object]" does not. */
  predicate NameFormatOk(name: Value)
  {
    var s := Display(name);
    |s| >= 1 && forall i :: 0 <= i < |s| ==> IsNameChar(s[i])
  }

  /** `name.length > 255`: only strings have a length. */
  predicate NameTooLong(name: Value)
  {
    name.Str? && |name.s| > 255
  }

  const Required: seq<string> := ["name", "type", "resources"]

  /** `validateServiceConfig(config)`: the checks in source order, the first
      failing one deciding the error. */
  function ValidateServiceConfig(config: Value): (r: Outcome<()>)
    ensures !config.Obj? ==> r == Failure("Invalid service configuration")
    ensures config.Obj? && RequireFields(config, Required).Failure? ==> r == RequireFields(config, Required)
    ensures config.Obj? && RequireFields(config, Required).Success? ==>
      var t := Get(config, "type");
      && (ValidateServiceType(t).Failure? ==> r == ValidateServiceType(t))
      && (ValidateServiceType(t).Success? && ValidateResources(t.s, Get(config, "resources")).Failure? ==>
            r == ValidateResources(t.s, Get(config, "resources")))
    // an accepted configuration has a known type, resources within its limits and a valid name
    ensures r.Success? <==>
      && config.Obj? && RequireFields(config, Required).Success?
      && Get(config, "type").Str? && Get(config, "type").s in Tags
      && ValidateResources(Get(config, "type").s, Get(config, "resources")).Success?
      && NameFormatOk(Get(config, "name")) && !NameTooLong(Get(config, "name"))
    ensures r.Success? && Get(config, "name").Str? ==>
      var s := Get(config, "name").s;
      1 <= |s| <= 255 && forall i :: 0 <= i < |s| ==> IsNameChar(s[i])
    ensures (r.Failure? && config.Obj? && RequireFields(config, Required).Success?
      && Get(config, "type").Str? && Get(config, "type").s in Tags
      && ValidateResources(Get(config, "type").s, Get(config, "resources")).Success?) ==>
      r.error == (if !NameFormatOk(Get(config, "name")) then "Invalid service name format" else "Service name too long")
  {
    if !config.Obj? then Failure("Invalid service configuration")
    else if RequireFields(config, Required).Failure? then RequireFields(config, Required)
    else
      var t := Get(config, "type");
      var name := Get(config, "name");
      if ValidateServiceType(t).Failure? then ValidateServiceType(t)
      else if ValidateResources(t.s, Get(config, "resources")).Failure? then
        ValidateResources(t.s, Get(config, "resources"))
      else if !NameFormatOk(name) then Failure("Invalid service name format")
      else if NameTooLong(name) then Failure("Service name too long")
      else Success(())
  }

  // ---------------------------------------------------------------------
  // the tables against the validator

  lemma GibibytesBytes(s: string)
    requires IsGibibytes(s)
    ensures ConvertToBytes(s).Some?
    ensures ConvertToBytes(s).value == Scaled(Gibibytes(s) as real, 3)
  {
    var a := s[..|s| - 2];
    assert AllDigits(a) && |a| >= 1;
    IntegerNumber(a);
    assert a + UnitSuffix(3) == s;
    BytesOfQuantity(a, 3);
  }

  /** The number of gibibytes a `<digits>Gi` string spells. */
  function Gibibytes(s: string): nat
    requires IsGibibytes(s)
  {
    assert AllDigits(s[..|s| - 2]);
    DigitsValue(s[..|s| - 2])
  }

  lemma UnitlessBytes(s: string)
    requires IsDecimalNumber(s)
    ensures ConvertToBytes(s) == Some(DecimalNumberValue(s))
  {
    assert s + UnitSuffix(0) == s;
    BytesOfQuantity(s, 0);
  }

  /** None of the four resource keys is an inherited property name. */
  lemma ResourceKeysNotInherited()
    ensures forall k :: k in ResourceKeys ==> k !in PrototypeNames
  {
    forall k | k in ResourceKeys
      ensures k !in PrototypeNames
    {
      assert |k| !in {9, 11, 14, 16, 20} by {
        assert k == "cpu" || k == "memory" || k == "storage" || k == "pods";
      }
      forall j | 0 <= j < |PrototypeNames| && |PrototypeNames[j]| == |k|
        ensures PrototypeNames[j] != k
      {
        assert PrototypeNames[j][0] != k[0];
      }
    }
  }

  /** `limits[key]` for each of the four keys of a row. */
  lemma LimitValues(l: Resources)
    ensures LimitValue(l, "cpu") == Str(l.cpu)
    ensures LimitValue(l, "memory") == Str(l.memory)
    ensures LimitValue(l, "storage") == Str(l.storage)
    ensures LimitValue(l, "pods") == Num(l.pods as real)
  {
    ResourceKeysNotInherited();
    var lf := AsObject(l).fields;
    assert "cpu"[0] != "memory"[0] && "cpu"[0] != "storage"[0] && "memory"[0] != "storage"[0];
    assert "cpu"[0] != "pods"[0] && "memory"[0] != "pods"[0] && "storage"[0] != "pods"[0];
    assert Lookup(lf, "memory") == Lookup(lf[1..], "memory") && lf[1..][0] == ("memory", Str(l.memory));
    assert Lookup(lf, "storage") == Lookup(lf[1..], "storage") == Lookup(lf[1..][1..], "storage");
    assert lf[1..][1..][0] == ("storage", Str(l.storage));
    assert Lookup(lf, "pods") == Lookup(lf[1..], "pods") == Lookup(lf[1..][1..], "pods");
    assert Lookup(lf[1..][1..], "pods") == Lookup(lf[1..][1..][1..], "pods");
    assert lf[1..][1..][1..][0] == ("pods", Num(l.pods as real));
  }

  /** Two amounts in gibibytes compare as their numbers of gibibytes. */
  lemma GibibytesWithin(key: string, d: string, l: string)
    requires key != "pods" && IsGibibytes(d) && IsGibibytes(l)
    ensures IsResourceWithinLimit(key, Str(d), Str(l)) == Success(Gibibytes(d) <= Gibibytes(l))
  {
    GibibytesBytes(d);
    GibibytesBytes(l);
    ScaledMonotone(Gibibytes(d) as real, Gibibytes(l) as real, 3);
  }

  /** Two unitless cpu amounts compare as decimals. */
  lemma UnitlessWithin(d: string, l: string)
    requires IsDecimalNumber(d) && IsDecimalNumber(l)
    ensures IsResourceWithinLimit("cpu", Str(d), Str(l)) == Success(DecimalNumberValue(d) <= DecimalNumberValue(l))
  {
    UnitlessBytes(d);
    UnitlessBytes(l);
  }

  /** Whole pod counts below 10^21 compare as integers, whatever their
      size: `parseInt` reads each back from its digits. */
  lemma PodsWithin(pods: nat, limit: nat)
    requires pods < 1000000000000000000000 && limit < 1000000000000000000000
    ensures IsResourceWithinLimit("pods", Num(pods as real), Num(limit as real)) == Success(pods <= limit)
  {
    Pow10At21();
    IntegerRoundTrip(pods);
    IntegerRoundTrip(limit);
  }

  /** A fractional numeric type is refused, named as JavaScript prints it. */
  lemma FractionalTypeRefused()
    ensures ValidateServiceType(Num(1.5)) == Failure("Invalid service type: 1.5")
  {
    HalfText();
  }

  /** `parseInt` reads the pod count 10^21 from its printed form "1e+21"
      as 1, so it passes a limit of one. */
  lemma ExponentPodsWithin()
    ensures IsResourceWithinLimit("pods", Num(1000000000000000000000.0), Num(1.0)) == Success(true)
  {
    ExponentText21();
    ExponentPrefixOne();
    IntegerOne();
  }

  lemma ExponentPrefixOne()
    ensures ParseInt("1e+21") == Some(1)
  {
    var s := "1e+21";
    DigitLed(s);
    assert s == "1" + "e+21";
    DigitRunOfDigits("1", "e+21");
    assert s[..1] == "1";
  }

  lemma IntegerOne()
    ensures ParseIntValue(Num(1.0)) == Some(1)
  {
    Pow10At21();
    IntegerRoundTrip(1);
  }

  /** A number where a string is expected: cpu 2 makes `value.match` throw
      before any limit is compared. */
  lemma NumericCpuThrows()
    ensures ValidateResources("openai", Obj([("cpu", Num(2.0))])) == Failure("value.match is not a function")
  {
    ResourceKeysNotInherited();
    assert "cpu" in ResourceKeys;
    assert !Within(LimitsFor("openai").value, ("cpu", Num(2.0)));
  }

  /** A default row no larger than a limit row, field by field, has all
      four entries within it. */
  lemma RowWithin(d: Resources, l: Resources)
    requires IsDecimalNumber(d.cpu) && IsDecimalNumber(l.cpu)
    requires DecimalNumberValue(d.cpu) <= DecimalNumberValue(l.cpu)
    requires IsGibibytes(d.memory) && IsGibibytes(l.memory) && Gibibytes(d.memory) <= Gibibytes(l.memory)
    requires IsGibibytes(d.storage) && IsGibibytes(l.storage) && Gibibytes(d.storage) <= Gibibytes(l.storage)
    requires 0 <= d.pods <= l.pods < 1000
    ensures Within(l, ("cpu", Str(d.cpu))) && Within(l, ("memory", Str(d.memory)))
    ensures Within(l, ("storage", Str(d.storage))) && Within(l, ("pods", Num(d.pods as real)))
  {
    LimitValues(l);
    UnitlessWithin(d.cpu, l.cpu);
    GibibytesWithin("memory", d.memory, l.memory);
    GibibytesWithin("storage", d.storage, l.storage);
    PodsWithin(d.pods, l.pods);
  }

  /** No tag is an inherited property name of a table object. */
  lemma TagsNotInherited(tag: string)
    requires tag in Tags
    ensures tag !in PrototypeNames
  {
  }

  /** Defaults within the limits `l` of `kind`, field by field, pass
      `validateResources(kind, defaults)`. */
  lemma RowPasses(kind: string, d: Resources, l: Resources)
    requires kind in Tags && LimitsFor(kind) == Some(l)
    requires IsDecimalNumber(d.cpu) && IsDecimalNumber(l.cpu)
    requires DecimalNumberValue(d.cpu) <= DecimalNumberValue(l.cpu)
    requires IsGibibytes(d.memory) && IsGibibytes(l.memory) && Gibibytes(d.memory) <= Gibibytes(l.memory)
    requires IsGibibytes(d.storage) && IsGibibytes(l.storage) && Gibibytes(d.storage) <= Gibibytes(l.storage)
    requires 0 <= d.pods <= l.pods < 1000
    ensures kind !in PrototypeNames && ValidateResources(kind, AsObject(d)) == Success(())
  {
    TagsNotInherited(kind);
    RowEntriesWithin(d, l);
    AllWithinPasses(kind, AsObject(d));
  }

  lemma RowEntriesWithin(d: Resources, l: Resources)
    requires IsDecimalNumber(d.cpu) && IsDecimalNumber(l.cpu)
    requires DecimalNumberValue(d.cpu) <= DecimalNumberValue(l.cpu)
    requires IsGibibytes(d.memory) && IsGibibytes(l.memory) && Gibibytes(d.memory) <= Gibibytes(l.memory)
    requires IsGibibytes(d.storage) && IsGibibytes(l.storage) && Gibibytes(d.storage) <= Gibibytes(l.storage)
    requires 0 <= d.pods <= l.pods < 1000
    ensures forall i :: 0 <= i < |AsObject(d).fields| ==> Within(l, AsObject(d).fields[i])
  {
    RowWithin(d, l);
    FourWithin(l, AsObject(d).fields, ("cpu", Str(d.cpu)), ("memory", Str(d.memory)),
               ("storage", Str(d.storage)), ("pods", Num(d.pods as real)));
  }

  /** Every entry of a four-entry list is within its limit when each of the four is. */
  lemma FourWithin(l: Resources, fields: seq<(string, Value)>,
                   e0: (string, Value), e1: (string, Value), e2: (string, Value), e3: (string, Value))
    requires fields == [e0, e1, e2, e3]
    requires Within(l, e0) && Within(l, e1) && Within(l, e2) && Within(l, e3)
    ensures forall i :: 0 <= i < |fields| ==> Within(l, fields[i])
  {
    forall i | 0 <= i < |fields|
      ensures Within(l, fields[i])
    {
      if i == 0 {
        assert fields[i] == e0;
      } else if i == 1 {
        assert fields[i] == e1;
      } else if i == 2 {
        assert fields[i] == e2;
      } else {
        assert fields[i] == e3;
      }
    }
  }

  lemma AllWithinPasses(kind: string, resources: Value)
    requires kind !in PrototypeNames && LimitsFor(kind).Some? && !Nullish(resources)
    requires forall i :: 0 <= i < |Entries(resources)| ==> Within(LimitsFor(kind).value, Entries(resources)[i])
    ensures ValidateResources(kind, resources) == Success(())
  {
  }

  /** `<n>Gi` is `n` gibibytes. */
  lemma GibibytesOf(n: string, s: string)
    requires AllDigits(n) && |n| >= 1 && s == n + "Gi"
    ensures IsGibibytes(s) && Gibibytes(s) == DigitsValue(n)
  {
    assert s[..|s| - 2] == n;
  }

  /** The digit string `n` as a unitless cpu amount. */
  lemma WholeCpu(n: string, value: nat)
    requires AllDigits(n) && |n| >= 1 && DigitsValue(n) == value
    ensures IsDecimalNumber(n) && DecimalNumberValue(n) == value as real
  {
    IntegerNumber(n);
  }

  /** `'0.5'` is half a cpu. */
  lemma HalfCpu()
    ensures IsDecimalNumber("0.5") && DecimalNumberValue("0.5") == 0.5
  {
    FractionNumber("0", "5");
    assert "0" + "." + "5" == "0.5";
    assert DecimalValue("0", "5") == 0.5;
  }

  // The catalogue is consistent: every type's default resources pass
  // `validateResources` against that type's own limits, one lemma per type.

  lemma DefaultsPassVertex()
    ensures ValidateResources("vertex-ai", AsObject(DefaultsFor("vertex-ai").value)) == Success(())
  {
    WholeCpu("1", 1);
    WholeCpu("4", 4);
    GibibytesOf("2", "2Gi");
    GibibytesOf("8", "8Gi");
    GibibytesOf("5", "5Gi");
    GibibytesOf("20", "20Gi");
    RowPasses("vertex-ai", DefaultsFor("vertex-ai").value, LimitsFor("vertex-ai").value);
  }

  lemma DefaultsPassOpenAi()
    ensures ValidateResources("openai", AsObject(DefaultsFor("openai").value)) == Success(())
  {
    HalfCpu();
    WholeCpu("2", 2);
    GibibytesOf("1", "1Gi");
    GibibytesOf("4", "4Gi");
    GibibytesOf("5", "5Gi");
    RowPasses("openai", DefaultsFor("openai").value, LimitsFor("openai").value);
  }

  lemma DefaultsPassJenkins()
    ensures ValidateResources("jenkins", AsObject(DefaultsFor("jenkins").value)) == Success(())
  {
    WholeCpu("2", 2);
    WholeCpu("4", 4);
    GibibytesOf("4", "4Gi");
    GibibytesOf("8", "8Gi");
    GibibytesOf("10", "10Gi");
    GibibytesOf("50", "50Gi");
    RowPasses("jenkins", DefaultsFor("jenkins").value, LimitsFor("jenkins").value);
  }

  lemma DefaultsPassGke()
    ensures ValidateResources("gke", AsObject(DefaultsFor("gke").value)) == Success(())
  {
    WholeCpu("2", 2);
    WholeCpu("8", 8);
    GibibytesOf("4", "4Gi");
    GibibytesOf("16", "16Gi");
    GibibytesOf("20", "20Gi");
    GibibytesOf("100", "100Gi");
    RowPasses("gke", DefaultsFor("gke").value, LimitsFor("gke").value);
  }

  lemma DefaultsPassBorg()
    ensures ValidateResources("borg", AsObject(DefaultsFor("borg").value)) == Success(())
  {
    WholeCpu("2", 2);
    WholeCpu("8", 8);
    GibibytesOf("4", "4Gi");
    GibibytesOf("16", "16Gi");
    GibibytesOf("20", "20Gi");
    GibibytesOf("100", "100Gi");
    RowPasses("borg", DefaultsFor("borg").value, LimitsFor("borg").value);
  }
}
