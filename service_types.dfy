/** The constant tables of the service catalogue: the five service type
    tags, and for each tag the default resources and the resource limits. */
module ServiceTypes {
  import opened Outcomes
  import opened JsValues

  /** `Object.values(ServiceTypes)`, in declaration order. */
  const Tags: seq<string> := ["vertex-ai", "openai", "jenkins", "gke", "borg"]

  /** One row of `ResourceDefaults` or `ResourceLimits`. */
  datatype Resources = Resources(cpu: string, memory: string, storage: string, pods: int)

  /** `ResourceDefaults[tag]`. */
  function DefaultsFor(tag: string): Option<Resources>
  {
    if tag == "vertex-ai" then Some(Resources("1", "2Gi", "5Gi", 2))
    else if tag == "openai" then Some(Resources("0.5", "1Gi", "1Gi", 1))
    else if tag == "jenkins" then Some(Resources("2", "4Gi", "10Gi", 1))
    else if tag == "gke" then Some(Resources("2", "4Gi", "20Gi", 3))
    else if tag == "borg" then Some(Resources("2", "4Gi", "20Gi", 3))
    else None
  }

  /** `ResourceLimits[tag]`. */
  function LimitsFor(tag: string): Option<Resources>
  {
    if tag == "vertex-ai" then Some(Resources("4", "8Gi", "20Gi", 5))
    else if tag == "openai" then Some(Resources("2", "4Gi", "5Gi", 3))
    else if tag == "jenkins" then Some(Resources("4", "8Gi", "50Gi", 2))
    else if tag == "gke" then Some(Resources("8", "16Gi", "100Gi", 10))
    else if tag == "borg" then Some(Resources("8", "16Gi", "100Gi", 10))
    else None
  }

  /** A row as the JavaScript object literal it is written as. */
  function AsObject(r: Resources): (v: Value)
    ensures v.Obj? && |v.fields| == 4 && DistinctKeys(v.fields)
    ensures forall i :: 0 <= i < 4 ==> v.fields[i].0 == ["cpu", "memory", "storage", "pods"][i]
  {
    Obj([("cpu", Str(r.cpu)), ("memory", Str(r.memory)), ("storage", Str(r.storage)), ("pods", Num(r.pods as real))])
  }

  /** The inherited properties of `Object.prototype`: a lookup of one of
      these names in a table object finds a function, not a row. */
  const PrototypeNames: seq<string> := [
    "constructor", "__proto__", "hasOwnProperty", "isPrototypeOf", "propertyIsEnumerable",
    "toLocaleString", "toString", "valueOf", "__defineGetter__", "__defineSetter__",
    "__lookupGetter__", "__lookupSetter__"]

  /** There are exactly five tags and no two are equal. */
  lemma TagsDistinct()
    ensures |Tags| == 5
    ensures forall i, j :: 0 <= i < j < |Tags| ==> Tags[i] != Tags[j]
  {
    assert Tags[0][0] == 'v' && Tags[1][0] == 'o' && Tags[2][0] == 'j' && Tags[4][0] == 'b';
    assert Tags[3][0] == 'g';
  }

  /** Every tag, and only a tag, has a defaults row and a limits row. */
  lemma TablesCoverTags(tag: string)
    ensures DefaultsFor(tag).Some? <==> tag in Tags
    ensures LimitsFor(tag).Some? <==> tag in Tags
  {
  }

  /** A whole number of gibibytes, as the tables write memory and storage. */
  predicate IsGibibytes(s: string)
  {
    |s| >= 3 && s[|s| - 2] == 'G' && s[|s| - 1] == 'i' && forall i :: 0 <= i < |s| - 2 ==> '0' <= s[i] <= '9'
  }

  /** A decimal number without a unit, as the tables write cpu. */
  predicate IsUnitless(s: string)
  {
    |s| >= 1 && forall i :: 0 <= i < |s| ==> '0' <= s[i] <= '9' || s[i] == '.'
  }

  predicate Uniform(r: Resources)
  {
    IsUnitless(r.cpu) && IsGibibytes(r.memory) && IsGibibytes(r.storage) && r.pods >= 1
  }

  /** Every row: cpu without a unit, memory and storage in `Gi`, pods a
      positive integer. */
  lemma TablesUniform(tag: string)
    requires tag in Tags
    ensures Uniform(DefaultsFor(tag).value) && Uniform(LimitsFor(tag).value)
  {
    if tag == "vertex-ai" {
      GibibytesRow("2Gi", "5Gi");
      GibibytesRow("8Gi", "20Gi");
    } else if tag == "openai" {
      GibibytesRow("1Gi", "1Gi");
      GibibytesRow("4Gi", "5Gi");
    } else if tag == "jenkins" {
      GibibytesRow("4Gi", "10Gi");
      GibibytesRow("8Gi", "50Gi");
    } else {
      GibibytesRow("4Gi", "20Gi");
      GibibytesRow("16Gi", "100Gi");
    }
  }

  lemma GibibytesRow(memory: string, storage: string)
    requires memory in ["1Gi", "2Gi", "4Gi", "8Gi", "16Gi"]
    requires storage in ["1Gi", "5Gi", "10Gi", "20Gi", "50Gi", "100Gi"]
    ensures IsGibibytes(memory) && IsGibibytes(storage)
  {
  }
}
