/** The Borg orchestrator: a constructor that insists on a configuration,
    a spec check over three required fields, and a deploy that wraps any
    check failure in its own message. The generated id takes the clock
    reading and the random suffix as inputs. */
module Borg {
  import opened Outcomes
  import opened JsValues

  /** The orchestrator keeps its configuration; its container map is never used. */
  datatype BorgOrchestrator = BorgOrchestrator(config: Value)

  /** What a successful deploy returns. */
  datatype Deployment = Deployment(status: string, containerId: string)

  const SpecFields: seq<string> := ["image", "resources", "priority"]

  /** `new BorgOrchestrator(config)`. */
  function NewBorg(config: Value): (r: Outcome<BorgOrchestrator>)
    ensures r.Success? <==> Truthy(config)
    ensures r.Success? ==> r.value.config == config
    ensures r.Failure? ==> r.error == "Config is required"
  {
    if !Truthy(config) then Failure("Config is required") else Success(BorgOrchestrator(config))
  }

  /** `validateSpec(spec)`: image, resources and priority must be truthy,
      checked in that order; a missing spec fails on its first read. */
  function ValidateSpec(spec: Value): (r: Outcome<bool>)
    ensures r.Success? ==> r.value
    ensures r.Success? <==> !Nullish(spec) && forall i :: 0 <= i < |SpecFields| ==> Truthy(Get(spec, SpecFields[i]))
    ensures Nullish(spec) ==> r == Failure(ReadError(spec, "image"))
    ensures !Nullish(spec) && r.Failure? ==>
      exists i :: 0 <= i < |SpecFields| && !Truthy(Get(spec, SpecFields[i]))
        && r.error == "Missing required field: " + SpecFields[i]
        && forall j :: 0 <= j < i ==> Truthy(Get(spec, SpecFields[j]))
  {
    if Nullish(spec) then Failure(ReadError(spec, "image"))
    else match RequireFields(spec, SpecFields)
      case Success(_) => Success(true)
      case Failure(e) => Failure(e)
  }

  /** `generateId()` with `Date.now()` as `now` and the base-36 random
      digits as `random`. */
  function GenerateId(now: int, random: string): (id: string)
    ensures |id| > 5 && id[..5] == "borg-"
  {
    "borg-" + IntText(now) + "-" + random
  }

  /** `deployContainer(spec)`. */
  function DeployContainer(b: BorgOrchestrator, spec: Value, now: int, random: string): (r: Outcome<Deployment>)
    ensures r.Success? <==> ValidateSpec(spec).Success?
    ensures r.Failure? ==> r.error == "Borg deployment failed: " + ValidateSpec(spec).error
    ensures r.Success? ==>
      && r.value.status == "deployed"
      && |r.value.containerId| > 5 && r.value.containerId[..5] == "borg-"
  {
    match ValidateSpec(spec)
    case Success(_) => Success(Deployment("deployed", GenerateId(now, random)))
    case Failure(e) => Failure("Borg deployment failed: " + e)
  }

  /** A spec with all three fields deploys, whatever else it carries. */
  lemma CompleteSpecDeploys(b: BorgOrchestrator, image: Value, resources: Value, priority: Value,
                            rest: seq<(string, Value)>, now: int, random: string)
    requires Truthy(image) && Truthy(resources) && Truthy(priority)
    ensures DeployContainer(b, Obj([("image", image), ("resources", resources), ("priority", priority)] + rest),
                            now, random).Success?
  {
    var fields := [("image", image), ("resources", resources), ("priority", priority)] + rest;
    var spec := Obj(fields);
    assert fields[1..] == [("resources", resources), ("priority", priority)] + rest;
    assert fields[1..][1..] == [("priority", priority)] + rest;
    assert "image"[0] != "resources"[0] && "image"[0] != "priority"[0] && "resources"[0] != "priority"[0];
    assert Get(spec, "image") == image;
    assert Lookup(fields, "resources") == Lookup(fields[1..], "resources") == resources;
    assert Lookup(fields, "priority") == Lookup(fields[1..], "priority") == Lookup(fields[1..][1..], "priority");
    assert Lookup(fields[1..][1..], "priority") == priority;
    assert SpecFields == ["image", "resources", "priority"];
  }

  /** A spec without a priority is refused with the wrapped message naming it. */
  lemma MissingPriority(b: BorgOrchestrator, image: Value, resources: Value, now: int, random: string)
    requires Truthy(image) && Truthy(resources)
    ensures DeployContainer(b, Obj([("image", image), ("resources", resources)]), now, random)
      == Failure("Borg deployment failed: " + "Missing required field: priority")
  {
    var fields := [("image", image), ("resources", resources)];
    var spec := Obj(fields);
    assert fields[1..] == [("resources", resources)] && fields[1..][1..] == [];
    assert "image"[0] != "resources"[0] && "image"[0] != "priority"[0] && "resources"[0] != "priority"[0];
    assert Get(spec, "image") == image;
    assert Lookup(fields, "resources") == Lookup(fields[1..], "resources") == resources;
    assert Lookup(fields, "priority") == Lookup(fields[1..], "priority") == Lookup(fields[1..][1..], "priority");
    assert Lookup(fields[1..][1..], "priority") == Undefined;
    var missing := "Missing required field: priority";
    assert SpecFields[1..][1..] == ["priority"];
    assert RequireFields(spec, ["priority"]) == Failure(missing);
    assert RequireFields(spec, SpecFields) == RequireFields(spec, SpecFields[1..]) == RequireFields(spec, SpecFields[1..][1..]);
    assert ValidateSpec(spec) == Failure(missing);
  }
}
