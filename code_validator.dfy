/** The static configuration and response checks: presence of the three
    integration settings, then a response whose status is 'success'. */
module CodeValidators {
  import opened Outcomes
  import opened JsValues

  /** The settings `validateConfig` requires, in the order it checks them:
      section, key, and the error when `config.section?.key` is falsy. */
  const Settings: seq<(string, string, string)> := [
    ("vetestx", "url", "Vetestx URL is a required truth"),
    ("openai", "token", "OpenAI token is a fundamental law"),
    ("jenkins", "url", "Jenkins URL is an immutable requirement")]

  /** `config.section?.key` is truthy. */
  predicate HasSetting(config: Value, i: nat)
    requires !Nullish(config) && i < |Settings|
  {
    Truthy(GetOpt(Get(config, Settings[i].0), Settings[i].1))
  }

  /** `validateConfig(config)`. */
  function ValidateConfig(config: Value): (r: Outcome<bool>)
    ensures r.Success? ==> r.value
    ensures !Truthy(config) ==> r == Failure("Configuration is sacred and must be provided")
    // true exactly when all three settings are present
    ensures r.Success? <==> Truthy(config) && forall i :: 0 <= i < |Settings| ==> HasSetting(config, i)
    // otherwise the first missing setting decides the error
    ensures Truthy(config) && r.Failure? ==>
      exists i :: 0 <= i < |Settings| && !HasSetting(config, i) && r.error == Settings[i].2
        && forall j :: 0 <= j < i ==> HasSetting(config, j)
  {
    if !Truthy(config) then Failure("Configuration is sacred and must be provided")
    else if !Truthy(GetOpt(Get(config, "vetestx"), "url")) then
      assert !HasSetting(config, 0);
      Failure("Vetestx URL is a required truth")
    else if !Truthy(GetOpt(Get(config, "openai"), "token")) then
      assert HasSetting(config, 0) && !HasSetting(config, 1);
      Failure("OpenAI token is a fundamental law")
    else if !Truthy(GetOpt(Get(config, "jenkins"), "url")) then
      assert HasSetting(config, 0) && HasSetting(config, 1) && !HasSetting(config, 2);
      Failure("Jenkins URL is an immutable requirement")
    else Success(true)
  }

  /** `validateResponse(response, service)`; the service, any value, appears
      in the messages as a template literal prints it. */
  function ValidateResponse(response: Value, service: Value): (r: Outcome<bool>)
    ensures r.Success? ==> r.value
    ensures r.Success? <==> Truthy(response) && Get(response, "status") == Str("success")
    ensures !Truthy(response) ==> r == Failure(Display(service) + " response is void - against the code laws")
    ensures Truthy(response) && r.Failure? ==> r.error == Display(service) + " failed to honor the code"
  {
    if !Truthy(response) then Failure(Display(service) + " response is void - against the code laws")
    else if Get(response, "status") != Str("success") then Failure(Display(service) + " failed to honor the code")
    else Success(true)
  }

  /** The three messages differ, so the error names the setting that is
      missing. */
  lemma SettingMessagesDistinct()
    ensures forall i, j :: 0 <= i < j < |Settings| ==> Settings[i].2 != Settings[j].2
  {
    assert Settings[0].2[0] == 'V' && Settings[1].2[0] == 'O' && Settings[2].2[0] == 'J';
  }

  /** A configuration object holding the three sections, at any positions
      among any other properties, passes when each section carries its
      setting. */
  lemma FullConfigPasses(fields: seq<(string, Value)>, v: nat, o: nat, j: nat)
    requires DistinctKeys(fields) && v < |fields| && o < |fields| && j < |fields|
    requires fields[v].0 == "vetestx" && Truthy(GetOpt(fields[v].1, "url"))
    requires fields[o].0 == "openai" && Truthy(GetOpt(fields[o].1, "token"))
    requires fields[j].0 == "jenkins" && Truthy(GetOpt(fields[j].1, "url"))
    ensures ValidateConfig(Obj(fields)) == Success(true)
  {
    LookupAt(fields, v);
    LookupAt(fields, o);
    LookupAt(fields, j);
  }

  /** A response object whose status, at any position among any other
      properties, is anything but the string 'success' fails with the
      second message. */
  lemma WrongStatusFails(fields: seq<(string, Value)>, i: nat, service: Value)
    requires DistinctKeys(fields) && i < |fields|
    requires fields[i].0 == "status" && fields[i].1 != Str("success")
    ensures ValidateResponse(Obj(fields), service) == Failure(Display(service) + " failed to honor the code")
  {
    LookupAt(fields, i);
  }
}
