/** The step runner: named configuration steps run in order, a counter of
    completed steps, and a stop at the first step that throws. Whether a
    step's awaited function completes is part of the step. */
module AutoConfigs {

  /** One entry of `configSteps`: its name, and whether awaiting its
      function completes (true) or throws (false). */
  datatype Step = Step(name: string, completes: bool)

  /** How many steps complete before the first one that throws. */
  function LeadingSuccesses(steps: seq<Step>): (n: nat)
    ensures n <= |steps|
    ensures forall i :: 0 <= i < n ==> steps[i].completes
    ensures n < |steps| ==> !steps[n].completes
  {
    if steps == [] || !steps[0].completes then 0
    else 1 + LeadingSuccesses(steps[1..])
  }

  /** How many step functions a run calls: the completed ones and, if
      there is one, the first that throws. */
  function Attempted(steps: seq<Step>): (n: nat)
    ensures n <= |steps|
    ensures n == |steps| || n == LeadingSuccesses(steps) + 1
  {
    if LeadingSuccesses(steps) < |steps| then LeadingSuccesses(steps) + 1 else |steps|
  }

  /** Steps that all complete followed by anything: the leading run
      continues into the rest. */
  lemma {:induction false} LeadingSuccessesAppend(done: seq<Step>, rest: seq<Step>)
    requires forall i :: 0 <= i < |done| ==> done[i].completes
    ensures LeadingSuccesses(done + rest) == |done| + LeadingSuccesses(rest)
  {
    if done != [] {
      assert (done + rest)[0] == done[0];
      assert (done + rest)[1..] == done[1..] + rest;
      LeadingSuccessesAppend(done[1..], rest);
    } else {
      assert done + rest == rest;
    }
  }

  /** Steps after the first failure never matter. */
  lemma LeadingSuccessesIgnoresTail(steps: seq<Step>, more: seq<Step>)
    requires LeadingSuccesses(steps) < |steps|
    ensures LeadingSuccesses(steps + more) == LeadingSuccesses(steps)
  {
    var n := LeadingSuccesses(steps);
    assert steps == steps[..n] + steps[n..];
    assert steps + more == steps[..n] + (steps[n..] + more);
    LeadingSuccessesAppend(steps[..n], steps[n..] + more);
    LeadingSuccessesAppend(steps[..n], steps[n..]);
  }

  class AutoConfig {
    var configSteps: seq<Step>
    var currentStep: int

    /** `new AutoConfig()`: no steps, none completed. */
    constructor ()
      ensures configSteps == [] && currentStep == 0
    {
      configSteps := [];
      currentStep := 0;
    }

    /** `configureStep(stepName, configFn)`: counts the step when its
        function completes. */
    method ConfigureStep(stepName: string, completes: bool) returns (ok: bool)
      modifies this
      ensures ok == completes
      ensures currentStep == old(currentStep) + (if completes then 1 else 0)
      ensures configSteps == old(configSteps)
    {
      if completes {
        currentStep := currentStep + 1;
        return true;
      }
      return false;
    }

    /** `runConfiguration()`: each step in order until one fails. Returns how
        many step functions were called. */
    method RunConfiguration() returns (attempted: nat)
      modifies this
      ensures currentStep == old(currentStep) + LeadingSuccesses(configSteps)
      ensures attempted == Attempted(configSteps)
      ensures configSteps == old(configSteps)
    {
      var steps := configSteps;
      attempted := 0;
      while attempted < |steps|
        invariant configSteps == steps
        invariant attempted <= LeadingSuccesses(steps)
        invariant currentStep == old(currentStep) + attempted
      {
        var success := ConfigureStep(steps[attempted].name, steps[attempted].completes);
        attempted := attempted + 1;
        if !success {
          break;
        }
      }
    }
  }
}
