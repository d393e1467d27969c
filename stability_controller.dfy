/** The stability controller's own per-service bookkeeping: a failure count
    and a circuit label per service name. Five recorded failures open a
    service's circuit and schedule a timer; when the timer fires, the
    circuit is labelled HALF-OPEN. The pending timers are kept as a
    multiset of service names, one element per scheduled callback. A name
    is any JavaScript value, as the orchestrator passes `service.name`. */
module StabilityControllers {
  import opened Outcomes
  import opened JsValues

  /** The two labels `circuitState` can hold; a missing entry means the
      circuit was never opened or has been cleared. */
  datatype Label = Open | HalfOpen

  /** The controller's mutable state. */
  datatype Controller = Controller(
    failureCount: map<Value, int>,
    circuitState: map<Value, Label>,
    timers: multiset<Value>)

  /** `config.failureThreshold`. */
  const FailureThreshold := 5
  /** `config.resetTimeout`, the delay of the timer `openCircuit` sets. */
  const ResetTimeout := 30000

  const Empty := Controller(map[], map[], multiset{})

  /** `isCircuitOpen(name)`: only OPEN blocks; HALF-OPEN lets calls through. */
  predicate CircuitIsOpen(c: Controller, name: Value)
  {
    name in c.circuitState && c.circuitState[name] == Open
  }

  /** `failureCount.get(name) || 0`. */
  function CountOf(c: Controller, name: Value): int
  {
    if name in c.failureCount then c.failureCount[name] else 0
  }

  /** `openCircuit(name)`: label OPEN and schedule one more timer. */
  function OpenedCircuit(c: Controller, name: Value): (r: Controller)
    ensures r.failureCount == c.failureCount
    ensures r.circuitState == c.circuitState[name := Open]
    ensures r.timers == c.timers + multiset{name}
  {
    Controller(c.failureCount, c.circuitState[name := Open], c.timers + multiset{name})
  }

  /** `recordFailure(name)`. */
  function RecordedFailure(c: Controller, name: Value): (r: Controller)
    // the count is the old count (0 when absent) plus one
    ensures r.failureCount == c.failureCount[name := CountOf(c, name) + 1]
    // the circuit opens, and a timer is scheduled, exactly when the new count reaches 5
    ensures CountOf(c, name) + 1 >= FailureThreshold ==>
      r.circuitState == c.circuitState[name := Open] && r.timers == c.timers + multiset{name}
    ensures CountOf(c, name) + 1 < FailureThreshold ==>
      r.circuitState == c.circuitState && r.timers == c.timers
  {
    var failures := CountOf(c, name) + 1;
    var counted := c.(failureCount := c.failureCount[name := failures]);
    if failures >= FailureThreshold then OpenedCircuit(counted, name) else counted
  }

  /** `resetFailures(name)`: forget the count, and clear a HALF-OPEN label
      (an OPEN label stays). */
  function FailuresReset(c: Controller, name: Value): (r: Controller)
    ensures r.failureCount == c.failureCount - {name}
    ensures r.circuitState ==
      if name in c.circuitState && c.circuitState[name] == HalfOpen then c.circuitState - {name}
      else c.circuitState
    ensures r.timers == c.timers
  {
    var cleared := c.(failureCount := c.failureCount - {name});
    if name in c.circuitState && c.circuitState[name] == HalfOpen then
      cleared.(circuitState := c.circuitState - {name})
    else cleared
  }

  /** The timer callback scheduled by `openCircuit(name)`: it labels the
      circuit HALF-OPEN whatever its label is at that moment. */
  function TimerFired(c: Controller, name: Value): (r: Controller)
    requires name in c.timers
    ensures r.circuitState == c.circuitState[name := HalfOpen]
    ensures r.failureCount == c.failureCount
    ensures r.timers == c.timers - multiset{name}
  {
    Controller(c.failureCount, c.circuitState[name := HalfOpen], c.timers - multiset{name})
  }

  /** `monitorService(name)`, where `health` is what the awaited health
      check produces: `Success(healthy)` or the error it throws. The
      result is the `healthy` flag returned, or the error rethrown. */
  function Monitored(c: Controller, name: Value, health: Outcome<bool>): (r: (Controller, Outcome<bool>))
    // an OPEN circuit throws without a health check, yet records one more failure
    ensures CircuitIsOpen(c, name) ==>
      r == (RecordedFailure(c, name), Failure("Circuit open for " + Display(name)))
    // a health check that throws records one failure, and its error is rethrown
    ensures !CircuitIsOpen(c, name) && health.Failure? ==>
      r == (RecordedFailure(c, name), Failure(health.error))
    // an unhealthy answer records one failure and is returned, not thrown
    ensures !CircuitIsOpen(c, name) && health == Success(false) ==>
      r == (RecordedFailure(c, name), Success(false))
    // a healthy answer forgets the count and clears HALF-OPEN
    ensures !CircuitIsOpen(c, name) && health == Success(true) ==>
      r == (FailuresReset(c, name), Success(true))
    // one failure is counted on every path but the healthy one
    ensures r.1 != Success(true) ==> CountOf(r.0, name) == CountOf(c, name) + 1
    // nothing about any other service changes
    ensures forall other :: other != name ==>
      CountOf(r.0, other) == CountOf(c, other)
      && (other in r.0.circuitState <==> other in c.circuitState)
      && (other in c.circuitState ==> r.0.circuitState[other] == c.circuitState[other])
    ensures forall other :: other != name ==> r.0.timers[other] == c.timers[other]
  {
    if CircuitIsOpen(c, name) then
      // the error thrown inside the try block reaches `handleError`
      (RecordedFailure(c, name), Failure("Circuit open for " + Display(name)))
    else match health
      case Failure(e) => (RecordedFailure(c, name), Failure(e))
      case Success(healthy) =>
        if !healthy then (RecordedFailure(c, name), Success(false))
        else (FailuresReset(c, name), Success(true))
  }

  /** Every OPEN circuit has at least five failures on record. */
  predicate Inv(c: Controller)
  {
    forall name :: name in c.circuitState && c.circuitState[name] == Open ==>
      name in c.failureCount && c.failureCount[name] >= FailureThreshold
  }

  /** What can happen to a controller: a `monitorService` call, or one
      pending timer firing. */
  datatype Event =
    | Monitor(name: Value, health: Outcome<bool>)
    | Fire(name: Value)

  function Step(c: Controller, e: Event): Controller
  {
    match e
    case Monitor(name, health) => Monitored(c, name, health).0
    case Fire(name) => if name in c.timers then TimerFired(c, name) else c
  }

  /** The controller after the events `es`, oldest first. */
  function Run(c: Controller, es: seq<Event>): Controller
  {
    if es == [] then c else Step(Run(c, es[..|es| - 1]), es[|es| - 1])
  }

  /** One step keeps the invariant: counts only grow while a circuit is
      OPEN, since the healthy path cannot be taken on an OPEN circuit. */
  lemma StepKeepsInvariant(c: Controller, e: Event)
    requires Inv(c)
    ensures Inv(Step(c, e))
  {
    match e
    case Monitor(name, health) =>
      var r := Monitored(c, name, health).0;
      forall n | n in r.circuitState && r.circuitState[n] == Open
        ensures n in r.failureCount && r.failureCount[n] >= FailureThreshold
      {
        if n != name {
          assert n in c.circuitState && c.circuitState[n] == Open;
        }
      }
    case Fire(name) =>
  }

  /** Driven only by `monitorService` calls and timer callbacks, an OPEN
      circuit always has at least five recorded failures. */
  lemma {:induction false} RunKeepsInvariant(c: Controller, es: seq<Event>)
    requires Inv(c)
    ensures Inv(Run(c, es))
  {
    if es != [] {
      RunKeepsInvariant(c, es[..|es| - 1]);
      StepKeepsInvariant(Run(c, es[..|es| - 1]), es[|es| - 1]);
    }
  }

  /** `k` unhealthy answers from a fresh controller, for `k` up to five. */
  lemma {:induction false} UnhealthyCalls(name: Value, k: nat)
    requires k <= FailureThreshold
    ensures var c := Run(Empty, seq(k, _ => Monitor(name, Success(false))));
      && c.failureCount == (if k == 0 then map[] else map[name := k])
      && (k < FailureThreshold ==> c.circuitState == map[] && c.timers == multiset{})
      && (k == FailureThreshold ==> c.circuitState == map[name := Open] && c.timers == multiset{name})
  {
    if k > 0 {
      var es := seq(k, _ => Monitor(name, Success(false)));
      assert es[..k - 1] == seq(k - 1, _ => Monitor(name, Success(false)));
      UnhealthyCalls(name, k - 1);
      var p := Run(Empty, es[..k - 1]);
      assert !CircuitIsOpen(p, name) && CountOf(p, name) == k - 1;
      assert Run(Empty, es) == RecordedFailure(p, name);
    }
  }

  /** Five unhealthy answers open the circuit and schedule one timer; the
      next call is refused without a health check. */
  lemma FiveFailuresOpen(name: Value)
    ensures var c := Run(Empty, seq(5, _ => Monitor(name, Success(false))));
      CircuitIsOpen(c, name) && CountOf(c, name) == 5 && c.timers == multiset{name}
      && Monitored(c, name, Success(true)).1 == Failure("Circuit open for " + Display(name))
  {
    UnhealthyCalls(name, 5);
  }

  /** An event in which any health check answers healthy, as
      `checkServiceHealth` always does. */
  predicate HealthyEvent(e: Event)
  {
    e.Fire? || e.health == Success(true)
  }

  /** While every health check answers healthy, a fresh controller stays
      empty: no failure is counted, no circuit opens, no timer is set. */
  lemma {:induction false} HealthyRunStaysEmpty(es: seq<Event>)
    requires forall i :: 0 <= i < |es| ==> HealthyEvent(es[i])
    ensures Run(Empty, es) == Empty
  {
    if es != [] {
      var prefix := es[..|es| - 1];
      assert forall i :: 0 <= i < |prefix| ==> prefix[i] == es[i];
      HealthyRunStaysEmpty(prefix);
      assert HealthyEvent(es[|es| - 1]);
    }
  }

  lemma RunAppend(c: Controller, es: seq<Event>, e: Event)
    ensures Run(c, es + [e]) == Step(Run(c, es), e)
  {
    assert (es + [e])[..|es|] == es;
  }

  /** From an OPEN circuit with five failures and one pending timer: a
      refused call, the timer, a healthy call, and a second timer. */
  lemma StaleTimerSteps(c: Controller, name: Value)
    requires c.failureCount == map[name := 5] && c.circuitState == map[name := Open] && c.timers == multiset{name}
    ensures var r := Step(Step(Step(Step(c, Monitor(name, Success(true))), Fire(name)), Monitor(name, Success(true))), Fire(name));
      r.circuitState == map[name := HalfOpen] && r.failureCount == map[] && r.timers == multiset{}
  {
    var c1 := Step(c, Monitor(name, Success(true)));
    assert c1.circuitState == map[name := Open] && c1.timers == multiset{name, name};
    var c2 := Step(c1, Fire(name));
    assert c2.circuitState == map[name := HalfOpen] && c2.timers == multiset{name};
    var c3 := Step(c2, Monitor(name, Success(true)));
    assert c3.circuitState == map[] && c3.failureCount == map[];
  }

  /** A call on an OPEN circuit schedules a second timer. After the first
      timer fires and a healthy call clears the circuit, the second timer
      still fires and leaves a HALF-OPEN label with no failure count. */
  lemma StaleTimerReopensHalfOpen(name: Value)
    ensures var c := Run(Empty, seq(5, _ => Monitor(name, Success(false)))
                                + [Monitor(name, Success(true))] + [Fire(name)]
                                + [Monitor(name, Success(true))] + [Fire(name)]);
      name in c.circuitState && c.circuitState[name] == HalfOpen && name !in c.failureCount
  {
    UnhealthyCalls(name, 5);
    var five := seq(5, _ => Monitor(name, Success(false)));
    RunAppend(Empty, five, Monitor(name, Success(true)));
    RunAppend(Empty, five + [Monitor(name, Success(true))], Fire(name));
    RunAppend(Empty, five + [Monitor(name, Success(true))] + [Fire(name)], Monitor(name, Success(true)));
    RunAppend(Empty, five + [Monitor(name, Success(true))] + [Fire(name)] + [Monitor(name, Success(true))], Fire(name));
    StaleTimerSteps(Run(Empty, five), name);
  }

  class StabilityController {
    var failureCount: map<Value, int>
    var circuitState: map<Value, Label>
    var timers: multiset<Value>

    function GetState(): (c: Controller)
      reads this
      ensures c.failureCount == failureCount && c.circuitState == circuitState && c.timers == timers
    {
      Controller(failureCount, circuitState, timers)
    }

    constructor ()
      ensures GetState() == Empty && Inv(GetState())
    {
      failureCount := map[];
      circuitState := map[];
      timers := multiset{};
    }

    /** `isCircuitOpen(name)`. */
    function IsCircuitOpen(name: Value): (b: bool)
      reads this
      ensures b <==> CircuitIsOpen(GetState(), name)
    {
      name in circuitState && circuitState[name] == Open
    }

    /** `monitorService(name)` with the health check's outcome supplied. */
    method MonitorService(name: Value, health: Outcome<bool>) returns (r: Outcome<bool>)
      modifies this
      ensures (GetState(), r) == Monitored(old(GetState()), name, health)
      ensures old(Inv(GetState())) ==> Inv(GetState())
    {
      ghost var before := GetState();
      if IsCircuitOpen(name) {
        HandleError(name);
        if Inv(before) {
          StepKeepsInvariant(before, Monitor(name, health));
        }
        return Failure("Circuit open for " + Display(name));
      }
      match health
      case Failure(e) =>
        HandleError(name);
        r := Failure(e);
      case Success(healthy) =>
        if !healthy {
          RecordFailure(name);
        } else {
          ResetFailures(name);
        }
        r := Success(healthy);
      if Inv(before) {
        StepKeepsInvariant(before, Monitor(name, health));
      }
    }

    /** `recordFailure(name)`. */
    method RecordFailure(name: Value)
      modifies this
      ensures GetState() == RecordedFailure(old(GetState()), name)
    {
      var failures := (if name in failureCount then failureCount[name] else 0) + 1;
      failureCount := failureCount[name := failures];
      if failures >= FailureThreshold {
        OpenCircuit(name);
      }
    }

    /** `openCircuit(name)`: the `setTimeout` callback is added to `timers`
        and runs later as `TimerFires(name)`. */
    method OpenCircuit(name: Value)
      modifies this
      ensures GetState() == OpenedCircuit(old(GetState()), name)
    {
      circuitState := circuitState[name := Open];
      timers := timers + multiset{name};
    }

    /** One pending callback of `openCircuit(name)` runs. */
    method TimerFires(name: Value)
      requires name in timers
      modifies this
      ensures GetState() == TimerFired(old(GetState()), name)
      ensures old(Inv(GetState())) ==> Inv(GetState())
    {
      circuitState := circuitState[name := HalfOpen];
      timers := timers - multiset{name};
    }

    /** `resetFailures(name)`. */
    method ResetFailures(name: Value)
      modifies this
      ensures GetState() == FailuresReset(old(GetState()), name)
    {
      failureCount := failureCount - {name};
      if name in circuitState && circuitState[name] == HalfOpen {
        circuitState := circuitState - {name};
      }
    }

    /** `handleError(name, error)`: the logging is left out. */
    method HandleError(name: Value)
      modifies this
      ensures GetState() == RecordedFailure(old(GetState()), name)
    {
      RecordFailure(name);
    }
  }
}
