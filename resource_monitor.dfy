/** The resource monitor: limits fixed at construction (a default set when
    none is given) and a check that compares a service's usage with them.
    The usage is a constant stand-in for real metrics. */
module ResourceMonitors {
  import opened Outcomes
  import opened JsValues

  /** cpu, memory and requests, as both the limits and the usage carry them. */
  datatype Quantities = Quantities(cpu: real, memory: real, requests: real)

  const DefaultLimits: Quantities := Quantities(2.0, 2048.0, 1000.0)

  /** The stand-in usage `getCurrentUsage` reports for every service. */
  const StubUsage: Quantities := Quantities(0.5, 1024.0, 100.0)

  /** A monitor is its limits; the `usage` map is never written. */
  datatype Monitor = Monitor(limits: Quantities)

  /** `new ResourceMonitor(limits)`: None stands for a falsy argument. */
  function NewMonitor(limits: Option<Quantities>): (m: Monitor)
    ensures limits.None? ==> m.limits == Quantities(2.0, 2048.0, 1000.0)
    ensures limits.Some? ==> m.limits == limits.value
  {
    Monitor(if limits.Some? then limits.value else DefaultLimits)
  }

  /** `a` is no larger than `b` in every dimension. */
  predicate AtMost(a: Quantities, b: Quantities)
  {
    a.cpu <= b.cpu && a.memory <= b.memory && a.requests <= b.requests
  }

  /** `validateLimits(usage)`: every dimension within its limit, the limit
      itself included. */
  function ValidateLimits(m: Monitor, usage: Quantities): (r: bool)
    ensures r <==> AtMost(usage, m.limits)
  {
    usage.cpu <= m.limits.cpu && usage.memory <= m.limits.memory && usage.requests <= m.limits.requests
  }

  /** `getCurrentUsage(serviceName)`. */
  function CurrentUsage(serviceName: Value): Quantities
  {
    StubUsage
  }

  /** `checkResources(serviceName)`; the name, any value, appears in the
      message as a template literal prints it. */
  function CheckResources(m: Monitor, serviceName: Value): (r: Outcome<Quantities>)
    ensures r.Success? <==> ValidateLimits(m, CurrentUsage(serviceName))
    ensures r.Success? ==> r.value == CurrentUsage(serviceName)
    ensures r.Failure? ==> r.error == "Resource limits exceeded for " + Display(serviceName)
  {
    var usage := CurrentUsage(serviceName);
    if !ValidateLimits(m, usage) then Failure("Resource limits exceeded for " + Display(serviceName)) else Success(usage)
  }

  /** Raising the limits never turns an accepted usage into a refused one,
      and lowering the usage never does either. */
  lemma ValidateLimitsMonotone(m: Monitor, m': Monitor, usage: Quantities, usage': Quantities)
    requires ValidateLimits(m, usage) && AtMost(m.limits, m'.limits) && AtMost(usage', usage)
    ensures ValidateLimits(m', usage')
  {
  }

  /** Usage exactly at the limits is accepted; a usage beyond the limit in
      any one dimension is refused. */
  lemma ValidateLimitsBoundary(m: Monitor, usage: Quantities)
    ensures ValidateLimits(m, m.limits)
    ensures usage.cpu > m.limits.cpu || usage.memory > m.limits.memory || usage.requests > m.limits.requests
      ==> !ValidateLimits(m, usage)
  {
  }

  /** With the default limits every service passes the check, whatever its
      name, and gets the stand-in usage back. */
  lemma DefaultMonitorAccepts(serviceName: Value)
    ensures CheckResources(NewMonitor(None), serviceName) == Success(Quantities(0.5, 1024.0, 100.0))
  {
  }

  /** The outcome does not depend on the service name except through the
      error message. */
  lemma CheckIgnoresName(m: Monitor, a: Value, b: Value)
    ensures CheckResources(m, a).Success? <==> CheckResources(m, b).Success?
    ensures CheckResources(m, a).Success? ==> CheckResources(m, a) == CheckResources(m, b)
  {
  }
}
