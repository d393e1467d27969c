/** The service registry: a bounded map from service name to entry, kept in
    insertion order, a set of names whose health checks have been started,
    the stability controller that `monitorService` updates, the health
    checks and health timers still pending, and a time-gated sweep that
    drops services found unhealthy long ago. Time is an explicit `now`;
    the answer of the health check `monitorService` awaits is supplied as
    an outcome. */
module ServiceOrchestrators {
  import opened Outcomes
  import opened JsValues
  import StabilityControllers

  const MaxServices: int := 100
  const CleanupInterval: int := 300000

  /** The resources a service is stored with: every key present. */
  datatype SafeResources = SafeResources(cpu: Value, memory: Value, storage: Value, pods: Value)

  /** A registry entry: the name and type of the configuration, its
      resources with defaults filled in, when it was registered, and what
      the health checks found. `lastHealthCheck` is None for `null`. Each
      registration stores a fresh object; `id` tells those objects apart. */
  datatype Entry = Entry(id: nat, name: Value, kind: Value, resources: SafeResources, registered: int,
                         lastHealthCheck: Option<int>, healthy: Value)

  /** A pending `scheduleHealthCheck(name, service)` call or the timer it
      set: the name, and the id of the entry object `service` it captured. */
  datatype Capture = Capture(name: Value, id: nat)

  /** The orchestrator's state: `services` (a `Map`, so `order` is its
      iteration order), `activeHealthChecks`, `lastCleanup`, the
      `stabilityController`; then the health checks awaiting
      `monitorService`, the health timers set, and the next entry id. */
  datatype Registry = Registry(services: map<Value, Entry>, order: seq<Value>, active: set<Value>, lastCleanup: int,
                               controller: StabilityControllers.Controller,
                               checks: multiset<Capture>, timers: multiset<Capture>, serial: nat)

  /** `{ status, name }`, as register and unregister return it. */
  datatype Receipt = Receipt(status: string, name: Value)

  /** What `getServiceStatus` returns. */
  datatype Status = Status(name: Value, kind: Value, healthy: Value, lastHealthCheck: Option<int>, resources: SafeResources)

  /** One element of `getAllServices`. */
  datatype Summary = Summary(name: Value, kind: Value, healthy: Value, resources: SafeResources)

  const Required: seq<string> := ["name", "type", "resources"]

  predicate Distinct(s: seq<Value>)
  {
    forall i, j :: 0 <= i < j < |s| ==> s[i] != s[j]
  }

  /** `a` is `b` with some elements left out, the rest in their order. */
  predicate IsSubsequence(a: seq<Value>, b: seq<Value>)
  {
    if b == [] then a == []
    else
      || (a != [] && a[|a| - 1] == b[|b| - 1] && IsSubsequence(a[..|a| - 1], b[..|b| - 1]))
      || IsSubsequence(a, b[..|b| - 1])
  }

  /** The registry's invariant: the order lists each registered name once,
      each entry is stored under its own name, there are never more than
      `MaxServices` services, only registered names have a started health
      check, the controller keeps its own invariant, and every id in use
      was handed out before. */
  ghost predicate Inv(g: Registry)
  {
    Consistent(g) && StabilityControllers.Inv(g.controller)
  }

  /** The part of the invariant that does not concern the controller. */
  ghost predicate Consistent(g: Registry)
  {
    && Distinct(g.order)
    && (forall k :: k in g.order <==> k in g.services)
    && (forall k :: k in g.services ==> g.services[k].name == k)
    && |g.services| <= MaxServices
    && g.active <= g.services.Keys
    && (forall k :: k in g.services ==> g.services[k].id < g.serial)
    && (forall p :: p in g.checks ==> p.id < g.serial)
    && (forall p :: p in g.timers ==> p.id < g.serial)
  }

  /** A new orchestrator created at time `now`. */
  function Initial(now: int): Registry
  {
    Registry(map[], [], {}, now, StabilityControllers.Empty, multiset{}, multiset{}, 0)
  }

  // ---------------------------------------------------------------------
  // registration

  /** `validateService(service)`: an object whose name, type and resources
      are all truthy; the first falsy one is named. */
  function ValidateService(service: Value): (r: Outcome<()>)
    ensures r.Success? <==> service.Obj? && forall i :: 0 <= i < |Required| ==> Truthy(Get(service, Required[i]))
    ensures !service.Obj? ==> r == Failure("Invalid service configuration")
    ensures service.Obj? && r.Failure? ==>
      exists i :: 0 <= i < |Required| && !Truthy(Get(service, Required[i]))
        && r.error == "Missing required field: " + Required[i]
        && forall j :: 0 <= j < i ==> Truthy(Get(service, Required[j]))
    ensures r.Success? ==>
      Truthy(Get(service, "name")) && Truthy(Get(service, "type")) && Truthy(Get(service, "resources"))
  {
    assert Required[0] == "name" && Required[1] == "type" && Required[2] == "resources";
    if !service.Obj? then Failure("Invalid service configuration") else RequireFields(service, Required)
  }

  /** JavaScript `v || d`. */
  function Or(v: Value, d: Value): Value
  {
    if Truthy(v) then v else d
  }

  /** `safeResources`: each key of `resources` kept when truthy, otherwise
      `'0.5'`, `'512Mi'`, `'1Gi'` and `1`. */
  function SafeResourcesOf(resources: Value): (r: SafeResources)
    requires !Nullish(resources)
    ensures Truthy(r.cpu) && Truthy(r.memory) && Truthy(r.storage) && Truthy(r.pods)
    ensures Truthy(Get(resources, "cpu")) ==> r.cpu == Get(resources, "cpu")
    ensures Truthy(Get(resources, "memory")) ==> r.memory == Get(resources, "memory")
    ensures Truthy(Get(resources, "storage")) ==> r.storage == Get(resources, "storage")
    ensures Truthy(Get(resources, "pods")) ==> r.pods == Get(resources, "pods")
  {
    SafeResources(Or(Get(resources, "cpu"), Str("0.5")), Or(Get(resources, "memory"), Str("512Mi")),
                  Or(Get(resources, "storage"), Str("1Gi")), Or(Get(resources, "pods"), Num(1.0)))
  }

  /** The entry `registerService` stores for a valid configuration, as
      the object numbered `id`. */
  function NewEntry(service: Value, now: int, id: nat): Entry
    requires ValidateService(service).Success?
  {
    Entry(id, Get(service, "name"), Get(service, "type"), SafeResourcesOf(Get(service, "resources")), now, None,
          Get(service, "healthy"))
  }

  /** The registry once `registerService` has stored the entry, before
      it calls `monitorService`. */
  function Stored(g: Registry, service: Value, now: int): Registry
    requires ValidateService(service).Success?
  {
    var name := Get(service, "name");
    g.(services := g.services[name := NewEntry(service, now, g.serial)],
       order := if name in g.services then g.order else g.order + [name],
       serial := g.serial + 1)
  }

  /** `registerService(service)` at time `now`, where `health` is the
      outcome of the health check the awaited `monitorService` call makes. */
  function Registered(g: Registry, service: Value, now: int, health: Outcome<bool>): (res: (Registry, Outcome<Receipt>))
    // an invalid configuration, or a full registry, is refused before any change
    ensures ValidateService(service).Failure? ==> res == (g, Failure(ValidateService(service).error))
    ensures ValidateService(service).Success? && |g.services| >= MaxServices ==>
      res == (g, Failure("Maximum service limit reached"))
    // otherwise a fresh entry is stored, a new name going last in map order, even when monitoring then fails
    ensures ValidateService(service).Success? && |g.services| < MaxServices ==>
      var name := Get(service, "name");
      var monitored := StabilityControllers.Monitored(g.controller, name, health);
      && res.0.services == g.services[name := NewEntry(service, now, g.serial)]
      && res.0.order == (if name in g.services then g.order else g.order + [name])
      && res.0.serial == g.serial + 1
      && res.0.active == g.active && res.0.lastCleanup == g.lastCleanup
      && res.0.checks == g.checks && res.0.timers == g.timers
      // the controller's `monitorService` decides the result
      && res.0.controller == monitored.0
      && (monitored.1.Success? <==> res.1 == Success(Receipt("registered", name)))
      && (monitored.1.Failure? ==> res.1 == Failure(monitored.1.error))
  {
    var v := ValidateService(service);
    if v.Failure? then (g, Failure(v.error))
    else if |g.services| >= MaxServices then (g, Failure("Maximum service limit reached"))
    else
      var name := Get(service, "name");
      var (controller, monitor) := StabilityControllers.Monitored(g.controller, name, health);
      (Stored(g, service, now).(controller := controller),
       if monitor.Success? then Success(Receipt("registered", name)) else Failure(monitor.error))
  }

  /** Registration keeps the invariant; in particular there are never more
      than 100 services. */
  lemma RegisteredKeepsInv(g: Registry, service: Value, now: int, health: Outcome<bool>)
    requires Inv(g)
    ensures Inv(Registered(g, service, now, health).0)
  {
    if ValidateService(service).Success? && |g.services| < MaxServices {
      var name := Get(service, "name");
      StoredConsistent(g, service, now);
      var c := StabilityControllers.Monitored(g.controller, name, health).0;
      StabilityControllers.StepKeepsInvariant(g.controller, StabilityControllers.Monitor(name, health));
      ConsistentWithController(Stored(g, service, now), c);
    }
  }

  lemma StoredConsistent(g: Registry, service: Value, now: int)
    requires Consistent(g) && ValidateService(service).Success? && |g.services| < MaxServices
    ensures Consistent(Stored(g, service, now))
  {
    var name := Get(service, "name");
    var h := Stored(g, service, now);
    if name !in g.services {
      assert h.order == g.order + [name];
      assert forall i :: 0 <= i < |g.order| ==> h.order[i] == g.order[i];
    }
  }

  /** The consistency of a registry does not depend on its controller. */
  lemma ConsistentWithController(g: Registry, c: StabilityControllers.Controller)
    requires Consistent(g)
    ensures Consistent(g.(controller := c))
  {
  }

  /** Registering a name that is already registered replaces its entry and
      keeps the number of services and the order. */
  lemma ReRegisterKeepsSize(g: Registry, service: Value, now: int, health: Outcome<bool>)
    requires Inv(g) && ValidateService(service).Success? && Get(service, "name") in g.services
    ensures |Registered(g, service, now, health).0.services| == |g.services|
    ensures Registered(g, service, now, health).0.order == g.order
  {
  }

  /** A name whose circuit is OPEN is still stored, but its registration
      fails with the controller's error and counts one more failure. */
  lemma OpenCircuitRefusesRegistration(g: Registry, service: Value, now: int, health: Outcome<bool>)
    requires ValidateService(service).Success? && |g.services| < MaxServices
    requires StabilityControllers.CircuitIsOpen(g.controller, Get(service, "name"))
    ensures var res := Registered(g, service, now, health);
      var name := Get(service, "name");
      && name in res.0.services
      && res.1 == Failure("Circuit open for " + Display(name))
      && StabilityControllers.CountOf(res.0.controller, name) == StabilityControllers.CountOf(g.controller, name) + 1
  {
  }

  // ---------------------------------------------------------------------
  // cleanup

  /** The test in `cleanup`'s loop: not healthy, checked at a (truthy)
      time, and that check more than `CleanupInterval` before `now`. */
  predicate Stale(e: Entry, now: int)
  {
    !Truthy(e.healthy) && e.lastHealthCheck.Some? && e.lastHealthCheck.value != 0
    && now - e.lastHealthCheck.value > CleanupInterval
  }

  predicate IsStale(services: map<Value, Entry>, k: Value, now: int)
  {
    k in services && Stale(services[k], now)
  }

  /** The stale services among `names`. */
  function StaleIn(names: seq<Value>, services: map<Value, Entry>, now: int): set<Value>
  {
    set k | k in names && IsStale(services, k, now)
  }

  /** `names` without the stale services, in order. */
  function Kept(names: seq<Value>, services: map<Value, Entry>, now: int): (r: seq<Value>)
    ensures forall k :: k in r <==> k in names && !IsStale(services, k, now)
    ensures IsSubsequence(r, names)
  {
    if names == [] then []
    else
      var last := names[|names| - 1];
      var p := Kept(names[..|names| - 1], services, now);
      assert forall k :: k in names <==> k in names[..|names| - 1] || k == last;
      if IsStale(services, last, now) then p
      else
        assert (p + [last])[..|p|] == p;
        p + [last]
  }

  /** Filtering keeps names distinct. */
  lemma {:induction false} KeptDistinct(names: seq<Value>, services: map<Value, Entry>, now: int)
    requires Distinct(names)
    ensures Distinct(Kept(names, services, now))
  {
    if names != [] {
      var prefix := names[..|names| - 1];
      var last := names[|names| - 1];
      assert Distinct(prefix);
      KeptDistinct(prefix, services, now);
      assert last !in prefix by {
        forall i | 0 <= i < |prefix| ensures prefix[i] != last {
          assert prefix[i] == names[i];
        }
      }
    }
  }

  /** `cleanup()` at time `now`. */
  function Swept(g: Registry, now: int): (h: Registry)
    // nothing happens until `CleanupInterval` has passed since the last sweep
    ensures now - g.lastCleanup < CleanupInterval ==> h == g
    ensures now - g.lastCleanup >= CleanupInterval ==>
      && h.lastCleanup == now
      && (forall k :: k in h.services <==> k in g.services && !(k in g.order && IsStale(g.services, k, now)))
      && (forall k :: k in h.services ==> h.services[k] == g.services[k])
      && (forall k :: k in h.order <==> k in g.order && !IsStale(g.services, k, now))
      && IsSubsequence(h.order, g.order)
      && h.active == g.active - StaleIn(g.order, g.services, now)
      // pending checks and timers, the controller and the ids are untouched
      && h.controller == g.controller && h.checks == g.checks && h.timers == g.timers && h.serial == g.serial
  {
    if now - g.lastCleanup >= CleanupInterval then
      var stale := StaleIn(g.order, g.services, now);
      g.(services := g.services - stale, order := Kept(g.order, g.services, now), active := g.active - stale,
         lastCleanup := now)
    else g
  }

  /** On a consistent registry a sweep removes exactly the stale services
      and keeps the others as they were. */
  lemma SweptRemovesExactlyStale(g: Registry, now: int, k: Value)
    requires Inv(g) && now - g.lastCleanup >= CleanupInterval
    ensures k in Swept(g, now).services <==> k in g.services && !Stale(g.services[k], now)
    ensures k in Swept(g, now).order <==> k in g.services && !Stale(g.services[k], now)
  {
  }

  /** A second sweep at the same time changes nothing. */
  lemma SweptIdempotent(g: Registry, now: int)
    ensures Swept(Swept(g, now), now) == Swept(g, now)
  {
    if now - g.lastCleanup >= CleanupInterval {
      assert Swept(g, now).lastCleanup == now;
    }
  }

  lemma SweptKeepsInv(g: Registry, now: int)
    requires Inv(g)
    ensures Inv(Swept(g, now))
  {
    if now - g.lastCleanup >= CleanupInterval {
      var h := Swept(g, now);
      KeptDistinct(g.order, g.services, now);
      assert h.services.Keys <= g.services.Keys;
      SubsetSize(h.services.Keys, g.services.Keys);
    }
  }

  lemma SubsetSize<T>(a: set<T>, b: set<T>)
    requires a <= b
    ensures |a| <= |b|
  {
    assert b == a + (b - a);
  }

  // ---------------------------------------------------------------------
  // unregistration, status and listing

  /** `s` without `x`. */
  function Without(s: seq<Value>, x: Value): (r: seq<Value>)
    ensures forall k :: k in r <==> k in s && k != x
    ensures IsSubsequence(r, s)
  {
    if s == [] then []
    else
      var p := Without(s[..|s| - 1], x);
      assert forall k :: k in s <==> k in s[..|s| - 1] || k == s[|s| - 1];
      if s[|s| - 1] == x then p
      else
        assert (p + [s[|s| - 1]])[..|p|] == p;
        p + [s[|s| - 1]]
  }

  lemma {:induction false} WithoutDistinct(s: seq<Value>, x: Value)
    requires Distinct(s)
    ensures Distinct(Without(s, x))
  {
    if s != [] {
      var prefix := s[..|s| - 1];
      var last := s[|s| - 1];
      assert Distinct(prefix);
      WithoutDistinct(prefix, x);
      assert last !in prefix by {
        forall i | 0 <= i < |prefix| ensures prefix[i] != last {
          assert prefix[i] == s[i];
        }
      }
    }
  }

  /** `unregisterService(name)`. */
  function Unregistered(g: Registry, name: Value): (res: (Registry, Outcome<Receipt>))
    ensures name !in g.services ==> res == (g, Failure("Service not found"))
    // the name leaves the map, the order and the started checks; the others keep their order
    ensures name in g.services ==>
      && res.1 == Success(Receipt("unregistered", name))
      && res.0.services == (map k | k in g.services && k != name :: g.services[k])
      && (forall k :: k in res.0.order <==> k in g.order && k != name)
      && IsSubsequence(res.0.order, g.order)
      && res.0.active == g.active - {name} && res.0.lastCleanup == g.lastCleanup
      // pending checks and timers stay pending, and the controller keeps its record of the name
      && res.0.controller == g.controller && res.0.checks == g.checks && res.0.timers == g.timers
      && res.0.serial == g.serial
  {
    if name !in g.services then (g, Failure("Service not found"))
    else (g.(services := g.services - {name}, order := Without(g.order, name), active := g.active - {name}),
          Success(Receipt("unregistered", name)))
  }

  lemma UnregisteredKeepsInv(g: Registry, name: Value)
    requires Inv(g)
    ensures Inv(Unregistered(g, name).0)
  {
    if name in g.services {
      var h := Unregistered(g, name).0;
      WithoutDistinct(g.order, name);
      SubsetSize(h.services.Keys, g.services.Keys);
    }
  }

  /** Registering a new name and unregistering it again gives back the
      registry as it was, except that the controller has monitored the
      name once and one more id has been handed out. */
  lemma RegisterThenUnregister(g: Registry, service: Value, now: int, health: Outcome<bool>)
    requires Inv(g) && ValidateService(service).Success? && |g.services| < MaxServices
    requires Get(service, "name") !in g.services
    ensures Unregistered(Registered(g, service, now, health).0, Get(service, "name")).0 ==
      g.(controller := StabilityControllers.Monitored(g.controller, Get(service, "name"), health).0,
         serial := g.serial + 1)
  {
    var name := Get(service, "name");
    assert name !in g.order && name !in g.active;
    RegisterThenUnregisterNew(g, service, now, health);
  }

  lemma RegisterThenUnregisterNew(g: Registry, service: Value, now: int, health: Outcome<bool>)
    requires ValidateService(service).Success? && |g.services| < MaxServices
    requires Get(service, "name") !in g.services && Get(service, "name") !in g.order
    requires Get(service, "name") !in g.active
    ensures Unregistered(Registered(g, service, now, health).0, Get(service, "name")).0 ==
      g.(controller := StabilityControllers.Monitored(g.controller, Get(service, "name"), health).0,
         serial := g.serial + 1)
  {
    var name := Get(service, "name");
    var c := StabilityControllers.Monitored(g.controller, name, health).0;
    RegisteredStores(g, service, now, health);
    AddThenRemove(g, name, NewEntry(service, now, g.serial), c);
  }

  /** Storing a new name and removing it again leaves only the controller
      and the id counter changed. */
  lemma AddThenRemove(g: Registry, name: Value, e: Entry, c: StabilityControllers.Controller)
    requires name !in g.services && name !in g.order && name !in g.active
    ensures var h := g.(services := g.services[name := e], order := g.order + [name], controller := c,
                        serial := g.serial + 1);
      Unregistered(h, name).0 == g.(controller := c, serial := g.serial + 1)
  {
    var h := g.(services := g.services[name := e], order := g.order + [name], controller := c,
                serial := g.serial + 1);
    assert h.services - {name} == g.services;
    WithoutAppended(g.order, name);
  }

  /** A registration that passes the checks stores the entry, then lets the
      controller monitor the name. */
  lemma RegisteredStores(g: Registry, service: Value, now: int, health: Outcome<bool>)
    requires ValidateService(service).Success? && |g.services| < MaxServices
    ensures Registered(g, service, now, health).0 ==
      Stored(g, service, now).(controller := StabilityControllers.Monitored(g.controller, Get(service, "name"), health).0)
  {
  }

  /** Removing the name just appended gives back the sequence before. */
  lemma WithoutAppended(s: seq<Value>, x: Value)
    requires x !in s
    ensures Without(s + [x], x) == s
  {
    assert (s + [x])[..|s|] == s;
    WithoutAbsent(s, x);
  }

  /** Removing a name that is not there changes nothing. */
  lemma {:induction false} WithoutAbsent(s: seq<Value>, x: Value)
    requires x !in s
    ensures Without(s, x) == s
  {
    if s != [] {
      WithoutAbsent(s[..|s| - 1], x);
      assert s[..|s| - 1] + [s[|s| - 1]] == s;
    }
  }

  /** `getServiceStatus(name)`. */
  function StatusOf(g: Registry, name: Value): (r: Outcome<Status>)
    ensures r.Success? <==> name in g.services
    ensures r.Failure? ==> r.error == "Service not found"
    ensures r.Success? ==>
      && r.value.name == g.services[name].name
      && r.value.kind == g.services[name].kind
      && r.value.resources == g.services[name].resources
      && r.value.healthy == g.services[name].healthy
      && r.value.lastHealthCheck == g.services[name].lastHealthCheck
  {
    if name !in g.services then Failure("Service not found")
    else
      var e := g.services[name];
      Success(Status(e.name, e.kind, e.healthy, e.lastHealthCheck, e.resources))
  }

  /** In a consistent registry the status of a registered service reports
      the name it was looked up by. */
  lemma StatusNamesService(g: Registry, name: Value)
    requires Consistent(g) && name in g.services
    ensures StatusOf(g, name).Success? && StatusOf(g, name).value.name == name
  {
  }

  /** Right after a successful registration the status reports the
      configuration's name and type, the filled-in resources, no health
      check yet, and whatever `healthy` the configuration carried. */
  lemma StatusAfterRegister(g: Registry, service: Value, now: int, health: Outcome<bool>)
    requires ValidateService(service).Success? && |g.services| < MaxServices
    ensures StatusOf(Registered(g, service, now, health).0, Get(service, "name")) ==
      Success(Status(Get(service, "name"), Get(service, "type"), Get(service, "healthy"), None,
                     SafeResourcesOf(Get(service, "resources"))))
  {
  }

  /** The element of `getAllServices` for one entry. */
  function SummaryOf(e: Entry): Summary
  {
    Summary(e.name, e.kind, e.healthy, e.resources)
  }

  /** The list `getAllServices` builds, in map order. */
  function Listing(g: Registry): (r: seq<Summary>)
    requires forall k :: k in g.order ==> k in g.services
    ensures |r| == |g.order|
    ensures forall i :: 0 <= i < |r| ==> r[i] == SummaryOf(g.services[g.order[i]])
  {
    seq(|g.order|, i requires 0 <= i < |g.order| => SummaryOf(g.services[g.order[i]]))
  }

  /** On a consistent registry the listing names every service exactly
      once. */
  lemma ListingNamesEachOnce(g: Registry, k: Value)
    requires Inv(g)
    ensures k in g.services <==> exists i :: 0 <= i < |Listing(g)| && Listing(g)[i].name == k
    ensures forall i, j :: 0 <= i < j < |Listing(g)| ==> Listing(g)[i].name != Listing(g)[j].name
  {
    var r := Listing(g);
    if k in g.services {
      var i :| 0 <= i < |g.order| && g.order[i] == k;
      assert r[i].name == k;
    }
  }

  // ---------------------------------------------------------------------
  // health checks

  /** The captures `startHealthChecks` makes: each registered name whose
      health check is not yet started, with the entry it finds. */
  function NewChecks(g: Registry): multiset<Capture>
  {
    multiset(set k | k in g.services.Keys - g.active :: Capture(k, g.services[k].id))
  }

  /** `startHealthChecks()`: every registered name whose check is not yet
      started becomes active and gets one check of its current entry. */
  function ChecksStarted(g: Registry): (h: Registry)
    ensures h.active == g.active + g.services.Keys
    ensures h.checks == g.checks + NewChecks(g)
    ensures forall p :: p in NewChecks(g) <==> p.name in g.services && p.name !in g.active && p.id == g.services[p.name].id
    ensures h == g.(active := h.active, checks := h.checks)
  {
    g.(active := g.active + g.services.Keys, checks := g.checks + NewChecks(g))
  }

  /** One run of `scheduleHealthCheck(name, service)` finishing at `now`,
      where `health` is the outcome of the health check `monitorService`
      awaits. The captured entry object is updated only while it is still
      the registered one; a timer for the next check is set only when
      `monitorService` returns. */
  function HealthChecked(g: Registry, p: Capture, health: Outcome<bool>, now: int): (h: Registry)
    requires p in g.checks
    ensures var monitored := StabilityControllers.Monitored(g.controller, p.name, health);
      && h.controller == monitored.0
      && h.checks == g.checks - multiset{p}
      && h.timers == (if monitored.1.Success? then g.timers + multiset{p} else g.timers)
      // the registered entry, if it is the captured one, records the result
      && h.services.Keys == g.services.Keys
      && (forall k :: k in g.services && (k != p.name || g.services[k].id != p.id) ==> h.services[k] == g.services[k])
      && (p.name in g.services && g.services[p.name].id == p.id ==>
            && h.services[p.name].healthy == Bool(monitored.1.Success? && monitored.1.value)
            && h.services[p.name].lastHealthCheck ==
                 (if monitored.1.Success? then Some(now) else g.services[p.name].lastHealthCheck)
            && h.services[p.name] == g.services[p.name].(healthy := h.services[p.name].healthy,
                                                         lastHealthCheck := h.services[p.name].lastHealthCheck))
      && h == g.(controller := h.controller, checks := h.checks, timers := h.timers, services := h.services)
  {
    var (controller, monitor) := StabilityControllers.Monitored(g.controller, p.name, health);
    CheckRecorded(g.(controller := controller), p, monitor, now)
  }

  /** What `scheduleHealthCheck` does with the result `monitor` of its
      `monitorService` call: the check is no longer pending, the captured
      entry takes the result while it is the registered one, and a timer is
      set when the call returned. */
  function CheckRecorded(g: Registry, p: Capture, monitor: Outcome<bool>, now: int): Registry
  {
    var services :=
      if p.name in g.services && g.services[p.name].id == p.id then
        var e := g.services[p.name];
        g.services[p.name := match monitor
                              case Success(healthy) => e.(lastHealthCheck := Some(now), healthy := Bool(healthy))
                              case Failure(_) => e.(healthy := Bool(false))]
      else g.services;
    g.(checks := g.checks - multiset{p}, timers := if monitor.Success? then g.timers + multiset{p} else g.timers,
       services := services)
  }

  /** The health timer of `p` fires: the next check of the captured entry
      starts while the name is registered; otherwise the name leaves
      `activeHealthChecks`. */
  function HealthTimerFired(g: Registry, p: Capture): (h: Registry)
    requires p in g.timers
    ensures p.name in g.services ==> h == g.(timers := g.timers - multiset{p}, checks := g.checks + multiset{p})
    ensures p.name !in g.services ==> h == g.(timers := g.timers - multiset{p}, active := g.active - {p.name})
  {
    if p.name in g.services then g.(timers := g.timers - multiset{p}, checks := g.checks + multiset{p})
    else g.(timers := g.timers - multiset{p}, active := g.active - {p.name})
  }

  /** The controller's reset timer for `name` fires. */
  function CircuitTimerFired(g: Registry, name: Value): (h: Registry)
    requires name in g.controller.timers
    ensures h == g.(controller := StabilityControllers.TimerFired(g.controller, name))
  {
    g.(controller := StabilityControllers.TimerFired(g.controller, name))
  }

  /** An unhealthy answer older than the interval makes the checked entry
      stale for the next due sweep. */
  lemma UnhealthyBecomesStale(g: Registry, p: Capture, checked: int, now: int)
    requires p in g.checks && p.name in g.services && g.services[p.name].id == p.id
    requires !StabilityControllers.CircuitIsOpen(g.controller, p.name)
    requires checked != 0 && now - checked > CleanupInterval
    ensures Stale(HealthChecked(g, p, Success(false), checked).services[p.name], now)
  {
  }

  /** A check that throws, or meets an OPEN circuit, marks the entry
      unhealthy and sets no timer, so that entry is not checked again. */
  lemma FailedCheckNotRescheduled(g: Registry, p: Capture, health: Outcome<bool>, now: int)
    requires p in g.checks
    requires health.Failure? || StabilityControllers.CircuitIsOpen(g.controller, p.name)
    ensures var h := HealthChecked(g, p, health, now);
      && h.timers == g.timers && h.checks == g.checks - multiset{p}
      && (p.name in g.services && g.services[p.name].id == p.id ==> h.services[p.name].healthy == Bool(false))
  {
  }

  // ---------------------------------------------------------------------
  // runs of operations

  /** What can happen to the orchestrator: a call of one of its methods, a
      pending health check finishing, or a pending timer firing. */
  datatype Event =
    | Register(service: Value, now: int, health: Outcome<bool>)
    | Cleanup(now: int)
    | Unregister(name: Value)
    | StartChecks
    | HealthCheck(capture: Capture, health: Outcome<bool>, now: int)
    | HealthTimer(capture: Capture)
    | CircuitTimer(name: Value)

  /** One event; a check or a timer that is not pending does not happen. */
  function Step(g: Registry, e: Event): Registry
  {
    match e
    case Register(service, now, health) => Registered(g, service, now, health).0
    case Cleanup(now) => Swept(g, now)
    case Unregister(name) => Unregistered(g, name).0
    case StartChecks => ChecksStarted(g)
    case HealthCheck(p, health, now) => if p in g.checks then HealthChecked(g, p, health, now) else g
    case HealthTimer(p) => if p in g.timers then HealthTimerFired(g, p) else g
    case CircuitTimer(name) => if name in g.controller.timers then CircuitTimerFired(g, name) else g
  }

  function Run(g: Registry, events: seq<Event>): Registry
  {
    if events == [] then g else Step(Run(g, events[..|events| - 1]), events[|events| - 1])
  }

  lemma ChecksStartedKeepsInv(g: Registry)
    requires Inv(g)
    ensures Inv(ChecksStarted(g))
  {
    var h := ChecksStarted(g);
    forall p | p in h.checks
      ensures p.id < h.serial
    {
      if p !in g.checks {
        assert p in NewChecks(g);
      }
    }
  }

  lemma HealthCheckedKeepsInv(g: Registry, p: Capture, health: Outcome<bool>, now: int)
    requires Inv(g) && p in g.checks
    ensures Inv(HealthChecked(g, p, health, now))
  {
    StabilityControllers.StepKeepsInvariant(g.controller, StabilityControllers.Monitor(p.name, health));
  }

  lemma HealthTimerFiredKeepsInv(g: Registry, p: Capture)
    requires Inv(g) && p in g.timers
    ensures Inv(HealthTimerFired(g, p))
  {
  }

  /** Every operation keeps the invariant. */
  lemma StepKeepsInv(g: Registry, e: Event)
    requires Inv(g)
    ensures Inv(Step(g, e))
  {
    match e
    case Register(service, now, health) => RegisteredKeepsInv(g, service, now, health);
    case Cleanup(now) => SweptKeepsInv(g, now);
    case Unregister(name) => UnregisteredKeepsInv(g, name);
    case StartChecks => ChecksStartedKeepsInv(g);
    case HealthCheck(p, health, now) => PendingCheckKeepsInv(g, e);
    case HealthTimer(p) => PendingTimerKeepsInv(g, e);
    case CircuitTimer(name) => CircuitTimerKeepsInv(g, e);
  }

  lemma PendingCheckKeepsInv(g: Registry, e: Event)
    requires Inv(g) && e.HealthCheck?
    ensures Inv(Step(g, e))
  {
    if e.capture in g.checks {
      HealthCheckedKeepsInv(g, e.capture, e.health, e.now);
    }
  }

  lemma PendingTimerKeepsInv(g: Registry, e: Event)
    requires Inv(g) && e.HealthTimer?
    ensures Inv(Step(g, e))
  {
    if e.capture in g.timers {
      HealthTimerFiredKeepsInv(g, e.capture);
    }
  }

  lemma CircuitTimerKeepsInv(g: Registry, e: Event)
    requires Inv(g) && e.CircuitTimer?
    ensures Inv(Step(g, e))
  {
    if e.name in g.controller.timers {
      CircuitTimerFiredKeepsInv(g, e.name);
    }
  }

  lemma CircuitTimerFiredKeepsInv(g: Registry, name: Value)
    requires Inv(g) && name in g.controller.timers
    ensures Inv(CircuitTimerFired(g, name))
  {
    StabilityControllers.StepKeepsInvariant(g.controller, StabilityControllers.Fire(name));
    ConsistentWithController(g, StabilityControllers.TimerFired(g.controller, name));
  }

  /** Whatever happens, the registry stays consistent and never holds more
      than 100 services. */
  lemma {:induction false} RunKeepsInv(g: Registry, events: seq<Event>)
    requires Inv(g)
    ensures Inv(Run(g, events)) && |Run(g, events).services| <= MaxServices
  {
    if events != [] {
      RunKeepsInv(g, events[..|events| - 1]);
      StepKeepsInv(Run(g, events[..|events| - 1]), events[|events| - 1]);
    }
  }

  // ---------------------------------------------------------------------
  // the orchestrator object

  class ServiceOrchestrator {
    var services: map<Value, Entry>
    var order: seq<Value>
    var activeHealthChecks: set<Value>
    var lastCleanup: int
    const stabilityController: StabilityControllers.StabilityController
    /** The health checks awaiting `monitorService`, and the health timers set. */
    var checks: multiset<Capture>
    var timers: multiset<Capture>
    /** The id the next stored entry object gets. */
    var serial: nat

    function State(): (g: Registry)
      reads this, stabilityController
      ensures g.services == services && g.order == order && g.active == activeHealthChecks
      ensures g.lastCleanup == lastCleanup && g.controller == stabilityController.GetState()
      ensures g.checks == checks && g.timers == timers && g.serial == serial
    {
      Registry(services, order, activeHealthChecks, lastCleanup, stabilityController.GetState(), checks, timers, serial)
    }

    /** `new ServiceOrchestrator()` at time `now`. */
    constructor (now: int)
      ensures State() == Initial(now) && Inv(State())
    {
      services := map[];
      order := [];
      activeHealthChecks := {};
      lastCleanup := now;
      stabilityController := new StabilityControllers.StabilityController();
      checks := multiset{};
      timers := multiset{};
      serial := 0;
    }

    /** `registerService(service)`, where `health` is the outcome of the
        health check the awaited `monitorService` makes. */
    method RegisterService(service: Value, now: int, health: Outcome<bool>) returns (r: Outcome<Receipt>)
      requires Inv(State())
      modifies this, stabilityController
      ensures (State(), r) == Registered(old(State()), service, now, health)
      ensures Inv(State())
    {
      ghost var g := State();
      RegisteredKeepsInv(g, service, now, health);
      var v := ValidateService(service);
      if v.Failure? {
        return Failure(v.error);
      }
      if |services| >= MaxServices {
        return Failure("Maximum service limit reached");
      }
      Store(service, now);
      var name := Get(service, "name");
      var monitor := stabilityController.MonitorService(name, health);
      if monitor.Failure? {
        return Failure(monitor.error);
      }
      return Success(Receipt("registered", name));
    }

    /** `this.services.set(service.name, {...})`: the entry is stored as a
        fresh object, a new name going last. */
    method Store(service: Value, now: int)
      requires ValidateService(service).Success?
      modifies this
      ensures State() == Stored(old(State()), service, now)
    {
      var name := Get(service, "name");
      if name !in services {
        order := order + [name];
      }
      services := services[name := NewEntry(service, now, serial)];
      serial := serial + 1;
    }

    /** `cleanup()`: the deletion loop over the services in map order. */
    method Cleanup(now: int)
      requires Inv(State())
      modifies this
      ensures State() == Swept(old(State()), now)
      ensures Inv(State())
    {
      SweptKeepsInv(State(), now);
      if now - lastCleanup >= CleanupInterval {
        var m, kept, act := SweepNames(order, services, activeHealthChecks, now);
        services, order, activeHealthChecks, lastCleanup := m, kept, act, now;
      }
    }

    /** `unregisterService(name)`. */
    method UnregisterService(name: Value) returns (r: Outcome<Receipt>)
      requires Inv(State())
      modifies this
      ensures (State(), r) == Unregistered(old(State()), name)
      ensures Inv(State())
    {
      UnregisteredKeepsInv(State(), name);
      if name !in services {
        return Failure("Service not found");
      }
      services := services - {name};
      order := Without(order, name);
      activeHealthChecks := activeHealthChecks - {name};
      return Success(Receipt("unregistered", name));
    }

    /** `getServiceStatus(name)`. */
    function GetServiceStatus(name: Value): (r: Outcome<Status>)
      reads this, stabilityController
      ensures r == StatusOf(State(), name)
    {
      if name !in services then Failure("Service not found")
      else
        var e := services[name];
        Success(Status(e.name, e.kind, e.healthy, e.lastHealthCheck, e.resources))
    }

    /** `getAllServices()`: a cleanup first, then every entry in map order. */
    method GetAllServices(now: int) returns (r: seq<Summary>)
      requires Inv(State())
      modifies this
      ensures State() == Swept(old(State()), now) && Inv(State())
      ensures r == Listing(State())
    {
      Cleanup(now);
      r := [];
      var i := 0;
      while i < |order|
        invariant i <= |order|
        invariant r == Listing(State())[..i]
      {
        r := r + [SummaryOf(services[order[i]])];
        i := i + 1;
      }
    }

    /** `startHealthChecks()`: names without a started check get one. */
    method StartHealthChecks()
      requires Inv(State())
      modifies this
      ensures State() == ChecksStarted(old(State())) && Inv(State())
    {
      ChecksStartedKeepsInv(State());
      checks := checks + NewChecks(State());
      activeHealthChecks := activeHealthChecks + services.Keys;
    }

    /** The pending health check `p` finishes at `now`. */
    method HealthCheckDone(p: Capture, health: Outcome<bool>, now: int)
      requires p in checks && Inv(State())
      modifies this, stabilityController
      ensures State() == HealthChecked(old(State()), p, health, now) && Inv(State())
    {
      HealthCheckedKeepsInv(State(), p, health, now);
      var monitor := stabilityController.MonitorService(p.name, health);
      RecordCheck(p, monitor, now);
    }

    /** The rest of `scheduleHealthCheck` once `monitorService` has
        returned `monitor` or thrown. */
    method RecordCheck(p: Capture, monitor: Outcome<bool>, now: int)
      modifies this
      ensures State() == CheckRecorded(old(State()), p, monitor, now)
    {
      checks := checks - multiset{p};
      if monitor.Success? {
        timers := timers + multiset{p};
      }
      if p.name in services && services[p.name].id == p.id {
        var e := services[p.name];
        match monitor
        case Success(healthy) =>
          services := services[p.name := e.(lastHealthCheck := Some(now), healthy := Bool(healthy))];
        case Failure(_) =>
          services := services[p.name := e.(healthy := Bool(false))];
      }
    }

    /** The health timer of `p` fires. */
    method HealthTimerFires(p: Capture)
      requires p in timers && Inv(State())
      modifies this
      ensures State() == HealthTimerFired(old(State()), p) && Inv(State())
    {
      HealthTimerFiredKeepsInv(State(), p);
      timers := timers - multiset{p};
      if p.name in services {
        checks := checks + multiset{p};
      } else {
        activeHealthChecks := activeHealthChecks - {p.name};
      }
    }

    /** The controller's reset timer for `name` fires. */
    method CircuitTimerFires(name: Value)
      requires name in stabilityController.timers && Inv(State())
      modifies stabilityController
      ensures State() == CircuitTimerFired(old(State()), name) && Inv(State())
    {
      CircuitTimerFiredKeepsInv(State(), name);
      stabilityController.TimerFires(name);
    }
  }

  /** The deletion loop of `cleanup`: each name in map order, removed from
      the services and the health checks when stale. */
  method SweepNames(names: seq<Value>, all: map<Value, Entry>, active: set<Value>, now: int)
    returns (m: map<Value, Entry>, kept: seq<Value>, act: set<Value>)
    ensures m == all - StaleIn(names, all, now)
    ensures kept == Kept(names, all, now)
    ensures act == active - StaleIn(names, all, now)
  {
    kept := [];
    m, act := all, active;
    var i := 0;
    while i < |names|
      invariant i <= |names|
      invariant m == all - StaleIn(names[..i], all, now)
      invariant act == active - StaleIn(names[..i], all, now)
      invariant kept == Kept(names[..i], all, now)
    {
      var name := names[i];
      assert names[..i + 1][..i] == names[..i];
      StaleInStep(names, all, now, i);
      if name in all && Stale(all[name], now) {
        m := m - {name};
        act := act - {name};
      } else {
        kept := kept + [name];
      }
      i := i + 1;
    }
    assert names[..|names|] == names;
  }

  /** One more name in the sweep adds it to the stale set exactly when it
      is stale. */
  lemma StaleInStep(names: seq<Value>, services: map<Value, Entry>, now: int, i: nat)
    requires i < |names|
    ensures StaleIn(names[..i + 1], services, now) ==
      StaleIn(names[..i], services, now) + (if IsStale(services, names[i], now) then {names[i]} else {})
  {
    assert forall k :: k in names[..i + 1] <==> k in names[..i] || k == names[i];
  }
}
