# Service orchestration and stability guards, modelled in Dafny

This project models the core of an integration-test orchestrator written in
JavaScript and proves properties of that model. The core has four parts.

- **Stability guards.**
  - A three-state circuit breaker.
  - A sliding-window rate limiter.
  - A retry loop with capped exponential backoff.
  - A four-dimension resource quota.
  - A per-service stability controller with its own failure counts and
    circuit labels.
  - A resource monitor with default limits.
- **Service catalogue and validation.**
  - The five service type tags, with default resources and resource limits
    for each.
  - A validator for type, resources (byte conversion of `Ki`/`Mi`/`Gi`/`Ti`
    quantities) and service name.
- **Service orchestrator.** A registry of at most 100 services in map
  order, with its own stability controller. Its operations:
  - registration, with default resources filled in and the name then
    monitored by the controller;
  - health checks, started once per name and repeated by a timer only
    after a check the controller let through;
  - a time-gated sweep of services found unhealthy long ago;
  - unregistration, status and listing.
- **Small components.**
  - The Borg orchestrator's spec check and deploy.
  - The static configuration and response validator.
  - A step runner that stops at the first failing step.

Every JavaScript value the code inspects is a `JsValues.Value`: undefined,
null, booleans, numbers (exact reals), strings and objects with ordered own
properties. An object's fields stand for a JavaScript object as
`Object.entries` lists it: distinct keys, already in JavaScript's own-property
order (integer-like keys first, ascending, then the others in insertion
order). A thrown error is `Outcomes.Failure(message)`.

Several things outside the code become explicit inputs:
- **Time** is an explicit `now` parameter.
- **Awaited calls** whose result the modelled code does not compute are
  supplied as outcomes. These are the command run by the circuit breaker,
  the retried operation, the health check `monitorService` awaits, and each
  configuration step. `checkServiceHealth` always answers healthy; the
  model generalises that constant to an input, and
  `StabilityControllers.HealthyRunStaysEmpty` shows what the constant
  implies.
- **Timer callbacks** are explicit events, enabled only while pending.

Imperative files become classes whose methods are tied to pure functions of
a state snapshot. Sequences of operations are `Run`s over `Event`s, with
invariants proved for every run.

Where the code and its design description differ, the model follows the
code:
- **Circuit breaker:** a successful call in the CLOSED state does not reset
  the failure count. Only a successful trial from HALF_OPEN resets it
  (`CircuitBreakers.AfterExecute`).
- **Stability controller:** it does not compose the other guards. It keeps
  its own failure counts and OPEN/HALF-OPEN labels with a fixed threshold of
  5 and a timer of 30000 ms. It ignores the resources the orchestrator
  passes to it.
- **Resource quota:** a fractional quantity with a unit, such as `'1.5Gi'`,
  matches neither pattern of `normalizeValue`. It therefore falls back to
  `parseFloat`, which drops the unit (`ResourceQuotas.FractionWithUnitLosesUnit`).
- **Stability controller timers:** a call on an OPEN circuit schedules a
  second timer. That stale timer can later relabel a cleared circuit
  HALF-OPEN (`StabilityControllers.StaleTimerReopensHalfOpen`).

## Model

| member | source | states |
|---|---|---|
| `JsValues.RequireFields` | src/orchestration/ServiceValidator.js:55-60 | the required-field loop succeeds iff every listed field is truthy; otherwise it fails naming the first falsy field, all earlier ones being truthy |
| `Text.PowAdd` | src/stability/ResourceQuota.js:66-70 | a power of a sum of exponents is the product of the powers |
| `JsValues.FractionDigits` | src/orchestration/ServiceValidator.js:7 | the digit count found spells the number exactly as an integer once shifted |
| `JsValues.StripZeros` | src/orchestration/ServiceValidator.js:7 | the stripped part of a positive integer is positive and does not end in 0 |
| `JsValues.NatTextValue` | src/orchestration/ServiceValidator.js:25 | the decimal text of a natural number is all digits and reads back as that number |
| `JsValues.StripText` | src/orchestration/ServiceValidator.js:7 | a positive integer is spelled as its stripped part followed by its trailing zeros |
| `JsValues.NatTextLength` | src/orchestration/ServiceValidator.js:7 | a number below 10^d has at most d digits |
| `JsValues.IntegerText` | src/orchestration/ServiceValidator.js:7 | an integer below 10^21 prints as its plain digits |
| `JsValues.IntegerRoundTrip` | src/orchestration/ServiceValidator.js:25 | `parseInt(String(n))` is n for every natural n below 10^21 |
| `JsValues.ParseDigits` | src/orchestration/ServiceValidator.js:25 | `parseInt` of a run of digits reads all of it |
| `JsValues.HalfText` | src/orchestration/ServiceValidator.js:7 | 1.5 prints as '1.5' |
| `JsValues.StripPower` | src/orchestration/ServiceValidator.js:7 | a power of ten strips to 1 and its exponent |
| `JsValues.ExponentText21` | src/orchestration/ServiceValidator.js:7 | 10^21 prints in exponent notation as '1e+21' |
| `JsValues.LookupAt` | src/validators/CodeValidator.js:2-8 | with distinct keys, reading the key of any own property gives that property's value, wherever it sits |
| `JsValues.Entries` | src/orchestration/ServiceValidator.js:16 | `Object.entries` of an object is its fields, in the own-property order they are listed in; a string gives one entry per character, indexed from 0; numbers and booleans give none |
| `Text.DigitsValue` | src/stability/ResourceQuota.js:64 | the integer a digit string spells is below 10 to the power of its length |
| `Text.TrimStart` | src/stability/ResourceQuota.js:75 | `parseFloat` skips exactly the leading JavaScript white space: what remains is a suffix that starts with a non-space |
| `Text.ParseFloatOfDecimal` | src/stability/ResourceQuota.js:75 | `parseFloat` of `<digits>.<digits>` followed by a non-numeric tail is that decimal |
| `Text.NoLeadingNumber` | src/stability/ResourceQuota.js:75 | a string that cannot start a number parses to NaN |
| `CircuitBreakers.AfterExecute` | src/stability/CircuitBreaker.js:10-44 | a successful trial from OPEN/HALF_OPEN resets completely; a success while CLOSED changes nothing; a failure adds exactly one failure stamped with the time the command failed and opens iff the count reaches the threshold; a failed trial reopens; the count only grows except through a reset; the invariant is kept |
| `CircuitBreakers.RunKeepsInvariant` | src/stability/CircuitBreaker.js:10-44 | after any sequence of calls, direct `recordFailure`s and `reset`s, a breaker that is not CLOSED has at least `failureThreshold` failures and a failure time |
| `CircuitBreakers.ConsecutiveFailuresOpen` | src/stability/CircuitBreaker.js:31-38 | k failing calls from a new breaker, all made and failing at one instant, leave k failures, CLOSED below the threshold and OPEN at it; an OPEN breaker then refuses every call before the timeout |
| `CircuitBreakers.CircuitBreaker.GetState` | src/stability/CircuitBreaker.js:46-52 | reports exactly the three mutable fields |
| `CircuitBreakers.CircuitBreaker.constructor` | src/stability/CircuitBreaker.js:2-8 | falsy options fall back to threshold 5 and timeout 60000; the breaker starts CLOSED with no failures and no failure time |
| `CircuitBreakers.CircuitBreaker.Execute` | src/stability/CircuitBreaker.js:10-29 | an OPEN breaker before its timeout (read before the command) throws 'Circuit breaker is OPEN' without running the command; otherwise the command's outcome is returned and the new state is `AfterExecute`, a failure stamped with the later clock reading |
| `CircuitBreakers.CircuitBreaker.RecordFailure` | src/stability/CircuitBreaker.js:31-38 | one more failure, stamped `now`, opening at the threshold |
| `CircuitBreakers.CircuitBreaker.Reset` | src/stability/CircuitBreaker.js:40-44 | back to CLOSED, no failures, no failure time |
| `RateLimiters.Live` | src/stability/RateLimiter.js:15-17 | keeps exactly the timestamps younger than the window, never more than it was given |
| `RateLimiters.Purged` | src/stability/RateLimiter.js:33-45 | every service's list is filtered and services left empty are removed; no list grows |
| `RateLimiters.LimitCheck` | src/stability/RateLimiter.js:8-31 | admits iff fewer than `maxRequests` live requests; a refusal names the service and changes only the cleanup; an admission appends `now` and reports `remaining` and `reset`; other services are only filtered; a fully expired service is always admitted; well-formed logs stay well-formed |
| `RateLimiters.ExpiredIsEmpty` | src/stability/RateLimiter.js:15-17 | a list whose timestamps have all expired filters to nothing |
| `RateLimiters.LiveTwice` | src/stability/RateLimiter.js:9-17 | filtering is idempotent, so the cleanup followed by the per-service filter is one filter |
| `RateLimiters.LiveKeepsRecent` | src/stability/RateLimiter.js:15-17 | timestamps from within the current window survive filtering |
| `RateLimiters.CountFromAppend` | src/stability/RateLimiter.js:24 | appending a timestamp counts it iff it lies in the window |
| `RateLimiters.AtMostMaxPerWindow` | src/stability/RateLimiter.js:8-31 | of any calls for one service within one window length, at most `maxRequests` are admitted, whatever the log held before |
| `RateLimiters.RateLimiter.constructor` | src/stability/RateLimiter.js:2-6 | falsy options fall back to 100 requests per 60000 ms; the log starts empty |
| `RateLimiters.RateLimiter.CheckLimit` | src/stability/RateLimiter.js:8-31 | the new log and the answer are those of `LimitCheck`; well-formedness is kept |
| `RateLimiters.RateLimiter.Cleanup` | src/stability/RateLimiter.js:33-45 | the loop over the services leaves exactly `Purged` of the old log |
| `RateLimiters.RateLimiter.Reset` | src/stability/RateLimiter.js:47-49 | forgets exactly the given service |
| `RetryHandlers.Delay` | src/stability/RetryHandler.js:16-19 | the wait after a failed attempt never exceeds `maxDelay` |
| `RetryHandlers.PowerGrows` | src/stability/RetryHandler.js:17 | with a multiplier of at least 1, each backoff factor is at least 1 and at least the previous one |
| `RetryHandlers.DelaysNonDecreasing` | src/stability/RetryHandler.js:16-19 | waits never shrink from one attempt to a later one |
| `RetryHandlers.RetryHandler.constructor` | src/stability/RetryHandler.js:2-7 | falsy options fall back to 3 attempts, 1000 ms, 30000 ms and a multiplier of 2 |
| `RetryHandlers.RetryHandler.ExecuteWithRetry` | src/stability/RetryHandler.js:9-24 | at most `maxRetries` invocations, none after the first success; returns the first success's value; when all fail, throws the last error (undefined when there was no attempt); one capped exponential wait after each failure |
| `ResourceQuotas.PerDimEquality` | src/stability/ResourceQuota.js:10-15 | two usage records that agree on every dimension are equal |
| `ResourceQuotas.UnitSplit` | src/stability/ResourceQuota.js:62-64 | a match of the unit pattern yields a non-empty digit string and a unit letter |
| `ResourceQuotas.NormalizePlain` | src/stability/ResourceQuota.js:57-59 | a string matching the plain-decimal pattern normalizes to its decimal value |
| `ResourceQuotas.IntegerString` | src/stability/ResourceQuota.js:57-59 | a digit string such as '2' or '10' normalizes to the integer it spells |
| `ResourceQuotas.DecimalParts` | src/stability/ResourceQuota.js:57-59 | `<digits>.<digits>` matches the plain-decimal pattern and reads as that decimal |
| `ResourceQuotas.DecimalNormalizable` | src/stability/ResourceQuota.js:53-76 | `<digits>.<digits>` is a value `normalizeValue` handles without reaching NaN |
| `ResourceQuotas.DecimalString` | src/stability/ResourceQuota.js:57-59 | `'0.5'`-style strings normalize to that decimal |
| `ResourceQuotas.UnitParts` | src/stability/ResourceQuota.js:62-64 | `<digits><unit>[i]` splits into the digits and the unit letter |
| `ResourceQuotas.UnitNotPlain` | src/stability/ResourceQuota.js:57 | a string with a unit letter never matches the plain-decimal pattern |
| `ResourceQuotas.NormalizeUnit` | src/stability/ResourceQuota.js:62-73 | a unit-pattern string normalizes to its integer times the unit's multiplier |
| `ResourceQuotas.UnitStrings` | src/stability/ResourceQuota.js:62-73 | `<digits>` followed by K/M/G/T/P or k/m/g/t, optionally then `i`, is the integer times 1024 to the unit's power (a lower-case `p` is not in the pattern) |
| `ResourceQuotas.TwoGibibytes` | src/stability/ResourceQuota.js:65-72 | '2G' and '2g' both mean 2147483648 |
| `ResourceQuotas.DotBlocksDigits` | src/stability/ResourceQuota.js:62 | a prefix containing '.' is not a digit run |
| `ResourceQuotas.DotBlocksUnit` | src/stability/ResourceQuota.js:62 | a '.' before the last two characters rules out the unit pattern |
| `ResourceQuotas.FractionWithUnitShape` | src/stability/ResourceQuota.js:57-63 | `<digits>.<digits><unit>` matches neither pattern |
| `ResourceQuotas.FractionWithUnitNotPlain` | src/stability/ResourceQuota.js:57 | `<digits>.` followed by a tail with a non-digit is not a plain decimal |
| `ResourceQuotas.FractionWithUnitParse` | src/stability/ResourceQuota.js:75 | `parseFloat` of `<digits>.<digits><unit>` reads only the decimal |
| `ResourceQuotas.FractionWithUnitLosesUnit` | src/stability/ResourceQuota.js:53-76 | a fractional quantity with a unit normalizes to the bare decimal: the unit is dropped |
| `ResourceQuotas.LetterLedShape` | src/stability/ResourceQuota.js:57-63 | a string led by a lower-case letter matches neither pattern |
| `ResourceQuotas.LetterLedIsZero` | src/stability/ResourceQuota.js:75 | such a string normalizes to 0 through `parseFloat(value) \|\| 0` |
| `ResourceQuotas.NormalizeResources` | src/stability/ResourceQuota.js:45-51 | every entry kept in order with its amount normalized; keys stay unique |
| `ResourceQuotas.RequestedSplit` | src/stability/ResourceQuota.js:23 | a dimension is requested by a request iff by its prefix or by its last entry |
| `ResourceQuotas.AmountOf` | src/stability/ResourceQuota.js:30-32 | a dimension the request does not name gets nothing added |
| `ResourceQuotas.AmountOfEntry` | src/stability/ResourceQuota.js:30-32 | with unique keys, a dimension's total is its one entry's amount |
| `ResourceQuotas.FirstExceeding` | src/stability/ResourceQuota.js:23-27 | none iff every entry fits; otherwise the first entry, in request order, that does not fit |
| `ResourceQuotas.AddedAt` | src/stability/ResourceQuota.js:30-32 | after the update loop each dimension is its old usage plus its requested total |
| `ResourceQuotas.AddedStep` | src/stability/ResourceQuota.js:30-32 | one more iteration of the update loop adds that entry's amount to its dimension |
| `ResourceQuotas.ReleasedAt` | src/stability/ResourceQuota.js:37-43 | `deallocate` leaves unrequested dimensions alone, never goes below 0, and subtracts the amount otherwise |
| `ResourceQuotas.Allocated` | src/stability/ResourceQuota.js:18-35 | all or nothing: success iff every entry fits, and then every requested dimension grows by its amount and the others are unchanged; a refusal names the first dimension over its limit and leaves the usage as it was |
| `ResourceQuotas.AllocateThenRelease` | src/stability/ResourceQuota.js:18-43 | releasing what was just allocated restores the usage exactly |
| `ResourceQuotas.AddedStaysNonNegative` | src/stability/ResourceQuota.js:30-32 | with non-negative amounts the usage stays non-negative |
| `ResourceQuotas.AmountNonNegative` | src/stability/ResourceQuota.js:30-32 | non-negative entries give a non-negative total |
| `ResourceQuotas.RefusedAt` | src/stability/ResourceQuota.js:23-27 | a request whose first misfit is entry i is refused with that dimension's name and no change |
| `ResourceQuotas.AcceptedAll` | src/stability/ResourceQuota.js:23-34 | a request whose every entry fits is accepted and added |
| `ResourceQuotas.CheckThenAdd` | src/stability/ResourceQuota.js:22-34 | the check loop and then the update loop compute exactly `Allocated` |
| `ResourceQuotas.ResourceQuota.constructor` | src/stability/ResourceQuota.js:2-16 | falsy options fall back to '2', '2Gi', '10Gi' and 10; the usage starts at 0 everywhere |
| `ResourceQuotas.ResourceQuota.Allocate` | src/stability/ResourceQuota.js:18-35 | the new usage and the answer are `Allocated` of the old usage, the normalized limits and the normalized request |
| `ResourceQuotas.ResourceQuota.Deallocate` | src/stability/ResourceQuota.js:37-43 | the new usage is `Released` of the old usage and the normalized request |
| `ResourceQuotas.ResourceQuota.GetCurrentUsage` | src/stability/ResourceQuota.js:78-80 | a copy of the usage |
| `ResourceQuotas.ResourceQuota.GetLimits` | src/stability/ResourceQuota.js:82-84 | a copy of the configured limits |
| `StabilityControllers.OpenedCircuit` | src/stability/StabilityController.js:65-70 | labels the service OPEN and schedules one timer, the counts unchanged |
| `StabilityControllers.RecordedFailure` | src/stability/StabilityController.js:56-63 | one more failure for the service; at 5 or more the circuit opens and a timer is scheduled, below that nothing else changes |
| `StabilityControllers.FailuresReset` | src/stability/StabilityController.js:72-77 | forgets the count and clears a HALF-OPEN label, keeping an OPEN one |
| `StabilityControllers.TimerFired` | src/stability/StabilityController.js:67-69 | a pending timer labels the service HALF-OPEN whatever its state, and is consumed |
| `StabilityControllers.Monitored` | src/stability/StabilityController.js:19-37 | an OPEN circuit throws 'Circuit open for <name>' (the name as a template literal prints it) and still records a failure; a throwing check records a failure and rethrows; an unhealthy answer records a failure and is returned; a healthy one resets; no other service changes |
| `StabilityControllers.StepKeepsInvariant` | src/stability/StabilityController.js:19-82 | a `monitorService` call or a timer keeps every OPEN circuit at five failures or more |
| `StabilityControllers.RunKeepsInvariant` | src/stability/StabilityController.js:19-82 | so does every sequence of them |
| `StabilityControllers.UnhealthyCalls` | src/stability/StabilityController.js:56-63 | k unhealthy answers from scratch count k failures, opening the circuit with one timer exactly at the fifth |
| `StabilityControllers.FiveFailuresOpen` | src/stability/StabilityController.js:19-63 | after five unhealthy answers the next call throws without a health check |
| `StabilityControllers.HealthyRunStaysEmpty` | src/stability/StabilityController.js:19-46 | while every health check answers healthy, as `checkServiceHealth` does, a fresh controller counts no failure, opens no circuit and sets no timer |
| `StabilityControllers.RunAppend` | src/stability/StabilityController.js:19-82 | running one more event is one more step |
| `StabilityControllers.StaleTimerSteps` | src/stability/StabilityController.js:19-77 | from OPEN with one timer: a refused call, a timer, a healthy call and the second timer leave HALF-OPEN with no count |
| `StabilityControllers.StaleTimerReopensHalfOpen` | src/stability/StabilityController.js:19-77 | the stale second timer relabels a cleared circuit HALF-OPEN |
| `StabilityControllers.StabilityController.GetState` | src/stability/StabilityController.js:2-4 | the snapshot is exactly the two maps and the pending timers |
| `StabilityControllers.StabilityController.constructor` | src/stability/StabilityController.js:2-17 | no counts, no labels, no timers |
| `StabilityControllers.StabilityController.IsCircuitOpen` | src/stability/StabilityController.js:39-41 | true iff the label is OPEN (HALF-OPEN lets calls through) |
| `StabilityControllers.StabilityController.MonitorService` | src/stability/StabilityController.js:19-37 | the new state and the answer are `Monitored`; the invariant is kept |
| `StabilityControllers.StabilityController.RecordFailure` | src/stability/StabilityController.js:56-63 | the new state is `RecordedFailure` |
| `StabilityControllers.StabilityController.OpenCircuit` | src/stability/StabilityController.js:65-70 | the new state is `OpenedCircuit` |
| `StabilityControllers.StabilityController.TimerFires` | src/stability/StabilityController.js:67-69 | the new state is `TimerFired`; the invariant is kept |
| `StabilityControllers.StabilityController.ResetFailures` | src/stability/StabilityController.js:72-77 | the new state is `FailuresReset` |
| `StabilityControllers.StabilityController.HandleError` | src/stability/StabilityController.js:79-82 | records one failure |
| `ServiceTypes.AsObject` | src/orchestration/ServiceTypes.js:9-73 | a table row is an object with the four distinct keys cpu, memory, storage, pods in that order |
| `ServiceTypes.TagsDistinct` | src/orchestration/ServiceTypes.js:1-7 | exactly five distinct tags |
| `ServiceTypes.TablesCoverTags` | src/orchestration/ServiceTypes.js:9-73 | a tag has a defaults row and a limits row iff it is one of the five |
| `ServiceTypes.TablesUniform` | src/orchestration/ServiceTypes.js:9-73 | every row writes cpu without a unit, memory and storage in whole `Gi`, and a positive pod count |
| `ServiceTypes.GibibytesRow` | src/orchestration/ServiceTypes.js:9-73 | the memory and storage amounts of the tables are whole gibibytes |
| `ServiceValidators.ValidateServiceType` | src/orchestration/ServiceValidator.js:4-8 | passes iff the type is one of the five tag strings; any other value, a number included, fails with 'Invalid service type: ' and the value as a template literal prints it |
| `ServiceValidators.BinaryUnit` | src/orchestration/ServiceValidator.js:35 | the unit exponent is at most 4 (Ti) |
| `ServiceValidators.ScaledMonotone` | src/orchestration/ServiceValidator.js:47 | scaling by a power of 1024 keeps the order of amounts, in both directions |
| `ServiceValidators.BinaryUnitOf` | src/orchestration/ServiceValidator.js:35-38 | a number followed by a unit splits back into that number and unit |
| `ServiceValidators.BytesOfQuantity` | src/orchestration/ServiceValidator.js:34-48 | `<number>[Ki\|Mi\|Gi\|Ti]` converts to the number times 1024 to the unit's power (1 without a unit) |
| `ServiceValidators.ConvertMatched` | src/orchestration/ServiceValidator.js:35-47 | a string matching the pattern converts to its scaled number |
| `ServiceValidators.IntegerNumber` | src/orchestration/ServiceValidator.js:35-39 | a digit string reads as the integer it spells |
| `ServiceValidators.FractionNumber` | src/orchestration/ServiceValidator.js:35-39 | `<digits>.<digits>` reads as that decimal |
| `ServiceValidators.ConvertValue` | src/orchestration/ServiceValidator.js:34-48 | succeeds iff the value is a string, with what `convertToBytes` computes from it; otherwise fails with the TypeError `value.match` raises |
| `ServiceValidators.IsResourceWithinLimit` | src/orchestration/ServiceValidator.js:23-32 | pods compare as the integers `parseInt` reads from the printed values, never throwing; other keys succeed iff value and limit are strings and then compare in bytes; a NaN side makes it false; a non-string value throws the `.match` TypeError first, then a non-string limit |
| `ServiceValidators.Verdicts` | src/orchestration/ServiceValidator.js:16-20 | one verdict per entry, true iff that entry is within its limit |
| `ServiceValidators.FirstFalse` | src/orchestration/ServiceValidator.js:16-20 | the first false verdict, all before it true |
| `ServiceValidators.FirstOverLimit` | src/orchestration/ServiceValidator.js:16-20 | the first entry in `Object.entries` order that exceeds its limit, all before it within |
| `ServiceValidators.ValidateResources` | src/orchestration/ServiceValidator.js:10-21 | an unknown type fails 'No resource limits defined for type: '; undefined or null resources fail as `Object.entries` does; otherwise success iff every entry passes its test, and a failure carries the first failing entry's TypeError or limit message |
| `ServiceValidators.ValidateServiceConfig` | src/orchestration/ServiceValidator.js:50-72 | the checks in source order, the first failing one deciding the error; success iff an object with the required fields, a known type, resources within limits, a name whose printed form is 1 or more allowed characters, and no string name over 255 characters (booleans, and numbers not printed with an exponent '+', pass the name checks) |
| `ServiceValidators.GibibytesBytes` | src/orchestration/ServiceValidator.js:34-48 | `<n>Gi` converts to n times 1024^3 |
| `ServiceValidators.UnitlessBytes` | src/orchestration/ServiceValidator.js:34-48 | a unitless decimal converts to itself |
| `ServiceValidators.LimitValues` | src/orchestration/ServiceTypes.js:42-73 | reading each of the four keys of a limits row gives that field |
| `ServiceValidators.GibibytesWithin` | src/orchestration/ServiceValidator.js:28-31 | two amounts in gibibytes pass iff the value has no more gibibytes than the limit |
| `ServiceValidators.UnitlessWithin` | src/orchestration/ServiceValidator.js:28-31 | two unitless cpu amounts pass iff the value's decimal is no larger than the limit's |
| `ServiceValidators.PodsWithin` | src/orchestration/ServiceValidator.js:24-26 | whole pod counts below 10^21 pass iff the count is no larger than the limit's |
| `ServiceValidators.FractionalTypeRefused` | src/orchestration/ServiceValidator.js:4-8 | the type 1.5 fails with 'Invalid service type: 1.5' |
| `ServiceValidators.ExponentPodsWithin` | src/orchestration/ServiceValidator.js:24-26 | 10^21 pods pass a limit of 1, since `parseInt` reads '1e+21' as 1 |
| `ServiceValidators.NumericCpuThrows` | src/orchestration/ServiceValidator.js:16-20 | a numeric cpu fails with 'value.match is not a function' |
| `ServiceValidators.ResourceKeysNotInherited` | src/orchestration/ServiceValidator.js:17 | none of cpu, memory, storage and pods names an inherited property |
| `ServiceValidators.RowWithin` | src/orchestration/ServiceTypes.js:9-73 | a default row no larger than a limit row, field by field, is within it on all four entries |
| `ServiceValidators.RowEntriesWithin` | src/orchestration/ServiceTypes.js:9-73 | every entry of such a row, in `Object.entries` order, passes the loop's test |
| `ServiceValidators.TagsNotInherited` | src/orchestration/ServiceValidator.js:11 | no tag names an inherited property, so the table lookup finds a row |
| `ServiceValidators.RowPasses` | src/orchestration/ServiceValidator.js:10-21 | such a row passes `validateResources` for its type |
| `ServiceValidators.AllWithinPasses` | src/orchestration/ServiceValidator.js:10-21 | resources whose every entry is within its limit pass |
| `ServiceValidators.GibibytesOf` | src/orchestration/ServiceTypes.js:9-73 | `<n>Gi` is n gibibytes |
| `ServiceValidators.WholeCpu` | src/orchestration/ServiceTypes.js:9-73 | a whole cpu count reads as that number |
| `ServiceValidators.HalfCpu` | src/orchestration/ServiceTypes.js:9-73 | '0.5' reads as half a cpu |
| `ServiceValidators.DefaultsPassVertex` | src/orchestration/ServiceTypes.js:10-15 | the vertex-ai defaults pass `validateResources` against the vertex-ai limits |
| `ServiceValidators.DefaultsPassOpenAi` | src/orchestration/ServiceTypes.js:16-21 | the openai defaults pass against the openai limits |
| `ServiceValidators.DefaultsPassJenkins` | src/orchestration/ServiceTypes.js:22-27 | the jenkins defaults pass against the jenkins limits |
| `ServiceValidators.DefaultsPassGke` | src/orchestration/ServiceTypes.js:28-33 | the gke defaults pass against the gke limits |
| `ServiceValidators.DefaultsPassBorg` | src/orchestration/ServiceTypes.js:34-39 | the borg defaults pass against the borg limits |
| `ServiceOrchestrators.ValidateService` | src/orchestration/ServiceOrchestrator.js:18-28 | a non-object is an invalid configuration; an object passes iff name, type and resources are truthy, the first falsy one named |
| `ServiceOrchestrators.SafeResourcesOf` | src/orchestration/ServiceOrchestrator.js:38-43 | all four resources truthy; a truthy given value is kept, a falsy one replaced by its default |
| `ServiceOrchestrators.Registered` | src/orchestration/ServiceOrchestrator.js:30-54 | an invalid configuration or a full registry is refused with no change; otherwise a fresh entry is stored under its name, a new name going last in map order, even when monitoring then fails; the controller is the one `monitorService` leaves, and the answer is 'registered' iff that call returns, else its error |
| `ServiceOrchestrators.RegisteredKeepsInv` | src/orchestration/ServiceOrchestrator.js:30-54 | registration keeps the order distinct and in step with the map, and never exceeds 100 services |
| `ServiceOrchestrators.ReRegisterKeepsSize` | src/orchestration/ServiceOrchestrator.js:45-50 | re-registering a name replaces its entry in place: same size, same order |
| `ServiceOrchestrators.OpenCircuitRefusesRegistration` | src/orchestration/ServiceOrchestrator.js:45-53 | a name whose circuit is OPEN is stored, yet registration fails with 'Circuit open for <name>' and one more failure is counted |
| `ServiceOrchestrators.Kept` | src/orchestration/ServiceOrchestrator.js:88-94 | the names that survive the sweep are exactly the non-stale ones, in their old relative order |
| `ServiceOrchestrators.KeptDistinct` | src/orchestration/ServiceOrchestrator.js:88-94 | the surviving order has no repeats |
| `ServiceOrchestrators.Swept` | src/orchestration/ServiceOrchestrator.js:85-97 | nothing happens within 300000 ms of the last sweep; after that the stale services leave the map, the order and the started checks, the rest keep their entries and relative order, pending checks, timers and the controller are untouched, and the sweep time is `now` |
| `ServiceOrchestrators.SweptRemovesExactlyStale` | src/orchestration/ServiceOrchestrator.js:88-94 | on a consistent registry a service survives a due sweep iff it is not stale |
| `ServiceOrchestrators.SweptIdempotent` | src/orchestration/ServiceOrchestrator.js:85-97 | a second sweep at the same time changes nothing |
| `ServiceOrchestrators.SweptKeepsInv` | src/orchestration/ServiceOrchestrator.js:85-97 | a sweep keeps the registry consistent |
| `ServiceOrchestrators.Without` | src/orchestration/ServiceOrchestrator.js:103 | removal keeps every other name, in order |
| `ServiceOrchestrators.WithoutDistinct` | src/orchestration/ServiceOrchestrator.js:103 | removal keeps the order free of repeats |
| `ServiceOrchestrators.Unregistered` | src/orchestration/ServiceOrchestrator.js:99-106 | an unknown name fails 'Service not found' with no change; a known one leaves the map, the order and the started checks, the others keep their order, and pending checks, timers and the controller are untouched |
| `ServiceOrchestrators.UnregisteredKeepsInv` | src/orchestration/ServiceOrchestrator.js:99-106 | unregistration keeps the registry consistent |
| `ServiceOrchestrators.RegisterThenUnregister` | src/orchestration/ServiceOrchestrator.js:30-106 | registering a new name and unregistering it gives back the registry as it was, except the controller, which monitored the name once, and the next entry id |
| `ServiceOrchestrators.RegisterThenUnregisterNew` | src/orchestration/ServiceOrchestrator.js:30-106 | the same for a name absent from the order and the started checks |
| `ServiceOrchestrators.AddThenRemove` | src/orchestration/ServiceOrchestrator.js:45-104 | storing a new name and deleting it again restores the map, the order and the started checks |
| `ServiceOrchestrators.RegisteredStores` | src/orchestration/ServiceOrchestrator.js:45-52 | a registration that passes the checks is the stored entry followed by the controller's monitoring |
| `ServiceOrchestrators.WithoutAppended` | src/orchestration/ServiceOrchestrator.js:45-50 | removing the name just appended restores the order |
| `ServiceOrchestrators.WithoutAbsent` | src/orchestration/ServiceOrchestrator.js:103 | removing an absent name changes nothing |
| `ServiceOrchestrators.StatusOf` | src/orchestration/ServiceOrchestrator.js:108-120 | found iff registered, else 'Service not found'; reports the entry's name, type, resources, health and last check |
| `ServiceOrchestrators.StatusNamesService` | src/orchestration/ServiceOrchestrator.js:45-50 | in a consistent registry the status of a registered service carries the name it was looked up by |
| `ServiceOrchestrators.StatusAfterRegister` | src/orchestration/ServiceOrchestrator.js:30-54 | right after registering, the status shows the configured name and type, the filled-in resources and no health check |
| `ServiceOrchestrators.Listing` | src/orchestration/ServiceOrchestrator.js:124-129 | one summary per name, in map order |
| `ServiceOrchestrators.ListingNamesEachOnce` | src/orchestration/ServiceOrchestrator.js:122-130 | the listing names every registered service exactly once |
| `ServiceOrchestrators.ChecksStarted` | src/orchestration/ServiceOrchestrator.js:56-63 | every registered name not yet active becomes active and gets exactly one pending check of its current entry; nothing else changes |
| `ServiceOrchestrators.HealthChecked` | src/orchestration/ServiceOrchestrator.js:65-83 | the check is no longer pending and the controller is the one `monitorService` leaves; when that call returns, a health timer is set and the captured entry, if still registered, records `now` and the healthy flag; when it throws, no timer is set and that entry is marked unhealthy; no other entry changes |
| `ServiceOrchestrators.HealthTimerFired` | src/orchestration/ServiceOrchestrator.js:71-77 | the timer is consumed; a registered name gets a new pending check of the same captured entry; an unregistered one leaves the started checks |
| `ServiceOrchestrators.CircuitTimerFired` | src/stability/StabilityController.js:67-69 | the controller's pending reset timer fires, and nothing else changes |
| `ServiceOrchestrators.UnhealthyBecomesStale` | src/orchestration/ServiceOrchestrator.js:65-94 | an unhealthy answer, with the circuit not OPEN, older than 300000 ms makes the checked entry stale |
| `ServiceOrchestrators.FailedCheckNotRescheduled` | src/orchestration/ServiceOrchestrator.js:79-82 | a check that throws, or meets an OPEN circuit, sets no timer and marks its entry unhealthy |
| `ServiceOrchestrators.ChecksStartedKeepsInv` | src/orchestration/ServiceOrchestrator.js:56-63 | starting checks keeps the registry consistent |
| `ServiceOrchestrators.HealthCheckedKeepsInv` | src/orchestration/ServiceOrchestrator.js:65-83 | a finished check keeps the registry and the controller consistent |
| `ServiceOrchestrators.HealthTimerFiredKeepsInv` | src/orchestration/ServiceOrchestrator.js:71-77 | a health timer keeps the registry consistent |
| `ServiceOrchestrators.CircuitTimerFiredKeepsInv` | src/stability/StabilityController.js:67-69 | a circuit reset timer keeps the registry and the controller consistent |
| `ServiceOrchestrators.StepKeepsInv` | src/orchestration/ServiceOrchestrator.js:30-106 | every operation, check and timer keeps the registry consistent: started checks only for registered names, ids in use already handed out, and the controller's OPEN circuits at five failures or more |
| `ServiceOrchestrators.RunKeepsInv` | src/orchestration/ServiceOrchestrator.js:9 | after any sequence of operations there are at most 100 services, each listed once |
| `ServiceOrchestrators.ServiceOrchestrator.State` | src/orchestration/ServiceOrchestrator.js:4-16 | the snapshot is exactly the fields, the pending checks and timers, and the controller's own snapshot |
| `ServiceOrchestrators.ServiceOrchestrator.constructor` | src/orchestration/ServiceOrchestrator.js:4-16 | an empty registry swept at `now`, with a fresh controller and nothing pending |
| `ServiceOrchestrators.ServiceOrchestrator.RegisterService` | src/orchestration/ServiceOrchestrator.js:30-54 | the new state and the answer are `Registered`, the controller's own `MonitorService` deciding the answer; consistency is kept |
| `ServiceOrchestrators.ServiceOrchestrator.Store` | src/orchestration/ServiceOrchestrator.js:45-50 | the new state is `Stored` |
| `ServiceOrchestrators.ServiceOrchestrator.Cleanup` | src/orchestration/ServiceOrchestrator.js:85-97 | the new state is `Swept`; consistency is kept |
| `ServiceOrchestrators.ServiceOrchestrator.UnregisterService` | src/orchestration/ServiceOrchestrator.js:99-106 | the new state and the answer are `Unregistered`; consistency is kept |
| `ServiceOrchestrators.ServiceOrchestrator.GetServiceStatus` | src/orchestration/ServiceOrchestrator.js:108-120 | the answer is `StatusOf` |
| `ServiceOrchestrators.ServiceOrchestrator.GetAllServices` | src/orchestration/ServiceOrchestrator.js:122-130 | sweeps first, then lists every remaining service in map order |
| `ServiceOrchestrators.ServiceOrchestrator.StartHealthChecks` | src/orchestration/ServiceOrchestrator.js:56-63 | the new state is `ChecksStarted`; consistency is kept |
| `ServiceOrchestrators.ServiceOrchestrator.HealthCheckDone` | src/orchestration/ServiceOrchestrator.js:65-83 | the new state is `HealthChecked`, the controller's own `MonitorService` deciding the outcome; consistency is kept |
| `ServiceOrchestrators.ServiceOrchestrator.RecordCheck` | src/orchestration/ServiceOrchestrator.js:68-82 | the new state is `CheckRecorded` |
| `ServiceOrchestrators.ServiceOrchestrator.HealthTimerFires` | src/orchestration/ServiceOrchestrator.js:71-77 | the new state is `HealthTimerFired`; consistency is kept |
| `ServiceOrchestrators.ServiceOrchestrator.CircuitTimerFires` | src/stability/StabilityController.js:67-69 | the new state is `CircuitTimerFired`; consistency is kept |
| `ServiceOrchestrators.SweepNames` | src/orchestration/ServiceOrchestrator.js:88-94 | the deletion loop leaves the map and the health checks without the stale names, and the order filtered |
| `ServiceOrchestrators.StaleInStep` | src/orchestration/ServiceOrchestrator.js:88-94 | one more name in the sweep adds it to the stale set iff it is stale |
| `ResourceMonitors.NewMonitor` | src/stability/ResourceMonitor.js:2-9 | a falsy argument gives the limits cpu 2, memory 2048, requests 1000; otherwise the given ones |
| `ResourceMonitors.ValidateLimits` | src/stability/ResourceMonitor.js:31-37 | true iff cpu, memory and requests are each at most their limit |
| `ResourceMonitors.CheckResources` | src/stability/ResourceMonitor.js:11-20 | returns the usage iff it is within the limits; otherwise 'Resource limits exceeded for <name>', the name, any value, printed as a template literal prints it |
| `ResourceMonitors.ValidateLimitsMonotone` | src/stability/ResourceMonitor.js:31-37 | higher limits or lower usage never turn a pass into a failure |
| `ResourceMonitors.ValidateLimitsBoundary` | src/stability/ResourceMonitor.js:31-37 | usage equal to the limits passes; exceeding any one limit fails |
| `ResourceMonitors.DefaultMonitorAccepts` | src/stability/ResourceMonitor.js:3-29 | under the default limits every service passes with the usage 0.5, 1024, 100 |
| `ResourceMonitors.CheckIgnoresName` | src/stability/ResourceMonitor.js:11-29 | the verdict, and a successful answer, do not depend on the service name |
| `Borg.NewBorg` | src/orchestrators/borg.js:2-6 | fails 'Config is required' iff the config is falsy |
| `Borg.ValidateSpec` | src/orchestrators/borg.js:29-37 | true iff image, resources and priority are truthy; the first falsy one is named; a missing spec fails on reading 'image' |
| `Borg.GenerateId` | src/orchestrators/borg.js:39-41 | every id starts with 'borg-' |
| `Borg.DeployContainer` | src/orchestrators/borg.js:8-16 | deploys iff the spec is valid, with status 'deployed' and a 'borg-' id; otherwise 'Borg deployment failed: ' and the check's message |
| `Borg.CompleteSpecDeploys` | src/orchestrators/borg.js:8-37 | a spec with the three fields deploys, whatever else it holds |
| `Borg.MissingPriority` | src/orchestrators/borg.js:8-37 | a spec without priority fails with the wrapped message naming it |
| `CodeValidators.ValidateConfig` | src/validators/CodeValidator.js:2-8 | a falsy config fails first; then true iff vetestx.url, openai.token and jenkins.url are all truthy, and otherwise the first missing one decides the message |
| `CodeValidators.ValidateResponse` | src/validators/CodeValidator.js:10-14 | true iff the response is truthy with status exactly 'success'; otherwise the void message or the failed-to-honor message |
| `CodeValidators.SettingMessagesDistinct` | src/validators/CodeValidator.js:4-6 | the three messages differ, so the error identifies the missing setting |
| `CodeValidators.FullConfigPasses` | src/validators/CodeValidator.js:2-8 | a configuration with distinct keys holding truthy vetestx.url, openai.token and jenkins.url passes, whatever the key order and other fields |
| `CodeValidators.WrongStatusFails` | src/validators/CodeValidator.js:12 | a response with distinct keys whose status is anything but the string 'success' fails with '<service> failed to honor the code', wherever the status sits |
| `AutoConfigs.LeadingSuccesses` | src/config/AutoConfig.js:20-25 | the number of steps before the first failing one: all of those complete and the next, if any, fails |
| `AutoConfigs.Attempted` | src/config/AutoConfig.js:20-25 | a run calls the completed steps and the first failing one, no more |
| `AutoConfigs.LeadingSuccessesAppend` | src/config/AutoConfig.js:20-25 | completed steps followed by anything extend the leading run by their number |
| `AutoConfigs.LeadingSuccessesIgnoresTail` | src/config/AutoConfig.js:23 | steps after the first failure do not matter |
| `AutoConfigs.AutoConfig.constructor` | src/config/AutoConfig.js:2-5 | no steps, none completed |
| `AutoConfigs.AutoConfig.ConfigureStep` | src/config/AutoConfig.js:7-18 | returns true and adds exactly 1 iff the step completes, otherwise false with no change |
| `AutoConfigs.AutoConfig.RunConfiguration` | src/config/AutoConfig.js:20-25 | the count grows by the number of steps before the first failure, the steps are unchanged, and exactly the steps up to the first failure are called |

## Left out

- I/O and logging: every `console.*` call, and the metrics plumbing.
- Timers: `setTimeout` callbacks are explicit events (`Fire`, `HealthTimer`). Real waiting is not modelled. The retry sleep is reported as the list of waits.
- Clocks: `Date.now()` is the `now` parameter.
- Randomness: `Math.random` in the stability controller's metrics (the health result is an input) and in `generateId` (the random suffix is an input).
- async/await: each awaited call completes atomically. Whatever runs between its start and its completion in JavaScript is ordered before or after it here; the controller's OPEN test and its update happen together when `monitorService` completes. An awaited call whose result the code does not compute is an `Outcome` input: the breaker's command, the retried operation, the health check `monitorService` awaits, and each configuration step. Awaited calls take no time, except that the breaker stamps a failure with a second clock reading.
- `ResourceQuotas.ResourceQuota.constructor`: `new ResourceQuota(null)` throws a TypeError reading `cpu` of null (ResourceQuota.js:2-8); the constructor excludes a null argument instead. The same TypeError for a null options object is not modelled for `CircuitBreaker`, `RateLimiter` and `RetryHandler`, whose constructors take the option values one by one; nor for `allocate` and `deallocate` with an undefined or null request, where `Object.entries` throws (ResourceQuota.js:47), since a request is always a list of entries here.
- `JsValues.Entries`: an object's fields are taken to be listed already in JavaScript's own-property order, with distinct keys. The model does not move integer-like keys such as `'0'` to the front, nor rule out a repeated key in an `Obj` value; every lemma about lookups requires distinct keys.
- JavaScript doubles: numbers are exact reals. There is no rounding in `parseFloat` or `1024 ** 5`, and no 2^53 limit.
- NaN paths in the resource quota are preconditions: the unit letters `e`/`i`, a leading `Infinity`, request keys outside the four dimensions, and non-string values where `.match` is called. Limits on such a path are excluded when the quota is built, although JavaScript stores any limit and normalizes it only inside `allocate`, so such a quota could still `deallocate` and report its limits.
- `RateLimiters.RateLimiter.CheckLimit`: `checkLimit` reads the clock twice, once inside `cleanup` and again for the service's own list; the model uses one `now`. The answer is the same, since the service's list is filtered again at the later reading, but other services' stored lists may differ at the window edge. The service id is a string here, whereas JavaScript's `Map` takes any value and the message prints it as a template literal does.
- `JsValues.NumberText`: a real whose decimal expansion does not end within 1074 digits is no double; it is printed by its integer part rather than by the nearest double's digits.
- `ServiceValidators.ValidateResources`: a service type naming an inherited `Object.prototype` member (`toString`, `constructor`, ...) is excluded by its requires; for such a type `ResourceLimits[type]` is a function, which the model has no value for.
- `ServiceValidators.LimitValue`: an inherited member read as a limit is modelled as an object without a `match` method, so the comparison throws the same TypeError as the source's function would.
- A truthy resource-monitor limits object whose fields are not numbers is not modelled. `NewMonitor` takes the three numbers, or None for a falsy argument.
- The stability controller's `checkServiceHealth` always answers `healthy: true`; only its metrics, from `getCurrentMetrics`, are random and are not modelled. The model takes the answer as an input, so it also covers a real health check; `StabilityControllers.HealthyRunStaysEmpty` shows that with the constant answer no failure is ever counted.
- `CodeValidator.validateIntegrity` calls methods defined nowhere in the repository and is not modelled.
- `BorgOrchestrator.monitorContainer` returns a constant and is not modelled. The unused `containers` map is not modelled either.
- The registry and the stability controller compare service names by value. JavaScript's `Map` compares object keys by identity; for strings, numbers and booleans the two agree.
- The orchestrator's `healthCheckInterval` (60000 ms) only sets when a timer fires. Timers are events here.
- `ServiceOrchestrators.ServiceOrchestrator.Cleanup` iterates over a snapshot of the map order rather than the live map. This is equivalent because the loop only deletes the entry it is visiting.
- Borg's TypeError message for a missing spec follows V8's wording.
- AutoConfig's `configSteps` is a public field that callers assign directly; no method adds steps.
