/** The three-state circuit breaker: CLOSED lets calls through and counts
    failures, OPEN rejects calls until `resetTimeout` has passed since the
    last failure, HALF_OPEN lets one trial call decide between the two. */
module CircuitBreakers {
  import opened Outcomes

  datatype State = Closed | Open | HalfOpen

  /** The three mutable fields, as `getState` reports them. */
  datatype Snapshot = Snapshot(state: State, failures: int, lastFailureTime: Option<int>)

  datatype Settings = Settings(failureThreshold: int, resetTimeout: int)

  /** The freshly constructed breaker, and the one `reset` leaves behind. */
  const Initial: Snapshot := Snapshot(Closed, 0, None)

  /** Falsy options fall back to a threshold of 5 and a timeout of 60000 ms. */
  function Configured(threshold: Option<int>, timeout: Option<int>): Settings
  {
    Settings(IntOr(threshold, 5), IntOr(timeout, 60000))
  }

  /** `lastFailureTime` as JavaScript subtraction reads it: null counts as 0. */
  function TimeOrZero(t: Option<int>): int
  {
    if t.Some? then t.value else 0
  }

  /** Whether `execute` lets the command run at time `now`. */
  predicate Admits(c: Settings, s: Snapshot, now: int)
  {
    s.state != Open || now - TimeOrZero(s.lastFailureTime) >= c.resetTimeout
  }

  /** The breaker's invariant: it leaves CLOSED only once the failure count
      has reached the threshold, and only after recording a failure time. */
  predicate Inv(c: Settings, s: Snapshot)
  {
    && s.failures >= 0
    && (s.state != Closed ==> s.failures >= c.failureThreshold && s.lastFailureTime.Some?)
  }

  /** `recordFailure`: one more failure at `now`, opening at the threshold. */
  function RecordedFailure(c: Settings, s: Snapshot, now: int): Snapshot
  {
    Snapshot(if s.failures + 1 >= c.failureThreshold then Open else s.state, s.failures + 1, Some(now))
  }

  /** The state `execute` leaves when it admits the command at time `now`
      (an OPEN breaker whose timeout has passed first turns HALF_OPEN) and
      the command succeeds, or fails with the clock reading `failedAt`
      that `recordFailure` takes once the command has thrown. */
  function AfterExecute(c: Settings, s: Snapshot, now: int, failedAt: int, succeeded: bool): (r: Snapshot)
    requires Admits(c, s, now)
    // a successful trial resets the breaker completely
    ensures succeeded && s.state != Closed ==> r == Initial
    // a success while CLOSED changes nothing: there is no reset on the closed path
    ensures succeeded && s.state == Closed ==> r == s
    // a failure counts once, stamps the time of the failure, and opens exactly at the threshold
    ensures !succeeded ==>
      && r.failures == s.failures + 1
      && r.lastFailureTime == Some(failedAt)
      && (r.state == Open <==> s.failures + 1 >= c.failureThreshold)
    // the count only grows, except through a reset
    ensures r.failures >= s.failures || r == Initial
    // a failed trial always returns to OPEN
    ensures Inv(c, s) && s.state != Closed && !succeeded ==> r.state == Open
    ensures Inv(c, s) ==> Inv(c, r)
  {
    var trial := if s.state == Open then s.(state := HalfOpen) else s;
    if succeeded then
      if trial.state == HalfOpen then Initial else trial
    else
      RecordedFailure(c, trial, failedAt)
  }

  /** Everything a caller can do to a breaker. */
  datatype Event =
    | Call(now: int, failedAt: int, succeeded: bool)  // `execute` at `now`; a failing command fails at `failedAt`
    | RecordFailureCall(now: int)      // a direct call of `recordFailure`
    | ResetCall                        // a direct call of `reset`

  function Step(c: Settings, s: Snapshot, e: Event): Snapshot
  {
    match e
    case Call(now, failedAt, ok) => if Admits(c, s, now) then AfterExecute(c, s, now, failedAt, ok) else s
    case RecordFailureCall(now) => RecordedFailure(c, s, now)
    case ResetCall => Initial
  }

  /** The breaker after the events `es`, oldest first. */
  function Run(c: Settings, s: Snapshot, es: seq<Event>): Snapshot
  {
    if es == [] then s else Step(c, Run(c, s, es[..|es| - 1]), es[|es| - 1])
  }

  /** Whatever callers do, an OPEN (or HALF_OPEN) breaker has at least
      `failureThreshold` failures on record. */
  lemma {:induction false} RunKeepsInvariant(c: Settings, s: Snapshot, es: seq<Event>)
    requires Inv(c, s)
    ensures Inv(c, Run(c, s, es))
  {
    if es != [] {
      RunKeepsInvariant(c, s, es[..|es| - 1]);
      var p := Run(c, s, es[..|es| - 1]);
      match es[|es| - 1]
      case Call(now, failedAt, ok) =>
      case RecordFailureCall(now) =>
      case ResetCall =>
    }
  }

  /** `k` consecutive failing calls at one instant, starting from a new
      breaker: the breaker stays CLOSED below the threshold and opens when
      the k-th failure reaches it; while the timeout has not passed, the
      next call is then refused without running its command. */
  lemma {:induction false} ConsecutiveFailuresOpen(c: Settings, k: nat, now: int, later: int)
    requires 1 <= c.failureThreshold && k <= c.failureThreshold
    requires now <= later < now + c.resetTimeout
    ensures Run(c, Initial, seq(k, _ => Call(now, now, false)))
      == Snapshot(if k == c.failureThreshold then Open else Closed, k, if k == 0 then None else Some(now))
    ensures k == c.failureThreshold ==> !Admits(c, Run(c, Initial, seq(k, _ => Call(now, now, false))), later)
  {
    var es := seq(k, _ => Call(now, now, false));
    if k > 0 {
      assert es[..k - 1] == seq(k - 1, _ => Call(now, now, false));
      ConsecutiveFailuresOpen(c, k - 1, now, later);
    }
  }

  class CircuitBreaker {
    const failureThreshold: int
    const resetTimeout: int
    var failures: int
    var state: State
    var lastFailureTime: Option<int>

    function Config(): Settings
    {
      Settings(failureThreshold, resetTimeout)
    }

    /** `getState`: a copy of the three mutable fields. */
    function GetState(): (s: Snapshot)
      reads this
      ensures s.state == state && s.failures == failures && s.lastFailureTime == lastFailureTime
    {
      Snapshot(state, failures, lastFailureTime)
    }

    ghost predicate Valid()
      reads this
    {
      Inv(Config(), GetState())
    }

    constructor (threshold: Option<int>, timeout: Option<int>)
      ensures Config() == Configured(threshold, timeout)
      ensures GetState() == Initial && Valid()
    {
      failureThreshold := IntOr(threshold, 5);
      resetTimeout := IntOr(timeout, 60000);
      failures := 0;
      state := Closed;
      lastFailureTime := None;
    }

    /** `execute(command)` entered at time `now`, where `command` is what
        the awaited command produces and `failedAt` is the clock reading
        when a failing command has thrown. `invoked` tells whether it was run. */
    method Execute<T>(command: Outcome<T>, now: int, failedAt: int) returns (r: Outcome<T>, invoked: bool)
      modifies this
      ensures invoked == Admits(Config(), old(GetState()), now)
      ensures !invoked ==> r == Failure("Circuit breaker is OPEN") && GetState() == old(GetState())
      // the command's own result or error is passed through unchanged
      ensures invoked ==> r == command && GetState() == AfterExecute(Config(), old(GetState()), now, failedAt, command.Success?)
      ensures old(Valid()) ==> Valid()
    {
      if state == Open {
        if now - TimeOrZero(lastFailureTime) >= resetTimeout {
          state := HalfOpen;
        } else {
          return Failure("Circuit breaker is OPEN"), false;
        }
      }
      invoked := true;
      r := command;
      if command.Success? {
        if state == HalfOpen {
          Reset();
        }
      } else {
        RecordFailure(failedAt);
      }
    }

    /** `recordFailure` at time `now`. */
    method RecordFailure(now: int)
      modifies this
      ensures GetState() == RecordedFailure(Config(), old(GetState()), now)
      ensures failures == old(failures) + 1 && lastFailureTime == Some(now)
      ensures state == (if failures >= failureThreshold then Open else old(state))
    {
      failures := failures + 1;
      lastFailureTime := Some(now);
      if failures >= failureThreshold {
        state := Open;
      }
    }

    /** `reset`: back to the initial CLOSED state. */
    method Reset()
      modifies this
      ensures GetState() == Initial && Valid()
    {
      failures := 0;
      state := Closed;
      lastFailureTime := None;
    }
  }
}
