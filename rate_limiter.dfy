/** The sliding-window rate limiter: for each service id a list of the
    admission times still inside the window. A request is admitted when
    fewer than `maxRequests` of them remain; a refused request is not
    recorded. */
module RateLimiters {
  import opened Outcomes

  type Log = map<string, seq<int>>

  /** What a successful `checkLimit` reports. */
  datatype Admission = Admission(remaining: int, reset: int)

  /** The new log and the answer of one `checkLimit` call. */
  datatype Checked = Checked(requests: Log, result: Outcome<Admission>)

  /** `ts.filter(time => now - time < window)`: the timestamps still inside
      the window, in their original order. */
  function Live(ts: seq<int>, now: int, window: int): (r: seq<int>)
    ensures |r| <= |ts|
    ensures forall t :: t in r <==> t in ts && now - t < window
  {
    if ts == [] then []
    else if now - ts[0] < window then [ts[0]] + Live(ts[1..], now, window)
    else Live(ts[1..], now, window)
  }

  /** The list stored for `id`, or the empty list. */
  function ListOf(m: Log, id: string): seq<int>
  {
    if id in m then m[id] else []
  }

  /** `cleanup`: every list filtered, and the services left with nothing
      dropped. */
  function Purged(m: Log, now: int, window: int): (r: Log)
    ensures r.Keys <= m.Keys
    ensures forall id :: id in r ==> r[id] != [] && |r[id]| <= |m[id]|
    ensures forall id :: ListOf(r, id) == Live(ListOf(m, id), now, window)
  {
    map id | id in m && Live(m[id], now, window) != [] :: Live(m[id], now, window)
  }

  /** Every stored list is non-empty and holds at most `maxRequests` times. */
  predicate WellFormed(m: Log, maxRequests: int)
  {
    forall id :: id in m ==> 1 <= |m[id]| <= maxRequests
  }

  /** `checkLimit(id)` at time `now` on the log `m`. */
  function LimitCheck(m: Log, id: string, now: int, maxRequests: int, window: int): (c: Checked)
    // admitted exactly when fewer than maxRequests requests are still in the window
    ensures c.result.Success? <==> |Live(ListOf(m, id), now, window)| < maxRequests
    ensures c.result.Failure? ==>
      c.result.error == "Rate limit exceeded for " + id && c.requests == Purged(m, now, window)
    ensures c.result.Success? ==>
      && c.requests == Purged(m, now, window)[id := Live(ListOf(m, id), now, window) + [now]]
      && c.result.value.remaining == maxRequests - |c.requests[id]| >= 0
      && c.result.value.reset == now + window
    // other services' lists change only by losing expired timestamps
    ensures forall k :: k != id ==> ListOf(c.requests, k) == Live(ListOf(m, k), now, window)
    // once all of a service's timestamps have expired, it is admitted again
    ensures maxRequests >= 1 && (forall t :: t in ListOf(m, id) ==> now - t >= window) ==> c.result.Success?
    ensures WellFormed(m, maxRequests) ==> WellFormed(c.requests, maxRequests)
  {
    var p := Purged(m, now, window);
    var valid := Live(ListOf(p, id), now, window);
    LiveTwice(ListOf(m, id), now, window);
    ExpiredIsEmpty(ListOf(m, id), now, window);
    if |valid| >= maxRequests then Checked(p, Failure("Rate limit exceeded for " + id))
    else
      var stored := valid + [now];
      Checked(p[id := stored], Success(Admission(maxRequests - |stored|, now + window)))
  }

  /** A list whose timestamps have all expired filters to nothing. */
  lemma ExpiredIsEmpty(ts: seq<int>, now: int, window: int)
    ensures (forall t :: t in ts ==> now - t >= window) ==> Live(ts, now, window) == []
  {
    var r := Live(ts, now, window);
    if r != [] {
      assert r[0] in r;
    }
  }

  /** Filtering twice is filtering once. */
  lemma {:induction false} LiveTwice(ts: seq<int>, now: int, window: int)
    ensures Live(Live(ts, now, window), now, window) == Live(ts, now, window)
  {
    if ts != [] {
      LiveTwice(ts[1..], now, window);
      if now - ts[0] < window {
        assert ([ts[0]] + Live(ts[1..], now, window))[1..] == Live(ts[1..], now, window);
      }
    }
  }

  /** How many timestamps of `ts` are at or after `t0`. */
  function CountFrom(ts: seq<int>, t0: int): (n: nat)
    ensures n <= |ts|
  {
    if ts == [] then 0 else (if ts[0] >= t0 then 1 else 0) + CountFrom(ts[1..], t0)
  }

  /** Timestamps at or after `t0` are still live at any `now` less than one
      window after `t0`. */
  lemma {:induction false} LiveKeepsRecent(ts: seq<int>, now: int, window: int, t0: int)
    requires now - t0 < window
    ensures CountFrom(Live(ts, now, window), t0) == CountFrom(ts, t0)
  {
    if ts != [] {
      LiveKeepsRecent(ts[1..], now, window, t0);
      if now - ts[0] < window {
        assert ([ts[0]] + Live(ts[1..], now, window))[1..] == Live(ts[1..], now, window);
      }
    }
  }

  lemma {:induction false} CountFromAppend(ts: seq<int>, t: int, t0: int)
    ensures CountFrom(ts + [t], t0) == CountFrom(ts, t0) + (if t >= t0 then 1 else 0)
  {
    if ts != [] {
      assert (ts + [t])[1..] == ts[1..] + [t];
      CountFromAppend(ts[1..], t, t0);
    }
  }

  /** Calls of `checkLimit(id)` at the given times, oldest first: the final
      log and how many of the calls were admitted. */
  function Calls(m: Log, id: string, times: seq<int>, maxRequests: int, window: int): (Log, nat)
  {
    if times == [] then (m, 0)
    else
      var (p, admitted) := Calls(m, id, times[..|times| - 1], maxRequests, window);
      var c := LimitCheck(p, id, times[|times| - 1], maxRequests, window);
      (c.requests, admitted + if c.result.Success? then 1 else 0)
  }

  /** The sliding-window guarantee: of any calls for one service whose times
      all fall within one window-length interval starting at `t0`, at most
      `maxRequests` are admitted, whatever the log held before. */
  lemma {:induction false} AtMostMaxPerWindow(m: Log, id: string, times: seq<int>, maxRequests: int, window: int, t0: int)
    requires maxRequests >= 0
    requires forall i :: 0 <= i < |times| ==> t0 <= times[i] < t0 + window
    ensures Calls(m, id, times, maxRequests, window).1 <= maxRequests
    ensures Calls(m, id, times, maxRequests, window).1
      <= CountFrom(ListOf(Calls(m, id, times, maxRequests, window).0, id), t0)
  {
    if times != [] {
      var prefix := times[..|times| - 1];
      AtMostMaxPerWindow(m, id, prefix, maxRequests, window, t0);
      var (p, admitted) := Calls(m, id, prefix, maxRequests, window);
      var now := times[|times| - 1];
      var c := LimitCheck(p, id, now, maxRequests, window);
      var valid := Live(ListOf(p, id), now, window);
      LiveKeepsRecent(ListOf(p, id), now, window, t0);
      if c.result.Success? {
        CountFromAppend(valid, now, t0);
      }
    }
  }

  class RateLimiter {
    const maxRequests: int
    const timeWindow: int
    var requests: Log

    /** Falsy options fall back to 100 requests per 60000 ms. */
    constructor (maxRequestsOption: Option<int>, timeWindowOption: Option<int>)
      ensures maxRequests == IntOr(maxRequestsOption, 100) && timeWindow == IntOr(timeWindowOption, 60000)
      ensures requests == map[] && WellFormed(requests, maxRequests)
    {
      maxRequests := IntOr(maxRequestsOption, 100);
      timeWindow := IntOr(timeWindowOption, 60000);
      requests := map[];
    }

    /** `checkLimit(serviceId)` at time `now`. */
    method CheckLimit(serviceId: string, now: int) returns (r: Outcome<Admission>)
      modifies this
      ensures var c := LimitCheck(old(requests), serviceId, now, maxRequests, timeWindow);
        requests == c.requests && r == c.result
      ensures old(WellFormed(requests, maxRequests)) ==> WellFormed(requests, maxRequests)
    {
      Cleanup(now);
      var serviceRequests := ListOf(requests, serviceId);
      var validRequests := Live(serviceRequests, now, timeWindow);
      if |validRequests| >= maxRequests {
        return Failure("Rate limit exceeded for " + serviceId);
      }
      validRequests := validRequests + [now];
      requests := requests[serviceId := validRequests];
      r := Success(Admission(maxRequests - |validRequests|, now + timeWindow));
    }

    /** `cleanup` at time `now`: filters every list in place and deletes the
        services whose list became empty. */
    method Cleanup(now: int)
      modifies this
      ensures requests == Purged(old(requests), now, timeWindow)
    {
      ghost var original := requests;
      var pending := requests.Keys;
      while pending != {}
        invariant pending <= original.Keys
        invariant requests.Keys <= original.Keys
        invariant forall id :: id in pending ==> id in requests && requests[id] == original[id]
        invariant forall id :: id in original && id !in pending ==>
          ListOf(requests, id) == Live(original[id], now, timeWindow)
        invariant forall id :: id in requests && id !in pending ==> requests[id] != []
        decreases pending
      {
        var id :| id in pending;
        var validRequests := Live(requests[id], now, timeWindow);
        if validRequests == [] {
          requests := requests - {id};
        } else {
          requests := requests[id := validRequests];
        }
        pending := pending - {id};
      }
      ghost var purged := Purged(original, now, timeWindow);
      assert forall id :: ListOf(requests, id) == ListOf(purged, id);
      assert requests.Keys == purged.Keys;
    }

    /** `reset(serviceId)`: forgets exactly that service. */
    method Reset(serviceId: string)
      modifies this
      ensures requests == old(requests) - {serviceId}
      ensures old(WellFormed(requests, maxRequests)) ==> WellFormed(requests, maxRequests)
    {
      requests := requests - {serviceId};
    }
  }
}
