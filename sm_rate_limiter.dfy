// SecurityManager.RateLimiter (security/SecurityManager.java): a one-minute
// window per identifier and action. The counter keeps rising after the limit
// is passed, so every request past the limit in a window is refused. The
// audit entry written on a refusal is not modelled.
module SmRateLimiter {
  import opened Wrappers
  import opened JavaStrings
  import opened ResultModel

  const DefaultMax: int := 60
  const WindowSeconds: int := 60

  /** `identifier + ":" + action`. */
  function Key(identifier: string, action: string): string
  {
    identifier + ":" + action
  }

  /** A non-positive maximum means the default of 60. */
  function EffectiveMax(maxPerMinute: int): (m: int)
    ensures m >= 1
    ensures maxPerMinute > 0 ==> m == maxPerMinute
  {
    if maxPerMinute <= 0 then DefaultMax else maxPerMinute
  }

  /** The two static maps: request counters and window starts. */
  datatype Limiter = Limiter(counters: map<string, int>, windows: map<string, int>)

  function CountOf(l: Limiter, key: string): int
  {
    if key in l.counters then l.counters[key] else 0
  }

  /** No window yet, or the window has passed (`now.isAfter(start + 60 s)`). */
  predicate OpensWindow(l: Limiter, key: string, now: int)
  {
    key !in l.windows || now > l.windows[key] + WindowSeconds
  }

  /**
   * `allowRequest` as a transition: a new window starts with count 1 and is
   * allowed; inside a window the count is raised and the request refused once
   * it exceeds the maximum.
   */
  function Allow(l: Limiter, identifier: Option<string>, action: Option<string>, maxPerMinute: int, now: int)
    : (Result<bool, string>, Limiter)
  {
    if identifier.None? || action.None? then (Err("identifier/action required"), l)
    else
      var key := Key(identifier.value, action.value);
      if OpensWindow(l, key, now) then
        (Ok(true), Limiter(l.counters[key := 1], l.windows[key := now]))
      else
        var c := CountOf(l, key) + 1;
        var l' := l.(counters := l.counters[key := c]);
        if c > EffectiveMax(maxPerMinute) then (Err("Rate limit exceeded"), l') else (Ok(true), l')
  }

  /** Replays requests from one identifier and action at the given times; the number allowed. */
  function Allowed(l: Limiter, identifier: string, action: string, maxPerMinute: int, times: seq<int>): (n: nat)
    ensures n <= |times|
    decreases |times|
  {
    if times == [] then 0
    else
      var (r, l') := Allow(l, Some(identifier), Some(action), maxPerMinute, times[0]);
      (if r.Ok? then 1 else 0) + Allowed(l', identifier, action, maxPerMinute, times[1..])
  }

  // ---------------------------------------------------------------------------
  // Properties

  /** A null identifier or action is refused and changes nothing. */
  lemma NullIsRefused(l: Limiter, action: Option<string>, maxPerMinute: int, now: int)
    ensures Allow(l, None, action, maxPerMinute, now) == (Err("identifier/action required"), l)
  {
  }

  /** The first request of a window is always allowed and starts the count at 1. */
  lemma OpeningRequestIsAllowed(l: Limiter, identifier: string, action: string, maxPerMinute: int, now: int)
    requires OpensWindow(l, Key(identifier, action), now)
    ensures var (r, l') := Allow(l, Some(identifier), Some(action), maxPerMinute, now);
      r == Ok(true) && l'.counters[Key(identifier, action)] == 1 && l'.windows[Key(identifier, action)] == now
  {
  }

  /** Inside a window a refused request still raises the count. */
  lemma RefusalStillCounts(l: Limiter, identifier: string, action: string, maxPerMinute: int, now: int)
    requires !OpensWindow(l, Key(identifier, action), now)
    ensures var (r, l') := Allow(l, Some(identifier), Some(action), maxPerMinute, now);
      l'.counters[Key(identifier, action)] == CountOf(l, Key(identifier, action)) + 1
      && (r.Ok? <==> CountOf(l, Key(identifier, action)) + 1 <= EffectiveMax(maxPerMinute))
  {
  }

  /**
   * Inside an open window that started at `start`, later requests allowed
   * number at most the room left under the maximum.
   */
  lemma {:induction false} AllowedInsideWindow(l: Limiter, identifier: string, action: string, maxPerMinute: int,
                                               times: seq<int>, start: int)
    requires Key(identifier, action) in l.windows && l.windows[Key(identifier, action)] == start
    requires forall i :: 0 <= i < |times| ==> times[i] <= start + WindowSeconds
    ensures Allowed(l, identifier, action, maxPerMinute, times)
            <= if CountOf(l, Key(identifier, action)) >= EffectiveMax(maxPerMinute) then 0
               else EffectiveMax(maxPerMinute) - CountOf(l, Key(identifier, action))
    decreases |times|
  {
    if times != [] {
      var key := Key(identifier, action);
      var (r, l') := Allow(l, Some(identifier), Some(action), maxPerMinute, times[0]);
      assert !OpensWindow(l, key, times[0]);
      assert CountOf(l', key) == CountOf(l, key) + 1;
      AllowedInsideWindow(l', identifier, action, maxPerMinute, times[1..], start);
    }
  }

  /** At most the maximum number of requests succeed in a window, counting the one that opens it. */
  lemma {:induction false} AtMostMaxPerWindow(l: Limiter, identifier: string, action: string, maxPerMinute: int,
                                              first: int, rest: seq<int>)
    requires OpensWindow(l, Key(identifier, action), first)
    requires forall i :: 0 <= i < |rest| ==> rest[i] <= first + WindowSeconds
    ensures Allowed(l, identifier, action, maxPerMinute, [first] + rest) <= EffectiveMax(maxPerMinute)
  {
    var (r, l') := Allow(l, Some(identifier), Some(action), maxPerMinute, first);
    assert ([first] + rest)[1..] == rest;
    AllowedInsideWindow(l', identifier, action, maxPerMinute, rest, first);
  }

  /** The static maps, as an object. */
  class RateLimiter {
    var counters: map<string, int>
    var windows: map<string, int>

    constructor()
      ensures counters == map[] && windows == map[]
    {
      counters := map[];
      windows := map[];
    }

    method AllowRequest(identifier: Option<string>, action: Option<string>, maxPerMinute: int, now: int)
      returns (r: Result<bool, string>)
      modifies this
      ensures (r, Limiter(counters, windows)) == Allow(Limiter(old(counters), old(windows)), identifier, action, maxPerMinute, now)
    {
      if identifier.None? || action.None? {
        return Err("identifier/action required");
      }
      var key := identifier.value + ":" + action.value;
      if key !in windows || now > windows[key] + WindowSeconds {
        windows := windows[key := now];
        counters := counters[key := 1];
        return Ok(true);
      }
      if key !in counters {
        counters := counters[key := 0];
      }
      var c := counters[key] + 1;
      counters := counters[key := c];
      assert counters == old(counters)[key := c];
      if c > (if maxPerMinute <= 0 then DefaultMax else maxPerMinute) {
        return Err("Rate limit exceeded");
      }
      return Ok(true);
    }
  }
}
