// The standalone rate limiter (security/RateLimiter.java): one record per
// "identifier:action" key holding a request count and the start of its
// 60-second window; 5 requests per window for LOGIN, 2 for anything else.
// Bans are marker records under "identifier:BANNED". The thread that lifts a
// ban after a delay, and the audit entries, are not modelled.
module RateLimiter {
  import opened Wrappers
  import opened JavaStrings
  import opened ResultModel

  const MaxRequestsPerMinute: int := 2
  const LoginMaxRequests: int := 5
  const WindowSeconds: int := 60
  const StaleSeconds: int := 120
  const BannedSuffix: string := ":BANNED"

  /** `RateLimitInfo`, held by value: an update in place is a new map entry. */
  datatype Info = Info(requestCount: int, windowStart: int)

  type Entries = map<string, Info>

  function Key(identifier: string, action: string): string
  {
    identifier + ":" + action
  }

  /** The per-window limit: 5 when the action is LOGIN in any case, else 2. */
  function Limit(action: string): (n: int)
    ensures n == LoginMaxRequests || n == MaxRequestsPerMinute
    ensures n == LoginMaxRequests <==> EqualsIgnoreCase(action, "LOGIN")
  {
    if EqualsIgnoreCase(action, "LOGIN") then LoginMaxRequests else MaxRequestsPerMinute
  }

  function LimitMessage(limit: int): string
  {
    "Rate limit exceeded. Max " + IntToString(limit) + " requests/minute."
  }

  /**
   * `allowRequest` as a transition. A new key opens a window with count 1.
   * Inside the window a request at the limit is refused and not counted;
   * otherwise the count goes up. Once 60 s have passed the window restarts.
   */
  function Allow(entries: Entries, identifier: Option<string>, action: Option<string>, now: int)
    : (Result<bool, string>, Entries)
  {
    if identifier.None? || action.None? then (Err("Identifier and action are required"), entries)
    else
      var key := Key(identifier.value, action.value);
      var limit := Limit(action.value);
      if key !in entries then (Ok(true), entries[key := Info(1, now)])
      else
        var info := entries[key];
        if now - info.windowStart < WindowSeconds then
          if info.requestCount >= limit then (Err(LimitMessage(limit)), entries)
          else (Ok(true), entries[key := info.(requestCount := info.requestCount + 1)])
        else (Ok(true), entries[key := Info(1, now)])
  }

  /** `clearRateLimit`: every key of the identifier goes, its ban marker included. */
  function Clear(entries: Entries, identifier: Option<string>): (Result<(), string>, Entries)
  {
    if identifier.None? then (Err("Identifier cannot be null"), entries)
    else (Ok(()), map k | k in entries && !StartsWith(k, identifier.value + ":") :: entries[k])
  }

  /** `temporaryBan`, without the thread that later lifts it: the marker record is inserted. */
  function Ban(entries: Entries, identifier: Option<string>, now: int): (Result<(), string>, Entries)
  {
    if identifier.None? then (Err("Identifier cannot be null"), entries)
    else (Ok(()), entries[identifier.value + BannedSuffix := Info(IntMax, now)])
  }

  /** `isBanned`: the marker record is present. */
  function IsBanned(entries: Entries, identifier: Option<string>): (r: Result<bool, string>)
    ensures r.Err? <==> identifier.None?
    ensures r.Ok? ==> (r.value <==> Key(identifier.value, "BANNED") in entries)
  {
    if identifier.None? then Err("Identifier cannot be null")
    else
      assert identifier.value + BannedSuffix == Key(identifier.value, "BANNED");
      Ok(identifier.value + BannedSuffix in entries)
  }

  /** A record is stale when its window started more than two minutes ago. */
  predicate Stale(info: Info, now: int)
  {
    info.windowStart < now - StaleSeconds
  }

  function StaleKeys(entries: Entries, now: int): set<string>
  {
    set k | k in entries && Stale(entries[k], now)
  }

  /** Replays requests for one key at the given times; the number allowed. */
  function Allowed(entries: Entries, identifier: string, action: string, times: seq<int>): (n: nat)
    ensures n <= |times|
    decreases |times|
  {
    if times == [] then 0
    else
      var (r, e) := Allow(entries, Some(identifier), Some(action), times[0]);
      (if r.Ok? then 1 else 0) + Allowed(e, identifier, action, times[1..])
  }

  // ---------------------------------------------------------------------------
  // Properties

  /** The first request for a key is allowed and opens a window with count 1. */
  lemma FirstRequestOpensWindow(entries: Entries, identifier: string, action: string, now: int)
    requires Key(identifier, action) !in entries
    ensures var (r, e) := Allow(entries, Some(identifier), Some(action), now);
      r == Ok(true) && e == entries[Key(identifier, action) := Info(1, now)]
  {
  }

  /** Inside the window, a request at the limit is refused and changes nothing; below it, it is counted. */
  lemma InsideWindow(entries: Entries, identifier: string, action: string, now: int)
    requires Key(identifier, action) in entries
    requires now - entries[Key(identifier, action)].windowStart < WindowSeconds
    ensures var info := entries[Key(identifier, action)];
      var (r, e) := Allow(entries, Some(identifier), Some(action), now);
      (info.requestCount >= Limit(action) ==> r == Err(LimitMessage(Limit(action))) && e == entries)
      && (info.requestCount < Limit(action) ==>
            r == Ok(true) && e == entries[Key(identifier, action) := Info(info.requestCount + 1, info.windowStart)])
  {
  }

  /** After 60 s the window restarts at now with count 1, and the request is allowed. */
  lemma WindowRestarts(entries: Entries, identifier: string, action: string, now: int)
    requires Key(identifier, action) in entries
    requires now - entries[Key(identifier, action)].windowStart >= WindowSeconds
    ensures var (r, e) := Allow(entries, Some(identifier), Some(action), now);
      r == Ok(true) && e == entries[Key(identifier, action) := Info(1, now)]
  {
  }

  /** Within one window, the requests allowed number at most the room left under the limit. */
  lemma {:induction false} AllowedInsideWindow(entries: Entries, identifier: string, action: string, times: seq<int>)
    requires Key(identifier, action) in entries
    requires forall i :: 0 <= i < |times| ==> times[i] - entries[Key(identifier, action)].windowStart < WindowSeconds
    ensures var c := entries[Key(identifier, action)].requestCount;
      Allowed(entries, identifier, action, times) <= if c >= Limit(action) then 0 else Limit(action) - c
    decreases |times|
  {
    if times != [] {
      var key := Key(identifier, action);
      var (r, e) := Allow(entries, Some(identifier), Some(action), times[0]);
      assert e[key].windowStart == entries[key].windowStart;
      AllowedInsideWindow(e, identifier, action, times[1..]);
    }
  }

  /** So a window opened by a first request lets at most the limit through, that request included. */
  lemma {:induction false} AtMostLimitPerWindow(entries: Entries, identifier: string, action: string, first: int, rest: seq<int>)
    requires Key(identifier, action) !in entries
    requires forall i :: 0 <= i < |rest| ==> rest[i] - first < WindowSeconds
    ensures Allowed(entries, identifier, action, [first] + rest) <= Limit(action)
  {
    var (r, e) := Allow(entries, Some(identifier), Some(action), first);
    assert ([first] + rest)[1..] == rest;
    AllowedInsideWindow(e, identifier, action, rest);
  }

  /** Clearing removes exactly the identifier's keys, so it also lifts a ban. */
  lemma ClearRemovesOnlyTheIdentifier(entries: Entries, identifier: string, k: string)
    ensures var e := Clear(entries, Some(identifier)).1;
      (k in e <==> k in entries && !StartsWith(k, identifier + ":"))
      && (k in e ==> e[k] == entries[k])
      && IsBanned(e, Some(identifier)) == Ok(false)
  {
    var b := Key(identifier, "BANNED");
    assert b[..|identifier + ":"|] == identifier + ":";
  }

  /** A ban is seen by `isBanned`. */
  lemma BanIsSeen(entries: Entries, identifier: string, now: int)
    ensures IsBanned(Ban(entries, Some(identifier), now).1, Some(identifier)) == Ok(true)
  {
  }

  /** `allowRequest` never consults the ban marker: a banned identifier's other actions behave as before. */
  lemma BanDoesNotBlockRequests(entries: Entries, identifier: string, action: string, t: int, now: int)
    requires action != "BANNED"
    ensures Allow(Ban(entries, Some(identifier), t).1, Some(identifier), Some(action), now).0
            == Allow(entries, Some(identifier), Some(action), now).0
  {
    var b := identifier + BannedSuffix;
    assert Key(identifier, action)[|identifier| + 1..] == action;
    assert b[|identifier| + 1..] == "BANNED";
  }

  /** The static map, as an object. */
  class RateLimiter {
    var entries: Entries

    constructor()
      ensures entries == map[]
    {
      entries := map[];
    }

    method AllowRequest(identifier: Option<string>, action: Option<string>, now: int) returns (r: Result<bool, string>)
      modifies this
      ensures (r, entries) == Allow(old(entries), identifier, action, now)
    {
      if identifier.None? || action.None? {
        return Err("Identifier and action are required");
      }
      var key := identifier.value + ":" + action.value;
      var maxRequests := if EqualsIgnoreCase(action.value, "LOGIN") then LoginMaxRequests else MaxRequestsPerMinute;
      if key !in entries {
        entries := entries[key := Info(1, now)];
        return Ok(true);
      }
      var info := entries[key];
      var secondsElapsed := now - info.windowStart;
      if secondsElapsed < WindowSeconds {
        if info.requestCount >= maxRequests {
          return Err(LimitMessage(maxRequests));
        }
        info := info.(requestCount := info.requestCount + 1);
      } else {
        info := Info(1, now);
      }
      entries := entries[key := info];
      return Ok(true);
    }

    method ClearRateLimit(identifier: Option<string>) returns (r: Result<(), string>)
      modifies this
      ensures (r, entries) == Clear(old(entries), identifier)
    {
      if identifier.None? {
        return Err("Identifier cannot be null");
      }
      var prefix := identifier.value + ":";
      entries := map k | k in entries && !StartsWith(k, prefix) :: entries[k];
      return Ok(());
    }

    method TemporaryBan(identifier: Option<string>, now: int) returns (r: Result<(), string>)
      modifies this
      ensures (r, entries) == Ban(old(entries), identifier, now)
    {
      if identifier.None? {
        return Err("Identifier cannot be null");
      }
      entries := entries[identifier.value + BannedSuffix := Info(IntMax, now)];
      return Ok(());
    }

    method IsBannedNow(identifier: Option<string>) returns (r: Result<bool, string>)
      ensures r == IsBanned(entries, identifier)
    {
      if identifier.None? {
        return Err("Identifier cannot be null");
      }
      return Ok(identifier.value + BannedSuffix in entries);
    }

    /**
     * `cleanupRateLimits`: walks the entries, removing each whose window
     * started before now - 120 s, and answers how many it removed.
     */
    method CleanupRateLimits(now: int) returns (r: Result<int, string>)
      modifies this
      ensures entries == map k | k in old(entries) && !Stale(old(entries)[k], now) :: old(entries)[k]
      ensures r == Ok(|StaleKeys(old(entries), now)|)
    {
      var cutoff := now - StaleSeconds;
      var removed := 0;
      var pending := entries.Keys;
      ghost var gone: set<string> := {};
      while pending != {}
        invariant pending <= old(entries).Keys
        invariant gone == set k | k in old(entries) && k !in pending && Stale(old(entries)[k], now)
        invariant entries == map k | k in old(entries) && (k in pending || !Stale(old(entries)[k], now)) :: old(entries)[k]
        invariant removed == |gone|
        decreases |pending|
      {
        var k :| k in pending;
        if entries[k].windowStart < cutoff {
          entries := entries - {k};
          gone := gone + {k};
          removed := removed + 1;
        }
        pending := pending - {k};
      }
      assert gone == StaleKeys(old(entries), now);
      return Ok(removed);
    }
  }
}
