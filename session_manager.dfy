// Server-side sessions (session/SessionManager.java): a map from token to
// session with a sliding expiry. The token (a random UUID) and the current
// time are parameters. A Session is held by value: the renewal that the source
// performs on the shared Session object is a map update here.
module SessionManager {
  import opened Wrappers
  import opened JavaStrings
  import opened SecurityLevels

  const DefaultTimeoutSeconds: int := 3600

  /**
   * The timeout read once from SESSION_TIMEOUT_SECONDS: 3600 when unset;
   * `Long.parseLong` throws on anything that is not a decimal long.
   */
  function TimeoutSeconds(setting: Option<string>): (r: Outcome<int>)
    ensures setting.None? ==> r == Returned(DefaultTimeoutSeconds)
    ensures setting.Some? ==> (r.Returned? <==> ParseLong(setting.value).Some?)
    ensures r.Returned? && setting.Some? ==> r.value == ParseLong(setting.value).value
  {
    var t := setting.GetOr("3600");
    DefaultParses();
    match ParseLong(t)
    case Some(n) => Returned(n)
    case None => Threw("NumberFormatException")
  }

  lemma DefaultParses()
    ensures ParseLong("3600") == Some(DefaultTimeoutSeconds)
  {
    assert DigitsValue("3600") == 3600 by {
      assert "3600"[..3] == "360" && "360"[..2] == "36" && "36"[..1] == "3" && "3"[..0] == "";
    }
  }

  datatype Session = Session(username: Option<string>, role: Option<string>, clearance: Option<Level>, expiry: int)

  type Sessions = map<string, Session>

  /** `createSession`: a new session under the given token, expiring `timeout` seconds from now. */
  function Create(sessions: Sessions, token: string, username: Option<string>, role: Option<string>,
                  clearance: Option<Level>, now: int, timeout: int): Sessions
  {
    sessions[token := Session(username, role, clearance, now + timeout)]
  }

  /**
   * `getSession`: no session for a null or unknown token; an expired session
   * is removed; a live one has its expiry moved to now + timeout.
   */
  function Get(sessions: Sessions, token: Option<string>, now: int, timeout: int): (Option<Session>, Sessions)
  {
    if token.None? || token.value !in sessions then (None, sessions)
    else
      var s := sessions[token.value];
      if now > s.expiry then (None, sessions - {token.value})
      else
        var renewed := s.(expiry := now + timeout);
        (Some(renewed), sessions[token.value := renewed])
  }

  /** `invalidate`: the token is removed; `ConcurrentHashMap.remove(null)` throws. */
  function Invalidate(sessions: Sessions, token: Option<string>): (Outcome<()>, Sessions)
  {
    if token.None? then (Threw("NullPointerException"), sessions)
    else (Returned(()), sessions - {token.value})
  }

  // ---------------------------------------------------------------------------
  // Properties

  /** A null or unknown token finds nothing and changes nothing. */
  lemma UnknownTokenFindsNothing(sessions: Sessions, token: Option<string>, now: int, timeout: int)
    requires token.None? || token.value !in sessions
    ensures Get(sessions, token, now, timeout) == (None, sessions)
  {
  }

  /** An expired session is removed and reported absent, and stays absent. */
  lemma ExpiredSessionIsRemoved(sessions: Sessions, token: string, now: int, later: int, timeout: int)
    requires token in sessions && now > sessions[token].expiry
    ensures var (r, s) := Get(sessions, Some(token), now, timeout);
      r.None? && token !in s && Get(s, Some(token), later, timeout).0.None?
  {
  }

  /** A live session is returned with its expiry moved to now + timeout; nothing else changes. */
  lemma LiveSessionSlides(sessions: Sessions, token: string, now: int, timeout: int)
    requires token in sessions && now <= sessions[token].expiry
    ensures var (r, s) := Get(sessions, Some(token), now, timeout);
      r == Some(sessions[token].(expiry := now + timeout))
      && s == sessions[token := r.value]
  {
  }

  /**
   * Sliding expiry: a session that was found at `t1` is found again at any
   * `t2` no later than `t1 + timeout`, whatever its original expiry.
   */
  lemma {:induction false} AccessKeepsSessionAlive(sessions: Sessions, token: string, t1: int, t2: int, timeout: int)
    requires Get(sessions, Some(token), t1, timeout).0.Some?
    requires t2 <= t1 + timeout
    ensures var s1 := Get(sessions, Some(token), t1, timeout).1;
      Get(s1, Some(token), t2, timeout).0.Some?
  {
    var s1 := Get(sessions, Some(token), t1, timeout).1;
    assert s1[token].expiry == t1 + timeout;
  }

  /** A session just created is found, with its details, until its expiry has passed. */
  lemma CreatedSessionIsFound(sessions: Sessions, token: string, username: Option<string>, role: Option<string>,
                              clearance: Option<Level>, now: int, later: int, timeout: int)
    requires later <= now + timeout
    ensures var r := Get(Create(sessions, token, username, role, clearance, now, timeout), Some(token), later, timeout).0;
      r == Some(Session(username, role, clearance, later + timeout))
  {
  }

  /** After `invalidate` the token finds nothing. */
  lemma InvalidatedTokenFindsNothing(sessions: Sessions, token: string, now: int, timeout: int)
    ensures var (o, s) := Invalidate(sessions, Some(token));
      o.Returned? && Get(s, Some(token), now, timeout).0.None?
  {
  }

  /** The static map and timeout, as an object. */
  class SessionManager {
    var sessions: Sessions
    const timeoutSeconds: int

    constructor(timeout: int)
      ensures sessions == map[] && timeoutSeconds == timeout
    {
      sessions := map[];
      timeoutSeconds := timeout;
    }

    /** `token` stands for the UUID the source draws. */
    method CreateSession(token: string, username: Option<string>, role: Option<string>, clearance: Option<Level>, now: int)
      returns (r: string)
      modifies this
      ensures r == token
      ensures sessions == Create(old(sessions), token, username, role, clearance, now, timeoutSeconds)
    {
      var expiry := now + timeoutSeconds;
      sessions := sessions[token := Session(username, role, clearance, expiry)];
      return token;
    }

    method GetSession(token: Option<string>, now: int) returns (r: Option<Session>)
      modifies this
      ensures (r, sessions) == Get(old(sessions), token, now, timeoutSeconds)
    {
      if token.None? {
        return None;
      }
      if token.value !in sessions {
        return None;
      }
      var s := sessions[token.value];
      if now > s.expiry {
        sessions := sessions - {token.value};
        return None;
      }
      s := s.(expiry := now + timeoutSeconds);
      sessions := sessions[token.value := s];
      return Some(s);
    }

    method InvalidateSession(token: Option<string>) returns (r: Outcome<()>)
      modifies this
      ensures (r, sessions) == Invalidate(old(sessions), token)
    {
      if token.None? {
        return Threw("NullPointerException");
      }
      sessions := sessions - {token.value};
      return Returned(());
    }
  }
}
