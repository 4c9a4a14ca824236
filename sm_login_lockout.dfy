// SecurityManager.LoginLockout (security/SecurityManager.java): failed login
// attempts counted per username in memory; the third failure locks the
// account for 30 minutes. The audit entries it writes are not modelled.
module SmLoginLockout {
  import opened Wrappers
  import opened JavaStrings
  import opened ResultModel

  const MaxLoginAttempts: int := 3
  const LockoutSeconds: int := 30 * 60

  /** The per-username record: the attempt counter and the lock's end, if any. */
  datatype Info = Info(attempts: int, lockoutUntil: Option<int>)

  type Store = map<string, Info>

  const Fresh := Info(0, None)

  /** `Instant.now().isBefore(lockoutUntil)`. */
  predicate LockedAt(info: Info, now: int)
  {
    info.lockoutUntil.Some? && now < info.lockoutUntil.value
  }

  predicate IsBlankName(username: Option<string>)
  {
    username.None? || TrimsToEmpty(username.value)
  }

  function InfoOf(store: Store, username: string): Info
  {
    if username in store then store[username] else Fresh
  }

  /**
   * `recordFailedAttempt` as a transition: while locked it answers 0 and
   * changes nothing; otherwise the counter goes up and, from the third
   * failure on, the lock is set to end 30 minutes from now.
   */
  function RecordFailure(store: Store, username: Option<string>, now: int): (Result<int, string>, Store)
  {
    if IsBlankName(username) then (Err("Username required"), store)
    else
      var info := InfoOf(store, username.value);
      if LockedAt(info, now) then (Ok(0), store[username.value := info])
      else
        var attempts := info.attempts + 1;
        var until := if attempts >= MaxLoginAttempts then Some(now + LockoutSeconds) else info.lockoutUntil;
        (Ok(attempts), store[username.value := Info(attempts, until)])
  }

  /** `isAccountLocked`: a record exists and its lock has not ended. */
  function IsAccountLocked(store: Store, username: Option<string>, now: int): (r: Result<bool, string>)
    ensures r.Err? <==> IsBlankName(username)
    ensures r.Ok? ==> (r.value <==> username.value in store && LockedAt(store[username.value], now))
  {
    if IsBlankName(username) then Err("Username required")
    else Ok(username.value in store && LockedAt(store[username.value], now))
  }

  /** `resetFailedAttempts`: only null is refused (a blank name is accepted); the record is dropped. */
  function ResetFailures(store: Store, username: Option<string>): (Result<(), string>, Store)
  {
    if username.None? then (Err("Username required"), store)
    else (Ok(()), store - {username.value})
  }

  // ---------------------------------------------------------------------------
  // Properties

  /** A blank username is refused and leaves every record as it was. */
  lemma BlankNameChangesNothing(store: Store, username: Option<string>, now: int)
    requires IsBlankName(username)
    ensures RecordFailure(store, username, now) == (Err("Username required"), store)
  {
  }

  /** While locked, a failure answers 0 and does not count. */
  lemma LockedFailureIsIgnored(store: Store, u: string, now: int)
    requires !TrimsToEmpty(u) && u in store && LockedAt(store[u], now)
    ensures RecordFailure(store, Some(u), now) == (Ok(0), store)
  {
    assert store[u := store[u]] == store;
  }

  /** An unlocked failure adds exactly one to the counter and touches no other user. */
  lemma UnlockedFailureCounts(store: Store, u: string, now: int)
    requires !TrimsToEmpty(u) && !LockedAt(InfoOf(store, u), now)
    ensures var (r, s) := RecordFailure(store, Some(u), now);
      r == Ok(InfoOf(store, u).attempts + 1)
      && s[u].attempts == InfoOf(store, u).attempts + 1
      && (s[u].attempts >= MaxLoginAttempts ==> LockedAt(s[u], now) && s[u].lockoutUntil == Some(now + LockoutSeconds))
      && (forall v :: v != u ==> (v in s <==> v in store) && (v in s ==> s[v] == store[v]))
  {
  }

  /** Three failures in a row for an unknown user lock the account for 30 minutes from the third. */
  lemma {:induction false} ThirdFailureLocks(store: Store, u: string, t1: int, t2: int, t3: int)
    requires !TrimsToEmpty(u) && u !in store
    ensures var (r1, s1) := RecordFailure(store, Some(u), t1);
      var (r2, s2) := RecordFailure(s1, Some(u), t2);
      var (r3, s3) := RecordFailure(s2, Some(u), t3);
      r1 == Ok(1) && r2 == Ok(2) && r3 == Ok(3)
      && !LockedAt(s2[u], t3)
      && IsAccountLocked(s3, Some(u), t3) == Ok(true)
      && s3[u].lockoutUntil == Some(t3 + LockoutSeconds)
  {
    var (r1, s1) := RecordFailure(store, Some(u), t1);
    assert s1[u] == Info(1, None);
    var (r2, s2) := RecordFailure(s1, Some(u), t2);
    assert s2[u] == Info(2, None);
  }

  /**
   * Only a reset clears the counter: once the lock has expired, a single
   * further failure locks the account again.
   */
  lemma ExpiredLockRelocksOnNextFailure(store: Store, u: string, now: int)
    requires !TrimsToEmpty(u) && u in store && store[u].attempts >= MaxLoginAttempts - 1
    requires !LockedAt(store[u], now)
    ensures var (r, s) := RecordFailure(store, Some(u), now);
      r == Ok(store[u].attempts + 1) && IsAccountLocked(s, Some(u), now) == Ok(true)
  {
  }

  /** A failure never lowers anyone's counter. */
  lemma FailureNeverLowersCounts(store: Store, username: Option<string>, now: int)
    ensures var s := RecordFailure(store, username, now).1;
      forall v :: v in store ==> v in s && s[v].attempts >= store[v].attempts
  {
    if !IsBlankName(username) {
      var u := username.value;
      var s := RecordFailure(store, username, now).1;
      assert u in s && s[u].attempts >= InfoOf(store, u).attempts;
      assert forall v :: v in store && v != u ==> v in s && s[v] == store[v];
    }
  }

  /** After a reset the account is unlocked and counting starts again from one. */
  lemma ResetUnlocks(store: Store, u: string, now: int)
    requires !TrimsToEmpty(u)
    ensures var s := ResetFailures(store, Some(u)).1;
      IsAccountLocked(s, Some(u), now) == Ok(false) && RecordFailure(s, Some(u), now).0 == Ok(1)
  {
  }

  /** The static store, as an object. */
  class LoginLockout {
    var store: Store

    constructor()
      ensures store == map[]
    {
      store := map[];
    }

    method RecordFailedAttempt(username: Option<string>, now: int) returns (r: Result<int, string>)
      modifies this
      ensures (r, store) == RecordFailure(old(store), username, now)
    {
      if username.None? || TrimsToEmpty(username.value) {
        return Err("Username required");
      }
      var u := username.value;
      var info := if u in store then store[u] else Fresh;
      store := store[u := info];
      if info.lockoutUntil.Some? && now < info.lockoutUntil.value {
        return Ok(0);
      }
      var attempts := info.attempts + 1;
      info := info.(attempts := attempts);
      if attempts >= MaxLoginAttempts {
        info := info.(lockoutUntil := Some(now + LockoutSeconds));
      }
      store := store[u := info];
      assert store == old(store)[u := info];
      return Ok(attempts);
    }

    method IsAccountLockedNow(username: Option<string>, now: int) returns (r: Result<bool, string>)
      ensures r == IsAccountLocked(store, username, now)
    {
      if username.None? || TrimsToEmpty(username.value) {
        return Err("Username required");
      }
      var locked := username.value in store && LockedAt(store[username.value], now);
      return Ok(locked);
    }

    method ResetFailedAttempts(username: Option<string>) returns (r: Result<(), string>)
      modifies this
      ensures (r, store) == ResetFailures(old(store), username)
    {
      if username.None? {
        return Err("Username required");
      }
      store := store - {username.value};
      return Ok(());
    }
  }
}
