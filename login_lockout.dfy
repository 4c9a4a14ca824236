// Account lockout over the users table (security/LoginLockout.java). The
// table is a map from username to the row's user id, failed-attempt counter
// and lock end; `now` stands for the database's NOW() and the application's
// clock, and the outcome of opening a database connection and an SQL
// exception once it is open are parameters. Each method's statements leave
// the table as it was when one of them throws, so the exception's message is
// all that matters of it. The audit entries are not modelled.
module LoginLockout {
  import opened Wrappers
  import opened JavaStrings
  import opened ResultModel

  const MaxLoginAttempts: int := 3
  const LockoutSeconds: int := 30 * 60

  datatype UserRow = UserRow(userId: int, failedAttempts: int, lockoutUntil: Option<int>)

  type Users = map<string, UserRow>

  /** `LockoutStatus`: the user id (null for an unknown user), the verdict and the lock's end. */
  datatype LockoutStatus = LockoutStatus(userId: Option<int>, isLocked: bool, lockoutUntil: Option<int>)

  predicate IsBlankName(username: Option<string>)
  {
    username.None? || TrimsToEmpty(username.value)
  }

  /** `lockout_until > NOW()`; a NULL lock end never compares greater. */
  predicate LockedAt(row: UserRow, now: int)
  {
    row.lockoutUntil.Some? && row.lockoutUntil.value > now
  }

  function ConnectionFailed(connection: Result<(), string>): string
    requires connection.Err?
  {
    "Database connection failed: " + connection.error
  }

  function RecordFailed(message: string): string { "Failed to record login attempt: " + message }

  function CheckFailed(message: string): string { "Failed to check lockout status: " + message }

  function ResetFailed(message: string): string { "Failed to reset attempts: " + message }

  function RemainingFailed(message: string): string { "Failed to get remaining attempts: " + message }

  /**
   * `recordFailedAttempt`: the counter goes up by one and is stored; from the
   * third failure on, the lock end is also set to 30 minutes from now,
   * whatever lock the row already had.
   */
  function RecordFailure(users: Users, username: Option<string>, connection: Result<(), string>,
                         sqlError: Option<string>, now: int)
    : (Result<int, string>, Users)
  {
    if IsBlankName(username) then (Err("Username cannot be empty"), users)
    else if connection.Err? then (Err(ConnectionFailed(connection)), users)
    else if sqlError.Some? then (Err(RecordFailed(sqlError.value)), users)
    else if username.value !in users then (Err("User not found"), users)
    else
      var row := users[username.value];
      var attempts := row.failedAttempts + 1;
      if attempts >= MaxLoginAttempts then
        (Ok(attempts), users[username.value := UserRow(row.userId, attempts, Some(now + LockoutSeconds))])
      else
        (Ok(attempts), users[username.value := row.(failedAttempts := attempts)])
  }

  /** `isAccountLocked`: locked iff the row's lock end lies after now; an unknown user is unlocked with a null id. */
  function IsAccountLocked(users: Users, username: Option<string>, connection: Result<(), string>,
                           sqlError: Option<string>, now: int)
    : (r: Result<LockoutStatus, string>)
    ensures r.Err? <==> IsBlankName(username) || connection.Err? || sqlError.Some?
    ensures r.Ok? ==> (r.value.isLocked <==> username.value in users && LockedAt(users[username.value], now))
    ensures r.Ok? ==> (r.value.userId.Some? <==> username.value in users)
  {
    if IsBlankName(username) then Err("Username cannot be empty")
    else if connection.Err? then Err(ConnectionFailed(connection))
    else if sqlError.Some? then Err(CheckFailed(sqlError.value))
    else if username.value in users && LockedAt(users[username.value], now) then
      var row := users[username.value];
      Ok(LockoutStatus(Some(row.userId), true, row.lockoutUntil))
    else if username.value in users then Ok(LockoutStatus(Some(users[username.value].userId), false, None))
    else Ok(LockoutStatus(None, false, None))
  }

  /** `resetFailedAttempts`: every row with that user id gets a zero counter and no lock; none is fine too. */
  function ResetFailures(users: Users, userId: Option<int>, connection: Result<(), string>, sqlError: Option<string>)
    : (Result<(), string>, Users)
  {
    if userId.None? then (Err("User ID cannot be null"), users)
    else if connection.Err? then (Err(ConnectionFailed(connection)), users)
    else if sqlError.Some? then (Err(ResetFailed(sqlError.value)), users)
    else
      (Ok(()), map u | u in users :: if users[u].userId == userId.value then UserRow(userId.value, 0, None) else users[u])
  }

  /** `getRemainingAttempts`: max(0, 3 - failed_attempts). */
  function RemainingAttempts(users: Users, username: Option<string>, connection: Result<(), string>,
                             sqlError: Option<string>)
    : (r: Result<int, string>)
    ensures r.Ok? <==> !IsBlankName(username) && connection.Ok? && sqlError.None? && username.value in users
    ensures r.Ok? ==> r.value >= 0 && (r.value == 0 <==> users[username.value].failedAttempts >= MaxLoginAttempts)
    ensures r.Ok? && r.value > 0 ==> r.value + users[username.value].failedAttempts == MaxLoginAttempts
  {
    if IsBlankName(username) then Err("Username cannot be empty")
    else if connection.Err? then Err(ConnectionFailed(connection))
    else if sqlError.Some? then Err(RemainingFailed(sqlError.value))
    else if username.value !in users then Err("User not found")
    else
      var attempts := users[username.value].failedAttempts;
      Ok(if MaxLoginAttempts - attempts > 0 then MaxLoginAttempts - attempts else 0)
  }

  // ---------------------------------------------------------------------------
  // Properties

  /** A blank username is refused by every username-based operation, before the database is consulted. */
  lemma BlankUsernameIsRefused(users: Users, username: Option<string>, connection: Result<(), string>,
                               sqlError: Option<string>, now: int)
    requires IsBlankName(username)
    ensures RecordFailure(users, username, connection, sqlError, now) == (Err("Username cannot be empty"), users)
    ensures IsAccountLocked(users, username, connection, sqlError, now) == Err("Username cannot be empty")
    ensures RemainingAttempts(users, username, connection, sqlError) == Err("Username cannot be empty")
  {
  }

  /**
   * Once the arguments pass and the connection opens, an SQL exception
   * answers with that method's message and leaves the table as it was.
   */
  lemma SqlErrorChangesNothing(users: Users, username: string, userId: int, message: string, now: int)
    requires !TrimsToEmpty(username)
    ensures RecordFailure(users, Some(username), Ok(()), Some(message), now) == (Err(RecordFailed(message)), users)
    ensures IsAccountLocked(users, Some(username), Ok(()), Some(message), now) == Err(CheckFailed(message))
    ensures ResetFailures(users, Some(userId), Ok(()), Some(message)) == (Err(ResetFailed(message)), users)
    ensures RemainingAttempts(users, Some(username), Ok(()), Some(message)) == Err(RemainingFailed(message))
  {
  }

  /** A failure for an unknown user is an error and changes nothing. */
  lemma UnknownUserChangesNothing(users: Users, username: string, now: int)
    requires !TrimsToEmpty(username) && username !in users
    ensures RecordFailure(users, Some(username), Ok(()), None, now) == (Err("User not found"), users)
  {
  }

  /**
   * A failure stores the counter plus one; once that reaches 3 the lock ends
   * 30 minutes from now, even if the row was already locked, so every further
   * failure pushes the lock forward. Only that row changes.
   */
  lemma FailureCountsAndLocks(users: Users, username: string, now: int)
    requires !TrimsToEmpty(username) && username in users
    ensures var row := users[username];
      var (r, after) := RecordFailure(users, Some(username), Ok(()), None, now);
      r == Ok(row.failedAttempts + 1)
      && after.Keys == users.Keys
      && after[username].userId == row.userId
      && after[username].failedAttempts == row.failedAttempts + 1
      && (row.failedAttempts + 1 >= MaxLoginAttempts ==> after[username].lockoutUntil == Some(now + LockoutSeconds))
      && (row.failedAttempts + 1 < MaxLoginAttempts ==> after[username].lockoutUntil == row.lockoutUntil)
      && (forall u :: u in users && u != username ==> after[u] == users[u])
  {
  }

  /** Three failures in a row on a clean row lock the account for 30 minutes after the third. */
  lemma {:induction false} ThirdFailureLocks(users: Users, username: string, t1: int, t2: int, t3: int, later: int)
    requires !TrimsToEmpty(username) && username in users
    requires users[username].failedAttempts == 0
    requires later < t3 + LockoutSeconds
    ensures var u1 := RecordFailure(users, Some(username), Ok(()), None, t1).1;
      var u2 := RecordFailure(u1, Some(username), Ok(()), None, t2).1;
      var u3 := RecordFailure(u2, Some(username), Ok(()), None, t3).1;
      IsAccountLocked(u3, Some(username), Ok(()), None, later).value.isLocked
      && RemainingAttempts(u3, Some(username), Ok(()), None) == Ok(0)
  {
    var u1 := RecordFailure(users, Some(username), Ok(()), None, t1).1;
    assert u1[username].failedAttempts == 1;
    var u2 := RecordFailure(u1, Some(username), Ok(()), None, t2).1;
    assert u2[username].failedAttempts == 2;
    var u3 := RecordFailure(u2, Some(username), Ok(()), None, t3).1;
    assert u3[username].lockoutUntil == Some(t3 + LockoutSeconds);
  }

  /** A reset clears the counter and the lock: the account is unlocked and has all three attempts again. */
  lemma ResetUnlocks(users: Users, username: string, now: int)
    requires !TrimsToEmpty(username) && username in users
    ensures var after := ResetFailures(users, Some(users[username].userId), Ok(()), None).1;
      IsAccountLocked(after, Some(username), Ok(()), None, now) == Ok(LockoutStatus(Some(users[username].userId), false, None))
      && RemainingAttempts(after, Some(username), Ok(()), None) == Ok(MaxLoginAttempts)
  {
  }

  /**
   * Each counted failure uses up one remaining attempt, down to zero; a
   * failure that leaves none sets the lock, and one that leaves some keeps
   * the row's lock end as it was.
   */
  lemma FailureUsesAnAttempt(users: Users, username: string, now: int)
    requires !TrimsToEmpty(username) && username in users && users[username].failedAttempts >= 0
    ensures var before := RemainingAttempts(users, Some(username), Ok(()), None).value;
      var after := RecordFailure(users, Some(username), Ok(()), None, now).1;
      RemainingAttempts(after, Some(username), Ok(()), None).value == (if before > 0 then before - 1 else 0)
      && (RemainingAttempts(after, Some(username), Ok(()), None).value == 0 ==> LockedAt(after[username], now))
      && (RemainingAttempts(after, Some(username), Ok(()), None).value > 0 ==> after[username].lockoutUntil == users[username].lockoutUntil)
  {
  }

  /** The users table, as an object. */
  class LoginLockout {
    var users: Users

    constructor(initial: Users)
      ensures users == initial
    {
      users := initial;
    }

    method RecordFailedAttempt(username: Option<string>, connection: Result<(), string>, sqlError: Option<string>,
                               now: int)
      returns (r: Result<int, string>)
      modifies this
      ensures (r, users) == RecordFailure(old(users), username, connection, sqlError, now)
    {
      if username.None? || TrimsToEmpty(username.value) {
        return Err("Username cannot be empty");
      }
      if connection.Err? {
        return Err("Database connection failed: " + connection.error);
      }
      if sqlError.Some? {
        return Err(RecordFailed(sqlError.value));
      }
      if username.value !in users {
        return Err("User not found");
      }
      var row := users[username.value];
      var attempts := row.failedAttempts + 1;
      if attempts >= MaxLoginAttempts {
        var lockoutUntil := now + LockoutSeconds;
        users := users[username.value := UserRow(row.userId, attempts, Some(lockoutUntil))];
      } else {
        users := users[username.value := row.(failedAttempts := attempts)];
      }
      return Ok(attempts);
    }

    method IsAccountLockedNow(username: Option<string>, connection: Result<(), string>, sqlError: Option<string>,
                              now: int)
      returns (r: Result<LockoutStatus, string>)
      ensures r == IsAccountLocked(users, username, connection, sqlError, now)
    {
      if username.None? || TrimsToEmpty(username.value) {
        return Err("Username cannot be empty");
      }
      if connection.Err? {
        return Err("Database connection failed: " + connection.error);
      }
      if sqlError.Some? {
        return Err(CheckFailed(sqlError.value));
      }
      if username.value in users {
        var row := users[username.value];
        if row.lockoutUntil.Some? && row.lockoutUntil.value > now {
          return Ok(LockoutStatus(Some(row.userId), true, row.lockoutUntil));
        }
        return Ok(LockoutStatus(Some(row.userId), false, None));
      }
      return Ok(LockoutStatus(None, false, None));
    }

    method ResetFailedAttempts(userId: Option<int>, connection: Result<(), string>, sqlError: Option<string>)
      returns (r: Result<(), string>)
      modifies this
      ensures (r, users) == ResetFailures(old(users), userId, connection, sqlError)
    {
      if userId.None? {
        return Err("User ID cannot be null");
      }
      if connection.Err? {
        return Err("Database connection failed: " + connection.error);
      }
      if sqlError.Some? {
        return Err(ResetFailed(sqlError.value));
      }
      var id := userId.value;
      users := map u | u in users :: if users[u].userId == id then UserRow(id, 0, None) else users[u];
      return Ok(());
    }

    method GetRemainingAttempts(username: Option<string>, connection: Result<(), string>, sqlError: Option<string>)
      returns (r: Result<int, string>)
      ensures r == RemainingAttempts(users, username, connection, sqlError)
    {
      if username.None? || TrimsToEmpty(username.value) {
        return Err("Username cannot be empty");
      }
      if connection.Err? {
        return Err("Database connection failed: " + connection.error);
      }
      if sqlError.Some? {
        return Err(RemainingFailed(sqlError.value));
      }
      if username.value !in users {
        return Err("User not found");
      }
      var attempts := users[username.value].failedAttempts;
      var remaining := if 0 > MaxLoginAttempts - attempts then 0 else MaxLoginAttempts - attempts;
      return Ok(remaining);
    }
  }
}
