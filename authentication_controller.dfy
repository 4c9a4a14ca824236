// The login handler (controllers/AuthenticationController.java): an
// early-return ladder over the parsed body. The reCAPTCHA verdict, the
// outcome of opening a connection, an SQL exception from the user query,
// `PasswordUtil.hashPassword` and `SecurityLevel.fromInt` (which
// security/SecurityLevel.java does not declare) are given as their answers.
// The lockout table and the session store are the objects of LoginLockout
// and SessionManager; every lockout call sees the same connection outcome,
// and the lock check and the lockout write after it each have their own
// SQL outcome.
module AuthenticationController {
  import opened Wrappers
  import opened JavaStrings
  import opened ResultModel
  import opened JsonHelpers
  import opened SecurityLevels
  import LoginLockout
  import SessionManager
  import ManagementController

  const CredentialsRequired: Reply := Reply(400, "{\"message\":\"username and password required\"}")
  const AccountLocked: Reply := Reply(401, "{\"message\":\"account temporarily locked\"}")
  const InternalError: Reply := Reply(500, "{\"message\":\"internal error\"}")
  const InvalidCredentials: Reply := Reply(401, "{\"message\":\"invalid credentials\"}")

  /** The reCAPTCHA refusal carries the verifier's message as it is. */
  function RecaptchaRefused(error: string): Reply
  {
    Reply(400, "{\"message\":\"" + error + "\"}")
  }

  /** A suspended or revoked account is named in the refusal. */
  function AccountRefused(accountStatus: string): Reply
  {
    Reply(401, "{\"message\":\"account " + accountStatus + "\"}")
  }

  /** The row the user query reads; NULL columns are None, a NULL clearance reads as 0. */
  datatype Account = Account(userId: int, passwordHash: Option<string>, salt: Option<string>, role: Option<string>,
                             clearanceLevel: int, accountStatus: Option<string>)

  type Accounts = map<string, Account>

  /** The answers of the calls the handler makes outside the lockout table and the session store. */
  datatype Services = Services(recaptcha: Result<(), string>, lockoutConnection: Result<(), string>,
                               lockCheckError: Option<string>, lockWriteError: Option<string>,
                               connection: Result<(), string>, sqlError: bool,
                               hashPassword: (string, Option<string>) -> Result<string, string>,
                               fromInt: int -> Result<Level, string>)

  /** Where the ladder stops. */
  datatype Exit =
    | MissingCredentials
    | RecaptchaFailed(error: string)
    | Locked
    | ServerFault
    | UnknownUser
    | Refused(accountStatus: string)
    | HashFailed
    | WrongPassword
    | BadClearance
    | LoggedIn(account: Account, clearance: Level)

  /** A lock lookup blocks only when it answered and found the account locked. */
  predicate LockBlocks(r: Result<LoginLockout.LockoutStatus, string>)
  {
    r.Ok? && r.value.isLocked
  }

  /** `computed.equalsIgnoreCase(hash)`: false for a NULL stored hash. */
  predicate HashMatches(computed: string, stored: Option<string>)
  {
    stored.Some? && EqualsIgnoreCase(computed, stored.value)
  }

  /** The steps after the lock check: the user query, the account status, the password and the clearance. */
  function AfterLockCheck(username: string, password: string, accounts: Accounts, s: Services): Exit
  {
    if s.connection.Err? || s.sqlError then ServerFault
    else if username !in accounts then UnknownUser
    else
      var a := accounts[username];
      if a.accountStatus == Some("suspended") || a.accountStatus == Some("revoked") then Refused(a.accountStatus.value)
      else
        var computed := s.hashPassword(password, a.salt);
        if computed.Err? then HashFailed
        else if !HashMatches(computed.value, a.passwordHash) then WrongPassword
        else match s.fromInt(a.clearanceLevel)
          case Err(_) => BadClearance
          case Ok(level) => LoggedIn(a, level)
  }

  /** The whole ladder, on the parsed body and the lockout table as they were. */
  function Decide(fields: map<string, string>, accounts: Accounts, lockoutUsers: LoginLockout.Users, s: Services,
                  now: int): Exit
  {
    if "username" !in fields || "password" !in fields then MissingCredentials
    else if s.recaptcha.Err? then RecaptchaFailed(s.recaptcha.error)
    else if LockBlocks(LoginLockout.IsAccountLocked(lockoutUsers, Some(fields["username"]), s.lockoutConnection, s.lockCheckError, now))
    then Locked
    else AfterLockCheck(fields["username"], fields["password"], accounts, s)
  }

  /** Java's `%s` of a possibly null string. */
  function OrNull(s: Option<string>): string
  {
    if s.Some? then s.value else "null"
  }

  function LoginBody(username: string, role: Option<string>, clearanceLevel: int, token: string): string
  {
    "{\"username\":\"" + username + "\",\"role\":\"" + OrNull(role) + "\",\"clearanceLevel\":"
    + IntToString(clearanceLevel) + ",\"token\":\"" + token + "\"}"
  }

  /** The Set-Cookie header of a successful login. */
  function SessionCookie(token: string): string
  {
    "SESSION=" + token + "; Path=/; HttpOnly"
  }

  function ReplyFor(exit: Exit, username: string, token: string): Reply
  {
    match exit
    case MissingCredentials => CredentialsRequired
    case RecaptchaFailed(error) => RecaptchaRefused(error)
    case Locked => AccountLocked
    case ServerFault => InternalError
    case UnknownUser => InvalidCredentials
    case Refused(accountStatus) => AccountRefused(accountStatus)
    case HashFailed => InternalError
    case WrongPassword => InvalidCredentials
    case BadClearance => InternalError
    case LoggedIn(a, _) => Reply(200, LoginBody(username, a.role, a.clearanceLevel, token))
  }

  function CookieFor(exit: Exit, token: string): Option<string>
  {
    if exit.LoggedIn? then Some(SessionCookie(token)) else None
  }

  /** A wrong password counts a failure; a login resets the account's counter; nothing else writes. */
  function LockoutAfter(exit: Exit, username: string, users: LoginLockout.Users, s: Services, now: int): LoginLockout.Users
  {
    match exit
    case WrongPassword => LoginLockout.RecordFailure(users, Some(username), s.lockoutConnection, s.lockWriteError, now).1
    case LoggedIn(a, _) => LoginLockout.ResetFailures(users, Some(a.userId), s.lockoutConnection, s.lockWriteError).1
    case _ => users
  }

  /** Only a login creates a session, under the drawn token. */
  function SessionsAfter(exit: Exit, username: string, sessions: SessionManager.Sessions, token: string, now: int,
                         timeout: int): SessionManager.Sessions
  {
    match exit
    case LoggedIn(a, level) => SessionManager.Create(sessions, token, Some(username), a.role, Some(level), now, timeout)
    case _ => sessions
  }

  /** The username the lockout calls and the reply see (the ladder stops before any use when it is absent). */
  function UsernameOf(fields: map<string, string>): string
  {
    if "username" in fields then fields["username"] else ""
  }

  /**
   * `handleLogin` after the method checks, with the body as read. `token`
   * stands for the UUID the session store draws.
   */
  method HandleLogin(body: string, accounts: Accounts, s: Services, lockout: LoginLockout.LoginLockout,
                     sessions: SessionManager.SessionManager, token: string, now: int)
    returns (reply: Reply, cookie: Option<string>)
    modifies lockout, sessions
    ensures var exit := Decide(CommaSplitJson(Some(body)), accounts, old(lockout.users), s, now);
      var username := UsernameOf(CommaSplitJson(Some(body)));
      reply == ReplyFor(exit, username, token) && cookie == CookieFor(exit, token)
      && lockout.users == LockoutAfter(exit, username, old(lockout.users), s, now)
      && sessions.sessions == SessionsAfter(exit, username, old(sessions.sessions), token, now, sessions.timeoutSeconds)
  {
    var parsed := CommaSplitJson(Some(body));
    if "username" !in parsed || "password" !in parsed {
      return CredentialsRequired, None;
    }
    var username := parsed["username"];
    var password := parsed["password"];

    if s.recaptcha.Err? {
      return RecaptchaRefused(s.recaptcha.error), None;
    }

    var lockoutResult := lockout.IsAccountLockedNow(Some(username), s.lockoutConnection, s.lockCheckError, now);
    if lockoutResult.Ok? {
      var status := lockoutResult.value;
      if status.isLocked {
        return AccountLocked, None;
      }
    }

    reply, cookie := FinishLogin(username, password, accounts, s, lockout, sessions, token, now);
  }

  /** The ladder after the lock check, up to the session and the cookie. */
  method FinishLogin(username: string, password: string, accounts: Accounts, s: Services,
                     lockout: LoginLockout.LoginLockout, sessions: SessionManager.SessionManager, token: string, now: int)
    returns (reply: Reply, cookie: Option<string>)
    modifies lockout, sessions
    ensures var exit := AfterLockCheck(username, password, accounts, s);
      reply == ReplyFor(exit, username, token) && cookie == CookieFor(exit, token)
      && lockout.users == LockoutAfter(exit, username, old(lockout.users), s, now)
      && sessions.sessions == SessionsAfter(exit, username, old(sessions.sessions), token, now, sessions.timeoutSeconds)
  {
    if s.connection.Err? || s.sqlError {
      return InternalError, None;
    }
    if username !in accounts {
      return InvalidCredentials, None;
    }
    var a := accounts[username];
    if a.accountStatus == Some("suspended") || a.accountStatus == Some("revoked") {
      return AccountRefused(a.accountStatus.value), None;
    }

    var hashResult := s.hashPassword(password, a.salt);
    if hashResult.Err? {
      return InternalError, None;
    }
    var computed := hashResult.value;
    if !(a.passwordHash.Some? && EqualsIgnoreCase(computed, a.passwordHash.value)) {
      assert AfterLockCheck(username, password, accounts, s) == WrongPassword;
      var _ := lockout.RecordFailedAttempt(Some(username), s.lockoutConnection, s.lockWriteError, now);
      return InvalidCredentials, None;
    }

    var clearanceResult := s.fromInt(a.clearanceLevel);
    if clearanceResult.Err? {
      return InternalError, None;
    }
    var clearance := clearanceResult.value;
    assert AfterLockCheck(username, password, accounts, s) == LoggedIn(a, clearance);

    var _ := lockout.ResetFailedAttempts(Some(a.userId), s.lockoutConnection, s.lockWriteError);
    var t := sessions.CreateSession(token, Some(username), a.role, Some(clearance), now);
    reply := Reply(200, LoginBody(username, a.role, a.clearanceLevel, t));
    cookie := Some(SessionCookie(t));
  }

  // ---------------------------------------------------------------------------
  // Properties

  /** A body without a username or a password is refused 400 before any other check, and changes nothing. */
  lemma MissingCredentialsFirst(fields: map<string, string>, accounts: Accounts, users: LoginLockout.Users,
                                s: Services, now: int, sessions: SessionManager.Sessions, token: string, timeout: int)
    requires "username" !in fields || "password" !in fields
    ensures var exit := Decide(fields, accounts, users, s, now);
      var username := UsernameOf(fields);
      ReplyFor(exit, username, token) == CredentialsRequired && CookieFor(exit, token).None?
      && LockoutAfter(exit, username, users, s, now) == users
      && SessionsAfter(exit, username, sessions, token, now, timeout) == sessions
  {
  }

  /**
   * The order of the checks once both credentials are present: reCAPTCHA,
   * the lock, the user query, the account status, the hash, the password,
   * the clearance; each stop happens exactly when the earlier checks passed
   * and its own fails.
   */
  lemma CheckOrder(fields: map<string, string>, accounts: Accounts, users: LoginLockout.Users, s: Services, now: int)
    requires "username" in fields && "password" in fields
    ensures var exit := Decide(fields, accounts, users, s, now);
      var u := fields["username"];
      var locked := LockBlocks(LoginLockout.IsAccountLocked(users, Some(u), s.lockoutConnection, s.lockCheckError, now));
      var queried := s.recaptcha.Ok? && !locked && s.connection.Ok? && !s.sqlError && u in accounts;
      (exit.RecaptchaFailed? <==> s.recaptcha.Err?)
      && (exit == Locked <==> s.recaptcha.Ok? && locked)
      && (exit == ServerFault <==> s.recaptcha.Ok? && !locked && (s.connection.Err? || s.sqlError))
      && (exit == UnknownUser <==> s.recaptcha.Ok? && !locked && s.connection.Ok? && !s.sqlError && u !in accounts)
      && (exit.Refused? <==>
            (queried && (accounts[u].accountStatus == Some("suspended") || accounts[u].accountStatus == Some("revoked"))))
      && (exit == WrongPassword <==>
            (queried && !exit.Refused? && exit != HashFailed
             && s.hashPassword(fields["password"], accounts[u].salt).Ok?
             && !HashMatches(s.hashPassword(fields["password"], accounts[u].salt).value, accounts[u].passwordHash)))
      && (exit.LoggedIn? ==>
            (queried && s.fromInt(accounts[u].clearanceLevel).Ok?
             && exit == LoggedIn(accounts[u], s.fromInt(accounts[u].clearanceLevel).value)))
  {
  }

  /** An unknown user and a wrong password get the same reply and no cookie. */
  lemma SameInvalidCredentials(username: string, token: string)
    ensures ReplyFor(UnknownUser, username, token) == ReplyFor(WrongPassword, username, token) == InvalidCredentials
    ensures CookieFor(UnknownUser, token) == CookieFor(WrongPassword, token) == None
  {
  }

  /**
   * The lockout table is written only by a wrong password (one more failure)
   * and by a login (the counter reset); an unknown user leaves it as it was.
   */
  lemma OnlyWrongPasswordCounts(fields: map<string, string>, accounts: Accounts, users: LoginLockout.Users, s: Services,
                                now: int)
    ensures var exit := Decide(fields, accounts, users, s, now);
      var after := LockoutAfter(exit, UsernameOf(fields), users, s, now);
      after != users ==> exit == WrongPassword || exit.LoggedIn?
    ensures var exit := Decide(fields, accounts, users, s, now);
      exit == WrongPassword ==>
        LockoutAfter(exit, UsernameOf(fields), users, s, now)
        == LoginLockout.RecordFailure(users, Some(fields["username"]), s.lockoutConnection, s.lockWriteError, now).1
  {
  }

  /** A wrong password on a counted account adds one failure, and the third locks it for 30 minutes. */
  lemma WrongPasswordLocksOnThird(fields: map<string, string>, accounts: Accounts, users: LoginLockout.Users,
                                  s: Services, now: int)
    requires Decide(fields, accounts, users, s, now) == WrongPassword
    requires s.lockoutConnection.Ok? && s.lockWriteError.None?
    requires fields["username"] in users && !TrimsToEmpty(fields["username"])
    ensures var u := fields["username"];
      var after := LockoutAfter(WrongPassword, u, users, s, now);
      after[u].failedAttempts == users[u].failedAttempts + 1
      && (users[u].failedAttempts + 1 >= LoginLockout.MaxLoginAttempts ==>
            LoginLockout.IsAccountLocked(after, Some(u), Ok(()), None, now + LoginLockout.LockoutSeconds - 1).value.isLocked)
  {
    LoginLockout.FailureCountsAndLocks(users, fields["username"], now);
  }

  /**
   * A lock lookup that fails (no connection, an SQL exception, or a blank username) does not
   * block: the ladder goes on as for an unlocked account, whatever the
   * lockout table says.
   */
  lemma LockLookupErrorDoesNotBlock(fields: map<string, string>, accounts: Accounts, users: LoginLockout.Users,
                                    other: LoginLockout.Users, s: Services, now: int)
    requires "username" in fields && "password" in fields && s.recaptcha.Ok?
    requires LoginLockout.IsAccountLocked(users, Some(fields["username"]), s.lockoutConnection, s.lockCheckError, now).Err?
    ensures Decide(fields, accounts, users, s, now) == AfterLockCheck(fields["username"], fields["password"], accounts, s)
    ensures Decide(fields, accounts, users, s, now) == Decide(fields, accounts, other, s, now)
  {
  }

  /**
   * A login answers 200 with the username, role, clearance number and token,
   * sets the SESSION cookie HttpOnly on path /, stores a session for the
   * user with the converted clearance, and clears the account's failures.
   */
  lemma LoginEffects(fields: map<string, string>, accounts: Accounts, users: LoginLockout.Users, s: Services, now: int,
                     sessions: SessionManager.Sessions, token: string, timeout: int)
    requires Decide(fields, accounts, users, s, now).LoggedIn?
    ensures var exit := Decide(fields, accounts, users, s, now);
      var u := fields["username"];
      var a := accounts[u];
      var after := SessionsAfter(exit, u, sessions, token, now, timeout);
      ReplyFor(exit, u, token) == Reply(200, LoginBody(u, a.role, a.clearanceLevel, token))
      && CookieFor(exit, token) == Some(SessionCookie(token))
      && EndsWith(SessionCookie(token), "; Path=/; HttpOnly")
      && token in after && after[token].username == Some(u) && after[token].role == a.role
      && after[token].clearance == Some(exit.clearance) && after[token].expiry == now + timeout
      && s.fromInt(a.clearanceLevel) == Ok(exit.clearance)
      && LockoutAfter(exit, u, users, s, now) == LoginLockout.ResetFailures(users, Some(a.userId), s.lockoutConnection, s.lockWriteError).1
  {
    LoggedInAccount(fields, accounts, users, s, now);
    var exit := Decide(fields, accounts, users, s, now);
    LoggedInEffects(exit, fields["username"], users, s, now, sessions, token, timeout);
  }

  /** What a LoggedIn exit answers and writes, whatever led to it. */
  lemma LoggedInEffects(exit: Exit, u: string, users: LoginLockout.Users, s: Services, now: int,
                        sessions: SessionManager.Sessions, token: string, timeout: int)
    requires exit.LoggedIn?
    ensures var a := exit.account;
      var after := SessionsAfter(exit, u, sessions, token, now, timeout);
      ReplyFor(exit, u, token) == Reply(200, LoginBody(u, a.role, a.clearanceLevel, token))
      && CookieFor(exit, token) == Some(SessionCookie(token))
      && EndsWith(SessionCookie(token), "; Path=/; HttpOnly")
      && token in after && after[token].username == Some(u) && after[token].role == a.role
      && after[token].clearance == Some(exit.clearance) && after[token].expiry == now + timeout
      && LockoutAfter(exit, u, users, s, now) == LoginLockout.ResetFailures(users, Some(a.userId), s.lockoutConnection, s.lockWriteError).1
  {
    CookieAttributes(token);
  }

  /** A login is for the named account, with the clearance its stored number converts to. */
  lemma LoggedInAccount(fields: map<string, string>, accounts: Accounts, users: LoginLockout.Users, s: Services,
                        now: int)
    requires Decide(fields, accounts, users, s, now).LoggedIn?
    ensures var exit := Decide(fields, accounts, users, s, now);
      "username" in fields && fields["username"] in accounts && exit.account == accounts[fields["username"]]
      && s.fromInt(exit.account.clearanceLevel) == Ok(exit.clearance)
  {
  }

  lemma CookieAttributes(token: string)
    ensures EndsWith(SessionCookie(token), "; Path=/; HttpOnly")
  {
    var t := SessionCookie(token);
    assert t[|t| - |"; Path=/; HttpOnly"|..] == "; Path=/; HttpOnly";
  }

  /**
   * The cookie's first pair is read back by the session-token rule the
   * other controllers use, so the browser's next request finds the token.
   */
  lemma CookieCarriesToken(token: string)
    requires ';' !in token && (token == [] || !IsTrimSpace(token[|token| - 1]))
    ensures 8 + |token| <= |SessionCookie(token)|
    ensures ManagementController.Token(None, Some(SessionCookie(token)[..8 + |token|])) == Some(token)
  {
    assert SessionCookie(token)[..8 + |token|] == "SESSION=" + token;
    ManagementController.SessionCookieRoundTrip(token);
  }
}
