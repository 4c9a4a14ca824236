// The login form (frontend/js/auth.js): the two field checks, the request it
// sends, the session record it stores for the router, and the dashboard it
// redirects to. The server's answer, the clock and whether the router is
// present are parameters; the 300 ms delay before redirecting is not modelled.
module AuthPage {
  import opened Wrappers
  import opened JavaStrings
  import Router

  /** An error shown under one field. */
  datatype FieldError = FieldError(field: string, message: string)

  /** The fields of the server's JSON reply that the form reads; `None` is null or absent. */
  datatype LoginData = LoginData(username: Option<string>, role: Option<string>, clearanceLevel: Option<int>,
                                 token: Option<string>, message: Option<string>)

  /** The reply: none at all (a network failure or a body that is not JSON), or a status and its data. */
  datatype LoginResponse = Unreachable | Answered(ok: bool, data: LoginData)

  /** The stored `role` field: the text, the clearance number in its place, or absent. */
  datatype StoredRole = RoleText(text: string) | RoleNumber(n: int) | RoleAbsent

  /** The record kept in session storage under "user". */
  datatype SessionRecord = SessionRecord(username: Option<string>, role: StoredRole, clearanceLevel: Option<int>,
                                         token: Option<string>, loginTime: string)

  datatype Credentials = Credentials(username: string, password: string)

  const UnableToConnect: string := "Unable to connect to server. Please try again."
  const InvalidLogin: string := "Invalid username or password"

  /** `validateForm`: both fields are checked, each reporting at most its first failing rule. */
  function LoginErrors(rawUsername: string, password: string): (r: seq<FieldError>)
    ensures |r| <= 2
  {
    var username := JsTrim(rawUsername);
    (if username == [] then [FieldError("username", "Username is required")]
     else if JavaLength(username) < 3 then [FieldError("username", "Username must be at least 3 characters")]
     else [])
    + (if password == [] then [FieldError("password", "Password is required")]
       else if JavaLength(password) < 6 then [FieldError("password", "Password must be at least 6 characters")]
       else [])
  }

  /** `(data.role || data.clearanceLevel || '').toString().toLowerCase()`. */
  function LoginRole(data: LoginData): string
  {
    if data.role.Some? && data.role.value != "" then ToLower(data.role.value)
    else if data.clearanceLevel.Some? && data.clearanceLevel.value != 0 then ToLower(IntToString(data.clearanceLevel.value))
    else ""
  }

  /** The path segment of the role's dashboard: a manager's is "management". */
  function Prefix(role: string): string
  {
    if role == "manager" then "management" else role
  }

  /** The router path of the role's dashboard. */
  function Target(role: string): string
  {
    "/" + Prefix(role) + "/dashboard"
  }

  /** Where the page goes without a router. */
  function Fallback(role: string): string
  {
    Prefix(role) + "/" + Prefix(role) + "-dashboard.html"
  }

  /** `storeUserSession` on the reply with the lower-cased role: the role, else the clearance level. */
  function Stored(data: LoginData, now: string): (r: SessionRecord)
    ensures r.username == data.username && r.token == data.token && r.clearanceLevel == data.clearanceLevel
    ensures LoginRole(data) != "" ==> r.role == RoleText(LoginRole(data))
    ensures LoginRole(data) == "" && data.clearanceLevel.None? ==> r.role == RoleAbsent
  {
    var role := LoginRole(data);
    SessionRecord(data.username,
                  if role != "" then RoleText(role)
                  else if data.clearanceLevel.Some? then RoleNumber(data.clearanceLevel.value) else RoleAbsent,
                  data.clearanceLevel, data.token, now)
  }

  /**
   * How the router reads the record: authenticated with a non-empty token and
   * username, and its role. A numeric role takes part in the router's template
   * text as its decimal rendering; it never equals a role name.
   */
  function RouterUser(record: SessionRecord): (r: Router.User)
    ensures r.authenticated ==> record.token.Some? && record.username.Some?
    ensures r.role.None? <==> record.role.RoleAbsent?
    ensures record.role.RoleText? ==> r.role == Some(record.role.text)
    ensures record.role.RoleNumber? ==> r.role.Some? && r.role.value !in ["customer", "driver", "manager", "admin"]
  {
    Router.User(record.token.Some? && record.token.value != "" && record.username.Some? && record.username.value != "",
                match record.role
                case RoleText(text) => Some(text)
                case RoleNumber(n) => IntTextStart(n); Some(IntToString(n))
                case RoleAbsent => None)
  }

  /** What the form shows and keeps. */
  datatype LoginScreen = LoginScreen(fieldErrors: seq<FieldError>, errorText: Option<string>,
                                     storedUser: Option<SessionRecord>, redirect: Option<string>)

  /**
   * `handleSubmit`: errors are cleared; invalid fields show their errors and
   * nothing is sent; otherwise the trimmed username and the password are
   * sent, and a success stores the record and redirects to the role's
   * dashboard, a refusal shows the server's message, no answer shows the
   * connection error.
   */
  function Submitted(sc: LoginScreen, rawUsername: string, password: string, response: LoginResponse, now: string,
                     hasRouter: bool): (LoginScreen, Option<Credentials>)
  {
    var errors := LoginErrors(rawUsername, password);
    var cleared := sc.(fieldErrors := [], errorText := None);
    if errors != [] then (cleared.(fieldErrors := errors), None)
    else
      var sent := Some(Credentials(JsTrim(rawUsername), password));
      match response
      case Unreachable => (cleared.(errorText := Some(UnableToConnect)), sent)
      case Answered(ok, data) =>
        if ok then
          var role := LoginRole(data);
          (cleared.(storedUser := Some(Stored(data, now)), redirect := Some(if hasRouter then Target(role) else Fallback(role))),
           sent)
        else
          (cleared.(errorText := Some(if data.message.Some? && data.message.value != "" then data.message.value
                                      else InvalidLogin)), sent)
  }

  // ---------------------------------------------------------------------------
  // Properties

  /** The form is valid iff the trimmed username has at least 3 code units and the password at least 6. */
  lemma ValidIff(rawUsername: string, password: string)
    ensures LoginErrors(rawUsername, password) == [] <==> JavaLength(JsTrim(rawUsername)) >= 3 && JavaLength(password) >= 6
  {
  }

  /** Both fields are checked: a bad username does not hide a bad password. */
  lemma BothFieldsChecked(rawUsername: string, password: string)
    requires JsTrim(rawUsername) == []
    requires password != [] && JavaLength(password) < 6
    ensures LoginErrors(rawUsername, password)
            == [FieldError("username", "Username is required"),
                FieldError("password", "Password must be at least 6 characters")]
  {
  }

  /** Nothing is sent, and nothing is stored, while a field is invalid. */
  lemma InvalidSendsNothing(sc: LoginScreen, rawUsername: string, password: string, response: LoginResponse,
                            now: string, hasRouter: bool)
    requires LoginErrors(rawUsername, password) != []
    ensures var (after, sent) := Submitted(sc, rawUsername, password, response, now, hasRouter);
      sent.None? && after.storedUser == sc.storedUser && after.redirect == sc.redirect
      && after.fieldErrors == LoginErrors(rawUsername, password)
  {
  }

  /**
   * A successful login stores the username, the lower-cased role, the
   * clearance level and the token, and with the router goes to the role's
   * dashboard, which for a manager is /management/dashboard.
   */
  lemma SuccessStoresAndRedirects(sc: LoginScreen, rawUsername: string, password: string, data: LoginData,
                                  now: string)
    requires LoginErrors(rawUsername, password) == []
    requires data.role.Some? && data.role.value != ""
    ensures var (after, sent) := Submitted(sc, rawUsername, password, Answered(true, data), now, true);
      sent == Some(Credentials(JsTrim(rawUsername), password))
      && after.storedUser == Some(SessionRecord(data.username, RoleText(ToLower(data.role.value)), data.clearanceLevel,
                                                data.token, now))
      && after.redirect == Some("/" + (if ToLower(data.role.value) == "manager" then "management"
                                       else ToLower(data.role.value)) + "/dashboard")
  {
  }

  /**
   * After logging in with one of the four roles, the router sees an
   * authenticated user that may open the dashboard it is sent to.
   */
  lemma DashboardIsAllowed(data: LoginData, now: string)
    requires data.username.Some? && data.username.value != "" && data.token.Some? && data.token.value != ""
    requires LoginRole(data) in ["customer", "driver", "manager", "admin"]
    ensures var user := RouterUser(Stored(data, now));
      Router.IsAuthenticated(Some(user)) && Router.HasAccess(Some(user), Target(LoginRole(data)))
  {
    var role := LoginRole(data);
    var user := RouterUser(Stored(data, now));
    assert user.role == Some(role);
    if role == "manager" {
      ManagementOpen();
    } else if role == "customer" {
      AreaOpen("customer");
    } else if role == "driver" {
      AreaOpen("driver");
    } else {
      AreaOpen("admin");
    }
  }

  lemma ManagementOpen()
    ensures Router.HasAccess(Some(Router.User(true, Some("manager"))), Target("manager"))
  {
    var t := Target("manager");
    assert t == "/management/dashboard";
    assert t[1] == 'm';
    assert !StartsWith(t, "/customer/") by { assert "/customer/"[1] != t[1]; }
    assert !StartsWith(t, "/driver/") by { assert "/driver/"[1] != t[1]; }
    assert !StartsWith(t, "/admin/") by { assert "/admin/"[1] != t[1]; }
  }

  lemma AreaOpen(role: string)
    requires role in ["customer", "driver", "admin"]
    ensures Router.HasAccess(Some(Router.User(true, Some(role))), Target(role))
  {
    var t := Target(role);
    assert t == "/" + role + "/dashboard";
    assert t[1] == role[0];
    assert !StartsWith(t, "/management/") by { assert "/management/"[1] != t[1]; }
    if role == "customer" {
      assert !StartsWith(t, "/driver/") by { assert "/driver/"[1] != t[1]; }
      assert !StartsWith(t, "/admin/") by { assert "/admin/"[1] != t[1]; }
    } else if role == "driver" {
      assert !StartsWith(t, "/customer/") by { assert "/customer/"[1] != t[1]; }
      assert !StartsWith(t, "/admin/") by { assert "/admin/"[1] != t[1]; }
    } else {
      assert !StartsWith(t, "/customer/") by { assert "/customer/"[1] != t[1]; }
      assert !StartsWith(t, "/driver/") by { assert "/driver/"[1] != t[1]; }
    }
  }

  /**
   * A server role of "management" is sent to /management/dashboard, which
   * the router refuses it; the router's denial target for it is the same
   * path, so the redirect never settles.
   */
  lemma ManagementRoleIsRefused(data: LoginData, now: string)
    requires LoginRole(data) == "management"
    ensures var user := RouterUser(Stored(data, now));
      !Router.HasAccess(Some(user), Target("management"))
      && Router.DenialTarget(Some(user)) == Target("management")
  {
    var user := RouterUser(Stored(data, now));
    assert user.role == Some("management");
    assert StartsWith(Target("management"), "/management/");
  }

  /** The decimal rendering of a number starts with a digit or a minus sign. */
  lemma IntTextStart(n: int)
    ensures IntToString(n)[0] == '-' || IsDigit(IntToString(n)[0])
  {
  }

  /**
   * A record whose role is the clearance number is refused every role area by
   * the router, and its access denial sends it to "/" + the number +
   * "/dashboard".
   */
  lemma NumericRoleIsRefused(record: SessionRecord, n: int, path: string)
    requires record.role == RoleNumber(n)
    requires StartsWith(path, "/customer/") || StartsWith(path, "/driver/")
             || StartsWith(path, "/management/") || StartsWith(path, "/admin/")
    ensures var user := RouterUser(record);
      user.role == Some(IntToString(n))
      && !Router.HasAccess(Some(user), path)
      && Router.DenialTarget(Some(user)) == "/" + IntToString(n) + "/dashboard"
  {
    IntTextStart(n);
    var text := IntToString(n);
    assert text != "customer" && text != "driver" && text != "manager" && text != "admin" by {
      assert text[0] != 'c' && text[0] != 'd' && text[0] != 'm' && text[0] != 'a';
    }
  }

  /**
   * A successful login whose reply has no role and clearance level 0 stores
   * the number 0 as the role, which the router reads as "0".
   */
  lemma ZeroClearanceStoresNumber(data: LoginData, now: string)
    requires LoginRole(data) == "" && data.clearanceLevel == Some(0)
    ensures Stored(data, now).role == RoleNumber(0)
    ensures RouterUser(Stored(data, now)).role == Some("0")
  {
  }

  // ---------------------------------------------------------------------------
  // The form

  class AuthHandler {
    var fieldErrors: seq<FieldError>
    var errorText: Option<string>
    var storedUser: Option<SessionRecord>
    var redirect: Option<string>

    function State(): LoginScreen
      reads this
    {
      LoginScreen(fieldErrors, errorText, storedUser, redirect)
    }

    constructor(storedUser: Option<SessionRecord>)
      ensures State() == LoginScreen([], None, storedUser, None)
    {
      fieldErrors := [];
      errorText := None;
      this.storedUser := storedUser;
      redirect := None;
    }

    /** `validateForm`: every rule of both fields runs; the form is valid iff no error was shown. */
    method ValidateForm(rawUsername: string, password: string) returns (isValid: bool)
      modifies this
      ensures fieldErrors == old(fieldErrors) + LoginErrors(rawUsername, password)
      ensures isValid <==> LoginErrors(rawUsername, password) == []
      ensures errorText == old(errorText) && storedUser == old(storedUser) && redirect == old(redirect)
    {
      isValid := true;
      var username := JsTrim(rawUsername);
      if username == [] {
        fieldErrors := fieldErrors + [FieldError("username", "Username is required")];
        isValid := false;
      } else if JavaLength(username) < 3 {
        fieldErrors := fieldErrors + [FieldError("username", "Username must be at least 3 characters")];
        isValid := false;
      }
      if password == [] {
        fieldErrors := fieldErrors + [FieldError("password", "Password is required")];
        isValid := false;
      } else if JavaLength(password) < 6 {
        fieldErrors := fieldErrors + [FieldError("password", "Password must be at least 6 characters")];
        isValid := false;
      }
    }

    /** `handleSubmit`, with the server's answer given; returns the request sent, if any. */
    method HandleSubmit(rawUsername: string, password: string, response: LoginResponse, now: string, hasRouter: bool)
      returns (sent: Option<Credentials>)
      modifies this
      ensures (State(), sent) == Submitted(old(State()), rawUsername, password, response, now, hasRouter)
    {
      fieldErrors := [];
      errorText := None;
      var valid := ValidateForm(rawUsername, password);
      assert [] + LoginErrors(rawUsername, password) == LoginErrors(rawUsername, password);
      if !valid {
        return None;
      }
      sent := Some(Credentials(JsTrim(rawUsername), password));
      match response
      case Unreachable =>
        errorText := Some(UnableToConnect);
      case Answered(ok, data) =>
        if ok {
          var role := LoginRole(data);
          storedUser := Some(Stored(data, now));
          redirect := Some(if hasRouter then Target(role) else Fallback(role));
        } else {
          errorText := Some(if data.message.Some? && data.message.value != "" then data.message.value else InvalidLogin);
        }
    }
  }
}
