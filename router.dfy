// The single-page router (frontend/js/router.js). The route table and the
// access rules are pure; navigation, route handling, content loading and
// logout change the router's state: the session record, the history stack,
// the page's stylesheets, body and reloaded scripts, the number of click and
// popstate listeners, and the alerts shown.
//
// The session record is what `sessionStorage.getItem('user')` parses to:
// None when it is missing, unparsable or falsy; otherwise whether it carries
// a truthy token and username, and its role. `fetch` answers a page file
// with the parsed page or a failure (the base path folded in); the fetch
// completes before the next event. The recursion navigate → showAccessDenied
// → navigate is given fuel: as written it does not always end.
module Router {
  import opened Wrappers
  import opened JavaStrings

  datatype User = User(authenticated: bool, role: Option<string>)

  /** A script element: its src, or else its text ("" when absent). */
  datatype Script = Script(src: string, content: string)

  /** A fetched page: its body, its stylesheet hrefs and its scripts, in document order. */
  datatype Page = Page(body: string, stylesheets: seq<string>, scripts: seq<Script>)

  datatype Fetched = Failed | Loaded(page: Page)

  datatype RouterState = RouterState(
    session: Option<User>,
    entries: seq<string>, position: nat,
    stylesheets: seq<string>, body: string, scripts: seq<Script>,
    clickListeners: nat, popstateListeners: nat,
    alerts: seq<string>)

  /** The route table: path to page file. */
  const Routes: map<string, string> := map[
    "/customer/dashboard" := "customer/customer-dashboard.html",
    "/customer/info" := "customer/customer-info.html",
    "/customer/packages" := "customer/view-packages.html",
    "/customer/track" := "customer/track-packages.html",
    "/customer/edit" := "customer/edit-packages.html",
    "/customer/return" := "customer/return-packages.html",
    "/driver/dashboard" := "driver/driver-dashboard.html",
    "/driver/route" := "driver/view-route.html",
    "/driver/login" := "driver/driver-login.html",
    "/management/dashboard" := "management/management-dashboard.html",
    "/management/assign-routes" := "management/assign-routes.html",
    "/management/transfer" := "management/transfer-portal.html",
    "/management/inventory" := "management/view-inventory.html",
    "/admin/dashboard" := "admin/admin-dashboard.html",
    "/admin/logs" := "admin/view-logs.html",
    "/login" := "login.html",
    "/register" := "register.html",
    "/logout" := "login.html"]

  const AccessDeniedAlert: string := "Access denied. You do not have permission to view this page."
  const LoadFailedAlert: string := "Failed to load page"

  predicate IsPublic(path: string)
  {
    path == "/login" || path == "/register"
  }

  /** `isAuthenticated`: a parsed record with a truthy token and username. */
  predicate IsAuthenticated(session: Option<User>)
  {
    session.Some? && session.value.authenticated
  }

  /** `hasAccess`: each area prefix demands its role; every other path is open to any session. */
  predicate HasAccess(session: Option<User>, path: string)
  {
    session.Some?
    && !(StartsWith(path, "/customer/") && session.value.role != Some("customer"))
    && !(StartsWith(path, "/driver/") && session.value.role != Some("driver"))
    && !(StartsWith(path, "/management/") && session.value.role != Some("manager"))
    && !(StartsWith(path, "/admin/") && session.value.role != Some("admin"))
  }

  /** `window.location.pathname`: the current history entry. */
  function Location(st: RouterState): string
  {
    if st.position < |st.entries| then st.entries[st.position] else ""
  }

  predicate ValidState(st: RouterState)
  {
    st.position < |st.entries|
  }

  /** The URL an empty path writes is the current one. */
  function UrlOf(st: RouterState, path: string): string
  {
    if path == "" then Location(st) else path
  }

  /** `replaceState` overwrites the current entry; `pushState` drops the forward entries and appends. */
  function WriteHistory(st: RouterState, path: string, replace: bool): (r: RouterState)
    requires ValidState(st)
    ensures ValidState(r) && Location(r) == UrlOf(st, path)
  {
    if replace then st.(entries := st.entries[st.position := UrlOf(st, path)])
    else st.(entries := st.entries[..st.position + 1] + [UrlOf(st, path)], position := st.position + 1)
  }

  /** The stylesheets kept when a page loads: those whose href mentions main.css, in order. */
  function KeepMain(hrefs: seq<string>): (r: seq<string>)
  {
    if hrefs == [] then []
    else if Contains(hrefs[|hrefs| - 1], "main.css") then KeepMain(hrefs[..|hrefs| - 1]) + [hrefs[|hrefs| - 1]]
    else KeepMain(hrefs[..|hrefs| - 1])
  }

  /** The new page's stylesheets appended one by one, each only if no link has its href yet. */
  function AddMissing(current: seq<string>, hrefs: seq<string>): (r: seq<string>)
  {
    if hrefs == [] then current
    else
      var before := AddMissing(current, hrefs[..|hrefs| - 1]);
      if hrefs[|hrefs| - 1] in before then before else before + [hrefs[|hrefs| - 1]]
  }

  /** A script is reloaded unless its src mentions router.js. */
  predicate Reloads(s: Script)
  {
    !(s.src != "" && Contains(s.src, "router.js"))
  }

  /** The element appended for a script: its src if it has one, else its text. */
  function Element(s: Script): Script
  {
    if s.src != "" then Script(s.src, "") else s
  }

  /** The scripts appended to the new body, in document order. */
  function ReloadedScripts(scripts: seq<Script>): (r: seq<Script>)
  {
    if scripts == [] then []
    else if Reloads(scripts[|scripts| - 1]) then ReloadedScripts(scripts[..|scripts| - 1]) + [Element(scripts[|scripts| - 1])]
    else ReloadedScripts(scripts[..|scripts| - 1])
  }

  /**
   * `loadContent`: a failed fetch alerts once and changes nothing else; a
   * page replaces the stylesheets and the body, reloads its scripts and
   * adds one more click and popstate listener.
   */
  function AfterLoad(st: RouterState, file: string, fetch: string -> Fetched): RouterState
  {
    match fetch(file)
    case Failed => st.(alerts := st.alerts + [LoadFailedAlert])
    case Loaded(page) =>
      st.(stylesheets := AddMissing(KeepMain(st.stylesheets), page.stylesheets), body := page.body,
          scripts := ReloadedScripts(page.scripts),
          clickListeners := st.clickListeners + 1, popstateListeners := st.popstateListeners + 1)
  }

  /** A call of one of the router's recursive methods. */
  datatype Call = NavigateTo(path: string, replace: bool) | HandleRouteAt(path: string) | DenyAccess | LogOut

  /** What a call does before it returns or makes its next call. */
  datatype Next = Done(st: RouterState) | Then(st: RouterState, c: Call)

  /**
   * One call of the router, with `target` choosing where a denial
   * navigates: logout clears the session and replace-navigates to the login
   * page; navigate checks the session and the role before it writes one
   * history entry and handles the route; handleRoute loads the table's page
   * or replace-navigates to the login page; a denial alerts and navigates.
   */
  function Step(st: RouterState, c: Call, target: Option<User> -> string, fetch: string -> Fetched): (r: Next)
    requires ValidState(st)
    ensures ValidState(r.st)
  {
    match c
    case LogOut => Then(st.(session := None), NavigateTo("/login", true))
    case DenyAccess => Then(st.(alerts := st.alerts + [AccessDeniedAlert]), NavigateTo(target(st.session), false))
    case HandleRouteAt(path) =>
      var current := UrlOf(st, path);
      if current in Routes then Done(AfterLoad(st, Routes[current], fetch))
      else Then(st, NavigateTo("/login", true))
    case NavigateTo(path, replace) =>
      if path == "/logout" then Then(st, LogOut)
      else if !IsPublic(path) && !IsAuthenticated(st.session) then Then(st, NavigateTo("/login", false))
      else if !IsPublic(path) && !HasAccess(st.session, path) then Then(st, DenyAccess)
      else Then(WriteHistory(st, path, replace), HandleRouteAt(path))
  }

  /** The calls made one after the other, at most `fuel` deep; None when the fuel runs out. */
  function Run(st: RouterState, c: Call, target: Option<User> -> string, fetch: string -> Fetched, fuel: nat)
    : (r: Option<RouterState>)
    requires ValidState(st)
    ensures r.Some? ==> ValidState(r.value)
    decreases fuel
  {
    if fuel == 0 then None
    else match Step(st, c, target, fetch)
      case Done(s) => Some(s)
      case Then(s, next) => Run(s, next, target, fetch, fuel - 1)
  }

  /** JavaScript's `${role}` of a missing role. */
  function RoleText(role: Option<string>): string
  {
    if role.Some? then role.value else "undefined"
  }

  /** `showAccessDenied` as written: the role's dashboard, or the login page without a session. */
  function DenialTarget(session: Option<User>): (r: string)
    ensures session.Some? ==> |r| >= 11
  {
    if session.Some? then "/" + RoleText(session.value.role) + "/dashboard" else "/login"
  }

  /** The corrected target: the role's dashboard when the role may see it, else the login page. */
  function SafeDenialTarget(session: Option<User>): (r: string)
    ensures r == "/login" || (HasAccess(session, r) && |r| >= 11)
    ensures HasAccess(session, DenialTarget(session)) ==> r == DenialTarget(session)
  {
    var t := DenialTarget(session);
    if HasAccess(session, t) then t else "/login"
  }

  // ---------------------------------------------------------------------------
  // Termination of the corrected router

  /** How many calls deep a call of the corrected router goes, at most. */
  function Bound(st: RouterState, c: Call): nat
  {
    match c
    case LogOut => 3
    case DenyAccess => 5
    case HandleRouteAt(path) => if UrlOf(st, path) in Routes then 1 else 3
    case NavigateTo(path, replace) =>
      if path == "/logout" then 4
      else if IsPublic(path) then 2
      else if !IsAuthenticated(st.session) then 3
      else if !HasAccess(st.session, path) then 6
      else 4
  }

  const MaxFuel: nat := 6

  /** With the corrected target each next call has a smaller bound. */
  lemma BoundDecreases(st: RouterState, c: Call, fetch: string -> Fetched)
    requires ValidState(st) && Step(st, c, SafeDenialTarget, fetch).Then?
    ensures var n := Step(st, c, SafeDenialTarget, fetch); Bound(n.st, n.c) < Bound(st, c)
  {
  }

  /** Every call of the corrected router ends within its bound. */
  lemma {:induction false} SafeTerminates(st: RouterState, c: Call, fetch: string -> Fetched, fuel: nat)
    requires ValidState(st) && fuel >= Bound(st, c)
    ensures Run(st, c, SafeDenialTarget, fetch, fuel).Some?
    decreases fuel
  {
    var n := Step(st, c, SafeDenialTarget, fetch);
    if n.Then? {
      BoundDecreases(st, c, fetch);
      SafeTerminates(n.st, n.c, fetch, fuel - 1);
    }
  }

  /** More fuel does not change an answer already reached. */
  lemma {:induction false} FuelMonotone(st: RouterState, c: Call, target: Option<User> -> string,
                                        fetch: string -> Fetched, fuel: nat, more: nat)
    requires ValidState(st) && fuel <= more && Run(st, c, target, fetch, fuel).Some?
    ensures Run(st, c, target, fetch, more) == Run(st, c, target, fetch, fuel)
    decreases fuel
  {
    var n := Step(st, c, target, fetch);
    if n.Then? {
      FuelMonotone(n.st, n.c, target, fetch, fuel - 1, more - 1);
    }
  }

  /**
   * A method of the corrected router that makes its next call answers what
   * that call answers.
   */
  lemma Advance(st: RouterState, c: Call, fetch: string -> Fetched)
    requires ValidState(st) && Bound(st, c) <= MaxFuel && Step(st, c, SafeDenialTarget, fetch).Then?
    ensures var n := Step(st, c, SafeDenialTarget, fetch);
      Run(st, c, SafeDenialTarget, fetch, MaxFuel) == Run(n.st, n.c, SafeDenialTarget, fetch, MaxFuel)
      && Bound(n.st, n.c) < Bound(st, c)
  {
    var n := Step(st, c, SafeDenialTarget, fetch);
    BoundDecreases(st, c, fetch);
    SafeTerminates(n.st, n.c, fetch, MaxFuel - 1);
    FuelMonotone(n.st, n.c, SafeDenialTarget, fetch, MaxFuel - 1, MaxFuel);
  }

  /** `n` listeners each running the same call, one after the other. */
  function Dispatch(st: RouterState, c: Call, n: nat, fetch: string -> Fetched): (r: RouterState)
    requires ValidState(st)
    ensures ValidState(r)
  {
    if n == 0 then st
    else
      var before := Dispatch(st, c, n - 1, fetch);
      SafeTerminates(before, c, fetch, MaxFuel);
      Run(before, c, SafeDenialTarget, fetch, MaxFuel).value
  }

  // ---------------------------------------------------------------------------
  // Properties of navigation

  /** The four areas and the rule for each: no session sees nothing; any session sees the other paths. */
  lemma AreaRules(u: User, path: string)
    ensures !HasAccess(None, path)
    ensures HasAccess(Some(u), "/driver/login") <==> u.role == Some("driver")
    ensures u.role == Some("admin") ==> !HasAccess(Some(u), "/driver/route")
    ensures (!StartsWith(path, "/customer/") && !StartsWith(path, "/driver/") && !StartsWith(path, "/management/")
             && !StartsWith(path, "/admin/")) ==> HasAccess(Some(u), path)
  {
    assert StartsWith("/driver/login", "/driver/");
    assert StartsWith("/driver/route", "/driver/");
    var d := "/driver/login";
    assert !StartsWith(d, "/customer/") by { assert d[1] != "/customer/"[1]; }
    assert !StartsWith(d, "/admin/") by { assert d[1] != "/admin/"[1]; }
    assert !StartsWith(d, "/management/") by { assert d[1] != "/management/"[1]; }
  }

  /**
   * Navigating to /logout runs no session or role check: it clears the
   * session record, replaces the current entry with /login and loads the
   * login page.
   */
  lemma LogoutClearsSession(st: RouterState, replace: bool, target: Option<User> -> string, fetch: string -> Fetched,
                            fuel: nat)
    requires ValidState(st) && fuel >= 4
    ensures Run(st, NavigateTo("/logout", replace), target, fetch, fuel)
            == Some(AfterLoad(st.(session := None, entries := st.entries[st.position := "/login"]), "login.html", fetch))
  {
    var cleared := st.(session := None);
    assert Run(st, NavigateTo("/logout", replace), target, fetch, fuel) == Run(st, LogOut, target, fetch, fuel - 1);
    assert Run(st, LogOut, target, fetch, fuel - 1) == Run(cleared, NavigateTo("/login", true), target, fetch, fuel - 2);
    var written := WriteHistory(cleared, "/login", true);
    assert written == st.(session := None, entries := st.entries[st.position := "/login"]);
    assert Run(cleared, NavigateTo("/login", true), target, fetch, fuel - 2)
        == Run(written, HandleRouteAt("/login"), target, fetch, fuel - 3);
  }

  /**
   * Without an authenticated session, a path other than /login, /register
   * and /logout pushes /login instead; no entry for the path is written.
   */
  lemma UnauthenticatedGoesToLogin(st: RouterState, path: string, replace: bool, target: Option<User> -> string,
                                   fetch: string -> Fetched, fuel: nat)
    requires ValidState(st) && fuel >= 3
    requires path != "/logout" && !IsPublic(path) && !IsAuthenticated(st.session)
    ensures Run(st, NavigateTo(path, replace), target, fetch, fuel)
            == Some(AfterLoad(st.(entries := st.entries[..st.position + 1] + ["/login"], position := st.position + 1),
                              "login.html", fetch))
  {
    assert Run(st, NavigateTo(path, replace), target, fetch, fuel) == Run(st, NavigateTo("/login", false), target, fetch, fuel - 1);
    var written := WriteHistory(st, "/login", false);
    assert Run(st, NavigateTo("/login", false), target, fetch, fuel - 1)
        == Run(written, HandleRouteAt("/login"), target, fetch, fuel - 2);
  }

  /**
   * An allowed navigation to a page of the table writes exactly one history
   * entry and then loads; when the load fails that entry stays, one alert
   * is raised, and the page is as it was.
   */
  lemma AllowedNavigationWritesOnce(st: RouterState, path: string, replace: bool, target: Option<User> -> string,
                                    fetch: string -> Fetched, fuel: nat)
    requires ValidState(st) && fuel >= 2
    requires path != "/logout" && path != "" && path in Routes
    requires IsPublic(path) || (IsAuthenticated(st.session) && HasAccess(st.session, path))
    ensures var r := Run(st, NavigateTo(path, replace), target, fetch, fuel);
      r == Some(AfterLoad(WriteHistory(st, path, replace), Routes[path], fetch))
      && r.value.entries == WriteHistory(st, path, replace).entries && Location(r.value) == path
    ensures fetch(Routes[path]).Failed? ==>
      var r := Run(st, NavigateTo(path, replace), target, fetch, fuel).value;
      r.alerts == st.alerts + [LoadFailedAlert] && r.stylesheets == st.stylesheets && r.body == st.body
      && r.scripts == st.scripts && r.session == st.session
  {
    var written := WriteHistory(st, path, replace);
    assert Run(st, NavigateTo(path, replace), target, fetch, fuel) == Run(written, HandleRouteAt(path), target, fetch, fuel - 1);
  }

  /**
   * An allowed path missing from the table is written, then replaced by
   * /login, and the login page loads.
   */
  lemma UnregisteredPathFallsBack(st: RouterState, path: string, replace: bool, target: Option<User> -> string,
                                  fetch: string -> Fetched, fuel: nat)
    requires ValidState(st) && fuel >= 4
    requires path != "/logout" && path != "" && path !in Routes
    requires IsAuthenticated(st.session) && HasAccess(st.session, path)
    ensures Run(st, NavigateTo(path, replace), target, fetch, fuel)
            == Some(AfterLoad(WriteHistory(WriteHistory(st, path, replace), "/login", true), "login.html", fetch))
  {
    assert !IsPublic(path) by {
      assert "/login" in Routes && "/register" in Routes;
    }
    var written := WriteHistory(st, path, replace);
    assert Run(st, NavigateTo(path, replace), target, fetch, fuel) == Run(written, HandleRouteAt(path), target, fetch, fuel - 1);
    assert Run(written, HandleRouteAt(path), target, fetch, fuel - 1)
        == Run(written, NavigateTo("/login", true), target, fetch, fuel - 2);
    var again := WriteHistory(written, "/login", true);
    assert Run(written, NavigateTo("/login", true), target, fetch, fuel - 2)
        == Run(again, HandleRouteAt("/login"), target, fetch, fuel - 3);
  }

  /** A popstate on a page of the table loads it and writes no history. */
  lemma PopstateWritesNoHistory(st: RouterState, target: Option<User> -> string, fetch: string -> Fetched, fuel: nat)
    requires ValidState(st) && fuel >= 1 && Location(st) in Routes
    ensures var r := Run(st, HandleRouteAt(""), target, fetch, fuel);
      r == Some(AfterLoad(st, Routes[Location(st)], fetch)) && r.value.entries == st.entries
      && r.value.position == st.position
  {
  }

  /**
   * An authenticated session denied a path raises one alert and navigates,
   * pushing, to the denial target; nothing else changes first.
   */
  lemma DeniedNavigationAlerts(st: RouterState, path: string, replace: bool, target: Option<User> -> string,
                               fetch: string -> Fetched, fuel: nat)
    requires ValidState(st) && fuel >= 2
    requires IsAuthenticated(st.session) && path != "/logout" && !IsPublic(path) && !HasAccess(st.session, path)
    ensures Run(st, NavigateTo(path, replace), target, fetch, fuel)
            == Run(st.(alerts := st.alerts + [AccessDeniedAlert]), NavigateTo(target(st.session), false), target, fetch,
                   fuel - 2)
  {
    assert Run(st, NavigateTo(path, replace), target, fetch, fuel) == Run(st, DenyAccess, target, fetch, fuel - 1);
  }

  /** Pushing one path and replacing it with another leaves one new entry, the second. */
  lemma PushThenReplace(st: RouterState, first: string, second: string)
    requires ValidState(st) && first != "" && second != ""
    ensures WriteHistory(WriteHistory(st, first, false), second, true)
            == st.(entries := st.entries[..st.position + 1] + [second], position := st.position + 1)
  {
    var pushed := st.entries[..st.position + 1] + [first];
    assert pushed[st.position + 1 := second] == st.entries[..st.position + 1] + [second];
  }

  /** The manager's dashboard path is one a manager may see, and it is not in the table. */
  lemma ManagerDashboard()
    ensures var t := DenialTarget(Some(User(true, Some("manager"))));
      t == "/manager/dashboard" && HasAccess(Some(User(true, Some("manager"))), t) && t !in Routes && !IsPublic(t)
  {
    var t := DenialTarget(Some(User(true, Some("manager"))));
    assert t == "/manager/dashboard";
    assert t[1] == 'm' && t[7] == 'r';
    assert !StartsWith(t, "/customer/") by { assert "/customer/"[1] != t[1]; }
    assert !StartsWith(t, "/driver/") by { assert "/driver/"[1] != t[1]; }
    assert !StartsWith(t, "/admin/") by { assert "/admin/"[1] != t[1]; }
    assert !StartsWith(t, "/management/") by { assert "/management/"[7] != t[7]; }
  }

  /**
   * A manager denied a path alerts once, pushes /manager/dashboard, which
   * the role may see but the table lacks, and ends replacing it with /login.
   */
  lemma ManagerDenialEndsAtLogin(st: RouterState, path: string, replace: bool, fetch: string -> Fetched, fuel: nat)
    requires ValidState(st) && fuel >= 6
    requires st.session == Some(User(true, Some("manager")))
    requires path != "/logout" && !IsPublic(path) && !HasAccess(st.session, path)
    ensures Run(st, NavigateTo(path, replace), DenialTarget, fetch, fuel)
            == Some(AfterLoad(st.(entries := st.entries[..st.position + 1] + ["/login"], position := st.position + 1,
                                  alerts := st.alerts + [AccessDeniedAlert]), "login.html", fetch))
  {
    DeniedNavigationAlerts(st, path, replace, DenialTarget, fetch, fuel);
    ManagerDashboardFallsBack(st.(alerts := st.alerts + [AccessDeniedAlert]), fetch, fuel - 2);
  }

  /** The manager's dashboard path is pushed, then replaced by /login, whose page loads. */
  lemma ManagerDashboardFallsBack(st: RouterState, fetch: string -> Fetched, fuel: nat)
    requires ValidState(st) && fuel >= 4
    requires st.session == Some(User(true, Some("manager")))
    ensures Run(st, NavigateTo(DenialTarget(st.session), false), DenialTarget, fetch, fuel)
            == Some(AfterLoad(st.(entries := st.entries[..st.position + 1] + ["/login"], position := st.position + 1),
                              "login.html", fetch))
  {
    var t := DenialTarget(st.session);
    ManagerDashboard();
    UnregisteredPathFallsBack(st, t, false, DenialTarget, fetch, fuel);
    PushThenReplace(st, t, "/login");
  }

  /**
   * As written, when the role may not see its own dashboard the denial
   * navigates to a path that is denied again: the alerts repeat and the
   * recursion never ends, whatever the fuel.
   */
  lemma {:induction false} DenialLoops(st: RouterState, fetch: string -> Fetched, fuel: nat)
    requires ValidState(st) && IsAuthenticated(st.session) && !HasAccess(st.session, DenialTarget(st.session))
    ensures Run(st, DenyAccess, DenialTarget, fetch, fuel) == None
    decreases fuel
  {
    if fuel > 0 {
      var alerted := st.(alerts := st.alerts + [AccessDeniedAlert]);
      var t := DenialTarget(st.session);
      assert Run(st, DenyAccess, DenialTarget, fetch, fuel) == Run(alerted, NavigateTo(t, false), DenialTarget, fetch, fuel - 1);
      if fuel > 1 {
        assert t != "/logout" && !IsPublic(t);
        assert Run(alerted, NavigateTo(t, false), DenialTarget, fetch, fuel - 1)
            == Run(alerted, DenyAccess, DenialTarget, fetch, fuel - 2);
        DenialLoops(alerted, fetch, fuel - 2);
      }
    }
  }

  /** The role "management" is such a role: its dashboard path needs the role "manager". */
  lemma ManagementRoleLoops(st: RouterState, path: string, replace: bool, fetch: string -> Fetched, fuel: nat)
    requires ValidState(st) && st.session == Some(User(true, Some("management")))
    requires path != "/logout" && !IsPublic(path) && !HasAccess(st.session, path)
    ensures Run(st, NavigateTo(path, replace), DenialTarget, fetch, fuel) == None
  {
    ManagementDashboardDenied();
    if fuel > 0 {
      assert Run(st, NavigateTo(path, replace), DenialTarget, fetch, fuel) == Run(st, DenyAccess, DenialTarget, fetch, fuel - 1);
      DenialLoops(st, fetch, fuel - 1);
    }
  }

  /** The role "management" is sent to /management/dashboard, an area reserved to "manager". */
  lemma ManagementDashboardDenied()
    ensures var session := Some(User(true, Some("management")));
      DenialTarget(session) == "/management/dashboard" && !HasAccess(session, DenialTarget(session))
  {
    var t := DenialTarget(Some(User(true, Some("management"))));
    assert t == "/management/dashboard";
    assert StartsWith(t, "/management/");
  }

  /**
   * With the corrected target the same denial alerts once and pushes
   * /login; whenever the as-written target is one the role may see, the two
   * targets are the same.
   */
  lemma CorrectedDenialEnds(st: RouterState, path: string, replace: bool, fetch: string -> Fetched, fuel: nat)
    requires ValidState(st) && fuel >= 4
    requires IsAuthenticated(st.session) && !HasAccess(st.session, DenialTarget(st.session))
    requires path != "/logout" && !IsPublic(path) && !HasAccess(st.session, path)
    ensures Run(st, NavigateTo(path, replace), SafeDenialTarget, fetch, fuel)
            == Some(AfterLoad(st.(entries := st.entries[..st.position + 1] + ["/login"], position := st.position + 1,
                                  alerts := st.alerts + [AccessDeniedAlert]), "login.html", fetch))
  {
    var alerted := st.(alerts := st.alerts + [AccessDeniedAlert]);
    assert SafeDenialTarget(st.session) == "/login";
    DeniedNavigationAlerts(st, path, replace, SafeDenialTarget, fetch, fuel);
    AllowedNavigationWritesOnce(alerted, "/login", false, SafeDenialTarget, fetch, fuel - 2);
    assert Routes["/login"] == "login.html";
  }

  // ---------------------------------------------------------------------------
  // Properties of loading

  /** The kept stylesheets are exactly those mentioning main.css, in their order. */
  lemma {:induction false} KeepMainMembers(hrefs: seq<string>)
    ensures forall x :: x in KeepMain(hrefs) <==> x in hrefs && Contains(x, "main.css")
    ensures |KeepMain(hrefs)| <= |hrefs|
  {
    if hrefs != [] {
      KeepMainMembers(hrefs[..|hrefs| - 1]);
      assert hrefs == hrefs[..|hrefs| - 1] + [hrefs[|hrefs| - 1]];
    }
  }

  /**
   * Adding keeps the current links first, ends with every new href, and
   * adds none twice: a list without repeats stays without repeats.
   */
  lemma {:induction false} AddMissingFacts(current: seq<string>, hrefs: seq<string>)
    ensures var r := AddMissing(current, hrefs);
      |r| >= |current| && r[..|current|] == current
      && (forall x :: x in r <==> x in current || x in hrefs)
      && ((forall i, j :: 0 <= i < j < |current| ==> current[i] != current[j]) ==>
          (forall i, j :: 0 <= i < j < |r| ==> r[i] != r[j]))
  {
    if hrefs != [] {
      AddMissingFacts(current, hrefs[..|hrefs| - 1]);
      assert hrefs == hrefs[..|hrefs| - 1] + [hrefs[|hrefs| - 1]];
      var before := AddMissing(current, hrefs[..|hrefs| - 1]);
      if hrefs[|hrefs| - 1] !in before {
        assert (before + [hrefs[|hrefs| - 1]])[..|current|] == before[..|current|];
      }
    }
  }

  /** No reloaded script has a src mentioning router.js, and every other script is reloaded with its src. */
  lemma {:induction false} ReloadedScriptsFacts(scripts: seq<Script>)
    ensures var r := ReloadedScripts(scripts);
      |r| <= |scripts| && (forall i :: 0 <= i < |r| ==> Reloads(r[i]))
      && (forall s :: s in scripts && Reloads(s) ==> Element(s) in r)
  {
    if scripts != [] {
      ReloadedScriptsFacts(scripts[..|scripts| - 1]);
      assert scripts == scripts[..|scripts| - 1] + [scripts[|scripts| - 1]];
    }
  }

  /**
   * The scripts are reloaded in document order: the reload of two runs of
   * scripts is the reload of the first followed by that of the second.
   */
  lemma {:induction false} ReloadedScriptsInOrder(a: seq<Script>, b: seq<Script>)
    ensures ReloadedScripts(a + b) == ReloadedScripts(a) + ReloadedScripts(b)
  {
    if b == [] {
      assert a + b == a;
    } else {
      var c := b[..|b| - 1];
      var last := b[|b| - 1];
      ReloadedScriptsInOrder(a, c);
      assert (a + b)[..|a + b| - 1] == a + c;
      assert (a + b)[|a + b| - 1] == last;
      var tail := if Reloads(last) then [Element(last)] else [];
      assert ReloadedScripts(b) == ReloadedScripts(c) + tail;
      assert ReloadedScripts(a + b) == ReloadedScripts(a + c) + tail;
    }
  }

  /** A single script is reloaded as its element exactly when it is not router.js. */
  lemma ReloadedScript(s: Script)
    ensures ReloadedScripts([s]) == if Reloads(s) then [Element(s)] else []
  {
    assert [s][..0] == [];
  }

  /**
   * A loaded page keeps the main.css links, adds each of its stylesheets
   * once, reloads its scripts except router.js, and adds one listener of
   * each kind without removing any.
   */
  lemma LoadedPage(st: RouterState, file: string, fetch: string -> Fetched)
    requires fetch(file).Loaded?
    ensures var r := AfterLoad(st, file, fetch);
      var page := fetch(file).page;
      (forall x :: x in r.stylesheets <==> (x in st.stylesheets && Contains(x, "main.css")) || x in page.stylesheets)
      && r.body == page.body
      && (forall i :: 0 <= i < |r.scripts| ==> Reloads(r.scripts[i]))
      && r.clickListeners == st.clickListeners + 1 && r.popstateListeners == st.popstateListeners + 1
      && r.entries == st.entries && r.position == st.position && r.session == st.session && r.alerts == st.alerts
  {
    KeepMainMembers(st.stylesheets);
    AddMissingFacts(KeepMain(st.stylesheets), fetch(file).page.stylesheets);
    ReloadedScriptsFacts(fetch(file).page.scripts);
  }

  // ---------------------------------------------------------------------------
  // The router object

  class Router {
    var session: Option<User>
    var entries: seq<string>
    var position: nat
    var stylesheets: seq<string>
    var body: string
    var scripts: seq<Script>
    var clickListeners: nat
    var popstateListeners: nat
    var alerts: seq<string>
    const fetch: string -> Fetched

    function State(): RouterState
      reads this
    {
      RouterState(session, entries, position, stylesheets, body, scripts, clickListeners, popstateListeners, alerts)
    }

    predicate Valid()
      reads this
    {
      position < |entries|
    }

    /** The constructor's `init()` adds the first click and popstate listener. */
    constructor(session: Option<User>, location: string, stylesheets: seq<string>, body: string,
                fetch: string -> Fetched)
      ensures Valid() && this.fetch == fetch
      ensures State() == RouterState(session, [location], 0, stylesheets, body, [], 1, 1, [])
    {
      this.session := session;
      this.entries := [location];
      this.position := 0;
      this.stylesheets := stylesheets;
      this.body := body;
      this.scripts := [];
      this.clickListeners := 1;
      this.popstateListeners := 1;
      this.alerts := [];
      this.fetch := fetch;
    }

    method Navigate(path: string, replace: bool)
      requires Valid()
      modifies this
      ensures Valid()
      ensures Some(State()) == Run(old(State()), NavigateTo(path, replace), SafeDenialTarget, fetch, MaxFuel)
      decreases Bound(State(), NavigateTo(path, replace))
    {
      Advance(State(), NavigateTo(path, replace), fetch);
      if path == "/logout" {
        Logout();
        return;
      }
      var isPublic := path == "/login" || path == "/register";
      if !isPublic && !IsAuthenticated(session) {
        Navigate("/login", false);
        return;
      }
      if !isPublic && !HasAccess(session, path) {
        ShowAccessDenied();
        return;
      }
      WriteEntry(path, replace);
      HandleRoute(path);
    }

    /** `replaceState` or `pushState` of the path, or of the current location when it is missing. */
    method WriteEntry(path: string, replace: bool)
      requires Valid()
      modifies this
      ensures Valid() && State() == WriteHistory(old(State()), path, replace)
    {
      var url := if path == "" then entries[position] else path;
      if replace {
        entries := entries[position := url];
      } else {
        entries := entries[..position + 1] + [url];
        position := position + 1;
      }
    }

    /** `handleRoute`: "" stands for a missing path, which reads the current location. */
    method HandleRoute(path: string)
      requires Valid()
      modifies this
      ensures Valid()
      ensures Some(State()) == Run(old(State()), HandleRouteAt(path), SafeDenialTarget, fetch, MaxFuel)
      decreases Bound(State(), HandleRouteAt(path))
    {
      var currentPath := if path == "" then entries[position] else path;
      if currentPath in Routes {
        LoadContent(Routes[currentPath]);
      } else {
        Advance(State(), HandleRouteAt(path), fetch);
        Navigate("/login", true);
      }
    }

    method LoadContent(file: string)
      modifies this
      ensures State() == AfterLoad(old(State()), file, fetch)
    {
      match fetch(file)
      case Failed =>
        alerts := alerts + [LoadFailedAlert];
      case Loaded(page) =>
        var kept := MainStylesheets(stylesheets);
        stylesheets := AddStylesheets(kept, page.stylesheets);
        body := page.body;
        scripts := ReloadScripts(page.scripts);
        clickListeners := clickListeners + 1;
        popstateListeners := popstateListeners + 1;
    }

    /** The removal loop: the links whose href mentions main.css stay. */
    static method MainStylesheets(hrefs: seq<string>) returns (kept: seq<string>)
      ensures kept == KeepMain(hrefs)
    {
      kept := [];
      var i := 0;
      while i < |hrefs|
        invariant 0 <= i <= |hrefs|
        invariant kept == KeepMain(hrefs[..i])
      {
        assert hrefs[..i + 1][..i] == hrefs[..i];
        if Contains(hrefs[i], "main.css") {
          kept := kept + [hrefs[i]];
        }
        i := i + 1;
      }
      assert hrefs[..|hrefs|] == hrefs;
    }

    /** The adding loop: a link is appended when none has its href yet. */
    static method AddStylesheets(current: seq<string>, hrefs: seq<string>) returns (sheets: seq<string>)
      ensures sheets == AddMissing(current, hrefs)
    {
      sheets := current;
      var j := 0;
      while j < |hrefs|
        invariant 0 <= j <= |hrefs|
        invariant sheets == AddMissing(current, hrefs[..j])
      {
        assert hrefs[..j + 1][..j] == hrefs[..j];
        if hrefs[j] !in sheets {
          sheets := sheets + [hrefs[j]];
        }
        j := j + 1;
      }
      assert hrefs[..|hrefs|] == hrefs;
    }

    /** The delayed loop appending a fresh element for each script but router.js. */
    static method ReloadScripts(toLoad: seq<Script>) returns (appended: seq<Script>)
      ensures appended == ReloadedScripts(toLoad)
    {
      appended := [];
      var k := 0;
      while k < |toLoad|
        invariant 0 <= k <= |toLoad|
        invariant appended == ReloadedScripts(toLoad[..k])
      {
        assert toLoad[..k + 1][..k] == toLoad[..k];
        var s := toLoad[k];
        if !(s.src != "" && Contains(s.src, "router.js")) {
          if s.src != "" {
            appended := appended + [Script(s.src, "")];
          } else {
            appended := appended + [s];
          }
        }
        k := k + 1;
      }
      assert toLoad[..|toLoad|] == toLoad;
    }

    method Logout()
      requires Valid()
      modifies this
      ensures Valid()
      ensures Some(State()) == Run(old(State()), LogOut, SafeDenialTarget, fetch, MaxFuel)
      decreases Bound(State(), LogOut)
    {
      Advance(State(), LogOut, fetch);
      session := None;
      Navigate("/login", true);
    }

    /** `showAccessDenied` with the corrected target. */
    method ShowAccessDenied()
      requires Valid()
      modifies this
      ensures Valid()
      ensures Some(State()) == Run(old(State()), DenyAccess, SafeDenialTarget, fetch, MaxFuel)
      decreases Bound(State(), DenyAccess)
    {
      Advance(State(), DenyAccess, fetch);
      alerts := alerts + [AccessDeniedAlert];
      var target := SafeDenialTarget(session);
      Navigate(target, false);
    }

    /** A click on an element: each click listener navigates to its data-route, if it has one. */
    method Click(route: Option<string>)
      requires Valid()
      modifies this
      ensures Valid()
      ensures route.None? ==> State() == old(State())
      ensures route.Some? ==> State() == Dispatch(old(State()), NavigateTo(route.value, false), old(clickListeners), fetch)
    {
      if route.Some? {
        var n := clickListeners;
        var i := 0;
        while i < n
          invariant 0 <= i <= n && Valid()
          invariant State() == Dispatch(old(State()), NavigateTo(route.value, false), i, fetch)
        {
          Navigate(route.value, false);
          i := i + 1;
        }
      }
    }

    /** The back button: one entry back, then each popstate listener handles the current location. */
    method Back()
      requires Valid()
      modifies this
      ensures Valid()
      ensures old(position) == 0 ==> State() == old(State())
      ensures old(position) > 0 ==>
        State() == Dispatch(old(State()).(position := old(position) - 1), HandleRouteAt(""), old(popstateListeners), fetch)
    {
      if position > 0 {
        position := position - 1;
        var start := State();
        var n := popstateListeners;
        var i := 0;
        while i < n
          invariant 0 <= i <= n && Valid()
          invariant State() == Dispatch(start, HandleRouteAt(""), i, fetch)
        {
          HandleRoute("");
          i := i + 1;
        }
      }
    }
  }
}
