// The administrator endpoints of controllers/AdminController.java: the
// session-token lookup, the clearance gates, the paging of the audit log, the
// query-string parser, and the role and account-status updates with their
// guards. The session lookup, the database connection and the users table are
// parameters; the rows the listing endpoints render, the audit entries and the
// HTTP plumbing are not modelled.
module AdminController {
  import opened Wrappers
  import opened JavaStrings
  import opened SecurityLevels
  import opened BLPAccessControl
  import opened ResultModel
  import SessionManager
  import ManagementController
  import opened JsonHelpers

  const Unauthorized: Reply := Reply(401, "{\"error\":\"unauthorized\"}")
  const InsufficientClearance: Reply := Reply(403, "{\"error\":\"insufficient clearance\"}")
  const ServerError: Reply := Reply(500, "{\"error\":\"server error\"}")
  const InvalidRequest: Reply := Reply(400, "{\"error\":\"invalid request\"}")
  const InvalidUserId: Reply := Reply(400, "{\"error\":\"invalid user id\"}")
  const RoleRequired: Reply := Reply(400, "{\"error\":\"role is required\"}")
  const AdminPromotion: Reply := Reply(403, "{\"error\":\"cannot promote users to admin role\"}")
  const InvalidRole: Reply := Reply(400, "{\"error\":\"invalid role (allowed: customer, driver, manager)\"}")
  const InvalidStatus: Reply := Reply(400, "{\"error\":\"invalid status (allowed: active, suspended, revoked)\"}")
  const UserNotFound: Reply := Reply(404, "{\"error\":\"user not found\"}")
  const AdminAccount: Reply := Reply(403, "{\"error\":\"cannot modify admin accounts\"}")
  const UpdateFailed: Reply := Reply(500, "{\"error\":\"update failed\"}")

  const NullPointer: string := "NullPointerException"

  // ---------------------------------------------------------------------------
  // getSessionFromRequest: the SESSION cookie first, then a bearer token

  /** A cookie, trimmed, that starts with "SESSION=" carries the rest as its token. */
  function SessionCookie(c: string): Option<string>
  {
    var t := Trim(c);
    if StartsWith(t, "SESSION=") then Some(t[8..]) else None
  }

  function SessionCookies(cookies: seq<string>): (r: seq<Option<string>>)
    ensures |r| == |cookies| && forall i :: 0 <= i < |cookies| ==> r[i] == SessionCookie(cookies[i])
  {
    seq(|cookies|, i requires 0 <= i < |cookies| => SessionCookie(cookies[i]))
  }

  /** The token handed to the session lookup: the first SESSION cookie, else a "Bearer " header, else null. */
  function SessionToken(cookieHeader: Option<string>, authHeader: Option<string>): Option<string>
  {
    var fromCookie :=
      if cookieHeader.Some? then ManagementController.FirstToken(SessionCookies(JavaSplit(cookieHeader.value, ";")))
      else None;
    if fromCookie.Some? then fromCookie
    else if authHeader.Some? && StartsWith(authHeader.value, "Bearer ") then Some(authHeader.value[7..])
    else None
  }

  /** `getSessionFromRequest` up to the lookup: the cookie loop with its break, then the header. */
  method GetSessionToken(cookieHeader: Option<string>, authHeader: Option<string>) returns (token: Option<string>)
    ensures token == SessionToken(cookieHeader, authHeader)
  {
    token := None;
    if cookieHeader.Some? {
      token := CookieLoop(JavaSplit(cookieHeader.value, ";"));
    }
    if token.None? && authHeader.Some? {
      var auth := authHeader.value;
      if StartsWith(auth, "Bearer ") {
        token := Some(auth[7..]);
      }
    }
  }

  /** The loop over the cookies: the first SESSION cookie ends it. */
  method CookieLoop(cookies: seq<string>) returns (token: Option<string>)
    ensures token == ManagementController.FirstToken(SessionCookies(cookies))
  {
    token := None;
    ghost var tokens := SessionCookies(cookies);
    var i := 0;
    while i < |cookies|
      invariant 0 <= i <= |cookies|
      invariant ManagementController.FirstToken(tokens) == ManagementController.FirstToken(tokens[i..])
    {
      assert tokens[i..][1..] == tokens[i + 1..];
      var c := Trim(cookies[i]);
      if StartsWith(c, "SESSION=") {
        return Some(c[8..]);
      }
      i := i + 1;
    }
  }

  /** Reading a cookie here gives the same token as ManagementController's split at the first '='. */
  lemma SameCookieRule(c: string)
    ensures SessionCookie(c) == ManagementController.CookieToken(c)
  {
    var t := Trim(c);
    if StartsWith(t, "SESSION=") {
      assert t == "SESSION" + "=" + t[8..];
      FirstSeparator("SESSION", t[8..], '=');
      assert IndexOf(t, "=") == 7;
      assert t[..7] == "SESSION";
      assert SplitFirst(t, "=") == ["SESSION", t[8..]];
    }
    if IndexOf(t, "=") == 7 && t[..7] == "SESSION" {
      assert t[7..8] == "=";
      assert t[..8] == t[..7] + t[7..8];
    }
  }

  /**
   * The cookie is asked first and the bearer token second; ManagementController
   * asks in the opposite order.
   */
  lemma CookieThenBearer(cookieHeader: Option<string>, authHeader: Option<string>)
    ensures var fromCookie := ManagementController.Token(None, cookieHeader);
      SessionToken(cookieHeader, authHeader)
        == if fromCookie.Some? then fromCookie else ManagementController.Token(authHeader, None)
  {
    if cookieHeader.Some? {
      var cookies := JavaSplit(cookieHeader.value, ";");
      forall i | 0 <= i < |cookies|
        ensures SessionCookie(cookies[i]) == ManagementController.CookieToken(cookies[i])
      {
        SameCookieRule(cookies[i]);
      }
      assert SessionCookies(cookies) == ManagementController.CookieTokens(cookies);
    }
  }

  /** With both a bearer token and a SESSION cookie, this controller and ManagementController pick different tokens. */
  lemma OrderDiffers(t: string, u: string)
    requires ';' !in t && (t == [] || !IsTrimSpace(t[|t| - 1]))
    ensures SessionToken(Some("SESSION=" + t), Some("Bearer " + u)) == Some(t)
    ensures ManagementController.Token(Some("Bearer " + u), Some("SESSION=" + t)) == Some(u)
  {
    ManagementController.SessionCookieRoundTrip(t);
    CookieThenBearer(Some("SESSION=" + t), Some("Bearer " + u));
    ManagementController.BearerWins("Bearer " + u, Some("SESSION=" + t), u);
  }

  // ---------------------------------------------------------------------------
  // The clearance gates

  /**
   * The users, role and status endpoints: no session is 401, and a clearance
   * other than TOP_SECRET, including none at all, is 403.
   */
  function TopSecretGate(session: Result<SessionManager.Session, string>): (r: Option<Reply>)
    ensures r.None? <==> session.Ok? && session.value.clearance == Some(TopSecret)
    ensures r.Some? ==> r.value in {Unauthorized, InsufficientClearance}
  {
    if session.Err? then Some(Unauthorized)
    else if session.value.clearance != Some(TopSecret) then Some(InsufficientClearance)
    else None
  }

  /** The logs endpoint: read access at TOP_SECRET, whose check throws on a session without clearance. */
  function LogsGate(session: Result<SessionManager.Session, string>): Outcome<Option<Reply>>
  {
    if session.Err? then Returned(Some(Unauthorized))
    else if session.value.clearance.None? then Threw(NullPointer)
    else if !CheckReadAccess(session.value.clearance.value, TopSecret) then Returned(Some(InsufficientClearance))
    else Returned(None)
  }

  /**
   * Reading at TOP_SECRET and holding exactly TOP_SECRET are the same test:
   * the two gates differ only on a session without clearance, which the logs
   * gate does not survive.
   */
  lemma GatesAgree(session: Result<SessionManager.Session, string>)
    ensures session.Err? || session.value.clearance.Some? ==> LogsGate(session) == Returned(TopSecretGate(session))
    ensures LogsGate(session).Threw? <==> session.Ok? && session.value.clearance.None?
  {
    if session.Ok? && session.value.clearance.Some? {
      var c := session.value.clearance.value;
      assert AtOrAbove(c, TopSecret) <==> c == TopSecret by {
        TopSecretIsTop(c);
      }
    }
  }

  lemma TopSecretIsTop(c: Level)
    ensures AtOrAbove(c, TopSecret) <==> c == TopSecret
  {
    OrdinalDecidesOrder(c, TopSecret);
  }

  // ---------------------------------------------------------------------------
  // parseQueryString

  /** A pair split at its first '=', which must not be at index 0; the value keeps any further '='. */
  function QueryPair(pair: string): (r: Option<(string, string)>)
    ensures r.Some? <==> IndexOf(pair, "=") > 0
    ensures r.Some? ==> r.value.0 != [] && '=' !in r.value.0 && pair == r.value.0 + "=" + r.value.1
  {
    OccursAtChar(pair, '=');
    var idx := IndexOf(pair, "=");
    if idx > 0 then
      assert pair == pair[..idx] + "=" + pair[idx + 1..] by {
        assert pair[idx..idx + 1] == "=";
      }
      Some((pair[..idx], pair[idx + 1..]))
    else None
  }

  function QueryPairs(pieces: seq<string>): (r: seq<Option<(string, string)>>)
    ensures |r| == |pieces| && forall i :: 0 <= i < |pieces| ==> r[i] == QueryPair(pieces[i])
  {
    seq(|pieces|, i requires 0 <= i < |pieces| => QueryPair(pieces[i]))
  }

  /** `parseQueryString`: null is the empty map; pairs split at '&' fill the map in order. */
  function QueryParams(query: Option<string>): (r: map<string, string>)
    ensures query.None? ==> r == map[]
  {
    if query.None? then map[] else Fields(QueryPairs(JavaSplit(query.value, "&")))
  }

  /** The loop over the pairs, putting each one into the map. */
  method ParseQueryString(query: Option<string>) returns (params: map<string, string>)
    ensures params == QueryParams(query)
  {
    params := map[];
    if query.None? {
      return;
    }
    var pairs := JavaSplit(query.value, "&");
    ghost var entries := QueryPairs(pairs);
    for j := 0 to |pairs|
      invariant params == Fields(entries[..j])
    {
      assert entries[..j + 1][..j] == entries[..j];
      var pair := ReadQueryPair(pairs[j]);
      if pair.Some? {
        params := params[pair.value.0 := pair.value.1];
      }
    }
    assert entries[..|pairs|] == entries;
  }

  /** One iteration's body: the first '=' and the text on either side. */
  method ReadQueryPair(pair: string) returns (r: Option<(string, string)>)
    ensures r == QueryPair(pair)
  {
    var idx := IndexOf(pair, "=");
    if idx > 0 {
      return Some((pair[..idx], pair[idx + 1..]));
    }
    return None;
  }

  /** Every key is non-empty and free of '=', and every entry is the last pair written under its key. */
  lemma QueryParamsFacts(query: string)
    ensures var params := QueryParams(Some(query));
      forall k :: k in params ==> k != [] && '=' !in k
    ensures var pieces := JavaSplit(query, "&");
      forall i :: 0 <= i < |pieces| && QueryPair(pieces[i]).Some?
                  && (forall j :: i < j < |pieces| ==> QueryPair(pieces[j]).None? || QueryPair(pieces[j]).value.0 != QueryPair(pieces[i]).value.0)
                  ==> QueryPair(pieces[i]).value.0 in QueryParams(Some(query))
                      && QueryParams(Some(query))[QueryPair(pieces[i]).value.0] == QueryPair(pieces[i]).value.1
  {
    QueryKeysWellFormed(query);
    QueryLastPairWins(query);
  }

  lemma QueryKeysWellFormed(query: string)
    ensures forall k :: k in QueryParams(Some(query)) ==> k != [] && '=' !in k
  {
    var entries := QueryPairs(JavaSplit(query, "&"));
    FieldsComeFromPairs(entries);
  }

  lemma QueryLastPairWins(query: string)
    ensures var pieces := JavaSplit(query, "&");
      forall i :: 0 <= i < |pieces| && QueryPair(pieces[i]).Some?
                  && (forall j :: i < j < |pieces| ==> QueryPair(pieces[j]).None? || QueryPair(pieces[j]).value.0 != QueryPair(pieces[i]).value.0)
                  ==> QueryPair(pieces[i]).value.0 in QueryParams(Some(query))
                      && QueryParams(Some(query))[QueryPair(pieces[i]).value.0] == QueryPair(pieces[i]).value.1
  {
    var pieces := JavaSplit(query, "&");
    var entries := QueryPairs(pieces);
    forall i | 0 <= i < |pieces| && QueryPair(pieces[i]).Some?
               && (forall j :: i < j < |pieces| ==> QueryPair(pieces[j]).None? || QueryPair(pieces[j]).value.0 != QueryPair(pieces[i]).value.0)
      ensures QueryPair(pieces[i]).value.0 in QueryParams(Some(query))
              && QueryParams(Some(query))[QueryPair(pieces[i]).value.0] == QueryPair(pieces[i]).value.1
    {
      var (k, v) := QueryPair(pieces[i]).value;
      assert forall j :: i < j < |entries| ==> entries[j].None? || entries[j].value.0 != k;
      LastPairWins(entries, i, k, v);
    }
  }

  /** A single key=value query reads back as that one entry. */
  lemma SingleQueryPair(k: string, v: string)
    requires k != [] && '=' !in k && '&' !in k && '&' !in v
    ensures QueryParams(Some(k + "=" + v)) == map[k := v]
  {
    var s := k + "=" + v;
    assert JavaSplit(s, "&") == [s] by {
      assert '&' !in s;
      NoSeparator(s, '&');
    }
    assert QueryPair(s) == Some((k, v)) by {
      FirstSeparator(k, v, '=');
      assert s[..|k|] == k && s[|k| + 1..] == v;
    }
    assert QueryPairs([s]) == [Some((k, v))];
    assert Fields([Some((k, v))]) == map[k := v] by {
      assert [Some((k, v))][..0] == [];
    }
  }


  // ---------------------------------------------------------------------------
  // The audit-log page

  datatype Paging = Paging(limit: int, offset: int)

  /** limit 100 and offset 0 unless the query holds a parsable value; a limit above 1000 is cut to 1000. */
  function PagingFor(query: Option<string>): Paging
  {
    if query.None? then Paging(100, 0)
    else
      var params := QueryParams(query);
      var limit := if "limit" in params && ParseInt(params["limit"]).Some? then ParseInt(params["limit"]).value else 100;
      var offset := if "offset" in params && ParseInt(params["offset"]).Some? then ParseInt(params["offset"]).value else 0;
      Paging(if limit > 1000 then 1000 else limit, offset)
  }

  /** The handler's reassignments of `limit` and `offset`. */
  method ReadPaging(query: Option<string>) returns (limit: int, offset: int)
    ensures Paging(limit, offset) == PagingFor(query)
  {
    limit := 100;
    offset := 0;
    if query.Some? {
      var params := ParseQueryString(query);
      if "limit" in params {
        var parsed := ParseInt(params["limit"]);
        if parsed.Some? {
          limit := parsed.value;
          if limit > 1000 {
            limit := 1000;
          }
        }
      }
      if "offset" in params {
        var parsed := ParseInt(params["offset"]);
        if parsed.Some? {
          offset := parsed.value;
        }
      }
    }
  }

  /** The limit never exceeds 1000, and each default survives unless its parameter parses. */
  lemma PagingBounds(query: Option<string>)
    ensures PagingFor(query).limit <= 1000
    ensures var params := QueryParams(query);
      PagingFor(query).limit != 100 ==> "limit" in params && ParseInt(params["limit"]).Some?
    ensures var params := QueryParams(query);
      PagingFor(query).offset != 0 ==> "offset" in params && PagingFor(query).offset == ParseInt(params["offset"]).value
    ensures var params := QueryParams(query);
      "limit" in params && ParseInt(params["limit"]).Some? && ParseInt(params["limit"]).value <= 1000
      ==> PagingFor(query).limit == ParseInt(params["limit"]).value
  {
  }

  /** There is no lower bound: a negative limit is passed on as it is. */
  lemma NegativeLimitKept(n: nat)
    requires n <= 0x8000_0000
    ensures PagingFor(Some("limit=-" + NatToString(n))).limit == -(n as int)
  {
    var d := NatToString(n);
    var v := "-" + d;
    assert '&' !in v by {
      assert forall i :: 1 <= i < |v| ==> v[i] == d[i - 1] && IsDigit(d[i - 1]);
    }
    SingleQueryPair("limit", v);
    assert "limit=-" + d == "limit" + "=" + v;
    assert v[1..] == d;
  }

  /**
   * `handleGetLogs` up to the query: the gate, the paging, then the
   * connection. The rows listed are not modelled.
   */
  function LogsAccess(session: Result<SessionManager.Session, string>, query: Option<string>,
                      connection: Result<(), string>): Outcome<Result<Paging, Reply>>
  {
    match LogsGate(session)
    case Threw(e) => Threw(e)
    case Returned(Some(reply)) => Returned(Err(reply))
    case Returned(None) =>
      if connection.Err? then Returned(Err(ServerError)) else Returned(Ok(PagingFor(query)))
  }

  /** `handleGetUsers` up to the query: the gate, then the connection. The rows listed are not modelled. */
  function UsersAccess(session: Result<SessionManager.Session, string>, connection: Result<(), string>): Result<(), Reply>
  {
    match TopSecretGate(session)
    case Some(reply) => Err(reply)
    case None => if connection.Err? then Err(ServerError) else Ok(())
  }

  /** Both listings are reached only with a TOP_SECRET session and an open connection. */
  lemma ListingsNeedTopSecret(session: Result<SessionManager.Session, string>, query: Option<string>,
                              connection: Result<(), string>)
    ensures LogsAccess(session, query, connection).Returned? && LogsAccess(session, query, connection).value.Ok?
            <==> session.Ok? && session.value.clearance == Some(TopSecret) && connection.Ok?
    ensures UsersAccess(session, connection).Ok?
            <==> session.Ok? && session.value.clearance == Some(TopSecret) && connection.Ok?
    ensures session.Err? ==> LogsAccess(session, query, connection) == Returned(Err(Unauthorized))
                             && UsersAccess(session, connection) == Err(Unauthorized)
  {
    GatesAgree(session);
  }

  // ---------------------------------------------------------------------------
  // The role and status updates

  /** The target user's id: the fourth piece of the path split at '/'. */
  function TargetUserId(path: string): (r: Result<int, Reply>)
    ensures r.Err? ==> r.error in {InvalidRequest, InvalidUserId}
  {
    var parts := JavaSplit(path, "/");
    if |parts| < 4 then Err(InvalidRequest)
    else match ParseLong(parts[3])
      case None => Err(InvalidUserId)
      case Some(id) => Ok(id)
  }

  /** The pieces of a user path, split at '/'. */
  lemma UserPathPieces(d: string, action: string)
    requires '/' !in d && '/' !in action && action != []
    ensures JavaSplit("/admin/users/" + d + "/" + action, "/") == ["", "admin", "users", d, action]
  {
    var xs: seq<string> := ["", "admin", "users", d, action];
    assert xs[4..] == [action] && xs[3..][1..] == xs[4..] && xs[2..][1..] == xs[3..] && xs[1..][1..] == xs[2..];
    var tail := d + "/" + action;
    assert Join(xs[3..], "/") == tail;
    assert Join(xs[2..], "/") == "users" + "/" + tail;
    assert Join(xs[1..], "/") == "admin" + "/" + ("users" + "/" + tail);
    assert Join(xs, "/") == "" + "/" + ("admin" + "/" + ("users" + "/" + tail));
    assert "/admin/users/" == "" + "/" + "admin" + "/" + "users" + "/";
    assert Join(xs, "/") == "/admin/users/" + tail;
    assert "/admin/users/" + d + "/" + action == "/admin/users/" + tail;
    JavaSplitJoin(xs, '/');
  }

  /** The path the routes send to this controller reads back the user id in it. */
  lemma UserPathRoundTrip(id: nat, action: string)
    requires id <= LongMax && action != [] && '/' !in action
    ensures TargetUserId("/admin/users/" + NatToString(id) + "/" + action) == Ok(id)
  {
    var d := NatToString(id);
    assert '/' !in d by {
      assert forall i :: 0 <= i < |d| ==> IsDigit(d[i]);
    }
    UserPathPieces(d, action);
    ParseNatToString(id);
  }


  const AssignableRoles: set<string> := {"customer", "driver", "manager"}
  const AccountStatuses: set<string> := {"active", "suspended", "revoked"}

  /** The new role: present and not blank, not "admin" in any case, and exactly one of the three others. */
  function NewRole(fields: map<string, string>): (r: Result<string, Reply>)
    ensures r.Err? ==> r.error in {RoleRequired, AdminPromotion, InvalidRole}
    ensures r.Ok? ==> "role" in fields && r.value == fields["role"] && r.value in AssignableRoles
  {
    if "role" !in fields || TrimsToEmpty(fields["role"]) then Err(RoleRequired)
    else if EqualsIgnoreCase(fields["role"], "admin") then Err(AdminPromotion)
    else if fields["role"] !in AssignableRoles then Err(InvalidRole)
    else Ok(fields["role"])
  }

  /** The new status: exactly one of active, suspended, revoked. */
  function NewStatus(fields: map<string, string>): (r: Result<string, Reply>)
    ensures r.Ok? <==> "status" in fields && fields["status"] in AccountStatuses
    ensures r.Ok? ==> r.value == fields["status"]
    ensures r.Err? ==> r.error == InvalidStatus
  {
    if "status" !in fields || fields["status"] !in AccountStatuses then Err(InvalidStatus)
    else Ok(fields["status"])
  }

  /** `getClearanceLevelForRole`: the role lower-cased, then customer 0, driver 1, manager 2, admin 3, else 0. */
  function ClearanceForRole(role: string): int
  {
    var lower := ToLower(role);
    if lower == "customer" then 0
    else if lower == "driver" then 1
    else if lower == "manager" then 2
    else if lower == "admin" then 3
    else 0
  }

  /** A user row as the handlers read and write it. */
  datatype User = User(username: string, role: string, clearanceLevel: int, accountStatus: string)

  type Users = map<int, User>

  function RoleUpdatedBody(role: string, level: int): string
  {
    "{\"success\":true,\"message\":\"Role updated to " + role + "\",\"clearance_level\":" + IntToString(level) + "}"
  }

  function StatusUpdatedBody(status: string): string
  {
    "{\"success\":true,\"message\":\"Account status updated to " + status + "\"}"
  }

  /** The checks the two updates share before the body is read: the gate, then the path. */
  function UpdateTarget(session: Result<SessionManager.Session, string>, path: string): (r: Result<int, Reply>)
    ensures r.Ok? ==> session.Ok? && session.value.clearance == Some(TopSecret)
  {
    match TopSecretGate(session)
    case Some(reply) => Err(reply)
    case None => TargetUserId(path)
  }

  /**
   * `handleUpdateUserRole`: the reply and the users table afterwards.
   * `sqlFails` stands for an SQL error in the lookup or the update, and
   * `rowsUpdated` is the count the update statement reports.
   */
  function UpdateUserRole(session: Result<SessionManager.Session, string>, path: string, body: string,
                          connection: Result<(), string>, sqlFails: bool, users: Users, rowsUpdated: int): (Reply, Users)
  {
    match UpdateTarget(session, path)
    case Err(reply) => (reply, users)
    case Ok(id) =>
      match NewRole(CommaSplitJson(Some(body)))
      case Err(reply) => (reply, users)
      case Ok(role) => WriteRole(id, role, connection, sqlFails, users, rowsUpdated)
  }

  /** The database stage of a role update: the lookup, the admin-row guard and the update. */
  function WriteRole(id: int, role: string, connection: Result<(), string>, sqlFails: bool,
                     users: Users, rowsUpdated: int): (Reply, Users)
  {
    if connection.Err? || sqlFails then (ServerError, users)
    else if id !in users then (UserNotFound, users)
    else if users[id].role == "admin" then (AdminAccount, users)
    else if rowsUpdated <= 0 then (UpdateFailed, users)
    else
      var level := ClearanceForRole(role);
      (Reply(200, RoleUpdatedBody(role, level)), users[id := users[id].(role := role, clearanceLevel := level)])
  }

  /** `handleUpdateUserStatus`, with the same parameters. */
  function UpdateUserStatus(session: Result<SessionManager.Session, string>, path: string, body: string,
                            connection: Result<(), string>, sqlFails: bool, users: Users, rowsUpdated: int): (Reply, Users)
  {
    match UpdateTarget(session, path)
    case Err(reply) => (reply, users)
    case Ok(id) =>
      match NewStatus(CommaSplitJson(Some(body)))
      case Err(reply) => (reply, users)
      case Ok(status) => WriteStatus(id, status, connection, sqlFails, users, rowsUpdated)
  }

  /** The database stage of a status update. */
  function WriteStatus(id: int, status: string, connection: Result<(), string>, sqlFails: bool,
                       users: Users, rowsUpdated: int): (Reply, Users)
  {
    if connection.Err? || sqlFails then (ServerError, users)
    else if id !in users then (UserNotFound, users)
    else if users[id].role == "admin" then (AdminAccount, users)
    else if rowsUpdated <= 0 then (UpdateFailed, users)
    else (Reply(200, StatusUpdatedBody(status)), users[id := users[id].(accountStatus := status)])
  }

  // ---------------------------------------------------------------------------
  // Properties of the updates

  /** Upper-casing and lower-casing identify the same pairs of characters. */
  lemma CaseFoldsAgree(a: string, b: string)
    ensures EqualsIgnoreCase(a, b) <==> ToLower(a) == ToLower(b)
  {
    if |a| == |b| {
      forall i | 0 <= i < |a|
        ensures UpperChar(a[i]) == UpperChar(b[i]) <==> LowerChar(a[i]) == LowerChar(b[i])
      {
      }
      if ToLower(a) == ToLower(b) {
        assert forall i :: 0 <= i < |a| ==> ToLower(a)[i] == ToLower(b)[i];
      }
      if ToUpper(a) == ToUpper(b) {
        assert forall i :: 0 <= i < |a| ==> ToUpper(a)[i] == ToUpper(b)[i];
      }
    } else {
      assert |ToUpper(a)| != |ToUpper(b)| && |ToLower(a)| != |ToLower(b)|;
    }
  }

  lemma LowerOfLower(s: string)
    requires All(s, IsLower)
    ensures ToLower(s) == s
  {
  }

  /** The clearance is between 0 and 3 and ignores the case of the role. */
  lemma ClearanceIgnoresCase(role: string)
    ensures 0 <= ClearanceForRole(role) <= 3
    ensures ClearanceForRole(ToLower(role)) == ClearanceForRole(role)
  {
    LowerIdempotent(role);
  }

  /** The clearance is 3 exactly for the roles the promotion guard refuses as "admin" in any case. */
  lemma ClearanceThreeIsAdmin(role: string)
    ensures ClearanceForRole(role) == 3 <==> EqualsIgnoreCase(role, "admin")
  {
    CaseFoldsAgree(role, "admin");
    LowerOfLower("admin");
  }

  /** A role already in lower case is compared as written: the three assignable roles get 0, 1 and 2. */
  lemma ClearanceOfLowerCase(role: string)
    requires All(role, IsLower)
    ensures ClearanceForRole(role) == if role == "customer" then 0 else if role == "driver" then 1
                                      else if role == "manager" then 2 else if role == "admin" then 3 else 0
  {
    LowerOfLower(role);
  }

  /** The role guard lets through exactly the three assignable roles, written in lower case. */
  lemma NewRoleAccepts(fields: map<string, string>)
    ensures NewRole(fields).Ok? <==> "role" in fields && fields["role"] in AssignableRoles
    ensures "role" in fields && !TrimsToEmpty(fields["role"]) && EqualsIgnoreCase(fields["role"], "admin")
            ==> NewRole(fields) == Err(AdminPromotion)
  {
    if "role" in fields && fields["role"] in AssignableRoles {
      var r := fields["role"];
      TrimKeeps(r);
      assert |r| != 5;
      assert |ToUpper(r)| != |ToUpper("admin")|;
    }
  }

  /**
   * Only role changes that keep the users table's invariants: no admin row
   * touched, none made admin, and a changed row differs only in a role it may
   * be given and the clearance that role carries.
   */
  predicate RoleChangesOnly(users: Users, after: Users)
  {
    after.Keys == users.Keys
    && (forall u :: u in users && users[u].role == "admin" ==> after[u] == users[u])
    && (forall u :: u in after && after[u].role == "admin" ==> users[u].role == "admin")
    && (forall u :: u in users && after[u] != users[u] ==>
          after[u] == users[u].(role := after[u].role, clearanceLevel := ClearanceForRole(after[u].role))
          && after[u].role in AssignableRoles && 0 <= after[u].clearanceLevel <= 2)
  }

  /** Only status changes: no admin row touched, and a changed row differs only in an allowed status. */
  predicate StatusChangesOnly(users: Users, after: Users)
  {
    after.Keys == users.Keys
    && (forall u :: u in users && users[u].role == "admin" ==> after[u] == users[u])
    && (forall u :: u in users && after[u] != users[u] ==>
          after[u] == users[u].(accountStatus := after[u].accountStatus) && after[u].accountStatus in AccountStatuses)
  }

  /** The database stage of a role update keeps the table's invariants and changes it only on a 200 reply. */
  lemma WriteRoleKeepsTable(id: int, role: string, connection: Result<(), string>, sqlFails: bool,
                            users: Users, rowsUpdated: int)
    requires role in AssignableRoles
    ensures var (reply, after) := WriteRole(id, role, connection, sqlFails, users, rowsUpdated);
      RoleChangesOnly(users, after) && (after != users ==> reply.status == 200)
  {
    if connection.Err? || sqlFails || id !in users || users[id].role == "admin" || rowsUpdated <= 0 {
      UnchangedRolesOnly(users);
    } else {
      AssignableClearance(role);
      RoleWriteOnly(users, id, role, ClearanceForRole(role));
    }
  }

  lemma UnchangedRolesOnly(users: Users)
    ensures RoleChangesOnly(users, users)
  {
  }

  /** Writing an assignable role and its clearance into a non-admin row is a role change only. */
  lemma RoleWriteOnly(users: Users, id: int, role: string, level: int)
    requires id in users && users[id].role != "admin" && role in AssignableRoles
    requires level == ClearanceForRole(role) && role != "admin" && 0 <= level <= 2
    ensures RoleChangesOnly(users, users[id := users[id].(role := role, clearanceLevel := level)])
  {
    RoleWriteSparesAdmins(users, id, role, level);
    RoleWriteChangesOneRow(users, id, role, level);
  }

  /** Such a write leaves the admin rows alone and makes no row an admin. */
  lemma RoleWriteSparesAdmins(users: Users, id: int, role: string, level: int)
    requires id in users && users[id].role != "admin" && role != "admin"
    ensures var after := users[id := users[id].(role := role, clearanceLevel := level)];
      (forall u :: u in users && users[u].role == "admin" ==> after[u] == users[u])
      && (forall u :: u in after && after[u].role == "admin" ==> users[u].role == "admin")
  {
  }

  /** Such a write changes one row, to an assignable role and that role's clearance. */
  lemma RoleWriteChangesOneRow(users: Users, id: int, role: string, level: int)
    requires id in users && role in AssignableRoles && level == ClearanceForRole(role) && 0 <= level <= 2
    ensures var after := users[id := users[id].(role := role, clearanceLevel := level)];
      forall u :: u in users && after[u] != users[u] ==>
        after[u] == users[u].(role := after[u].role, clearanceLevel := ClearanceForRole(after[u].role))
        && after[u].role in AssignableRoles && 0 <= after[u].clearanceLevel <= 2
  {
    var after := users[id := users[id].(role := role, clearanceLevel := level)];
    forall u | u in users && after[u] != users[u]
      ensures after[u] == users[u].(role := after[u].role, clearanceLevel := ClearanceForRole(after[u].role))
    {
      assert u == id;
    }
  }

  /** An assignable role is granted a clearance of 0 to 2, and is not the admin role. */
  lemma AssignableClearance(role: string)
    requires role in AssignableRoles
    ensures 0 <= ClearanceForRole(role) <= 2 && role != "admin"
  {
    if role == "customer" {
      assert ClearanceForRole("customer") == 0;
    } else if role == "driver" {
      assert ClearanceForRole("driver") == 1;
    } else {
      assert ClearanceForRole("manager") == 2;
    }
  }

  /**
   * A role update keeps the table's invariants, and changes anything only
   * with a TOP_SECRET session and a 200 reply.
   */
  lemma RoleUpdateGuards(session: Result<SessionManager.Session, string>, path: string, body: string,
                         connection: Result<(), string>, sqlFails: bool, users: Users, rowsUpdated: int)
    ensures var (reply, after) := UpdateUserRole(session, path, body, connection, sqlFails, users, rowsUpdated);
      RoleChangesOnly(users, after)
      && (after != users ==> reply.status == 200 && session.Ok? && session.value.clearance == Some(TopSecret))
  {
    match UpdateTarget(session, path)
    case Err(_) =>
    case Ok(id) =>
      match NewRole(CommaSplitJson(Some(body)))
      case Err(_) =>
      case Ok(role) => WriteRoleKeepsTable(id, role, connection, sqlFails, users, rowsUpdated);
  }

  /**
   * A status update keeps the table's invariants, and changes anything only
   * with a TOP_SECRET session and a 200 reply.
   */
  lemma StatusUpdateGuards(session: Result<SessionManager.Session, string>, path: string, body: string,
                           connection: Result<(), string>, sqlFails: bool, users: Users, rowsUpdated: int)
    ensures var (reply, after) := UpdateUserStatus(session, path, body, connection, sqlFails, users, rowsUpdated);
      StatusChangesOnly(users, after)
      && (after != users ==> reply.status == 200 && session.Ok? && session.value.clearance == Some(TopSecret))
  {
    match UpdateTarget(session, path)
    case Err(_) =>
    case Ok(id) =>
      match NewStatus(CommaSplitJson(Some(body)))
      case Err(_) =>
      case Ok(status) => WriteStatusKeepsTable(id, status, connection, sqlFails, users, rowsUpdated);
  }

  lemma WriteStatusKeepsTable(id: int, status: string, connection: Result<(), string>, sqlFails: bool,
                              users: Users, rowsUpdated: int)
    requires status in AccountStatuses
    ensures var (reply, after) := WriteStatus(id, status, connection, sqlFails, users, rowsUpdated);
      StatusChangesOnly(users, after) && (after != users ==> reply.status == 200)
  {
  }


  /**
   * A TOP_SECRET administrator setting a non-admin user's role through the
   * path and body the admin page sends: 200, and the row gets the role and its
   * clearance.
   */
  lemma RoleUpdateSucceeds(session: Result<SessionManager.Session, string>, id: nat, role: string,
                           users: Users, rowsUpdated: int)
    requires session.Ok? && session.value.clearance == Some(TopSecret)
    requires id <= LongMax && id in users && users[id].role != "admin" && rowsUpdated > 0
    requires role in AssignableRoles
    ensures var level := ClearanceForRole(role);
      UpdateUserRole(session, "/admin/users/" + NatToString(id) + "/role", "{\"role\":\"" + role + "\"}",
                     Ok(()), false, users, rowsUpdated)
        == (Reply(200, RoleUpdatedBody(role, level)), users[id := users[id].(role := role, clearanceLevel := level)])
  {
    assert "/" + "role" == "/role";
    assert "/admin/users/" + NatToString(id) + "/role" == "/admin/users/" + NatToString(id) + "/" + "role";
    TargetOfUserPath(session, id, "role");
    RoleBodyAccepted(role);
    RoleUpdateReachesWrite(session, "/admin/users/" + NatToString(id) + "/role", "{\"role\":\"" + role + "\"}",
                           id, role, Ok(()), false, users, rowsUpdated);
  }

  lemma TargetOfUserPath(session: Result<SessionManager.Session, string>, id: nat, action: string)
    requires session.Ok? && session.value.clearance == Some(TopSecret)
    requires id <= LongMax && action != [] && '/' !in action
    ensures UpdateTarget(session, "/admin/users/" + NatToString(id) + "/" + action) == Ok(id)
  {
    UserPathRoundTrip(id, action);
  }

  /** The body the admin page sends for a role change carries that role. */
  lemma RoleBodyAccepted(role: string)
    requires role in AssignableRoles
    ensures NewRole(CommaSplitJson(Some("{\"role\":\"" + role + "\"}"))) == Ok(role)
  {
    assert "{\"role\":\"" + role + "\"}" == "{\"" + "role" + "\":\"" + role + "\"}";
    CommaSplitSinglePair("role", role);
    NewRoleAccepts(map["role" := role]);
  }

  lemma RoleUpdateReachesWrite(session: Result<SessionManager.Session, string>, path: string, body: string,
                               id: int, role: string, connection: Result<(), string>, sqlFails: bool,
                               users: Users, rowsUpdated: int)
    requires UpdateTarget(session, path) == Ok(id) && NewRole(CommaSplitJson(Some(body))) == Ok(role)
    ensures UpdateUserRole(session, path, body, connection, sqlFails, users, rowsUpdated)
            == WriteRole(id, role, connection, sqlFails, users, rowsUpdated)
  {
  }

  /** The same for a status update. */
  lemma StatusUpdateSucceeds(session: Result<SessionManager.Session, string>, id: nat, status: string,
                             users: Users, rowsUpdated: int)
    requires session.Ok? && session.value.clearance == Some(TopSecret)
    requires id <= LongMax && id in users && users[id].role != "admin" && rowsUpdated > 0
    requires status in AccountStatuses
    ensures UpdateUserStatus(session, "/admin/users/" + NatToString(id) + "/status", "{\"status\":\"" + status + "\"}",
                             Ok(()), false, users, rowsUpdated)
              == (Reply(200, StatusUpdatedBody(status)), users[id := users[id].(accountStatus := status)])
  {
    assert "/" + "status" == "/status";
    assert "/admin/users/" + NatToString(id) + "/status" == "/admin/users/" + NatToString(id) + "/" + "status";
    TargetOfUserPath(session, id, "status");
    StatusBodyAccepted(status);
    StatusUpdateReachesWrite(session, "/admin/users/" + NatToString(id) + "/status", "{\"status\":\"" + status + "\"}",
                             id, status, Ok(()), false, users, rowsUpdated);
  }

  /** The body the admin page sends for a status change carries that status. */
  lemma StatusBodyAccepted(status: string)
    requires status in AccountStatuses
    ensures NewStatus(CommaSplitJson(Some("{\"status\":\"" + status + "\"}"))) == Ok(status)
  {
    assert "{\"status\":\"" + status + "\"}" == "{\"" + "status" + "\":\"" + status + "\"}";
    CommaSplitSinglePair("status", status);
  }

  lemma StatusUpdateReachesWrite(session: Result<SessionManager.Session, string>, path: string, body: string,
                                 id: int, status: string, connection: Result<(), string>, sqlFails: bool,
                                 users: Users, rowsUpdated: int)
    requires UpdateTarget(session, path) == Ok(id) && NewStatus(CommaSplitJson(Some(body))) == Ok(status)
    ensures UpdateUserStatus(session, path, body, connection, sqlFails, users, rowsUpdated)
            == WriteStatus(id, status, connection, sqlFails, users, rowsUpdated)
  {
  }

}
