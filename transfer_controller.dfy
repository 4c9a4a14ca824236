// The transfer endpoints (controllers/TransferController.java): the session
// comes from the SESSION cookie alone, the IDs from the body or the path, the
// work from TransferService, and the status code of a failure from the words
// of its (escaped) message. The session lookup, the user-id lookup and the
// DAO outcomes are parameters; the JSON rendering of the two listings is not
// modelled (a successful listing is returned as the service's value).
module TransferController {
  import opened Wrappers
  import opened JavaStrings
  import opened ResultModel
  import opened SecurityLevels
  import opened BLPAccessControl
  import opened JsonHelpers
  import SessionManager
  import TransferService
  import TransferDao
  import AdminController
  import ManagementController

  type Session = SessionManager.Session

  const Unauthorized: Reply := Reply(401, "{\"error\":\"unauthorized\"}")
  const IdsMustBeNumbers: Reply := Reply(400, "{\"error\":\"invalid input - IDs must be numbers\"}")
  const TransferIdRequired: Reply := Reply(400, "{\"error\":\"transfer ID required in path\"}")
  const InvalidTransferId: Reply := Reply(400, "{\"error\":\"invalid transfer ID\"}")
  const TrackingRequired: Reply := Reply(400, "{\"error\":\"tracking number required in path\"}")
  const NoSessionCookie: string := "No session cookie"
  const SessionTokenNotFound: string := "Session token not found"
  /** What the BLP checks throw on a session whose clearance is null. */
  const NullPointer: string := "NullPointerException"

  // ---------------------------------------------------------------------------
  // The session

  /** The token of the first cookie that starts with "SESSION=" after trimming. */
  function CookieSessionToken(cookieHeader: Option<string>): Option<string>
  {
    if cookieHeader.None? then None
    else ManagementController.FirstToken(AdminController.SessionCookies(JavaSplit(cookieHeader.value, ";")))
  }

  /** `getSessionFromRequest`: no Cookie header, no SESSION cookie, or the lookup of its token. */
  function SessionFromRequest(cookieHeader: Option<string>, lookup: string -> Result<Session, string>)
    : Result<Session, string>
  {
    if cookieHeader.None? then Err(NoSessionCookie)
    else match CookieSessionToken(cookieHeader)
      case None => Err(SessionTokenNotFound)
      case Some(t) => lookup(t)
  }

  /** The cookie scan, returning from inside the loop at the first SESSION cookie. */
  method GetSessionFromRequest(cookieHeader: Option<string>, lookup: string -> Result<Session, string>)
    returns (r: Result<Session, string>)
    ensures r == SessionFromRequest(cookieHeader, lookup)
  {
    if cookieHeader.None? {
      return Err(NoSessionCookie);
    }
    var cookies := JavaSplit(cookieHeader.value, ";");
    ghost var tokens := AdminController.SessionCookies(cookies);
    assert tokens[0..] == tokens;
    var i := 0;
    while i < |cookies|
      invariant 0 <= i <= |cookies|
      invariant CookieSessionToken(cookieHeader) == ManagementController.FirstToken(tokens[i..])
    {
      assert tokens[i..][1..] == tokens[i + 1..];
      var cookie := Trim(cookies[i]);
      if StartsWith(cookie, "SESSION=") {
        var token := cookie[8..];
        return lookup(token);
      }
      i := i + 1;
    }
    return Err(SessionTokenNotFound);
  }

  /**
   * Only the cookie counts: it is the token AdminController would pick from
   * the same cookies, whatever Authorization header comes with it, and a
   * request without a SESSION cookie fails whatever that header says.
   */
  lemma CookieIsTheOnlySource(cookieHeader: Option<string>, authHeader: Option<string>,
                              lookup: string -> Result<Session, string>)
    ensures CookieSessionToken(cookieHeader) == AdminController.SessionToken(cookieHeader, None)
    ensures CookieSessionToken(cookieHeader).Some? ==>
              CookieSessionToken(cookieHeader) == AdminController.SessionToken(cookieHeader, authHeader)
              && SessionFromRequest(cookieHeader, lookup) == lookup(CookieSessionToken(cookieHeader).value)
    ensures CookieSessionToken(cookieHeader).None? ==> SessionFromRequest(cookieHeader, lookup).Err?
  {
  }

  /** A bearer token AdminController accepts is refused here when no cookie comes with it. */
  lemma BearerAloneRefused(t: string, lookup: string -> Result<Session, string>)
    ensures AdminController.SessionToken(None, Some("Bearer " + t)) == Some(t)
    ensures SessionFromRequest(None, lookup) == Err(NoSessionCookie)
  {
    var h := "Bearer " + t;
    assert h[..7] == "Bearer " && h[7..] == t;
  }

  // ---------------------------------------------------------------------------
  // Status codes chosen from the escaped error message

  /** A failed initiation: denial words give 403, "not found" or "Invalid" 400, anything else 500. */
  function InitiateStatus(errorMsg: string): (r: int)
    ensures r == 400 || r == 403 || r == 500
  {
    if Contains(errorMsg, "Access denied") || Contains(errorMsg, "Insufficient clearance") then 403
    else if Contains(errorMsg, "not found") || Contains(errorMsg, "Invalid") then 400
    else 500
  }

  /** A failed completion: denial words give 403, a missing, completed or cancelled transfer 400, else 500. */
  function CompleteStatus(errorMsg: string): (r: int)
    ensures r == 400 || r == 403 || r == 500
  {
    if Contains(errorMsg, "Access denied") || Contains(errorMsg, "Insufficient clearance") then 403
    else if Contains(errorMsg, "not found") || Contains(errorMsg, "already completed")
            || Contains(errorMsg, "cancelled") then 400
    else 500
  }

  /** A failed listing of pending transfers: "Access denied" gives 403, else 500. */
  function PendingStatus(errorMsg: string): int
  {
    if Contains(errorMsg, "Access denied") then 403 else 500
  }

  /** A failed lookup by tracking number: "Access denied" gives 403, "not found" or "Invalid" 404, else 500. */
  function TrackingStatus(errorMsg: string): int
  {
    if Contains(errorMsg, "Access denied") then 403
    else if Contains(errorMsg, "not found") || Contains(errorMsg, "Invalid") then 404
    else 500
  }

  /** The initiation handler's `statusCode`, reassigned down the if-chain. */
  method SelectInitiateStatus(errorMsg: string) returns (statusCode: int)
    ensures statusCode == InitiateStatus(errorMsg)
  {
    statusCode := 500;
    if Contains(errorMsg, "Access denied") || Contains(errorMsg, "Insufficient clearance") {
      statusCode := 403;
    } else if Contains(errorMsg, "not found") || Contains(errorMsg, "Invalid") {
      statusCode := 400;
    }
  }

  /** The completion handler's `statusCode`, reassigned down the if-chain. */
  method SelectCompleteStatus(errorMsg: string) returns (statusCode: int)
    ensures statusCode == CompleteStatus(errorMsg)
  {
    statusCode := 500;
    if Contains(errorMsg, "Access denied") || Contains(errorMsg, "Insufficient clearance") {
      statusCode := 403;
    } else if Contains(errorMsg, "not found") || Contains(errorMsg, "already completed")
              || Contains(errorMsg, "cancelled") {
      statusCode := 400;
    }
  }

  /** The lookup handler's `statusCode`, reassigned down the if-chain. */
  method SelectTrackingStatus(errorMsg: string) returns (statusCode: int)
    ensures statusCode == TrackingStatus(errorMsg)
  {
    statusCode := 500;
    if Contains(errorMsg, "Access denied") {
      statusCode := 403;
    } else if Contains(errorMsg, "not found") || Contains(errorMsg, "Invalid") {
      statusCode := 404;
    }
  }

  // ---------------------------------------------------------------------------
  // POST /api/transfers/initiate

  datatype Ids = Ids(packageId: int, fromFacility: int, toFacility: int)

  /** `Long.parseLong(parsed.getOrDefault(key, "0"))`: a missing key reads as 0. */
  function IdOrZero(fields: map<string, string>, key: string): Option<int>
  {
    ParseLong(if key in fields then fields[key] else "0")
  }

  /** The three IDs, or None when one of them is not a long (NumberFormatException). */
  function InitiateIds(fields: map<string, string>): Option<Ids>
  {
    var p := IdOrZero(fields, "packageId");
    var f := IdOrZero(fields, "fromFacilityId");
    var t := IdOrZero(fields, "toFacilityId");
    if p.Some? && f.Some? && t.Some? then Some(Ids(p.value, f.value, t.value)) else None
  }

  function Created(transferId: int): Reply
  {
    Reply(201, "{\"success\":true,\"transferId\":" + IntToString(transferId)
               + ",\"message\":\"Transfer initiated successfully\"}")
  }

  /**
   * `handleInitiateTransfer` after the method checks, with the request body as
   * read. `userId` is what the username lookup answered (its error message is
   * put into the body unescaped); the service and the DAO run on `db`.
   */
  function Initiate(session: Result<Session, string>, userId: Result<int, string>, body: string,
                    db: TransferDao.Db, connection: Result<(), string>,
                    initFault: Option<TransferDao.InitiateFault>, newId: int)
    : Outcome<(Reply, TransferDao.Db)>
  {
    if session.Err? then Returned((Unauthorized, db))
    else if userId.Err? then Returned((Reply(500, ErrorBody(userId.error)), db))
    else match InitiateIds(CommaSplitJson(Some(body)))
      case None => Returned((IdsMustBeNumbers, db))
      case Some(ids) =>
        if session.value.clearance.None? then Threw(NullPointer)
        else Returned(Submit(ids, userId.value, session.value.clearance.value, db, connection, initFault, newId))
  }

  /** The service call with the IDs read, and the reply its answer becomes. */
  function Submit(ids: Ids, userId: int, clearance: Level, db: TransferDao.Db, connection: Result<(), string>,
                  initFault: Option<TransferDao.InitiateFault>, newId: int): (Reply, TransferDao.Db)
  {
    var (r, after) := TransferService.InitiateTransfer(db, ids.packageId, ids.fromFacility, ids.toFacility,
                                                       userId, clearance, connection, initFault, newId);
    match r
    case Ok(id) => (Created(id), after)
    case Err(e) =>
      var errorMsg := EscapeJson(Some(e));
      (Reply(InitiateStatus(errorMsg), ErrorBody(errorMsg)), after)
  }

  /** The package is known and currently at the source facility. */
  predicate AtSource(db: TransferDao.Db, ids: Ids)
  {
    ids.packageId in db.packages && db.packages[ids.packageId].currentFacility == Some(ids.fromFacility)
  }

  /**
   * Once the session, the user and the IDs are read, the request is 201 exactly
   * when the service's guards pass, the connection opens, no SQL failure
   * strikes and the package is at the source. A 201 adds the pending transfer
   * under `newId`; any other answer leaves the tables as they were, except
   * that a failure striking after the insert leaves the inserted row behind.
   */
  lemma InitiateEffects(session: Result<Session, string>, userId: Result<int, string>, body: string,
                        db: TransferDao.Db, connection: Result<(), string>,
                        initFault: Option<TransferDao.InitiateFault>, newId: int, ids: Ids)
    requires session.Ok? && session.value.clearance.Some? && userId.Ok?
    requires InitiateIds(CommaSplitJson(Some(body))) == Some(ids)
    ensures var r := Initiate(session, userId, body, db, connection, initFault, newId);
      var pending := TransferDao.WithPending(db, ids.packageId, ids.fromFacility, ids.toFacility, userId.value, newId);
      var passes := TransferService.InitiateRefusal(ids.packageId, ids.fromFacility, ids.toFacility,
                                                    session.value.clearance.value).None?
                    && connection.Ok? && AtSource(db, ids);
      r.Returned?
      && (r.value.0.status == 201 <==> passes && initFault.None?)
      && (r.value.0.status == 201 ==> r.value.0 == Created(newId))
      && r.value.1 == (if passes && (initFault.None? || TransferDao.KeepsRow(initFault.value)) then pending else db)
  {
    SubmitEffects(ids, userId.value, session.value.clearance.value, db, connection, initFault, newId);
  }

  lemma SubmitEffects(ids: Ids, userId: int, clearance: Level, db: TransferDao.Db, connection: Result<(), string>,
                      initFault: Option<TransferDao.InitiateFault>, newId: int)
    ensures var (reply, after) := Submit(ids, userId, clearance, db, connection, initFault, newId);
      var pending := TransferDao.WithPending(db, ids.packageId, ids.fromFacility, ids.toFacility, userId, newId);
      var passes := TransferService.InitiateRefusal(ids.packageId, ids.fromFacility, ids.toFacility, clearance).None?
                    && connection.Ok? && AtSource(db, ids);
      (reply.status == 201 <==> passes && initFault.None?)
      && (reply.status == 201 ==> reply == Created(newId))
      && after == (if passes && (initFault.None? || TransferDao.KeepsRow(initFault.value)) then pending else db)
  {
    var refusal := TransferService.InitiateRefusal(ids.packageId, ids.fromFacility, ids.toFacility, clearance);
    var dao := TransferDao.Initiate(db, ids.packageId, ids.fromFacility, ids.toFacility, userId, connection, initFault, newId);
    var submitted := Submit(ids, userId, clearance, db, connection, initFault, newId);
    TransferDao.InitiateRequiresPackageAtSource(db, ids.packageId, ids.fromFacility, ids.toFacility, userId,
                                                connection, initFault, newId);
    if refusal.Some? {
      assert TransferService.InitiateTransfer(db, ids.packageId, ids.fromFacility, ids.toFacility,
                                              userId, clearance, connection, initFault, newId) == (Err(refusal.value), db);
      assert submitted.1 == db && submitted.0.status != 201;
    } else if dao.0.Err? {
      assert submitted.1 == dao.1 && submitted.0.status != 201;
    } else {
      assert dao.0 == Ok(newId);
      assert submitted == (Created(newId), dao.1);
    }
  }

  /** The three refusals of the service: 403 for the clearance, 500 for the same facility, 400 for bad IDs. */
  lemma InitiateRefusalStatus(packageId: int, fromFacility: int, toFacility: int, clearance: Level)
    requires TransferService.InitiateRefusal(packageId, fromFacility, toFacility, clearance).Some?
    ensures var e := TransferService.InitiateRefusal(packageId, fromFacility, toFacility, clearance).value;
      InitiateStatus(EscapeJson(Some(e)))
        == if !CheckWriteAccess(clearance, Secret) then 403 else if fromFacility == toFacility then 500 else 400
  {
    if !CheckWriteAccess(clearance, Secret) {
      DeniedStatuses();
    } else if fromFacility == toFacility {
      SameFacilityIs500();
    } else {
      InvalidIdsIs400();
    }
  }

  /** The three clearance refusals, each a denial followed by plain words. */
  lemma DeniedStatuses()
    ensures EscapeJson(Some(TransferService.TransferDenied)) == TransferService.TransferDenied
    ensures InitiateStatus(TransferService.TransferDenied) == 403
    ensures CompleteStatus(TransferService.TransferDenied) == 403
    ensures EscapeJson(Some(TransferService.ViewDenied)) == TransferService.ViewDenied
    ensures PendingStatus(TransferService.ViewDenied) == 403
    ensures EscapeJson(Some(TransferService.LookupDenied)) == TransferService.LookupDenied
    ensures TrackingStatus(TransferService.LookupDenied) == 403
  {
    var ic := TransferService.InsufficientClearance;
    DenialPlain(ic, " for transfers");
    DenialPlain(ic, " to view transfers");
    DenialPlain(ic, []);
    DenialWords(ic, " for transfers");
    DenialWords(ic, " to view transfers");
    DenialWords(ic, []);
    assert TransferService.LookupDenied == TransferService.AccessDenied + ic + [];
  }

  lemma DenialPlain(x: string, y: string)
    requires x == TransferService.InsufficientClearance
    requires y == " for transfers" || y == " to view transfers" || y == []
    ensures var m := TransferService.AccessDenied + x + y; EscapeJson(Some(m)) == m
  {
    var d := TransferService.AccessDenied;
    assert NothingToEscape(d) && NothingToEscape(x) && NothingToEscape(y);
    NothingToEscapeAppend(d, x);
    NothingToEscapeAppend(d + x, y);
    EscapePlain(d + x + y);
  }

  lemma DenialWords(x: string, y: string)
    ensures Contains(TransferService.AccessDenied + x + y, "Access denied")
  {
    var d := TransferService.AccessDenied;
    Infix([], d, x + y);
    assert [] + d + (x + y) == d + x + y;
  }

  /** "Source and destination facilities cannot be the same" matches none of the words: 500. */
  lemma SameFacilityIs500()
    ensures var e := TransferService.SameFacility; EscapeJson(Some(e)) == e && InitiateStatus(e) == 500
  {
    PlainPair("Source and destination ", "facilities cannot be the same", TransferService.SameFacility);
    SameFacilityChars();
    SameFacilityWords(TransferService.SameFacility);
    SameFacilityNotFound();
  }

  lemma SameFacilityChars()
    ensures var e := TransferService.SameFacility; 'A' !in e && 'I' !in e
  {
  }

  lemma SameFacilityWords(e: string)
    requires 'A' !in e && 'I' !in e
    ensures !Contains(e, "Access denied") && !Contains(e, "Insufficient clearance")
    ensures !Contains(e, "Invalid")
  {
    CharAbsent(e, "Access denied", 'A');
    CharAbsent(e, "Insufficient clearance", 'I');
    CharAbsent(e, "Invalid", 'I');
  }

  lemma SameFacilityNotFound()
    ensures !Contains(TransferService.SameFacility, "not found")
  {
    NotFoundPivot(TransferService.SameFacility, "Source and destination ", "acilities cannot be the same");
  }

  /** "Invalid facility or package ID" is a bad request. */
  lemma InvalidIdsIs400()
    ensures var e := TransferService.InvalidIds; EscapeJson(Some(e)) == e && InitiateStatus(e) == 400
  {
    PlainPair("Invalid", " facility or package ID", TransferService.InvalidIds);
    InvalidIdsChars();
    InvalidIdsWords(TransferService.InvalidIds);
    StartsWithWord(TransferService.InvalidIds, "Invalid", " facility or package ID");
  }

  lemma InvalidIdsChars()
    ensures var e := TransferService.InvalidIds; 'A' !in e && 'u' !in e
  {
  }

  lemma InvalidIdsWords(e: string)
    requires 'A' !in e && 'u' !in e
    ensures !Contains(e, "Access denied") && !Contains(e, "Insufficient clearance")
  {
    CharAbsent(e, "Access denied", 'A');
    CharAbsent(e, "Insufficient clearance", 'u');
  }

  /** The DAO's refusals: a missing package is 400, but one without a facility or elsewhere is 500. */
  lemma InitiateDaoStatuses()
    ensures var e := TransferDao.PackageNotFound; EscapeJson(Some(e)) == e && InitiateStatus(e) == 400
    ensures var e := TransferDao.NoCurrentFacility; EscapeJson(Some(e)) == e && InitiateStatus(e) == 500
    ensures var e := TransferDao.NotAtSource; EscapeJson(Some(e)) == e && InitiateStatus(e) == 500
  {
    PackageNotFoundIs400();
    NoCurrentFacilityIs500();
    NotAtSourceIs500();
  }

  lemma PackageNotFoundIs400()
    ensures var e := TransferDao.PackageNotFound; EscapeJson(Some(e)) == e && InitiateStatus(e) == 400
  {
    PlainPair("Package ", "not found", TransferDao.PackageNotFound);
    PackageNotFoundChars();
    PackageNotFoundWords(TransferDao.PackageNotFound);
    EndsWithWord(TransferDao.PackageNotFound, "Package ", "not found");
  }

  lemma PackageNotFoundChars()
    ensures var e := TransferDao.PackageNotFound; 'A' !in e && 'I' !in e
  {
  }

  lemma PackageNotFoundWords(e: string)
    requires 'A' !in e && 'I' !in e
    ensures !Contains(e, "Access denied") && !Contains(e, "Insufficient clearance")
  {
    CharAbsent(e, "Access denied", 'A');
    CharAbsent(e, "Insufficient clearance", 'I');
  }

  lemma NoCurrentFacilityIs500()
    ensures var e := TransferDao.NoCurrentFacility; EscapeJson(Some(e)) == e && InitiateStatus(e) == 500
  {
    PlainPair("Package has no ", "current facility", TransferDao.NoCurrentFacility);
    NoCurrentFacilityChars();
    NoCurrentFacilityWords(TransferDao.NoCurrentFacility);
  }

  lemma NoCurrentFacilityChars()
    ensures var e := TransferDao.NoCurrentFacility; 'A' !in e && 'I' !in e && 'd' !in e
  {
  }

  lemma NoCurrentFacilityWords(e: string)
    requires 'A' !in e && 'I' !in e && 'd' !in e
    ensures !Contains(e, "Access denied") && !Contains(e, "Insufficient clearance")
    ensures !Contains(e, "not found") && !Contains(e, "Invalid")
  {
    CharAbsent(e, "Access denied", 'A');
    CharAbsent(e, "Insufficient clearance", 'I');
    CharAbsent(e, "not found", 'd');
    CharAbsent(e, "Invalid", 'I');
  }

  lemma NotAtSourceIs500()
    ensures var e := TransferDao.NotAtSource; EscapeJson(Some(e)) == e && InitiateStatus(e) == 500
  {
    PlainPair("Package is not at ", "the source facility", TransferDao.NotAtSource);
    NotAtSourceChars();
    NotAtSourceWords(TransferDao.NotAtSource);
  }

  lemma NotAtSourceChars()
    ensures var e := TransferDao.NotAtSource; 'A' !in e && 'I' !in e && 'd' !in e
  {
  }

  lemma NotAtSourceWords(e: string)
    requires 'A' !in e && 'I' !in e && 'd' !in e
    ensures !Contains(e, "Access denied") && !Contains(e, "Insufficient clearance")
    ensures !Contains(e, "not found") && !Contains(e, "Invalid")
  {
    CharAbsent(e, "Access denied", 'A');
    CharAbsent(e, "Insufficient clearance", 'I');
    CharAbsent(e, "not found", 'd');
    CharAbsent(e, "Invalid", 'I');
  }

  /**
   * A body that names neither facility reads both as 0, so the service
   * refuses it as the same facility, and that refusal is answered 500.
   */
  lemma MissingFacilitiesIs500(session: Result<Session, string>, userId: Result<int, string>, body: string,
                               db: TransferDao.Db, connection: Result<(), string>,
                               initFault: Option<TransferDao.InitiateFault>, newId: int)
    requires session.Ok? && session.value.clearance.Some? && CheckWriteAccess(session.value.clearance.value, Secret)
    requires userId.Ok?
    requires "fromFacilityId" !in CommaSplitJson(Some(body)) && "toFacilityId" !in CommaSplitJson(Some(body))
    requires var fields := CommaSplitJson(Some(body));
      "packageId" !in fields || ParseLong(fields["packageId"]).Some?
    ensures Initiate(session, userId, body, db, connection, initFault, newId)
              == Returned((Reply(500, ErrorBody(TransferService.SameFacility)), db))
  {
    var fields := CommaSplitJson(Some(body));
    ZeroParses();
    assert IdOrZero(fields, "fromFacilityId") == Some(0) && IdOrZero(fields, "toFacilityId") == Some(0);
    var ids := Ids(IdOrZero(fields, "packageId").value, 0, 0);
    assert InitiateIds(fields) == Some(ids);
    var clearance := session.value.clearance.value;
    assert TransferService.InitiateRefusal(ids.packageId, 0, 0, clearance) == Some(TransferService.SameFacility);
    SameFacilityIs500();
    assert Submit(ids, userId.value, clearance, db, connection, initFault, newId)
           == (Reply(500, ErrorBody(TransferService.SameFacility)), db);
  }

  lemma ZeroParses()
    ensures ParseLong("0") == Some(0)
  {
    ParseNatToString(0);
    assert NatToString(0) == "0";
  }

  // ---------------------------------------------------------------------------
  // PUT /api/transfers/complete/{id} and GET /api/transfers/tracking/{number}

  /** Segment 4 of the path split at '/', when there are at least five segments. */
  function Segment4(path: string): Option<string>
  {
    var parts := JavaSplit(path, "/");
    if |parts| < 5 then None else Some(parts[4])
  }

  /** The transfer ID in the completion path, or the 400 reply for a short path or a non-number. */
  function CompleteTransferId(path: string): (r: Result<int, Reply>)
    ensures r.Err? ==> r.error in {TransferIdRequired, InvalidTransferId}
    ensures r.Ok? ==> Segment4(path).Some? && ParseLong(Segment4(path).value) == Some(r.value)
  {
    match Segment4(path)
    case None => Err(TransferIdRequired)
    case Some(segment) =>
      match ParseLong(segment)
      case None => Err(InvalidTransferId)
      case Some(id) => Ok(id)
  }

  /** `handleCompleteTransfer` after the method checks. */
  function Complete(session: Result<Session, string>, path: string, db: TransferDao.Db,
                    connection: Result<(), string>, fault: Option<TransferDao.Fault>, now: int)
    : Outcome<(Reply, TransferDao.Db)>
  {
    if session.Err? then Returned((Unauthorized, db))
    else match CompleteTransferId(path)
      case Err(reply) => Returned((reply, db))
      case Ok(transferId) =>
        if session.value.clearance.None? then Threw(NullPointer)
        else
          var (r, after) := TransferService.CompleteTransfer(db, transferId, session.value.clearance.value,
                                                             connection, fault, now);
          match r
          case Ok(message) =>
            Returned((Reply(200, "{\"success\":true,\"message\":\"" + EscapeJson(Some(message)) + "\"}"), after))
          case Err(e) =>
            var errorMsg := EscapeJson(Some(e));
            Returned((Reply(CompleteStatus(errorMsg), ErrorBody(errorMsg)), after))
  }

  /** The completion path reads back the transfer ID written into it. */
  lemma CompletePathRoundTrip(id: nat)
    requires id <= LongMax
    ensures CompleteTransferId("/api/transfers/complete/" + NatToString(id)) == Ok(id)
  {
    var d := NatToString(id);
    assert '/' !in d by {
      assert forall i :: 0 <= i < |d| ==> IsDigit(d[i]);
    }
    assert "/api/transfers/complete/" + d == "/api/" + "transfers" + "/" + "complete" + "/" + d;
    ApiPathPieces("transfers", "complete", d);
    ParseNatToString(id);
  }

  /** "Invalid transfer ID" matches none of the completion words: 500. */
  lemma InvalidTransferIdIs500()
    ensures var e := TransferService.InvalidTransferId; EscapeJson(Some(e)) == e && CompleteStatus(e) == 500
  {
    PlainPair("Invalid ", "transfer ID", TransferService.InvalidTransferId);
    InvalidTransferIdChars();
    InvalidTransferIdWords(TransferService.InvalidTransferId);
  }

  lemma InvalidTransferIdChars()
    ensures var e := TransferService.InvalidTransferId; 'A' !in e && 'u' !in e && 'y' !in e && 'c' !in e
  {
  }

  lemma InvalidTransferIdWords(e: string)
    requires 'A' !in e && 'u' !in e && 'y' !in e && 'c' !in e
    ensures !Contains(e, "Access denied") && !Contains(e, "Insufficient clearance")
    ensures !Contains(e, "not found") && !Contains(e, "already completed")
    ensures !Contains(e, "cancelled")
  {
    CharAbsent(e, "Access denied", 'A');
    CharAbsent(e, "Insufficient clearance", 'u');
    CharAbsent(e, "not found", 'u');
    CharAbsent(e, "already completed", 'y');
    CharAbsent(e, "cancelled", 'c');
  }

  /**
   * A completion path whose ID reads as a number that is not positive ("0",
   * "-3") passes the controller, is refused by the service as "Invalid
   * transfer ID", and that refusal is answered 500 with the tables unchanged.
   */
  lemma NonPositiveIdIs500(session: Result<Session, string>, path: string, db: TransferDao.Db,
                           connection: Result<(), string>, fault: Option<TransferDao.Fault>, now: int)
    requires session.Ok? && session.value.clearance.Some? && CheckWriteAccess(session.value.clearance.value, Secret)
    requires CompleteTransferId(path).Ok? && CompleteTransferId(path).value <= 0
    ensures Complete(session, path, db, connection, fault, now)
              == Returned((Reply(500, ErrorBody(TransferService.InvalidTransferId)), db))
  {
    InvalidTransferIdIs500();
  }

  /** The DAO's refusals of a completion are all bad requests. */
  lemma CompleteDaoStatuses()
    ensures var e := TransferDao.TransferNotFound; EscapeJson(Some(e)) == e && CompleteStatus(e) == 400
    ensures var e := TransferDao.AlreadyCompleted; EscapeJson(Some(e)) == e && CompleteStatus(e) == 400
    ensures var e := TransferDao.WasCancelled; EscapeJson(Some(e)) == e && CompleteStatus(e) == 400
  {
    TransferNotFoundIs400();
    AlreadyCompletedIs400();
    WasCancelledIs400();
  }

  lemma TransferNotFoundIs400()
    ensures var e := TransferDao.TransferNotFound; EscapeJson(Some(e)) == e && CompleteStatus(e) == 400
  {
    PlainPair("Transfer ", "not found", TransferDao.TransferNotFound);
    TransferNotFoundChars();
    TransferNotFoundWords(TransferDao.TransferNotFound);
    EndsWithWord(TransferDao.TransferNotFound, "Transfer ", "not found");
  }

  lemma TransferNotFoundChars()
    ensures var e := TransferDao.TransferNotFound; 'A' !in e && 'I' !in e
  {
  }

  lemma TransferNotFoundWords(e: string)
    requires 'A' !in e && 'I' !in e
    ensures !Contains(e, "Access denied") && !Contains(e, "Insufficient clearance")
  {
    CharAbsent(e, "Access denied", 'A');
    CharAbsent(e, "Insufficient clearance", 'I');
  }

  lemma AlreadyCompletedIs400()
    ensures var e := TransferDao.AlreadyCompleted; EscapeJson(Some(e)) == e && CompleteStatus(e) == 400
  {
    PlainPair("Transfer ", "already completed", TransferDao.AlreadyCompleted);
    AlreadyCompletedChars();
    AlreadyCompletedWords(TransferDao.AlreadyCompleted);
    EndsWithWord(TransferDao.AlreadyCompleted, "Transfer ", "already completed");
  }

  lemma AlreadyCompletedChars()
    ensures var e := TransferDao.AlreadyCompleted; 'A' !in e && 'I' !in e && 'u' !in e
  {
  }

  lemma AlreadyCompletedWords(e: string)
    requires 'A' !in e && 'I' !in e && 'u' !in e
    ensures !Contains(e, "Access denied") && !Contains(e, "Insufficient clearance")
    ensures !Contains(e, "not found")
  {
    CharAbsent(e, "Access denied", 'A');
    CharAbsent(e, "Insufficient clearance", 'I');
    CharAbsent(e, "not found", 'u');
  }

  lemma WasCancelledIs400()
    ensures var e := TransferDao.WasCancelled; EscapeJson(Some(e)) == e && CompleteStatus(e) == 400
  {
    PlainPair("Transfer was ", "cancelled", TransferDao.WasCancelled);
    WasCancelledChars();
    WasCancelledWords(TransferDao.WasCancelled);
    EndsWithWord(TransferDao.WasCancelled, "Transfer was ", "cancelled");
  }

  lemma WasCancelledChars()
    ensures var e := TransferDao.WasCancelled; 'A' !in e && 'I' !in e && 'u' !in e && 'y' !in e
  {
  }

  lemma WasCancelledWords(e: string)
    requires 'A' !in e && 'I' !in e && 'u' !in e && 'y' !in e
    ensures !Contains(e, "Access denied") && !Contains(e, "Insufficient clearance")
    ensures !Contains(e, "not found") && !Contains(e, "already completed")
  {
    CharAbsent(e, "Access denied", 'A');
    CharAbsent(e, "Insufficient clearance", 'I');
    CharAbsent(e, "not found", 'u');
    CharAbsent(e, "already completed", 'y');
  }

  /** Repeating a completion that succeeded is answered 400 "Transfer already completed", changing nothing. */
  lemma SecondCompletionIs400(session: Result<Session, string>, id: nat, db: TransferDao.Db, now: int, later: int)
    requires id <= LongMax
    requires session.Ok? && session.value.clearance.Some? && CheckWriteAccess(session.value.clearance.value, Secret)
    requires Complete(session, "/api/transfers/complete/" + NatToString(id), db, Ok(()), None, now).Returned?
    requires Complete(session, "/api/transfers/complete/" + NatToString(id), db, Ok(()), None, now).value.0.status == 200
    ensures var path := "/api/transfers/complete/" + NatToString(id);
      var after := Complete(session, path, db, Ok(()), None, now).value.1;
      Complete(session, path, after, Ok(()), None, later)
        == Returned((Reply(400, ErrorBody(TransferDao.AlreadyCompleted)), after))
  {
    CompletePathRoundTrip(id);
    var c := session.value.clearance.value;
    TransferService.CompleteGuardOrder(db, id, c, Ok(()), None, now);
    var (r, after) := TransferService.CompleteTransfer(db, id, c, Ok(()), None, now);
    assert id > 0;
    TransferDao.SecondCompletionFails(db, id, now, later, None);
    TransferService.CompleteGuardOrder(after, id, c, Ok(()), None, later);
    CompleteDaoStatuses();
  }

  /** `handleGetPendingTransfers` after the method checks; `fetched` is the DAO's answer. */
  function Pending<T>(session: Result<Session, string>, fetched: Result<T, string>): Outcome<Result<T, Reply>>
  {
    if session.Err? then Returned(Err(Unauthorized))
    else if session.value.clearance.None? then Threw(NullPointer)
    else
      match TransferService.GetPendingTransfers(session.value.clearance.value, fetched)
      case Ok(transfers) => Returned(Ok(transfers))
      case Err(e) =>
        var errorMsg := EscapeJson(Some(e));
        Returned(Err(Reply(PendingStatus(errorMsg), ErrorBody(errorMsg))))
  }

  /** Pending transfers are listed to SECRET and above; below that the answer is 403 with the service's refusal. */
  lemma PendingNeedsSecret<T>(session: Result<Session, string>, fetched: Result<T, string>)
    requires session.Ok? && session.value.clearance.Some?
    ensures var r := Pending(session, fetched);
      r.Returned?
      && (r.value.Ok? <==> AtOrAbove(session.value.clearance.value, Secret) && fetched.Ok?)
      && (!AtOrAbove(session.value.clearance.value, Secret) ==>
            r.value == Err(Reply(403, ErrorBody(TransferService.ViewDenied))))
  {
    DeniedStatuses();
  }

  /** `handleGetTransferByTracking` after the method checks; `lookup` is the DAO keyed by the sanitised number. */
  function Tracking<T>(session: Result<Session, string>, path: string, lookup: string -> Result<T, string>)
    : Outcome<Result<T, Reply>>
  {
    if session.Err? then Returned(Err(Unauthorized))
    else match Segment4(path)
      case None => Returned(Err(TrackingRequired))
      case Some(trackingNumber) =>
        if session.value.clearance.None? then Threw(NullPointer)
        else
          match TransferService.GetTransferByTracking(Some(trackingNumber), session.value.clearance.value, lookup)
          case Ok(transfer) => Returned(Ok(transfer))
          case Err(e) =>
            var errorMsg := EscapeJson(Some(e));
            Returned(Err(Reply(TrackingStatus(errorMsg), ErrorBody(errorMsg))))
  }

  /** The path of a lookup reads back the tracking number written into it. */
  lemma TrackingPathRoundTrip(trackingNumber: string)
    requires trackingNumber != [] && '/' !in trackingNumber
    ensures Segment4("/api/transfers/tracking/" + trackingNumber) == Some(trackingNumber)
  {
    assert "/api/transfers/tracking/" + trackingNumber == "/api/" + "transfers" + "/" + "tracking" + "/" + trackingNumber;
    ApiPathPieces("transfers", "tracking", trackingNumber);
  }

  /**
   * The service's own refusals of a lookup: clearance 403, a blank number
   * 500 (no word matches), a number with no letter or digit 404.
   */
  lemma TrackingRefusalStatuses()
    ensures TrackingStatus(EscapeJson(Some(TransferService.LookupDenied))) == 403
    ensures var e := TransferService.TrackingRequired; EscapeJson(Some(e)) == e && TrackingStatus(e) == 500
    ensures var e := TransferService.InvalidTrackingFormat; EscapeJson(Some(e)) == e && TrackingStatus(e) == 404
  {
    DeniedStatuses();
    TrackingRequiredIs500();
    InvalidTrackingFormatIs404();
  }

  lemma TrackingRequiredIs500()
    ensures var e := TransferService.TrackingRequired; EscapeJson(Some(e)) == e && TrackingStatus(e) == 500
  {
    PlainPair("Tracking number ", "is required", TransferService.TrackingRequired);
    TrackingRequiredChars();
    TrackingRequiredWords(TransferService.TrackingRequired);
  }

  lemma TrackingRequiredChars()
    ensures var e := TransferService.TrackingRequired; 'A' !in e && 'f' !in e && 'I' !in e
  {
  }

  lemma TrackingRequiredWords(e: string)
    requires 'A' !in e && 'f' !in e && 'I' !in e
    ensures !Contains(e, "Access denied") && !Contains(e, "not found")
    ensures !Contains(e, "Invalid")
  {
    CharAbsent(e, "Access denied", 'A');
    CharAbsent(e, "not found", 'f');
    CharAbsent(e, "Invalid", 'I');
  }

  lemma InvalidTrackingFormatIs404()
    ensures var e := TransferService.InvalidTrackingFormat; EscapeJson(Some(e)) == e && TrackingStatus(e) == 404
  {
    PlainPair("Invalid", " tracking number format", TransferService.InvalidTrackingFormat);
    InvalidTrackingFormatChars();
    InvalidTrackingFormatWords(TransferService.InvalidTrackingFormat);
    StartsWithWord(TransferService.InvalidTrackingFormat, "Invalid", " tracking number format");
  }

  lemma InvalidTrackingFormatChars()
    ensures var e := TransferService.InvalidTrackingFormat; 'A' !in e
  {
  }

  lemma InvalidTrackingFormatWords(e: string)
    requires 'A' !in e
    ensures !Contains(e, "Access denied")
  {
    CharAbsent(e, "Access denied", 'A');
  }

  /** Below CONFIDENTIAL every lookup is 403, before the number is looked at. */
  lemma TrackingNeedsConfidential<T>(session: Result<Session, string>, path: string, lookup: string -> Result<T, string>)
    requires session.Ok? && session.value.clearance.Some? && !AtOrAbove(session.value.clearance.value, Confidential)
    requires Segment4(path).Some?
    ensures Tracking(session, path, lookup) == Returned(Err(Reply(403, ErrorBody(TransferService.LookupDenied))))
  {
    TransferService.LookupGuardOrder(Some(Segment4(path).value), session.value.clearance.value, lookup);
    DeniedStatuses();
  }

  /** Without a session every endpoint answers 401, whatever else the request holds. */
  lemma NoSessionIs401<T>(session: Result<Session, string>, userId: Result<int, string>, body: string, path: string,
                          db: TransferDao.Db, connection: Result<(), string>,
                          initFault: Option<TransferDao.InitiateFault>, newId: int,
                          fault: Option<TransferDao.Fault>, now: int, fetched: Result<T, string>,
                          lookup: string -> Result<T, string>)
    requires session.Err?
    ensures Initiate(session, userId, body, db, connection, initFault, newId) == Returned((Unauthorized, db))
    ensures Complete(session, path, db, connection, fault, now) == Returned((Unauthorized, db))
    ensures Pending(session, fetched) == Returned(Err(Unauthorized))
    ensures Tracking(session, path, lookup) == Returned(Err(Unauthorized))
  {
  }
}
