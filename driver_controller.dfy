// The driver endpoints (controllers/DriverController.java): the role check
// both share, today's route, and the delivery-status update with its field
// checks, its status whitelist and the three writes of its transaction. The
// session is the lookup's answer for the token ManagementController's
// `extractToken` rule picks (the two controllers carry the same helper); the
// connection outcome, the database and the current time are parameters. The
// SQL texts are not modelled, only the rows they change, and today's route is
// given already rendered.
module DriverController {
  import opened Wrappers
  import opened JavaStrings
  import opened ResultModel
  import opened JsonHelpers
  import SessionManager
  import SmInputSanitizer

  type Session = SessionManager.Session

  const Unauthorized: Reply := Reply(401, "{\"error\":\"Unauthorized - Please log in\"}")
  const DriverRequired: Reply := Reply(403, "{\"error\":\"Forbidden - Driver access required\"}")
  const ServerError: Reply := Reply(500, "{\"error\":\"Server error. Please try again later.\"}")
  const DriverNotFound: Reply := Reply(404, "{\"error\":\"Driver not found\"}")
  const NoRoute: Reply := Reply(200, "{\"message\":\"No route assigned for today\",\"route\":null}")
  const FieldsRequired: Reply := Reply(400, "{\"error\":\"packageId and status are required\"}")
  const InvalidPackageId: Reply := Reply(400, "{\"error\":\"Invalid packageId format\"}")
  const InvalidStatus: Reply := Reply(400, "{\"error\":\"Invalid status value\"}")
  const InvalidInput: Reply := Reply(400, "{\"error\":\"Invalid input format\"}")
  const NotOnRoute: Reply := Reply(404, "{\"error\":\"Package not found in your assigned route\"}")

  /** The statuses a driver may report, in the order the whitelist lists them. */
  const ValidStatuses: seq<string> :=
    ["created", "at_facility", "in_transit", "out_for_delivery", "delivered", "returned", "lost", "exception"]

  // ---------------------------------------------------------------------------
  // The database as far as these endpoints touch it

  datatype PackageRow = PackageRow(trackingNumber: Option<string>, status: string, deliveredAt: Option<int>,
                                   orderId: int)

  datatype HistoryRow = HistoryRow(packageId: int, status: string, location: Option<string>, updatedBy: int,
                                   notes: Option<string>)

  /**
   * Users by username, packages, orders' statuses, the delivery-status
   * history in insertion order, and the (package, driver) pairs of today's
   * route assignments.
   */
  datatype Db = Db(users: map<string, int>, packages: map<int, PackageRow>, orders: map<int, string>,
                   history: seq<HistoryRow>, todaysStops: set<(int, int)>)

  /** `getUserId`: the user id of the session's username, or None (the source's -1). */
  function DriverId(db: Db, username: Option<string>): Option<int>
  {
    if username.Some? && username.value in db.users then Some(db.users[username.value]) else None
  }

  /** Only the role "driver" passes; no session is 401. */
  function Authorize(session: Result<Session, string>): (r: Option<Reply>)
    ensures r.None? <==> session.Ok? && session.value.role == Some("driver")
  {
    if session.Err? then Some(Unauthorized)
    else if session.value.role != Some("driver") then Some(DriverRequired)
    else None
  }

  // ---------------------------------------------------------------------------
  // GET /driver/route

  /**
   * `handleGetRoute` after the method checks. `todaysRoute` is the rendered
   * route of a driver id, None when no route is planned or in progress today;
   * `sqlError` is an SQL exception from one of the queries.
   */
  function GetRoute(session: Result<Session, string>, connection: Result<(), string>, sqlError: bool, db: Db,
                    todaysRoute: int -> Option<string>): Reply
  {
    match Authorize(session)
    case Some(refusal) => refusal
    case None =>
      if connection.Err? || sqlError then ServerError
      else match DriverId(db, session.value.username)
        case None => DriverNotFound
        case Some(driverId) =>
          match todaysRoute(driverId)
          case None => NoRoute
          case Some(json) => Reply(200, json)
  }

  // ---------------------------------------------------------------------------
  // POST /driver/status: the checks

  /** A status the whitelist accepts. */
  predicate IsValidStatus(status: string)
  {
    status in ValidStatuses
  }

  /** The checked request: package id, status, and the sanitised status, notes and location. */
  datatype Update = Update(packageId: int, status: string, notes: string, location: string)

  /** Notes and location default to "" when absent; present ones are sanitised. */
  function SanitizeOptional(fields: map<string, string>, key: string): Result<string, string>
  {
    if key in fields then SmInputSanitizer.SanitizeString(Some(fields[key])) else Ok("")
  }

  /** The field checks of `handleUpdateDeliveryStatus`, in order, on the parsed body. */
  function CheckUpdate(fields: map<string, string>): Result<Update, Reply>
  {
    if "packageId" !in fields || "status" !in fields then Err(FieldsRequired)
    else match ParseLong(fields["packageId"])
      case None => Err(InvalidPackageId)
      case Some(packageId) =>
        var status := fields["status"];
        if !IsValidStatus(status) then Err(InvalidStatus)
        else
          var statusResult := SmInputSanitizer.SanitizeString(Some(status));
          var notesResult := SanitizeOptional(fields, "notes");
          var locationResult := SanitizeOptional(fields, "location");
          if statusResult.Err? || notesResult.Err? || locationResult.Err? then Err(InvalidInput)
          else Ok(Update(packageId, statusResult.value, notesResult.value, locationResult.value))
  }

  // ---------------------------------------------------------------------------
  // POST /driver/status: the transaction

  /** `setString(..., x.isEmpty() ? null : x)`. */
  function NullIfEmpty(s: string): Option<string>
  {
    if s == [] then None else Some(s)
  }

  /**
   * The three writes: the package's status (skipped for "exception", with
   * delivered_at stamped for "delivered"), one history row, and for
   * "delivered" the package's order if it was in transit.
   */
  function Record(db: Db, u: Update, driverId: int, now: int): Db
    requires u.packageId in db.packages
  {
    var row := db.packages[u.packageId];
    var packages :=
      if u.status == "exception" then db.packages
      else db.packages[u.packageId := row.(status := u.status,
                                           deliveredAt := if u.status == "delivered" then Some(now) else row.deliveredAt)];
    var history := db.history + [HistoryRow(u.packageId, u.status, NullIfEmpty(u.location), driverId, NullIfEmpty(u.notes))];
    var orders :=
      if u.status == "delivered" && row.orderId in db.orders && db.orders[row.orderId] == "in_transit"
      then db.orders[row.orderId := "delivered"]
      else db.orders;
    db.(packages := packages, history := history, orders := orders)
  }

  /** The writes one statement at a time, as the transaction issues them. */
  method WriteUpdate(db: Db, u: Update, driverId: int, now: int) returns (after: Db)
    requires u.packageId in db.packages
    ensures after == Record(db, u, driverId, now)
  {
    after := db;
    var row := db.packages[u.packageId];
    if u.status != "exception" {
      var deliveredAt := row.deliveredAt;
      if u.status == "delivered" {
        deliveredAt := Some(now);
      }
      after := after.(packages := after.packages[u.packageId := row.(status := u.status, deliveredAt := deliveredAt)]);
    }
    var location := if u.location == [] then None else Some(u.location);
    var notes := if u.notes == [] then None else Some(u.notes);
    after := after.(history := after.history + [HistoryRow(u.packageId, u.status, location, driverId, notes)]);
    if u.status == "delivered" && row.orderId in after.orders && after.orders[row.orderId] == "in_transit" {
      after := after.(orders := after.orders[row.orderId := "delivered"]);
    }
  }

  function Updated(packageId: int, trackingNumber: Option<string>, status: string): Reply
  {
    Reply(200, "{\"success\":true,\"message\":\"Status updated successfully\",\"packageId\":" + IntToString(packageId)
               + ",\"trackingNumber\":\"" + EscapeJson(trackingNumber) + "\",\"newStatus\":\"" + EscapeJson(Some(status)) + "\"}")
  }

  /**
   * Where an SQL exception strikes a status update: the driver's id query or
   * the route check, or one of the writes or the commit.
   */
  datatype StatusFault = ReadFailed | WriteFailed

  /**
   * `handleUpdateDeliveryStatus` after the method checks, with the body as
   * read. `sqlError` is the SQL exception of the call, if any: it is
   * answered 500, and during the writes it rolls the transaction back.
   */
  function UpdateStatus(session: Result<Session, string>, body: string, connection: Result<(), string>,
                        sqlError: Option<StatusFault>, db: Db, now: int): (Reply, Db)
  {
    match Authorize(session)
    case Some(refusal) => (refusal, db)
    case None =>
      match CheckUpdate(CommaSplitJson(Some(body)))
      case Err(reply) => (reply, db)
      case Ok(u) => Commit(session.value.username, u, connection, sqlError, db, now)
  }

  /** From the connection on: the driver, the route check, then the writes or their rollback. */
  function Commit(username: Option<string>, u: Update, connection: Result<(), string>, sqlError: Option<StatusFault>,
                  db: Db, now: int): (Reply, Db)
  {
    if connection.Err? || sqlError == Some(ReadFailed) then (ServerError, db)
    else match DriverId(db, username)
      case None => (DriverNotFound, db)
      case Some(driverId) =>
        if (u.packageId, driverId) !in db.todaysStops || u.packageId !in db.packages then (NotOnRoute, db)
        else if sqlError.Some? then (ServerError, db)
        else (Updated(u.packageId, db.packages[u.packageId].trackingNumber, u.status), Record(db, u, driverId, now))
  }

  // ---------------------------------------------------------------------------
  // Properties

  /** Only a driver's session gets past either endpoint; the others are 401 or 403 and change nothing. */
  lemma OnlyDrivers(session: Result<Session, string>, body: string, connection: Result<(), string>, routeError: bool,
                    sqlError: Option<StatusFault>, db: Db, now: int, todaysRoute: int -> Option<string>)
    requires session.Err? || session.value.role != Some("driver")
    ensures var r := GetRoute(session, connection, routeError, db, todaysRoute);
      r == UpdateStatus(session, body, connection, sqlError, db, now).0
      && (r == Unauthorized || r == DriverRequired)
    ensures UpdateStatus(session, body, connection, sqlError, db, now).1 == db
  {
  }

  /** The whitelist holds exactly eight distinct statuses, each a plain word. */
  lemma WhitelistFacts()
    ensures |ValidStatuses| == 8
    ensures forall i, j :: 0 <= i < j < |ValidStatuses| ==> ValidStatuses[i] != ValidStatuses[j]
    ensures forall i :: 0 <= i < |ValidStatuses| ==> SmInputSanitizer.PlainWord(ValidStatuses[i])
  {
  }

  /**
   * The checks pass exactly when both fields are present, the id is a long
   * and the status is whitelisted; the status then goes on unchanged, and
   * the "Invalid input format" refusal never happens.
   */
  lemma CheckUpdateAccepts(fields: map<string, string>)
    ensures CheckUpdate(fields).Ok? <==>
              "packageId" in fields && "status" in fields && ParseLong(fields["packageId"]).Some?
              && IsValidStatus(fields["status"])
    ensures CheckUpdate(fields).Ok? ==>
              CheckUpdate(fields).value.packageId == ParseLong(fields["packageId"]).value
              && CheckUpdate(fields).value.status == fields["status"]
    ensures CheckUpdate(fields) != Err(InvalidInput)
  {
    if "packageId" in fields && "status" in fields && ParseLong(fields["packageId"]).Some?
       && IsValidStatus(fields["status"]) {
      ValidStatusSanitized(fields["status"]);
      AcceptedUpdate(fields, ParseLong(fields["packageId"]).value, fields["status"]);
    }
  }

  lemma AcceptedUpdate(fields: map<string, string>, packageId: int, status: string)
    requires "packageId" in fields && "status" in fields && fields["status"] == status
    requires ParseLong(fields["packageId"]) == Some(packageId) && IsValidStatus(status)
    requires SmInputSanitizer.SanitizeString(Some(status)) == Ok(status)
    ensures CheckUpdate(fields).Ok? && CheckUpdate(fields).value.packageId == packageId
            && CheckUpdate(fields).value.status == status
  {
    OptionalSanitized(fields, "notes");
    OptionalSanitized(fields, "location");
  }

  /** A present optional field is sanitised and an absent one reads as "": neither fails. */
  lemma OptionalSanitized(fields: map<string, string>, key: string)
    ensures SanitizeOptional(fields, key).Ok?
  {
  }

  /** A whitelisted status is its own sanitised form. */
  lemma ValidStatusSanitized(status: string)
    requires IsValidStatus(status)
    ensures SmInputSanitizer.SanitizeString(Some(status)) == Ok(status)
  {
    WhitelistFacts();
    var i :| 0 <= i < |ValidStatuses| && ValidStatuses[i] == status;
    SmInputSanitizer.PlainWordSanitized(status);
  }

  /** A refused request changes nothing. */
  lemma RefusalsChangeNothing(session: Result<Session, string>, body: string, connection: Result<(), string>,
                              sqlError: Option<StatusFault>, db: Db, now: int)
    ensures var (r, after) := UpdateStatus(session, body, connection, sqlError, db, now);
      r.status != 200 ==> after == db
  {
  }

  /** Each refusal of the field checks is a 400, before the connection is opened. */
  lemma CheckRefusalsAre400(session: Result<Session, string>, body: string, connection: Result<(), string>,
                            sqlError: Option<StatusFault>, db: Db, now: int)
    requires session.Ok? && session.value.role == Some("driver") && CheckUpdate(CommaSplitJson(Some(body))).Err?
    ensures UpdateStatus(session, body, connection, sqlError, db, now)
            == (CheckUpdate(CommaSplitJson(Some(body))).error, db)
    ensures CheckUpdate(CommaSplitJson(Some(body))).error.status == 400
  {
  }

  /**
   * A request is written exactly when a driver's checked request names a
   * package on one of the driver's stops today and no SQL exception strikes.
   * Past the checks, a failing connection or query is 500 before a missing
   * driver or package is 404.
   */
  lemma WrittenExactly(session: Result<Session, string>, body: string, connection: Result<(), string>,
                       sqlError: Option<StatusFault>, db: Db, now: int)
    ensures var (r, after) := UpdateStatus(session, body, connection, sqlError, db, now);
      var u := CheckUpdate(CommaSplitJson(Some(body)));
      r.status == 200 <==>
        session.Ok? && session.value.role == Some("driver") && u.Ok? && connection.Ok? && sqlError.None?
        && DriverId(db, session.value.username).Some?
        && (u.value.packageId, DriverId(db, session.value.username).value) in db.todaysStops
        && u.value.packageId in db.packages
    ensures var (r, after) := UpdateStatus(session, body, connection, sqlError, db, now);
      var u := CheckUpdate(CommaSplitJson(Some(body)));
      session.Ok? && session.value.role == Some("driver") && u.Ok? ==>
        (connection.Err? || sqlError == Some(ReadFailed) ==> r == ServerError)
  {
    var u := CheckUpdate(CommaSplitJson(Some(body)));
    var (r, after) := UpdateStatus(session, body, connection, sqlError, db, now);
    if Authorize(session).Some? {
      assert r == Authorize(session).value;
      assert r == Unauthorized || r == DriverRequired;
    } else if u.Err? {
      CheckRefusalsAre400(session, body, connection, sqlError, db, now);
    } else {
      assert (r, after) == Commit(session.value.username, u.value, connection, sqlError, db, now);
      CommitOutcome(session.value.username, u.value, connection, sqlError, db, now);
    }
  }

  /** What the update does from the connection on, branch by branch. */
  lemma CommitOutcome(username: Option<string>, u: Update, connection: Result<(), string>,
                      sqlError: Option<StatusFault>, db: Db, now: int)
    ensures var (r, after) := Commit(username, u, connection, sqlError, db, now);
      (r.status == 200 <==>
         connection.Ok? && sqlError.None? && DriverId(db, username).Some?
         && (u.packageId, DriverId(db, username).value) in db.todaysStops && u.packageId in db.packages)
      && (r.status == 200 ==> after == Record(db, u, DriverId(db, username).value, now))
      && (r.status != 200 ==> after == db)
      && (connection.Err? || sqlError == Some(ReadFailed) ==> r == ServerError)
  {
  }

  /**
   * "exception" leaves the package row alone; every accepted status adds
   * one history row, with empty notes and location stored as null; the other
   * packages and history rows are untouched.
   */
  lemma RecordEffects(db: Db, u: Update, driverId: int, now: int)
    requires u.packageId in db.packages
    ensures var after := Record(db, u, driverId, now);
      (u.status == "exception" ==> after.packages == db.packages)
      && (u.status != "exception" ==> after.packages[u.packageId].status == u.status
                                      && after.packages[u.packageId].orderId == db.packages[u.packageId].orderId)
      && (forall id :: id in db.packages && id != u.packageId ==> id in after.packages && after.packages[id] == db.packages[id])
      && after.packages.Keys == db.packages.Keys
      && |after.history| == |db.history| + 1 && after.history[..|db.history|] == db.history
      && after.history[|db.history|].notes == (if u.notes == [] then None else Some(u.notes))
      && after.history[|db.history|].location == (if u.location == [] then None else Some(u.location))
      && after.history[|db.history|].updatedBy == driverId
      && after.users == db.users && after.todaysStops == db.todaysStops
  {
  }

  /**
   * "delivered" stamps delivered_at with the current time and moves the
   * order to delivered only when it was in transit; any other status leaves
   * the orders and the stamp alone.
   */
  lemma DeliveredEffects(db: Db, u: Update, driverId: int, now: int)
    requires u.packageId in db.packages
    ensures var after := Record(db, u, driverId, now);
      var orderId := db.packages[u.packageId].orderId;
      (u.status == "delivered" ==>
        after.packages[u.packageId].deliveredAt == Some(now)
        && (orderId in db.orders && db.orders[orderId] == "in_transit" ==> after.orders == db.orders[orderId := "delivered"])
        && (orderId !in db.orders || db.orders[orderId] != "in_transit" ==> after.orders == db.orders))
      && (u.status != "delivered" ==>
        after.orders == db.orders && after.packages[u.packageId].deliveredAt == db.packages[u.packageId].deliveredAt)
  {
  }
}
