// Package tracking and editing (controllers/PackageController.java): the
// tracking number read from the query string, and the manager's edit of one
// whitelisted column with its conversion by column and its edit-history row.
// The session is the lookup's answer for the token ManagementController's
// `extractToken` rule picks (the controllers carry the same helper); the
// connection outcome, the database, `Double.parseDouble` and the text JDBC
// reads back from a column are parameters. The SQL texts are not modelled,
// only the rows they change, and a tracked package is given already rendered.
module PackageController {
  import opened Wrappers
  import opened JavaStrings
  import opened ResultModel
  import opened JsonHelpers
  import SessionManager
  import InputSanitizer
  import SmInputSanitizer

  type Session = SessionManager.Session

  const TrackingRequired: Reply := Reply(400, "{\"error\":\"trackingNumber parameter is required\"}")
  const InvalidTracking: Reply := Reply(400, "{\"error\":\"Invalid tracking number format\"}")
  const ServerError: Reply := Reply(500, "{\"error\":\"Server error. Please try again later.\"}")
  const PackageNotFound: Reply := Reply(404, "{\"error\":\"Package not found\"}")
  const Unauthorized: Reply := Reply(401, "{\"error\":\"Unauthorized - Please log in\"}")
  const ManagerRequired: Reply := Reply(403, "{\"error\":\"Forbidden - Manager or admin access required\"}")
  const FieldsRequired: Reply := Reply(400, "{\"error\":\"packageId, field, and newValue are required\"}")
  const InvalidPackageId: Reply := Reply(400, "{\"error\":\"Invalid packageId format\"}")
  const InvalidInput: Reply := Reply(400, "{\"error\":\"Invalid input format\"}")
  const InvalidValue: Reply := Reply(400, "{\"error\":\"Invalid value format for field\"}")

  /** The columns an edit may name, in the order the whitelist lists them. */
  const AllowedFields: seq<string> :=
    ["weight_kg", "length_cm", "width_cm", "height_cm", "fragile", "signature_required", "package_status"]

  /** The refusal of a column outside the whitelist, which lists the allowed ones. */
  function InvalidField(): Reply
  {
    Reply(400, "{\"error\":\"Invalid field. Allowed fields: " + Join(AllowedFields, ", ") + "\"}")
  }

  // ---------------------------------------------------------------------------
  // GET /package/track?trackingNumber=...

  /** The value of one query pair split at every '=' into exactly a "trackingNumber" key and a value. */
  function TrackingValue(param: string): Option<string>
  {
    var keyValue := JavaSplit(param, "=");
    if |keyValue| == 2 && keyValue[0] == "trackingNumber" then Some(keyValue[1]) else None
  }

  /** The value of the last tracking pair among the parameters, if any. */
  function LastTracking(params: seq<string>): Option<string>
  {
    if params == [] then None
    else if TrackingValue(params[|params| - 1]).Some? then TrackingValue(params[|params| - 1])
    else LastTracking(params[..|params| - 1])
  }

  /** The tracking number of the query string: the last matching pair wins. */
  function TrackingNumber(query: Option<string>): Option<string>
  {
    if query.None? then None else LastTracking(JavaSplit(query.value, "&"))
  }

  /** The loop over the parameters, reassigning the tracking number at each match. */
  method ReadTrackingNumber(query: Option<string>) returns (trackingNumber: Option<string>)
    ensures trackingNumber == TrackingNumber(query)
  {
    trackingNumber := None;
    if query.Some? {
      var params := JavaSplit(query.value, "&");
      var i := 0;
      while i < |params|
        invariant 0 <= i <= |params|
        invariant trackingNumber == LastTracking(params[..i])
      {
        assert params[..i + 1][..i] == params[..i];
        var keyValue := JavaSplit(params[i], "=");
        if |keyValue| == 2 && keyValue[0] == "trackingNumber" {
          trackingNumber := Some(keyValue[1]);
        }
        i := i + 1;
      }
      assert params[..|params|] == params;
    }
  }

  /**
   * `handleTrackPackage` after the method checks. `lookup` answers the
   * rendered package for a sanitised tracking number, None when no package
   * has it; `sqlError` is an SQL exception from one of the queries.
   */
  function Track(query: Option<string>, connection: Result<(), string>, sqlError: bool,
                 lookup: string -> Option<string>): Reply
  {
    var trackingNumber := TrackingNumber(query);
    if trackingNumber.None? || TrimsToEmpty(trackingNumber.value) then TrackingRequired
    else
      var sanitized := SmInputSanitizer.SanitizeString(trackingNumber);
      if sanitized.Err? then InvalidTracking
      else if connection.Err? || sqlError then ServerError
      else match lookup(sanitized.value)
        case None => PackageNotFound
        case Some(json) => Reply(200, json)
  }

  // ---------------------------------------------------------------------------
  // POST /package/edit

  /** A column's value: a boolean flag, a status word, or a number. */
  datatype Value = Flag(b: bool) | Word(s: string) | Number(x: real)

  datatype PackageRow = PackageRow(trackingNumber: Option<string>, columns: map<string, Value>)

  datatype EditRow = EditRow(packageId: int, editedBy: int, fieldName: string, oldValue: Option<string>,
                             newValue: string, reason: Option<string>)

  /** Users by username, packages, and the edit history in insertion order. */
  datatype Db = Db(users: map<string, int>, packages: map<int, PackageRow>, edits: seq<EditRow>)

  /** `getUserId`: the user's id, or -1 for an unknown user (which the edit does not check). */
  function UserId(db: Db, username: Option<string>): int
  {
    if username.Some? && username.value in db.users then db.users[username.value] else -1
  }

  /** Editing needs the role manager or admin. */
  predicate MayEdit(role: Option<string>)
  {
    role == Some("manager") || role == Some("admin")
  }

  /** `Boolean.parseBoolean`: true exactly for "true" in any letter case. */
  predicate ParseBoolean(s: string)
  {
    EqualsIgnoreCase(s, "true")
  }

  /** The value written for a column: flags parsed as booleans, the status as it is, the rest as doubles. */
  function Converted(field: string, newValue: string, parseDouble: string -> Option<real>): Option<Value>
  {
    if field == "fragile" || field == "signature_required" then Some(Flag(ParseBoolean(newValue)))
    else if field == "package_status" then Some(Word(newValue))
    else match parseDouble(newValue)
      case None => None
      case Some(x) => Some(Number(x))
  }

  /** The checked request: the package, the column (raw and sanitised), the sanitised value and reason. */
  datatype Edit = Edit(packageId: int, field: string, sanitizedField: string, newValue: string, reason: string)

  /** The reason defaults to "" when absent; a present one is sanitised. */
  function SanitizedReason(fields: map<string, string>): Result<string, string>
  {
    if "reason" in fields then SmInputSanitizer.SanitizeString(Some(fields["reason"])) else Ok("")
  }

  /** The field checks of `handleEditPackage`, in order, on the parsed body; every refusal is a 400. */
  function CheckEdit(fields: map<string, string>): (r: Result<Edit, Reply>)
    ensures r.Err? ==> r.error.status == 400
  {
    if "packageId" !in fields || "field" !in fields || "newValue" !in fields then Err(FieldsRequired)
    else match ParseLong(fields["packageId"])
      case None => Err(InvalidPackageId)
      case Some(packageId) =>
        if fields["field"] !in AllowedFields then Err(InvalidField())
        else SanitizedEdit(packageId, fields["field"], fields)
  }

  /** The three texts sanitised; a refusal would be "Invalid input format". */
  function SanitizedEdit(packageId: int, field: string, fields: map<string, string>): Result<Edit, Reply>
    requires "newValue" in fields
  {
    var fieldResult := SmInputSanitizer.SanitizeString(Some(field));
    var newValueResult := SmInputSanitizer.SanitizeString(Some(fields["newValue"]));
    var reasonResult := SanitizedReason(fields);
    if fieldResult.Err? || newValueResult.Err? || reasonResult.Err? then Err(InvalidInput)
    else Ok(Edit(packageId, field, fieldResult.value, newValueResult.value, reasonResult.value))
  }

  /** The column's old value as text (`rs.getString`), null for a NULL column. */
  function OldText(row: PackageRow, column: string, columnText: Value -> string): Option<string>
  {
    if column in row.columns then Some(columnText(row.columns[column])) else None
  }

  /** The two writes: the column set to the new value, and one edit-history row. */
  function Record(db: Db, e: Edit, userId: int, value: Value, columnText: Value -> string): Db
    requires e.packageId in db.packages
  {
    var row := db.packages[e.packageId];
    db.(packages := db.packages[e.packageId := row.(columns := row.columns[e.sanitizedField := value])],
        edits := db.edits + [EditRow(e.packageId, userId, e.sanitizedField, OldText(row, e.sanitizedField, columnText),
                                     e.newValue, if e.reason == [] then None else Some(e.reason))])
  }

  function Edited(e: Edit, trackingNumber: Option<string>, oldValue: Option<string>): Reply
  {
    Reply(200, "{\"success\":true,\"message\":\"Package updated successfully\",\"packageId\":" + IntToString(e.packageId)
               + ",\"trackingNumber\":\"" + EscapeJson(trackingNumber) + "\",\"field\":\"" + EscapeJson(Some(e.sanitizedField))
               + "\",\"oldValue\":\"" + EscapeJson(oldValue) + "\",\"newValue\":\"" + EscapeJson(Some(e.newValue)) + "\"}")
  }

  /**
   * Where an SQL exception strikes an edit: the user-id or package query,
   * preparing the UPDATE (before the new value is converted), or running the
   * UPDATE, the history INSERT or the commit.
   */
  datatype EditFault = ReadFailed | PrepareFailed | WriteFailed

  /**
   * `handleEditPackage` after the method checks, with the body as read.
   * `sqlError` is the SQL exception of the call, if any; it is answered 500,
   * and it and a value that is not a double roll the transaction back.
   */
  function EditPackage(session: Result<Session, string>, body: string, connection: Result<(), string>,
                       sqlError: Option<EditFault>, db: Db, parseDouble: string -> Option<real>,
                       columnText: Value -> string): (Reply, Db)
  {
    if session.Err? then (Unauthorized, db)
    else if !MayEdit(session.value.role) then (ManagerRequired, db)
    else match CheckEdit(CommaSplitJson(Some(body)))
      case Err(reply) => (reply, db)
      case Ok(e) => EditChecked(e, session.value.username, connection, sqlError, db, parseDouble, columnText)
  }

  /** The edit once the request passed its checks: the queries, the conversion and the writes. */
  function EditChecked(e: Edit, username: Option<string>, connection: Result<(), string>, sqlError: Option<EditFault>,
                       db: Db, parseDouble: string -> Option<real>, columnText: Value -> string): (Reply, Db)
  {
    if connection.Err? || sqlError == Some(ReadFailed) then (ServerError, db)
    else if e.packageId !in db.packages then (PackageNotFound, db)
    else if sqlError == Some(PrepareFailed) then (ServerError, db)
    else match Converted(e.field, e.newValue, parseDouble)
      case None => (InvalidValue, db)
      case Some(value) =>
        if sqlError.Some? then (ServerError, db)
        else
          var row := db.packages[e.packageId];
          (Edited(e, row.trackingNumber, OldText(row, e.sanitizedField, columnText)),
           Record(db, e, UserId(db, username), value, columnText))
  }

  // ---------------------------------------------------------------------------
  // Properties

  /** A pair "k=v" splits at '=' into k and v when neither holds '=' and v is not empty. */
  lemma KeyValuePair(k: string, v: string)
    requires '=' !in k && '=' !in v && v != []
    ensures JavaSplit(k + "=" + v, "=") == [k, v]
  {
    assert Join([k, v], "=") == k + "=" + v;
    JavaSplitJoin([k, v], '=');
  }

  /** A pair "trackingNumber=v" reads as v when v is non-empty and has no '='. */
  lemma TrackingPair(v: string)
    requires v != [] && '=' !in v
    ensures TrackingValue("trackingNumber=" + v) == Some(v)
  {
    var key := "trackingNumber";
    assert '=' !in key;
    assert key + "=" + v == "trackingNumber=" + v;
    KeyValuePair(key, v);
  }

  /**
   * In a query of '&'-joined parameters, a last tracking pair decides the
   * tracking number whatever the earlier pairs say.
   */
  lemma LastPairWins(params: seq<string>, last: string)
    requires forall i :: 0 <= i < |params| ==> '&' !in params[i]
    requires '&' !in last && TrackingValue(last).Some?
    ensures TrackingNumber(Some(Join(params + [last], "&"))) == TrackingValue(last)
  {
    var all := params + [last];
    assert all[|all| - 1] == last;
    assert JavaSplit([], "=") == [[]];
    JavaSplitJoin(all, '&');
  }

  /** A query with no tracking pair, or a blank value, is refused 400 before anything else. */
  lemma MissingTrackingIs400(query: Option<string>, connection: Result<(), string>, sqlError: bool,
                             lookup: string -> Option<string>)
    requires TrackingNumber(query).None? || TrimsToEmpty(TrackingNumber(query).value)
    ensures Track(query, connection, sqlError, lookup) == TrackingRequired
  {
  }

  /**
   * A present tracking number is looked up in its sanitised form, which has
   * no quote, backslash or shell metacharacter; the sanitiser never refuses.
   */
  lemma TrackLooksUpSanitised(query: Option<string>, lookup: string -> Option<string>)
    requires TrackingNumber(query).Some? && !TrimsToEmpty(TrackingNumber(query).value)
    ensures var key := SmInputSanitizer.SanitizeString(TrackingNumber(query)).value;
      Track(query, Ok(()), false, lookup) == (if lookup(key).Some? then Reply(200, lookup(key).value) else PackageNotFound)
      && forall i :: 0 <= i < |key| ==> !InputSanitizer.IsQuoteChar(key[i]) && !InputSanitizer.IsCommandChar(key[i])
  {
    SmInputSanitizer.SanitizedIsSafe(TrackingNumber(query).value);
  }

  /** The whitelist holds exactly seven distinct columns, each a plain word. */
  lemma WhitelistFacts()
    ensures |AllowedFields| == 7
    ensures forall i, j :: 0 <= i < j < |AllowedFields| ==> AllowedFields[i] != AllowedFields[j]
    ensures forall i :: 0 <= i < |AllowedFields| ==> SmInputSanitizer.PlainWord(AllowedFields[i])
  {
  }

  /** A whitelisted column is a plain word. */
  lemma AllowedFieldIsPlain(field: string)
    requires field in AllowedFields
    ensures SmInputSanitizer.PlainWord(field)
  {
    WhitelistFacts();
  }

  /** Sanitising never refuses, and keeps a plain-word column as it is. */
  lemma SanitizedPlainColumn(packageId: int, field: string, fields: map<string, string>)
    requires "newValue" in fields && SmInputSanitizer.PlainWord(field)
    ensures SanitizedEdit(packageId, field, fields).Ok?
    ensures SanitizedEdit(packageId, field, fields).value.sanitizedField == field
    ensures SanitizedEdit(packageId, field, fields).value.field == field
  {
    SmInputSanitizer.PlainWordSanitized(field);
  }

  /** The checks pass exactly when the three fields are present, the id is a long and the column is whitelisted. */
  lemma CheckEditAccepts(fields: map<string, string>)
    ensures CheckEdit(fields).Ok? <==>
              "packageId" in fields && "field" in fields && "newValue" in fields
              && ParseLong(fields["packageId"]).Some? && fields["field"] in AllowedFields
  {
  }

  /**
   * The column named in the SQL is the whitelisted one itself, since
   * sanitising leaves it alone; so "Invalid input format" never happens.
   */
  lemma CheckEditColumn(fields: map<string, string>)
    ensures CheckEdit(fields).Ok? ==>
              CheckEdit(fields).value.sanitizedField == CheckEdit(fields).value.field == fields["field"]
              && CheckEdit(fields).value.sanitizedField in AllowedFields
    ensures CheckEdit(fields) != Err(InvalidInput)
  {
    if "packageId" in fields && "field" in fields && "newValue" in fields
       && ParseLong(fields["packageId"]).Some? && fields["field"] in AllowedFields {
      var field := fields["field"];
      AllowedFieldIsPlain(field);
      SanitizedPlainColumn(ParseLong(fields["packageId"]).value, field, fields);
    }
  }

  /** Only a manager's or an administrator's session may edit; the others are 401 or 403 and change nothing. */
  lemma OnlyManagersEdit(session: Result<Session, string>, body: string, connection: Result<(), string>,
                         sqlError: Option<EditFault>, db: Db, parseDouble: string -> Option<real>, columnText: Value -> string)
    requires session.Err? || !MayEdit(session.value.role)
    ensures var (r, after) := EditPackage(session, body, connection, sqlError, db, parseDouble, columnText);
      (r == Unauthorized || r == ManagerRequired) && after == db
  {
  }

  /** A refused edit changes nothing. */
  lemma RefusalsChangeNothing(session: Result<Session, string>, body: string, connection: Result<(), string>,
                              sqlError: Option<EditFault>, db: Db, parseDouble: string -> Option<real>, columnText: Value -> string)
    ensures var (r, after) := EditPackage(session, body, connection, sqlError, db, parseDouble, columnText);
      r.status != 200 ==> after == db
  {
    if session.Ok? && MayEdit(session.value.role) && CheckEdit(CommaSplitJson(Some(body))).Ok? {
      EditCheckedOutcome(CheckEdit(CommaSplitJson(Some(body))).value, session.value.username, connection, sqlError, db,
                         parseDouble, columnText);
    }
  }

  /** What the edit does past its checks, branch by branch. */
  lemma EditCheckedOutcome(e: Edit, username: Option<string>, connection: Result<(), string>,
                           sqlError: Option<EditFault>, db: Db, parseDouble: string -> Option<real>,
                           columnText: Value -> string)
    ensures var (r, after) := EditChecked(e, username, connection, sqlError, db, parseDouble, columnText);
      (r.status == 200 <==>
         connection.Ok? && sqlError.None? && e.packageId in db.packages
         && Converted(e.field, e.newValue, parseDouble).Some?)
      && (r.status == 200 ==>
            after == Record(db, e, UserId(db, username), Converted(e.field, e.newValue, parseDouble).value, columnText))
      && (r.status != 200 ==> after == db)
      && (connection.Err? || sqlError == Some(ReadFailed) ==> r == ServerError)
      && (connection.Ok? && sqlError != Some(ReadFailed) && e.packageId !in db.packages ==> r == PackageNotFound)
  {
  }

  /**
   * The flags take true exactly for "true" in any case, the status keeps its
   * text, and the other columns take the parsed double or refuse the edit.
   */
  lemma ConversionByColumn(field: string, newValue: string, parseDouble: string -> Option<real>)
    requires field in AllowedFields
    ensures field == "fragile" || field == "signature_required" ==>
              Converted(field, newValue, parseDouble) == Some(Flag(EqualsIgnoreCase(newValue, "true")))
    ensures field == "package_status" ==> Converted(field, newValue, parseDouble) == Some(Word(newValue))
    ensures field in {"weight_kg", "length_cm", "width_cm", "height_cm"} ==>
              (Converted(field, newValue, parseDouble).None? <==> parseDouble(newValue).None?)
              && (parseDouble(newValue).Some? ==> Converted(field, newValue, parseDouble) == Some(Number(parseDouble(newValue).value)))
  {
  }

  /**
   * An edit answers 200 exactly when every check passed, the connection
   * opened, no SQL exception struck, the package exists and the value
   * converted; its writes are then those of `Record`. Past the checks, a
   * failing connection or query is 500 before a missing package is 404.
   */
  lemma EditWrites(session: Result<Session, string>, body: string, connection: Result<(), string>,
                   sqlError: Option<EditFault>, db: Db, parseDouble: string -> Option<real>, columnText: Value -> string)
    ensures var (r, after) := EditPackage(session, body, connection, sqlError, db, parseDouble, columnText);
      var c := CheckEdit(CommaSplitJson(Some(body)));
      r.status == 200 <==>
        session.Ok? && MayEdit(session.value.role) && c.Ok? && connection.Ok? && sqlError.None?
        && c.value.packageId in db.packages && Converted(c.value.field, c.value.newValue, parseDouble).Some?
    ensures var (r, after) := EditPackage(session, body, connection, sqlError, db, parseDouble, columnText);
      var c := CheckEdit(CommaSplitJson(Some(body)));
      r.status == 200 ==>
        after == Record(db, c.value, UserId(db, session.value.username),
                        Converted(c.value.field, c.value.newValue, parseDouble).value, columnText)
    ensures var (r, after) := EditPackage(session, body, connection, sqlError, db, parseDouble, columnText);
      var c := CheckEdit(CommaSplitJson(Some(body)));
      session.Ok? && MayEdit(session.value.role) && c.Ok? ==>
        (connection.Err? || sqlError == Some(ReadFailed) ==> r == ServerError)
        && (connection.Ok? && sqlError != Some(ReadFailed) && c.value.packageId !in db.packages ==> r == PackageNotFound)
  {
    var c := CheckEdit(CommaSplitJson(Some(body)));
    if session.Ok? && MayEdit(session.value.role) && c.Ok? {
      EditCheckedOutcome(c.value, session.value.username, connection, sqlError, db, parseDouble, columnText);
    }
  }

  /**
   * The writes set the one column of the one package and append one history
   * row holding the old text and, for an empty reason, null; every other
   * package and every other column is as it was.
   */
  lemma RecordEffects(db: Db, e: Edit, userId: int, value: Value, columnText: Value -> string)
    requires e.packageId in db.packages
    ensures var after := Record(db, e, userId, value, columnText);
      var before := db.packages[e.packageId];
      after.packages.Keys == db.packages.Keys && after.users == db.users
      && after.packages[e.packageId].trackingNumber == before.trackingNumber
      && after.packages[e.packageId].columns[e.sanitizedField] == value
      && (forall col :: col in before.columns && col != e.sanitizedField ==>
            col in after.packages[e.packageId].columns && after.packages[e.packageId].columns[col] == before.columns[col])
      && (forall id :: id in db.packages && id != e.packageId ==> after.packages[id] == db.packages[id])
      && after.edits == db.edits + [after.edits[|db.edits|]]
      && after.edits[|db.edits|].oldValue == OldText(before, e.sanitizedField, columnText)
      && after.edits[|db.edits|].fieldName == e.sanitizedField
      && after.edits[|db.edits|].editedBy == userId
      && (after.edits[|db.edits|].reason.None? <==> e.reason == [])
  {
  }
}
