// The inventory endpoints (controllers/InventoryController.java): the session
// from the SESSION cookie or else a bearer token, the facility id or the
// tracking number from the path (read before the session is asked for), the
// InventoryService call, the status code of a failure from the words of its
// message, and the JSON arrays the listings are written as. The session
// lookup and the DAO's answers are parameters, and so is an inventory item's
// own JSON (`InventoryItem.toJson`); the audit entries, the CORS headers and
// the method checks are not modelled.
module InventoryController {
  import opened Wrappers
  import opened JavaStrings
  import opened ResultModel
  import opened SecurityLevels
  import opened JsonHelpers
  import SessionManager
  import AdminController
  import InventoryService
  import opened Patterns

  type Session = SessionManager.Session

  const Unauthorized: Reply := Reply(401, "{\"error\":\"Unauthorized\"}")
  const FacilityIdRequired: Reply := Reply(400, "{\"error\":\"Facility ID required\"}")
  const InvalidFacilityId: Reply := Reply(400, "{\"error\":\"Invalid facility ID\"}")
  const TrackingNumberRequired: Reply := Reply(400, "{\"error\":\"Tracking number required\"}")
  const NoSessionToken: string := "No session token provided"
  /** What the BLP check throws on a session whose clearance is null. */
  const NullPointer: string := "NullPointerException"
  /**
   * InventoryDAO's answer for a tracking number with no inventory row (in pieces,
   * for the reason given beside the refusals of TransferDao).
   */
  const PackageNotFound: string := "Package " + "not found" + " in inventory"

  // ---------------------------------------------------------------------------
  // The session

  /** `getSessionFromRequest`: the token AdminController's rule picks, looked up, or an error without one. */
  function SessionFromRequest(cookieHeader: Option<string>, authHeader: Option<string>,
                              lookup: string -> Result<Session, string>): Result<Session, string>
  {
    match AdminController.SessionToken(cookieHeader, authHeader)
    case None => Err(NoSessionToken)
    case Some(token) => lookup(token)
  }

  /** The token found by the cookie loop and the header check, then the lookup. */
  method GetSessionFromRequest(cookieHeader: Option<string>, authHeader: Option<string>,
                               lookup: string -> Result<Session, string>)
    returns (r: Result<Session, string>)
    ensures r == SessionFromRequest(cookieHeader, authHeader, lookup)
  {
    var token := AdminController.GetSessionToken(cookieHeader, authHeader);
    if token.None? {
      return Err(NoSessionToken);
    }
    return lookup(token.value);
  }

  /**
   * A SESSION cookie is looked up whatever bearer token comes with it, a
   * bearer token alone is looked up, and a request with neither has no
   * session.
   */
  lemma SessionSources(t: string, u: string, lookup: string -> Result<Session, string>)
    requires ';' !in t && (t == [] || !IsTrimSpace(t[|t| - 1]))
    ensures SessionFromRequest(Some("SESSION=" + t), Some("Bearer " + u), lookup) == lookup(t)
    ensures SessionFromRequest(None, Some("Bearer " + u), lookup) == lookup(u)
    ensures SessionFromRequest(None, None, lookup) == Err(NoSessionToken)
  {
    AdminController.OrderDiffers(t, u);
    var h := "Bearer " + u;
    assert h[..7] == "Bearer " && h[7..] == u;
  }

  // ---------------------------------------------------------------------------
  // Status codes chosen from the message

  /** A failed read or listing: "Access denied" in the message gives 403, anything else 500. */
  function ReadStatus(error: string): int
  {
    if Contains(error, "Access denied") then 403 else 500
  }

  /** A failed search: "Access denied" gives 403, "not found" 404, anything else 500. */
  function SearchStatus(error: string): int
  {
    if Contains(error, "Access denied") then 403
    else if Contains(error, "not found") then 404
    else 500
  }

  // ---------------------------------------------------------------------------
  // The JSON arrays

  /** What the list serialisers write: "[", the elements joined by ",", "]". */
  function ArrayJson(elements: seq<string>): string
  {
    "[" + Join(elements, ",") + "]"
  }

  /** Each item's own JSON, in order. */
  function Rendered<T>(items: seq<T>, toJson: T -> string): (r: seq<string>)
    ensures |r| == |items| && forall i :: 0 <= i < |items| ==> r[i] == toJson(items[i])
  {
    seq(|items|, i requires 0 <= i < |items| => toJson(items[i]))
  }

  /**
   * The loop of `inventoryListToJson` and `facilitiesListToJson`: each
   * element's JSON, and a comma after every one but the last.
   */
  method ListToJson<T>(items: seq<T>, toJson: T -> string) returns (json: string)
    ensures json == ArrayJson(Rendered(items, toJson))
  {
    ghost var r := Rendered(items, toJson);
    json := "[";
    var i := 0;
    while i < |items|
      invariant 0 <= i <= |items|
      invariant json == "[" + Join(r[..i], ",") + (if 0 < i < |items| then "," else "")
    {
      JoinSnoc(r[..i], r[i], ",");
      assert r[..i + 1] == r[..i] + [r[i]];
      json := json + toJson(items[i]);
      if i < |items| - 1 {
        json := json + ",";
      }
      i := i + 1;
    }
    assert r[..|items|] == r;
    json := json + "]";
  }

  /** A facility row; the name and the address may be null. */
  datatype Facility = Facility(facilityId: int, facilityName: Option<string>, address: Option<string>)

  /** The object text up to the facility name. */
  function NamePrefix(facilityId: int): string
  {
    "{\"facilityId\":" + IntToString(facilityId) + ",\"facilityName\":\""
  }

  /** The text between the facility name and the address, and the object's end. */
  const AddressKey: string := "\",\"address\":\""
  const ObjectEnd: string := "\"}"

  /** The object text from the end of the facility name. */
  function AddressPart(address: Option<string>): string
  {
    AddressKey + EscapeJson(address) + ObjectEnd
  }

  /** One facility as `facilitiesListToJson` writes it field by field, a null field as "". */
  function FacilityJson(f: Facility): string
  {
    NamePrefix(f.facilityId) + EscapeJson(f.facilityName) + AddressPart(f.address)
  }

  // ---------------------------------------------------------------------------
  // The handlers, after the OPTIONS and GET checks

  /** The segment after "/api/inventory/facility/", read as a long, or the 400 reply. */
  function FacilityIdOf(path: string): Result<int, Reply>
  {
    var parts := JavaSplit(path, "/");
    if |parts| < 5 then Err(FacilityIdRequired)
    else match ParseLong(parts[4])
      case None => Err(InvalidFacilityId)
      case Some(id) => Ok(id)
  }

  /** The segment after "/api/inventory/search/", or the 400 reply. */
  function TrackingNumberOf(path: string): Result<string, Reply>
  {
    var parts := JavaSplit(path, "/");
    if |parts| < 5 then Err(TrackingNumberRequired) else Ok(parts[4])
  }

  /** `handleGetAllInventory`. */
  function GetAll<T>(session: Result<Session, string>, all: Result<seq<T>, string>, toJson: T -> string)
    : Outcome<Reply>
  {
    if session.Err? then Returned(Unauthorized)
    else if session.value.clearance.None? then Threw(NullPointer)
    else match InventoryService.GetAllInventory(session.value.clearance.value, all)
      case Err(e) => Returned(Reply(ReadStatus(e), ErrorBody(e)))
      case Ok(items) => Returned(Reply(200, ArrayJson(Rendered(items, toJson))))
  }

  /** `handleGetInventoryByFacility`: the path first, then the session. */
  function ByFacility<T>(path: string, session: Result<Session, string>,
                         byFacility: int -> Result<seq<T>, string>, toJson: T -> string): Outcome<Reply>
  {
    match FacilityIdOf(path)
    case Err(reply) => Returned(reply)
    case Ok(facilityId) =>
      if session.Err? then Returned(Unauthorized)
      else if session.value.clearance.None? then Threw(NullPointer)
      else match InventoryService.GetInventoryByFacility(facilityId, session.value.clearance.value, byFacility)
        case Err(e) => Returned(Reply(ReadStatus(e), ErrorBody(e)))
        case Ok(items) => Returned(Reply(200, ArrayJson(Rendered(items, toJson))))
  }

  /** `handleGetFacilities`. */
  function Facilities(session: Result<Session, string>, facilities: Result<seq<Facility>, string>): Outcome<Reply>
  {
    if session.Err? then Returned(Unauthorized)
    else if session.value.clearance.None? then Threw(NullPointer)
    else match InventoryService.GetAllFacilities(session.value.clearance.value, facilities)
      case Err(e) => Returned(Reply(ReadStatus(e), ErrorBody(e)))
      case Ok(fs) => Returned(Reply(200, ArrayJson(Rendered(fs, FacilityJson))))
  }

  /** `handleSearchInventory`: the path first, then the session; the found item is sent as its own JSON. */
  function Search<T>(path: string, session: Result<Session, string>,
                     byTracking: string -> Result<T, string>, toJson: T -> string): Outcome<Reply>
  {
    match TrackingNumberOf(path)
    case Err(reply) => Returned(reply)
    case Ok(trackingNumber) =>
      if session.Err? then Returned(Unauthorized)
      else if session.value.clearance.None? then Threw(NullPointer)
      else match InventoryService.SearchByTrackingNumber(Some(trackingNumber), session.value.clearance.value, byTracking)
        case Err(e) => Returned(Reply(SearchStatus(e), ErrorBody(e)))
        case Ok(item) => Returned(Reply(200, toJson(item)))
  }

  // ---------------------------------------------------------------------------
  // Properties

  /** An empty list is "[]"; a list of comma-free elements, the last non-empty, splits back at the commas. */
  lemma ArrayJsonReadsBack(elements: seq<string>)
    ensures elements == [] ==> ArrayJson(elements) == "[]"
    ensures var a := ArrayJson(elements);
      |a| >= 2 && a[0] == '[' && a[|a| - 1] == ']' && a[1..|a| - 1] == Join(elements, ",")
    ensures elements != [] && elements[|elements| - 1] != [] && (forall i :: 0 <= i < |elements| ==> ',' !in elements[i])
            ==> JavaSplit(Join(elements, ","), ",") == elements
  {
    var a := ArrayJson(elements);
    assert a[1..|a| - 1] == Join(elements, ",");
    if elements != [] && elements[|elements| - 1] != [] && (forall i :: 0 <= i < |elements| ==> ',' !in elements[i]) {
      JavaSplitJoin(elements, ',');
    }
  }

  /**
   * The name and the address of a facility read back from its object: the
   * text between the name's quotes decodes to the name, a null one to "",
   * and likewise the address.
   */
  lemma FacilityJsonReadsBack(f: Facility)
    requires f.facilityName.Some? ==> forall i :: 0 <= i < |f.facilityName.value| ==> !OtherControl(f.facilityName.value[i])
    requires f.address.Some? ==> forall i :: 0 <= i < |f.address.value| ==> !OtherControl(f.address.value[i])
    ensures var s := FacilityJson(f);
      var p := |NamePrefix(f.facilityId)|;
      var n := |EscapeJson(f.facilityName)|;
      var q := p + n + 13;
      var m := |EscapeJson(f.address)|;
      q + m + 2 == |s|
      && Unescape(s[p..p + n]) == Some(if f.facilityName.Some? then f.facilityName.value else [])
      && Unescape(s[q..q + m]) == Some(if f.address.Some? then f.address.value else [])
  {
    ReadsBackAfter(NamePrefix(f.facilityId), f.facilityName, f.address);
  }

  /** The same, for any text before the name. */
  lemma ReadsBackAfter(prefix: string, name: Option<string>, address: Option<string>)
    requires name.Some? ==> forall i :: 0 <= i < |name.value| ==> !OtherControl(name.value[i])
    requires address.Some? ==> forall i :: 0 <= i < |address.value| ==> !OtherControl(address.value[i])
    ensures var s := prefix + EscapeJson(name) + AddressPart(address);
      var p := |prefix|;
      var n := |EscapeJson(name)|;
      var q := p + n + 13;
      var m := |EscapeJson(address)|;
      q + m + 2 == |s|
      && Unescape(s[p..p + n]) == Some(if name.Some? then name.value else [])
      && Unescape(s[q..q + m]) == Some(if address.Some? then address.value else [])
  {
    var s := prefix + EscapeJson(name) + AddressPart(address);
    var p := |prefix|;
    var q := p + |EscapeJson(name)| + 13;
    NameAndAddressSlices(prefix, name, address);
    ReadsBackOrEmpty(s[p..p + |EscapeJson(name)|], name);
    ReadsBackOrEmpty(s[q..q + |EscapeJson(address)|], address);
  }

  /** The escaped name and address are where the object text puts them. */
  lemma NameAndAddressSlices(prefix: string, name: Option<string>, address: Option<string>)
    ensures var s := prefix + EscapeJson(name) + AddressPart(address);
      var p := |prefix|;
      var n := |EscapeJson(name)|;
      var q := p + n + 13;
      var m := |EscapeJson(address)|;
      q + m + 2 == |s| && s[p..p + n] == EscapeJson(name) && s[q..q + m] == EscapeJson(address)
  {
    KeyLengths();
    ObjectSlices(prefix, EscapeJson(name), AddressKey, EscapeJson(address), ObjectEnd);
  }

  /** The lengths of the two fixed pieces. */
  lemma KeyLengths()
    ensures |AddressKey| == 13 && |ObjectEnd| == 2
  {
  }

  /** Where the two escaped texts sit in the object text. */
  lemma ObjectSlices(prefix: string, name: string, mid: string, address: string, tail: string)
    ensures var s := prefix + name + (mid + address + tail);
      var p := |prefix|;
      var q := p + |name| + |mid|;
      |s| == q + |address| + |tail| && s[p..p + |name|] == name && s[q..q + |address|] == address
  {
    var s := prefix + name + (mid + address + tail);
    var p := |prefix|;
    var q := p + |name| + |mid|;
    assert s[p..p + |name|] == name;
    assert s[q..q + |address|] == address;
  }

  /** An escaped text decodes to the text, and a null one to "". */
  lemma ReadsBackOrEmpty(x: string, o: Option<string>)
    requires o.Some? ==> forall i :: 0 <= i < |o.value| ==> !OtherControl(o.value[i])
    requires x == EscapeJson(o)
    ensures Unescape(x) == Some(if o.Some? then o.value else [])
  {
    if o.Some? {
      EscapeRoundTrip(o.value);
    }
  }

  /** A bad facility path is answered 400 before the session is looked at, whatever the session. */
  lemma FacilityPathFirst<T>(path: string, session: Result<Session, string>, other: Result<Session, string>,
                             byFacility: int -> Result<seq<T>, string>, toJson: T -> string)
    requires FacilityIdOf(path).Err?
    ensures ByFacility(path, session, byFacility, toJson) == ByFacility(path, other, byFacility, toJson)
    ensures ByFacility(path, session, byFacility, toJson).Returned?
            && ByFacility(path, session, byFacility, toJson).value.status == 400
  {
  }

  /** A search path without a tracking segment is answered 400 before the session is looked at. */
  lemma SearchPathFirst<T>(path: string, session: Result<Session, string>, other: Result<Session, string>,
                           byTracking: string -> Result<T, string>, toJson: T -> string)
    requires TrackingNumberOf(path).Err?
    ensures Search(path, session, byTracking, toJson) == Search(path, other, byTracking, toJson)
            == Returned(TrackingNumberRequired)
  {
  }

  /** The facility path reads back the id written into it. */
  lemma FacilityPathRoundTrip(id: nat)
    requires id <= LongMax
    ensures FacilityIdOf("/api/inventory/facility/" + NatToString(id)) == Ok(id)
  {
    var d := NatToString(id);
    assert '/' !in d by {
      assert forall i :: 0 <= i < |d| ==> IsDigit(d[i]);
    }
    assert "/api/inventory/facility/" + d == "/api/" + "inventory" + "/" + "facility" + "/" + d;
    ApiPathPieces("inventory", "facility", d);
    ParseNatToString(id);
  }

  /** The search path reads back the tracking number written into it. */
  lemma SearchPathRoundTrip(trackingNumber: string)
    requires trackingNumber != [] && '/' !in trackingNumber
    ensures TrackingNumberOf("/api/inventory/search/" + trackingNumber) == Ok(trackingNumber)
  {
    assert "/api/inventory/search/" + trackingNumber
           == "/api/" + "inventory" + "/" + "search" + "/" + trackingNumber;
    ApiPathPieces("inventory", "search", trackingNumber);
  }

  /** Each of the service's refusals names "Access denied". */
  lemma DenialsNameAccess()
    ensures Contains(InventoryService.InventoryDenied, "Access denied")
    ensures Contains(InventoryService.FacilitiesDenied, "Access denied")
    ensures Contains(InventoryService.SearchDenied, "Access denied")
  {
    StartsWithWord(InventoryService.InventoryDenied, "Access denied", ": Insufficient clearance to view inventory data");
    StartsWithWord(InventoryService.FacilitiesDenied, "Access denied", ": Insufficient clearance to view facility data");
    StartsWithWord(InventoryService.SearchDenied, "Access denied", ": Insufficient clearance to search inventory");
  }

  /**
   * Below SECRET the inventory reads and the search are 403 with the
   * service's refusal; below CONFIDENTIAL so is the facility list.
   */
  lemma DenialsAre403<T>(session: Result<Session, string>, path: string, searchPath: string,
                         all: Result<seq<T>, string>, byFacility: int -> Result<seq<T>, string>,
                         facilities: Result<seq<Facility>, string>, byTracking: string -> Result<T, string>,
                         toJson: T -> string)
    requires session.Ok? && session.value.clearance.Some?
    requires FacilityIdOf(path).Ok? && TrackingNumberOf(searchPath).Ok?
    ensures var c := session.value.clearance.value;
      !AtOrAbove(c, Secret) ==>
        GetAll(session, all, toJson) == Returned(Reply(403, ErrorBody(InventoryService.InventoryDenied)))
        && ByFacility(path, session, byFacility, toJson) == Returned(Reply(403, ErrorBody(InventoryService.InventoryDenied)))
        && Search(searchPath, session, byTracking, toJson) == Returned(Reply(403, ErrorBody(InventoryService.SearchDenied)))
    ensures var c := session.value.clearance.value;
      !AtOrAbove(c, Confidential) ==>
        Facilities(session, facilities) == Returned(Reply(403, ErrorBody(InventoryService.FacilitiesDenied)))
  {
    DenialsNameAccess();
  }

  /** A null clearance gets past the session check and throws in the clearance check. */
  lemma NullClearanceThrows<T>(session: Result<Session, string>, path: string, searchPath: string,
                               all: Result<seq<T>, string>, byFacility: int -> Result<seq<T>, string>,
                               facilities: Result<seq<Facility>, string>, byTracking: string -> Result<T, string>,
                               toJson: T -> string)
    requires session.Ok? && session.value.clearance.None?
    requires FacilityIdOf(path).Ok? && TrackingNumberOf(searchPath).Ok?
    ensures GetAll(session, all, toJson) == Threw(NullPointer)
    ensures ByFacility(path, session, byFacility, toJson) == Threw(NullPointer)
    ensures Facilities(session, facilities) == Threw(NullPointer)
    ensures Search(searchPath, session, byTracking, toJson) == Threw(NullPointer)
  {
  }

  /**
   * With the clearance, the listings are 200 with the array of the rows the
   * DAO gave, and a DAO error is 403 exactly when it says "Access denied"
   * (even a database error that does), 500 otherwise.
   */
  lemma ListingsAnswerTheDao<T>(session: Result<Session, string>, all: Result<seq<T>, string>,
                                facilities: Result<seq<Facility>, string>, toJson: T -> string)
    requires session.Ok? && session.value.clearance.Some?
    ensures var c := session.value.clearance.value;
      AtOrAbove(c, Secret) ==>
        GetAll(session, all, toJson)
          == Returned(if all.Ok? then Reply(200, ArrayJson(Rendered(all.value, toJson)))
                      else Reply(if Contains(all.error, "Access denied") then 403 else 500, ErrorBody(all.error)))
    ensures var c := session.value.clearance.value;
      AtOrAbove(c, Confidential) ==>
        Facilities(session, facilities)
          == Returned(if facilities.Ok? then Reply(200, ArrayJson(Rendered(facilities.value, FacilityJson)))
                      else Reply(if Contains(facilities.error, "Access denied") then 403 else 500,
                                 ErrorBody(facilities.error)))
  {
  }

  /** "Tracking number is required" names neither "Access denied" nor "not found". */
  lemma TrackingRequiredWords(e: string)
    requires e == InventoryService.TrackingRequired
    ensures !Contains(e, "Access denied") && !Contains(e, "not found")
  {
    assert 'A' !in e && 'f' !in e;
    CharAbsent(e, "Access denied", 'A');
    CharAbsent(e, "not found", 'f');
  }

  /** "Invalid tracking number format" names neither "Access denied" nor "not found". */
  lemma InvalidFormatWords(e: string)
    requires e == InventoryService.InvalidTrackingFormat
    ensures !Contains(e, "Access denied") && !Contains(e, "not found")
  {
    assert 'A' !in e;
    CharAbsent(e, "Access denied", 'A');
    NotFoundPivot(e, "Invalid tracking number ", "ormat");
  }

  /**
   * With the clearance, a tracking segment that is blank, or has no ASCII
   * letter or digit, is refused by the service and answered 500.
   */
  lemma SearchRefusalsAre500<T>(session: Result<Session, string>, path: string,
                                byTracking: string -> Result<T, string>, toJson: T -> string)
    requires session.Ok? && session.value.clearance.Some? && AtOrAbove(session.value.clearance.value, Secret)
    requires TrackingNumberOf(path).Ok?
    ensures var x := TrackingNumberOf(path).value;
      TrimsToEmpty(x) ==>
        Search(path, session, byTracking, toJson) == Returned(Reply(500, ErrorBody(InventoryService.TrackingRequired)))
    ensures var x := TrackingNumberOf(path).value;
      !TrimsToEmpty(x) && TrimmedAlphaNum(x) == [] ==>
        Search(path, session, byTracking, toJson) == Returned(Reply(500, ErrorBody(InventoryService.InvalidTrackingFormat)))
  {
    TrackingRequiredWords(InventoryService.TrackingRequired);
    InvalidFormatWords(InventoryService.InvalidTrackingFormat);
  }

  /** The DAO's "Package not found in inventory" names "not found" but not "Access denied". */
  lemma PackageNotFoundWords(e: string)
    requires e == PackageNotFound
    ensures !Contains(e, "Access denied") && Contains(e, "not found")
  {
    assert 'A' !in e;
    CharAbsent(e, "Access denied", 'A');
    Infix("Package ", "not found", " in inventory");
  }

  /**
   * With the clearance, a search the DAO answers is 200 with the item's JSON,
   * and the DAO's "Package not found in inventory" is 404.
   */
  lemma SearchAnswersTheDao<T>(session: Result<Session, string>, path: string,
                               byTracking: string -> Result<T, string>, toJson: T -> string)
    requires session.Ok? && session.value.clearance.Some? && AtOrAbove(session.value.clearance.value, Secret)
    requires TrackingNumberOf(path).Ok?
    requires var x := TrackingNumberOf(path).value; !TrimsToEmpty(x) && TrimmedAlphaNum(x) != []
    ensures var key := TrimmedAlphaNum(TrackingNumberOf(path).value);
      byTracking(key).Ok? ==> Search(path, session, byTracking, toJson) == Returned(Reply(200, toJson(byTracking(key).value)))
    ensures var key := TrimmedAlphaNum(TrackingNumberOf(path).value);
      byTracking(key) == Err(PackageNotFound) ==>
        Search(path, session, byTracking, toJson) == Returned(Reply(404, ErrorBody(PackageNotFound)))
  {
    PackageNotFoundWords(PackageNotFound);
  }
}
