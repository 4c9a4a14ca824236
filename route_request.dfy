// The route-optimisation request body (models/RouteRequest.java) and its
// hand-written JSON reader. The reader does not parse JSON: it cuts the text at
// fixed markers, so its behaviour, including the exceptions it throws, is
// modelled exactly. A thrown exception is an Outcome naming its Java class.
module RouteRequest {
  import opened Wrappers
  import opened JavaStrings

  const IndexOutOfBounds: string := "StringIndexOutOfBoundsException"
  const NumberFormat: string := "NumberFormatException"

  const WarehouseMarker: string := "\"warehouseAddress\":\""
  const AddressesMarker: string := "\"deliveryAddresses\":["
  const AddressesKey: string := "\"deliveryAddresses\":"
  const AddressSeparator: string := "\",\""
  const DriverMarker: string := "\"driverId\":"
  const FacilityMarker: string := "\"facilityId\":"
  const DateMarker: string := "\"routeDate\":\""

  /** The request's five properties, as values. */
  datatype Request = Request(warehouseAddress: Option<string>, deliveryAddresses: seq<string>,
                             driverId: int, facilityId: int, routeDate: Option<string>)

  /** A new request: no strings set, ids zero, an empty address list. */
  const Fresh: Request := Request(None, [], 0, 0, None)

  /** Java `s.substring(b, e)`. */
  function Substring(s: string, b: int, e: int): (r: Outcome<string>)
    ensures r.Returned? <==> 0 <= b <= e <= |s|
    ensures r.Threw? ==> r.exception == IndexOutOfBounds
  {
    if 0 <= b <= e <= |s| then Returned(s[b..e]) else Threw(IndexOutOfBounds)
  }

  /** `json.trim().substring(1, json.length() - 1)`: the cut uses the length of the untrimmed text. */
  function Body(json: string): Outcome<string>
  {
    Substring(Trim(json), 1, |json| - 1)
  }

  /** A string property: the text from the end of `marker` (found first) up to the next '"'. */
  function QuotedField(body: string, marker: string, offset: nat): Outcome<Option<string>>
  {
    if !Contains(body, marker) then Returned(None)
    else
      var start := IndexOf(body, marker) + offset;
      match Substring(body, start, IndexOfFrom(body, "\"", start))
      case Threw(e) => Threw(e)
      case Returned(v) => Returned(Some(v))
  }

  /** One address: its double quotes removed, then trimmed. */
  function CleanAddress(piece: string): string
  {
    Trim(ReplaceChar(piece, '"', ""))
  }

  function CleanAll(pieces: seq<string>): (r: seq<string>)
    ensures |r| == |pieces| && forall i :: 0 <= i < |pieces| ==> r[i] == CleanAddress(pieces[i])
  {
    seq(|pieces|, i requires 0 <= i < |pieces| => CleanAddress(pieces[i]))
  }

  /** The text between the first '[' after the address key and the next ']'. */
  function ArraySlice(body: string): Outcome<string>
  {
    var key := IndexOf(body, AddressesKey);
    var arrayStart := IndexOfFrom(body, "[", if key < 0 then 0 else key) + 1;
    Substring(body, arrayStart, IndexOfFrom(body, "]", arrayStart))
  }

  /** The address list: the array's text split at `","`; a blank array sets nothing. */
  function Addresses(body: string): Outcome<Option<seq<string>>>
  {
    if !Contains(body, AddressesMarker) then Returned(None)
    else
      match ArraySlice(body)
      case Threw(e) => Threw(e)
      case Returned(text) =>
        if TrimsToEmpty(text) then Returned(None)
        else Returned(Some(CleanAll(JavaSplit(text, AddressSeparator))))
  }

  /**
   * A numeric property: the text from the end of `marker` up to the next ','
   * or, failing that, the next '}', trimmed and read as a long.
   */
  function NumberField(body: string, marker: string, offset: nat): Outcome<Option<int>>
  {
    if !Contains(body, marker) then Returned(None)
    else
      var start := IndexOf(body, marker) + offset;
      var comma := IndexOfFrom(body, ",", start);
      var end := if comma == -1 then IndexOfFrom(body, "}", start) else comma;
      match Substring(body, start, end)
      case Threw(e) => Threw(e)
      case Returned(digits) =>
        match ParseLong(Trim(digits))
        case None => Threw(NumberFormat)
        case Some(v) => Returned(Some(v))
  }

  /** `fromJson`: the five properties are read in order; the first exception ends the call. */
  function FromJsonValue(json: string): Outcome<Request>
  {
    match Body(json)
    case Threw(e) => Threw(e)
    case Returned(body) =>
      match QuotedField(body, WarehouseMarker, 20)
      case Threw(e) => Threw(e)
      case Returned(warehouse) =>
        match Addresses(body)
        case Threw(e) => Threw(e)
        case Returned(addresses) =>
          match NumberField(body, DriverMarker, 11)
          case Threw(e) => Threw(e)
          case Returned(driver) =>
            match NumberField(body, FacilityMarker, 13)
            case Threw(e) => Threw(e)
            case Returned(facility) =>
              match QuotedField(body, DateMarker, 13)
              case Threw(e) => Threw(e)
              case Returned(date) =>
                Returned(Request(warehouse, addresses.GetOr([]), driver.GetOr(0), facility.GetOr(0), date))
  }

  // ---------------------------------------------------------------------------
  // Properties

  /** The fixed offsets are the lengths of the markers they skip. */
  lemma OffsetsAreMarkerLengths()
    ensures |WarehouseMarker| == 20 && |DriverMarker| == 11 && |FacilityMarker| == 13 && |DateMarker| == 13
  {
  }

  /**
   * Only text that is already trimmed loses exactly its outer characters;
   * with one surrounding blank the closing character stays, and with two or
   * more the call throws.
   */
  lemma BodyUsesUntrimmedLength(json: string)
    ensures Trim(json) == json && |json| >= 2 ==> Body(json) == Returned(json[1..|json| - 1])
    ensures |json| >= 2 && |Trim(json)| == |json| - 1 ==> Body(json) == Returned(Trim(json)[1..])
    ensures |Trim(json)| <= |json| - 2 || |json| < 2 ==> Body(json) == Threw(IndexOutOfBounds)
  {
    var t := Trim(json);
    if |json| >= 2 && |t| == |json| - 1 {
      assert t[1..|json| - 1] == t[1..];
    }
  }

  /** The first occurrence of a prefix is at index 0. */
  lemma IndexOfPrefix(s: string, p: string)
    requires StartsWith(s, p)
    ensures IndexOf(s, p) == 0
  {
    assert OccursAt(s, p, 0);
  }

  /** The first '"' at or after `from`, when the characters before it have none. */
  lemma NextQuote(s: string, from: nat, k: nat)
    requires from <= k < |s| && s[k] == '"'
    requires forall i :: from <= i < k ==> s[i] != '"'
    ensures IndexOfFrom(s, "\"", from) == k
  {
    assert OccursAt(s, "\"", k) by { assert s[k..k + 1] == [s[k]]; }
    forall i | from <= i < k ensures !OccursAt(s, "\"", i) {
      assert s[i..i + 1] == [s[i]];
    }
  }

  /** A string property reads back the value written after its marker, up to the closing quote. */
  lemma QuotedFieldRoundTrip(marker: string, value: string, rest: string)
    requires '"' !in value
    ensures QuotedField(marker + value + "\"" + rest, marker, |marker|) == Returned(Some(value))
  {
    var s := marker + value + "\"" + rest;
    assert StartsWith(s, marker) by { assert s[..|marker|] == marker; }
    IndexOfPrefix(s, marker);
    assert OccursAt(s, marker, 0);
    var k := |marker| + |value|;
    forall i | |marker| <= i < k ensures s[i] != '"' {
      assert s[i] == value[i - |marker|];
    }
    NextQuote(s, |marker|, k);
    assert s[|marker|..k] == value;
  }

  /** The first ',' (or '}') at or after `from`, when the characters before it have neither. */
  lemma NextComma(s: string, from: nat, k: nat)
    requires from <= k < |s| && s[k] == ','
    requires forall i :: from <= i < k ==> s[i] != ','
    ensures IndexOfFrom(s, ",", from) == k
  {
    assert OccursAt(s, ",", k) by { assert s[k..k + 1] == [s[k]]; }
    forall i | from <= i < k ensures !OccursAt(s, ",", i) {
      assert s[i..i + 1] == [s[i]];
    }
  }

  /** A numeric property followed by a comma reads back the number written after its marker. */
  lemma NumberFieldRoundTrip(marker: string, n: nat, rest: string)
    requires n <= LongMax
    ensures NumberField(marker + NatToString(n) + "," + rest, marker, |marker|) == Returned(Some(n))
  {
    var digits := NatToString(n);
    var s := marker + digits + "," + rest;
    assert StartsWith(s, marker) by { assert s[..|marker|] == marker; }
    IndexOfPrefix(s, marker);
    assert OccursAt(s, marker, 0);
    var k := |marker| + |digits|;
    forall i | |marker| <= i < k ensures s[i] != ',' {
      assert s[i] == digits[i - |marker|];
      assert IsDigit(digits[i - |marker|]);
    }
    NextComma(s, |marker|, k);
    assert s[|marker|..k] == digits;
    TrimKeeps(digits);
    ParseNatToString(n);
  }

  /** With neither ',' nor '}' after its marker, a numeric property throws. */
  lemma UnterminatedNumberThrows(body: string, marker: string, offset: nat)
    requires Contains(body, marker)
    requires forall i :: IndexOf(body, marker) + offset <= i < |body| ==> body[i] != ',' && body[i] != '}'
    ensures NumberField(body, marker, offset) == Threw(IndexOutOfBounds)
  {
    var start := IndexOf(body, marker) + offset;
    forall i | start <= i ensures !OccursAt(body, ",", i) && !OccursAt(body, "}", i) {
      if i < |body| { assert body[i..i + 1] == [body[i]]; }
    }
    assert IndexOfFrom(body, ",", start) == -1;
    assert IndexOfFrom(body, "}", start) == -1;
    assert Substring(body, start, -1) == Threw(IndexOutOfBounds);
  }

  /**
   * The brace stripping removes the closing '}', so a driver id written as
   * the last property, with no ',' after it, makes `fromJson` throw whatever
   * else the text holds.
   */
  lemma DriverIdLastThrows(json: string)
    requires Body(json).Returned?
    requires var body := Body(json).value;
      Contains(body, DriverMarker)
      && forall i :: IndexOf(body, DriverMarker) + 11 <= i < |body| ==> body[i] != ',' && body[i] != '}'
    ensures FromJsonValue(json).Threw?
  {
    UnterminatedNumberThrows(Body(json).value, DriverMarker, 11);
  }

  /** Every address read is free of double quotes and already trimmed. */
  lemma AddressesAreClean(body: string)
    requires Addresses(body).Returned? && Addresses(body).value.Some?
    ensures forall a :: a in Addresses(body).value.value ==> '"' !in a && Trim(a) == a
  {
    var list := Addresses(body).value.value;
    var pieces := JavaSplit(ArraySlice(body).value, AddressSeparator);
    assert list == CleanAll(pieces);
    forall a | a in list ensures '"' !in a && Trim(a) == a {
      var i :| 0 <= i < |list| && list[i] == a;
      var unquoted := ReplaceChar(pieces[i], '"', "");
      assert a == Trim(unquoted);
      TrimOnlyDeletes(unquoted);
      TrimIdempotent(unquoted);
    }
  }

  /** An array that is empty or blank sets nothing, so a new request keeps its empty list. */
  lemma BlankArrayKeepsList(blank: string, rest: string)
    requires TrimsToEmpty(blank) && ']' !in blank
    ensures Addresses(AddressesMarker + blank + "]" + rest) == Returned(None)
  {
    var s := AddressesMarker + blank + "]" + rest;
    var m := |AddressesMarker|;
    assert StartsWith(s, AddressesMarker) by { assert s[..m] == AddressesMarker; }
    IndexOfPrefix(s, AddressesMarker);
    assert OccursAt(s, AddressesMarker, 0);
    assert StartsWith(s, AddressesKey) by { assert s[..|AddressesKey|] == AddressesKey; }
    IndexOfPrefix(s, AddressesKey);
    assert s[m - 1] == '[';
    forall i | 0 <= i < m - 1 ensures !OccursAt(s, "[", i) {
      assert s[i..i + 1] == [s[i]];
    }
    assert OccursAt(s, "[", m - 1) by { assert s[m - 1..m] == [s[m - 1]]; }
    var k := m + |blank|;
    forall i | m <= i < k ensures !OccursAt(s, "]", i) {
      assert s[i] == blank[i - m];
      assert s[i..i + 1] == [s[i]];
    }
    assert OccursAt(s, "]", k) by { assert s[k..k + 1] == [s[k]]; }
    assert s[m..k] == blank;
    assert ArraySlice(s) == Returned(blank);
  }

  /** The request object; `fromJson` fills a new one through its setters. */
  class RouteRequest {
    var warehouseAddress: Option<string>
    var deliveryAddresses: seq<string>
    var driverId: int
    var facilityId: int
    var routeDate: Option<string>

    function Value(): Request
      reads this
    {
      Request(warehouseAddress, deliveryAddresses, driverId, facilityId, routeDate)
    }

    constructor()
      ensures Value() == Fresh
    {
      warehouseAddress := None;
      deliveryAddresses := [];
      driverId := 0;
      facilityId := 0;
      routeDate := None;
    }

    method SetWarehouseAddress(warehouseAddress: Option<string>)
      modifies this
      ensures Value() == old(Value()).(warehouseAddress := warehouseAddress)
    {
      this.warehouseAddress := warehouseAddress;
    }

    method SetDeliveryAddresses(deliveryAddresses: seq<string>)
      modifies this
      ensures Value() == old(Value()).(deliveryAddresses := deliveryAddresses)
    {
      this.deliveryAddresses := deliveryAddresses;
    }

    method SetDriverId(driverId: int)
      modifies this
      ensures Value() == old(Value()).(driverId := driverId)
    {
      this.driverId := driverId;
    }

    method SetFacilityId(facilityId: int)
      modifies this
      ensures Value() == old(Value()).(facilityId := facilityId)
    {
      this.facilityId := facilityId;
    }

    method SetRouteDate(routeDate: Option<string>)
      modifies this
      ensures Value() == old(Value()).(routeDate := routeDate)
    {
      this.routeDate := routeDate;
    }

    /** The `deliveryAddresses` step: the array's text, split and cleaned when it is not blank. */
    static method ReadAddresses(text: string) returns (r: Outcome<Option<seq<string>>>)
      ensures r == Addresses(text)
    {
      if !Contains(text, AddressesMarker) {
        return Returned(None);
      }
      var slice := ArraySlice(text);
      if slice.Threw? {
        return Threw(slice.exception);
      }
      if TrimsToEmpty(slice.value) {
        return Returned(None);
      }
      var pieces := JavaSplit(slice.value, AddressSeparator);
      var deliveryList := CleanAddresses(pieces);
      return Returned(Some(deliveryList));
    }

    /** The address loop: each piece of the split array, cleaned, in order. */
    static method CleanAddresses(addresses: seq<string>) returns (deliveryList: seq<string>)
      ensures deliveryList == CleanAll(addresses)
    {
      deliveryList := [];
      var i := 0;
      while i < |addresses|
        invariant 0 <= i <= |addresses|
        invariant |deliveryList| == i
        invariant forall j :: 0 <= j < i ==> deliveryList[j] == CleanAddress(addresses[j])
      {
        deliveryList := deliveryList + [CleanAddress(addresses[i])];
        i := i + 1;
      }
    }

    static method FromJson(json: string) returns (r: Outcome<RouteRequest>)
      ensures r.Threw? <==> FromJsonValue(json).Threw?
      ensures r.Threw? ==> r.exception == FromJsonValue(json).exception
      ensures r.Returned? ==> fresh(r.value) && r.value.Value() == FromJsonValue(json).value
    {
      var request := new RouteRequest();
      var cut := Body(json);
      if cut.Threw? {
        return Threw(cut.exception);
      }
      var text := cut.value;
      var warehouse := QuotedField(text, WarehouseMarker, 20);
      if warehouse.Threw? {
        return Threw(warehouse.exception);
      }
      if warehouse.value.Some? {
        request.SetWarehouseAddress(warehouse.value);
      }
      assert request.Value() == Fresh.(warehouseAddress := warehouse.value);
      var addresses := ReadAddresses(text);
      if addresses.Threw? {
        return Threw(addresses.exception);
      }
      if addresses.value.Some? {
        request.SetDeliveryAddresses(addresses.value.value);
      }
      ghost var soFar := Fresh.(warehouseAddress := warehouse.value, deliveryAddresses := addresses.value.GetOr([]));
      assert request.Value() == soFar;
      var driver := NumberField(text, DriverMarker, 11);
      if driver.Threw? {
        return Threw(driver.exception);
      }
      if driver.value.Some? {
        request.SetDriverId(driver.value.value);
      }
      assert request.Value() == soFar.(driverId := driver.value.GetOr(0));
      var facility := NumberField(text, FacilityMarker, 13);
      if facility.Threw? {
        return Threw(facility.exception);
      }
      if facility.value.Some? {
        request.SetFacilityId(facility.value.value);
      }
      soFar := soFar.(driverId := driver.value.GetOr(0), facilityId := facility.value.GetOr(0));
      assert request.Value() == soFar;
      var date := QuotedField(text, DateMarker, 13);
      if date.Threw? {
        return Threw(date.exception);
      }
      if date.value.Some? {
        request.SetRouteDate(date.value);
      }
      assert request.Value() == soFar.(routeDate := date.value);
      return Returned(request);
    }
  }
}
