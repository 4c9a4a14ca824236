// The route-assignment page (frontend/js/management.js): the fetch helpers
// and how they normalise the server's replies, the unassigned-package table
// (filter, ZIP sort, address cells), and the submit handler with its
// `isSubmitting` guard and the payload it sends. The fetch replies, the
// clock and the user's selections are parameters; the handler's `await`
// splits it into `Submit` and `Finish`.
module ManagementPage {
  import opened Wrappers
  import opened JavaStrings
  import opened PageCommon
  import ManagementController

  // ---------------------------------------------------------------------------
  // Fetch helpers

  /** A list reply: a bare array, or an object whose named field may hold the array. */
  datatype ListBody<T> = ArrayBody(items: seq<T>) | ObjectBody(field: Option<seq<T>>)

  /** Both accepted shapes become the list; an object without the field is the empty list. */
  function Normalised<T>(body: ListBody<T>): seq<T>
  {
    match body
    case ArrayBody(items) => items
    case ObjectBody(field) => if field.Some? then field.value else []
  }

  /** `getFacilities` / `getInventory`: a non-2xx status fails before the body is read. */
  function ListReply<T>(reply: Reply<ListBody<T>>): (r: Answer<seq<T>>)
    ensures r.Succeeded? <==> reply.Replied? && IsOk(reply.status) && reply.body.Returned?
    ensures reply.Replied? && !IsOk(reply.status) ==> r == Failed("HTTP " + NatToString(reply.status))
    ensures reply.Rejected? ==> r == Failed(reply.message)
    ensures r.Succeeded? ==> r.value == Normalised(reply.body.value)
  {
    match reply
    case Rejected(message) => Failed(message)
    case Replied(status, body) =>
      if !IsOk(status) then Failed("HTTP " + NatToString(status))
      else match body
        case Threw(message) => Failed(message)
        case Returned(b) => Succeeded(Normalised(b))
  }

  /** An array and the same array under the named field read the same; a missing field reads as no items. */
  lemma ListShapesAgree<T>(items: seq<T>, status: nat)
    requires IsOk(status)
    ensures ListReply(Replied(status, Returned(ArrayBody(items)))) == Succeeded(items)
    ensures ListReply(Replied(status, Returned(ObjectBody(Some(items))))) == Succeeded(items)
    ensures ListReply(Replied(status, Returned(ListBody<T>.ObjectBody(None)))) == Succeeded([])
  {
  }

  /** `getInventory(facilityId)`: the facility's endpoint when an id is given, else the whole inventory. */
  function InventoryUrl(facilityId: string): (r: string)
    ensures facilityId == [] <==> r == "http://localhost:8081/api/inventory"
    ensures facilityId != [] ==> EndsWith(r, "/facility/" + facilityId)
  {
    if facilityId != [] then "http://localhost:8081/api/inventory/facility/" + facilityId
    else "http://localhost:8081/api/inventory"
  }

  datatype Driver = Driver(userId: int, username: string, fullName: Option<string>)

  /** The drivers reply: its `success` flag, the list, and the error text. */
  datatype DriversBody = DriversBody(success: bool, drivers: Option<seq<Driver>>, error: Option<string>)

  /** `getDrivers`: the status first, then the `success` flag; a missing list is empty. */
  function DriversReply(reply: Reply<DriversBody>): (r: Answer<seq<Driver>>)
    ensures r.Succeeded? <==> reply.Replied? && IsOk(reply.status) && reply.body.Returned? && reply.body.value.success
    ensures reply.Replied? && IsOk(reply.status) && reply.body.Returned? && !reply.body.value.success ==>
              r == Failed(OrDefault(reply.body.value.error, "Failed to fetch drivers"))
  {
    match reply
    case Rejected(message) => Failed(message)
    case Replied(status, body) =>
      if !IsOk(status) then Failed("HTTP " + NatToString(status))
      else match body
        case Threw(message) => Failed(message)
        case Returned(b) =>
          if b.success then Succeeded(if b.drivers.Some? then b.drivers.value else [])
          else Failed(OrDefault(b.error, "Failed to fetch drivers"))
  }

  const AssignFallback := "Failed to assign routes"
  const TransferFallback := "Failed to create transfer"

  // ---------------------------------------------------------------------------
  // Drop-down lists

  datatype SelectOption = SelectOption(value: string, text: string)

  /** A facility as either spelling of the API sends it. */
  datatype Facility = Facility(snakeId: Option<int>, camelId: Option<int>, snakeName: Option<string>,
                               camelName: Option<string>)

  function DriverOption(d: Driver): SelectOption
  {
    SelectOption(IntToString(d.userId),
                 d.username + (if d.fullName.Some? && d.fullName.value != [] then " - " + d.fullName.value else ""))
  }

  /**
   * `facility_id || facilityId` and `facility_name || facilityName`: a zero
   * id or an empty name falls through to the other spelling; a missing value
   * is written as "undefined", a missing text as "".
   */
  function FacilityOption(f: Facility): SelectOption
  {
    var id := if f.snakeId.Some? && f.snakeId.value != 0 then f.snakeId else f.camelId;
    var name := if f.snakeName.Some? && f.snakeName.value != [] then f.snakeName else f.camelName;
    SelectOption(if id.Some? then IntToString(id.value) else "undefined", if name.Some? then name.value else "")
  }

  /** A drop-down: its placeholder, then one option per item in the order received. */
  function Select<T>(placeholder: string, items: seq<T>, option: T -> SelectOption): (r: seq<SelectOption>)
    ensures |r| == |items| + 1 && r[0] == SelectOption("", placeholder)
    ensures forall i :: 0 <= i < |items| ==> r[i + 1] == option(items[i])
  {
    [SelectOption("", placeholder)] + seq(|items|, i requires 0 <= i < |items| => option(items[i]))
  }

  function DriverSelect(drivers: seq<Driver>): (r: seq<SelectOption>)
    ensures |r| == |drivers| + 1 && r[0] == SelectOption("", "-- Select driver --")
    ensures forall i :: 0 <= i < |drivers| ==> r[i + 1] == DriverOption(drivers[i])
  {
    Select("-- Select driver --", drivers, DriverOption)
  }

  function FacilitySelect(facilities: seq<Facility>): (r: seq<SelectOption>)
    ensures |r| == |facilities| + 1 && r[0] == SelectOption("", "-- Select facility --")
    ensures forall i :: 0 <= i < |facilities| ==> r[i + 1] == FacilityOption(facilities[i])
  {
    Select("-- Select facility --", facilities, FacilityOption)
  }

  /** A snake_case id that is not zero wins; otherwise the camelCase one is used. */
  lemma FacilityIdSpellings(f: Facility)
    ensures f.snakeId.Some? && f.snakeId.value != 0 ==> FacilityOption(f).value == IntToString(f.snakeId.value)
    ensures (f.snakeId.None? || f.snakeId.value == 0) && f.camelId.Some? ==>
              FacilityOption(f).value == IntToString(f.camelId.value)
    ensures (f.snakeId.None? || f.snakeId.value == 0) && f.camelId.None? ==> FacilityOption(f).value == "undefined"
  {
  }

  // ---------------------------------------------------------------------------
  // Unassigned packages

  datatype InventoryItem = InventoryItem(packageId: int, trackingNumber: string, deliveryAddress: Option<string>,
                                         weightKg: string, packageStatus: string)

  /** Ready to be routed: created, or waiting at a facility. */
  predicate IsUnassigned(item: InventoryItem)
  {
    item.packageStatus == "at_facility" || item.packageStatus == "created"
  }

  function Unassigned(items: seq<InventoryItem>): seq<InventoryItem>
  {
    Filter(items, IsUnassigned)
  }

  /** Exactly the created and at-facility packages are kept, each one that is. */
  lemma UnassignedAreExactlyReady(items: seq<InventoryItem>)
    ensures forall x :: x in Unassigned(items) <==> x in items && (x.packageStatus == "at_facility" || x.packageStatus == "created")
  {
    forall x | x in items && IsUnassigned(x)
      ensures x in Unassigned(items)
    {
      var i :| 0 <= i < |items| && items[i] == x;
    }
  }

  function Last<T>(xs: seq<T>): T
    requires xs != []
  {
    xs[|xs| - 1]
  }

  /** The last piece of a split holds no separator and ends the text, right after a separator or at its start. */
  lemma {:induction false} LastPiece(s: string, c: char)
    ensures var l := Last(SplitAll(s, [c]));
      EndsWith(s, l) && c !in l && (|l| == |s| || s[|s| - |l| - 1] == c)
    decreases |s|
  {
    var i := IndexOf(s, [c]);
    if i < 0 {
      assert SplitAll(s, [c]) == [s];
      NotFoundIsAbsent(s, c);
    } else {
      LastPiece(s[i + 1..], c);
      LastPieceOfRest(s, c, i);
      LastPieceStep(s, c, i, Last(SplitAll(s[i + 1..], [c])));
    }
  }

  /** After the first separator, at i, the last piece is the last piece of what follows it. */
  lemma LastPieceOfRest(s: string, c: char, i: int)
    requires i == IndexOf(s, [c]) && i >= 0
    ensures i < |s| && s[i] == c
    ensures Last(SplitAll(s, [c])) == Last(SplitAll(s[i + 1..], [c]))
  {
    assert s[i..i + 1] == [c];
    SplitAtIndex(s, [c], i);
    LastOfAppend([s[..i]], SplitAll(s[i + 1..], [c]));
  }

  /** Splitting where the first separator starts. */
  lemma SplitAtIndex(s: string, sep: string, i: int)
    requires |sep| > 0 && i == IndexOf(s, sep) && i >= 0
    ensures SplitAll(s, sep) == [s[..i]] + SplitAll(s[i + |sep|..], sep)
  {
  }

  /** The last element of a sequence with a non-empty end is that end's last. */
  lemma LastOfAppend<T>(xs: seq<T>, ys: seq<T>)
    requires ys != []
    ensures Last(xs + ys) == Last(ys)
  {
  }

  /** A character the search does not find is absent. */
  lemma NotFoundIsAbsent(s: string, c: char)
    requires IndexOf(s, [c]) < 0
    ensures c !in s
  {
    OccursAtChar(s, c);
    forall k | 0 <= k < |s|
      ensures s[k] != c
    {
      assert !OccursAt(s, [c], k);
    }
  }

  /** A piece ending the text after a separator at i ends the whole text, right after a separator. */
  lemma LastPieceStep(s: string, c: char, i: nat, l: string)
    requires i < |s| && s[i] == c
    requires EndsWith(s[i + 1..], l) && (|l| == |s[i + 1..]| || s[i + 1..][|s[i + 1..]| - |l| - 1] == c)
    ensures EndsWith(s, l) && (|l| == |s| || s[|s| - |l| - 1] == c)
  {
    var rest := s[i + 1..];
    assert s[|s| - |l|..] == rest[|rest| - |l|..];
    if |l| < |rest| {
      assert s[|s| - |l| - 1] == rest[|rest| - |l| - 1];
    } else {
      assert |s| - |l| - 1 == i;
    }
  }

  /**
   * The sort key: the address's last space-separated token (its ZIP code in
   * "street, city, state ZIP"), or "" when there is no address.
   */
  function ZipKey(address: Option<string>): (r: string)
    ensures address.None? || address.value == [] ==> r == []
    ensures ' ' !in r
    ensures address.Some? ==> EndsWith(address.value, r)
    ensures address.Some? && |r| < |address.value| ==> address.value[|address.value| - |r| - 1] == ' '
  {
    if address.None? || address.value == [] then []
    else
      LastPiece(address.value, ' ');
      Last(SplitAll(address.value, " "))
  }

  /** Character order on texts: a prefix comes first, then the first differing character decides. */
  predicate TextLeq(a: string, b: string)
    decreases |a|
  {
    a == [] || (b != [] && (a[0] < b[0] || (a[0] == b[0] && TextLeq(a[1..], b[1..]))))
  }

  lemma {:induction false} TextLeqTotal(a: string, b: string)
    ensures TextLeq(a, b) || TextLeq(b, a)
    decreases |a|
  {
    if a != [] && b != [] && a[0] == b[0] {
      TextLeqTotal(a[1..], b[1..]);
    }
  }

  function Key(item: InventoryItem): string
  {
    ZipKey(item.deliveryAddress)
  }

  predicate SortedByZip(xs: seq<InventoryItem>)
  {
    forall i :: 0 <= i < |xs| - 1 ==> TextLeq(Key(xs[i]), Key(xs[i + 1]))
  }

  /** Puts `x` before the first item whose key is not smaller, so equal keys keep their order. */
  function InsertByZip(x: InventoryItem, sorted: seq<InventoryItem>): (r: seq<InventoryItem>)
    ensures multiset(r) == multiset(sorted) + multiset{x}
    ensures |r| == |sorted| + 1
    ensures r[0] == x || (sorted != [] && r[0] == sorted[0])
  {
    if sorted == [] then [x]
    else if TextLeq(Key(x), Key(sorted[0])) then [x] + sorted
    else
      assert sorted == [sorted[0]] + sorted[1..];
      [sorted[0]] + InsertByZip(x, sorted[1..])
  }

  /** An item whose key is not above the head's can go in front of a sorted list. */
  lemma ConsSorted(y: InventoryItem, xs: seq<InventoryItem>)
    requires SortedByZip(xs) && (xs == [] || TextLeq(Key(y), Key(xs[0])))
    ensures SortedByZip([y] + xs)
  {
    var r := [y] + xs;
    forall i | 0 <= i < |r| - 1
      ensures TextLeq(Key(r[i]), Key(r[i + 1]))
    {
      if i > 0 {
        assert r[i] == xs[i - 1] && r[i + 1] == xs[i];
      }
    }
  }

  lemma TailSorted(xs: seq<InventoryItem>)
    requires SortedByZip(xs) && xs != []
    ensures SortedByZip(xs[1..])
  {
    var tail := xs[1..];
    forall i | 0 <= i < |tail| - 1
      ensures TextLeq(Key(tail[i]), Key(tail[i + 1]))
    {
      assert tail[i] == xs[i + 1] && tail[i + 1] == xs[i + 2];
    }
  }

  /** Inserting into a ZIP-sorted list keeps it sorted. */
  lemma {:induction false} InsertKeepsSorted(x: InventoryItem, sorted: seq<InventoryItem>)
    requires SortedByZip(sorted)
    ensures SortedByZip(InsertByZip(x, sorted))
    decreases |sorted|
  {
    if sorted == [] {
      ConsSorted(x, []);
    } else if TextLeq(Key(x), Key(sorted[0])) {
      ConsSorted(x, sorted);
    } else {
      var tail := sorted[1..];
      TailSorted(sorted);
      InsertKeepsSorted(x, tail);
      var rest := InsertByZip(x, tail);
      TextLeqTotal(Key(x), Key(sorted[0]));
      assert TextLeq(Key(sorted[0]), Key(rest[0])) by {
        if rest[0] != x {
          assert rest[0] == sorted[1];
        }
      }
      ConsSorted(sorted[0], rest);
    }
  }

  /** `unassigned.sort(...)` by ZIP key: a sorted permutation of the list. */
  function SortByZip(items: seq<InventoryItem>): (r: seq<InventoryItem>)
    ensures multiset(r) == multiset(items)
    ensures |r| == |items|
    ensures SortedByZip(r)
  {
    if items == [] then []
    else
      assert items == [items[0]] + items[1..];
      var sorted := SortByZip(items[1..]);
      InsertKeepsSorted(items[0], sorted);
      InsertByZip(items[0], sorted)
  }

  // ---------------------------------------------------------------------------
  // Address cells

  datatype AddressCells = AddressCells(street: string, city: string, zip: string)

  /**
   * The street, city and ZIP cells exactly as the page computes them: split at
   * ", ", the rest re-joined and split at ' ', the last token the ZIP, the
   * one before it the state, everything before those the city.
   */
  function AddressCellsAsWritten(address: Option<string>): AddressCells
  {
    var parts := SplitAll(OrDefault(address, "N/A"), ", ");
    var cityState := SplitAll(Join(parts[1..], ", "), " ");
    var n := |cityState|;
    AddressCells(if parts[0] != [] then parts[0] else "N/A",
                 OrDefault(Some(Join(cityState[..if n >= 2 then n - 2 else 0], " ")), "N/A"),
                 if cityState[n - 1] != [] then cityState[n - 1] else "N/A")
  }

  function DropTrailingComma(s: string): (r: string)
    ensures ',' !in s ==> r == s
    ensures s != [] && s[|s| - 1] == ',' ==> r == s[..|s| - 1]
  {
    if s != [] && s[|s| - 1] == ',' then s[..|s| - 1] else s
  }

  /** The same cells with the comma that separates city from state left out of the city. */
  function AddressCellsOf(address: Option<string>): AddressCells
  {
    var cells := AddressCellsAsWritten(address);
    cells.(city := OrDefault(Some(DropTrailingComma(cells.city)), "N/A"))
  }

  /** The first ", " in `x + ", " + rest` is the one after `x` when `x` has no comma. */
  lemma CommaSpaceAfter(x: string, rest: string)
    requires ',' !in x
    ensures IndexOf(x + ", " + rest, ", ") == |x|
  {
    var s := x + ", " + rest;
    assert s[|x|..|x| + 2] == ", ";
    assert OccursAt(s, ", ", |x|);
    forall k | 0 <= k < |x|
      ensures !OccursAt(s, ", ", k)
    {
      assert s[k] == x[k];
      if k + 2 <= |s| {
        assert s[k..k + 2][0] == s[k];
      }
    }
  }

  /** Splitting at the first occurrence of the separator. */
  lemma SplitAtFirst(x: string, sep: string, rest: string)
    requires |sep| > 0 && IndexOf(x + sep + rest, sep) == |x|
    ensures SplitAll(x + sep + rest, sep) == [x] + SplitAll(rest, sep)
  {
    var s := x + sep + rest;
    assert s[..|x|] == x && s[|x| + |sep|..] == rest;
  }

  /** A text without the separator is its own only piece. */
  lemma SplitNone(x: string, sep: string)
    requires |sep| > 0 && IndexOf(x, sep) < 0
    ensures SplitAll(x, sep) == [x]
  {
  }

  /** How a well-formed "street, city, state ZIP" splits at ", ". */
  lemma CommaPieces(street: string, city: string, state: string, zip: string)
    requires ',' !in street && ',' !in city && ',' !in state && ',' !in zip
    ensures SplitAll(street + ", " + city + ", " + state + " " + zip, ", ") == [street, city, state + " " + zip]
  {
    var c := state + " " + zip;
    var b := city + ", " + c;
    assert street + ", " + city + ", " + state + " " + zip == street + ", " + b;
    assert ',' !in c;
    CharAbsent(c, ", ", ',');
    SplitNone(c, ", ");
    CommaSpaceAfter(city, c);
    SplitAtFirst(city, ", ", c);
    CommaSpaceAfter(street, b);
    SplitAtFirst(street, ", ", b);
  }

  /** How the re-joined "city, state ZIP" splits at ' '. */
  lemma SpacePieces(city: string, state: string, zip: string)
    requires ' ' !in city && ' ' !in state && ' ' !in zip && ',' !in city
    ensures SplitAll(city + ", " + state + " " + zip, " ") == [city + ",", state, zip]
  {
    NoSeparator(zip, ' ');
    SplitNone(zip, " ");
    FirstSeparator(state, zip, ' ');
    SplitAtFirst(state, " ", zip);
    var c := state + " " + zip;
    assert city + ", " + state + " " + zip == (city + ",") + " " + c;
    assert ' ' !in city + "," by {
      assert forall k :: 0 <= k < |city| ==> (city + ",")[k] == city[k];
    }
    FirstSeparator(city + ",", c, ' ');
    SplitAtFirst(city + ",", " ", c);
  }

  lemma JoinTwo(a: string, b: string, sep: string)
    ensures Join([a, b], sep) == a + sep + b
  {
    assert [a, b][1..] == [b];
  }

  /**
   * As written, the city cell of a well-formed address keeps the comma that
   * separates it from the state: "12 Main St, Springfield, IL 62704" shows
   * the city "Springfield,".
   */
  lemma CityKeepsComma(street: string, city: string, state: string, zip: string)
    requires street != [] && city != [] && zip != []
    requires ',' !in street && ',' !in city && ',' !in state && ',' !in zip
    requires ' ' !in city && ' ' !in state && ' ' !in zip
    ensures AddressCellsAsWritten(Some(street + ", " + city + ", " + state + " " + zip))
            == AddressCells(street, city + ",", zip)
  {
    var address := street + ", " + city + ", " + state + " " + zip;
    assert OrDefault(Some(address), "N/A") == address;
    CommaPieces(street, city, state, zip);
    var parts := SplitAll(address, ", ");
    assert parts[1..] == [city, state + " " + zip];
    JoinTwo(city, state + " " + zip, ", ");
    var joined := Join(parts[1..], ", ");
    assert joined == city + ", " + state + " " + zip;
    SpacePieces(city, state, zip);
    var cityState := SplitAll(joined, " ");
    assert cityState[..1] == [city + ","];
    assert Join(cityState[..1], " ") == city + ",";
  }

  /** With the comma dropped, a well-formed address gives back its street, city and ZIP. */
  lemma CellsOfWellFormedAddress(street: string, city: string, state: string, zip: string)
    requires street != [] && city != [] && zip != []
    requires ',' !in street && ',' !in city && ',' !in state && ',' !in zip
    requires ' ' !in city && ' ' !in state && ' ' !in zip
    ensures AddressCellsOf(Some(street + ", " + city + ", " + state + " " + zip)) == AddressCells(street, city, zip)
  {
    CityKeepsComma(street, city, state, zip);
    assert (city + ",")[..|city|] == city;
  }

  /** One row of the unassigned-packages table. */
  datatype PackageRow = PackageRow(packageId: int, trackingNumber: string, street: string, city: string, zip: string,
                                   weightKg: string, status: string)

  /**
   * The row the table shows, with the corrected address cells: it differs
   * from the row as written at most in the city, and not at all when the
   * rendered city does not end in a comma.
   */
  function RowOf(item: InventoryItem): (r: PackageRow)
    ensures r.(city := RowAsWritten(item).city) == RowAsWritten(item)
    ensures RowAsWritten(item).city[|RowAsWritten(item).city| - 1] != ',' ==> r == RowAsWritten(item)
  {
    var cells := AddressCellsOf(item.deliveryAddress);
    PackageRow(item.packageId, item.trackingNumber, cells.street, cells.city, cells.zip, item.weightKg,
               item.packageStatus)
  }

  /**
   * The row exactly as the page renders it, with the address cells as
   * written: the item's own fields, and street, city and ZIP cells that
   * are never empty, each falling back to "N/A".
   */
  function RowAsWritten(item: InventoryItem): (r: PackageRow)
    ensures r.packageId == item.packageId && r.trackingNumber == item.trackingNumber
    ensures r.weightKg == item.weightKg && r.status == item.packageStatus
    ensures r.street != [] && r.city != [] && r.zip != []
  {
    var cells := AddressCellsAsWritten(item.deliveryAddress);
    PackageRow(item.packageId, item.trackingNumber, cells.street, cells.city, cells.zip, item.weightKg,
               item.packageStatus)
  }

  /**
   * For a well-formed address the shown row and the row as written differ in
   * one cell only: the city as written carries the comma before the state.
   */
  lemma AsWrittenRowAddsComma(item: InventoryItem, street: string, city: string, state: string, zip: string)
    requires item.deliveryAddress == Some(street + ", " + city + ", " + state + " " + zip)
    requires street != [] && city != [] && zip != []
    requires ',' !in street && ',' !in city && ',' !in state && ',' !in zip
    requires ' ' !in city && ' ' !in state && ' ' !in zip
    ensures RowOf(item).city == city
    ensures RowAsWritten(item) == RowOf(item).(city := city + ",")
  {
    CityKeepsComma(street, city, state, zip);
    CellsOfWellFormedAddress(street, city, state, zip);
  }

  const NoUnassigned := "No unassigned packages at this facility."
  const LoadError := "Error loading packages."
  const SelectFacility := "Please select a facility."

  /** `loadUnassignedPackages`: the ready packages sorted by ZIP, a no-data row when none, or the error row. */
  function PackageTable(listing: Answer<seq<InventoryItem>>): Table<PackageRow>
  {
    match listing
    case Failed(_) => NoData(LoadError)
    case Succeeded(items) =>
      var ready := SortByZip(Unassigned(items));
      if ready == [] then NoData(NoUnassigned)
      else Rows(seq(|ready|, i requires 0 <= i < |ready| => RowOf(ready[i])))
  }

  /**
   * The table lists one row per ready package, in ZIP order, and is the
   * no-data row exactly when no package is ready.
   */
  lemma PackageTableRows(items: seq<InventoryItem>)
    ensures var t := PackageTable(Succeeded(items));
      (t.NoData? <==> forall x :: x in items ==> !IsUnassigned(x))
      && (t.NoData? ==> t.text == NoUnassigned)
      && (t.Rows? ==> exists ready :: multiset(ready) == multiset(Unassigned(items)) && SortedByZip(ready)
                                      && t.items == seq(|ready|, i requires 0 <= i < |ready| => RowOf(ready[i])))
  {
    UnassignedAreExactlyReady(items);
    var ready := SortByZip(Unassigned(items));
    if ready == [] {
      assert multiset(Unassigned(items)) == multiset{};
    } else {
      assert ready[0] in multiset(Unassigned(items));
    }
  }

  // ---------------------------------------------------------------------------
  // The submit handler

  /** `parseInt`: leading white space, an optional sign, then the longest run of digits; none is NaN. */
  function JsParseInt(s: string): (r: Option<int>)
  {
    var t := DropLeading(s, IsJsSpace);
    var body := if t != [] && (t[0] == '-' || t[0] == '+') then t[1..] else t;
    var digits := DigitRun(body);
    if digits == [] then None
    else if t[0] == '-' then Some(0 - DigitsValue(digits) as int)
    else Some(DigitsValue(digits) as int)
  }

  function DigitRun(s: string): (r: string)
    ensures All(r, IsDigit) && |r| <= |s| && r == s[..|r|]
    ensures All(s, IsDigit) ==> r == s
  {
    if s == [] || !IsDigit(s[0]) then []
    else [s[0]] + DigitRun(s[1..])
  }

  /** A rendered id, as the drop-downs hold it, parses back to itself. */
  lemma ParseRenderedId(n: int)
    ensures JsParseInt(IntToString(n)) == Some(n)
  {
    var m: nat := if n >= 0 then n else -n;
    var digits := NatToString(m);
    assert !IsJsSpace(digits[0]) by { assert IsDigit(digits[0]); }
    assert DropLeading(digits, IsJsSpace) == digits;
    if n < 0 {
      var s := "-" + digits;
      assert !IsJsSpace(s[0]);
      assert DropLeading(s, IsJsSpace) == s;
      assert s[1..] == digits;
    }
  }

  /** The body sent to the assignment endpoint; a NaN id goes out as null. */
  datatype Payload = Payload(driverId: Option<int>, facilityId: Option<int>, routeName: string, routeDate: string,
                             estimatedDurationMinutes: int, vehicleId: string, packageIds: string)

  /** The payload for the selections, given the ISO date part and the clock in milliseconds. */
  function PayloadFor(driverId: string, facilityId: string, packageIds: seq<string>, isoDate: string,
                      nowMillis: nat): Payload
  {
    Payload(JsParseInt(driverId), JsParseInt(facilityId), "Route-" + isoDate + "-" + NatToString(nowMillis), isoDate,
            60 + |packageIds| * 15, "VEH-001", Join(packageIds, ","))
  }

  /**
   * Sixty minutes plus fifteen per package, and the selected ids joined by
   * commas: a list the server's package-id parser turns back into the same
   * numbers.
   */
  lemma PayloadCarriesSelection(driverId: string, facilityId: string, ids: seq<nat>, isoDate: string, nowMillis: nat)
    requires ids != [] && forall i :: 0 <= i < |ids| ==> ids[i] <= LongMax
    ensures var p := PayloadFor(driverId, facilityId, ManagementController.Rendered(ids), isoDate, nowMillis);
      p.estimatedDurationMinutes == 60 + 15 * |ids|
      && ManagementController.PackageIdList(Some(p.packageIds)) == Some(ids)
      && p.routeDate == isoDate && StartsWith(p.routeName, "Route-" + isoDate + "-")
  {
    ManagementController.PackageIdsRoundTrip(ids);
    var p := PayloadFor(driverId, facilityId, ManagementController.Rendered(ids), isoDate, nowMillis);
    assert p.routeName == ("Route-" + isoDate + "-") + NatToString(nowMillis);
  }

  /** Splitting the sent list at commas gives the selection back when no id holds a comma. */
  lemma PackageIdsSplitBack(driverId: string, facilityId: string, packageIds: seq<string>, isoDate: string,
                            nowMillis: nat)
    requires packageIds != [] && forall i :: 0 <= i < |packageIds| ==> ',' !in packageIds[i]
    ensures SplitAll(PayloadFor(driverId, facilityId, packageIds, isoDate, nowMillis).packageIds, ",") == packageIds
  {
    SplitJoin(packageIds, ',');
  }

  /** What the handler keeps across its `await`: how many packages it sent and the button's text before. */
  datatype Pending = Pending(count: nat, buttonText: string)

  datatype AssignScreen = AssignScreen(currentFacilityId: Option<string>, packages: Table<PackageRow>,
                                       driverOptions: seq<SelectOption>, facilityOptions: seq<SelectOption>,
                                       alerts: seq<string>, isSubmitting: bool, buttonDisabled: bool,
                                       buttonText: string, pending: Option<Pending>)

  const MissingSelection := "Please select a driver and a facility"
  const NoPackages := "Please select at least one package to assign to this route"

  /**
   * The submit handler up to its `await`: ignored while a submission is in
   * flight; otherwise the button is disabled, a missing driver or facility
   * or an empty selection raises an alert and releases the flag, and a
   * complete selection sends the payload and keeps the flag set.
   */
  function Submitted(st: AssignScreen, driverId: string, facilityId: string, packageIds: seq<string>, isoDate: string,
                     nowMillis: nat): (AssignScreen, Option<Payload>)
  {
    if st.isSubmitting then (st, None)
    else
      var released := st.(isSubmitting := false, buttonDisabled := false);
      if driverId == [] || facilityId == [] then (released.(alerts := st.alerts + [MissingSelection]), None)
      else if packageIds == [] then (released.(alerts := st.alerts + [NoPackages]), None)
      else
        (st.(isSubmitting := true, buttonDisabled := true, buttonText := "Assigning Route...",
             pending := Some(Pending(|packageIds|, st.buttonText))),
         Some(PayloadFor(driverId, facilityId, packageIds, isoDate, nowMillis)))
  }

  /** The alert after the server answers. */
  function ResultAlert(result: Answer<()>, count: nat): string
  {
    match result
    case Succeeded(_) => "Route assigned successfully!\n\n" + NatToString(count) + " packages assigned to driver."
    case Failed(error) => "Failed to assign route: " + error
  }

  /**
   * The handler after its `await`: one alert; on success the facility and the
   * table are reset; the flag is released and the button restored.
   */
  function Finished(st: AssignScreen, reply: Reply<Option<string>>): AssignScreen
    requires st.pending.Some?
  {
    var result := PostReply(reply, AssignFallback);
    var alerted := st.(alerts := st.alerts + [ResultAlert(result, st.pending.value.count)]);
    var reset := if result.Succeeded? then alerted.(currentFacilityId := None, packages := NoData(SelectFacility))
                 else alerted;
    reset.(isSubmitting := false, buttonDisabled := false, buttonText := st.pending.value.buttonText, pending := None)
  }

  /** While a submission is in flight another submit changes nothing and sends nothing. */
  lemma SubmitWhileSubmittingIgnored(st: AssignScreen, driverId: string, facilityId: string, packageIds: seq<string>,
                                     isoDate: string, nowMillis: nat)
    requires st.isSubmitting
    ensures Submitted(st, driverId, facilityId, packageIds, isoDate, nowMillis) == (st, None)
  {
  }

  /** A request goes out exactly when no submission is in flight and a driver, a facility and a package are selected. */
  lemma NoRequestUnlessSelected(st: AssignScreen, driverId: string, facilityId: string, packageIds: seq<string>,
                                isoDate: string, nowMillis: nat)
    ensures var (after, sent) := Submitted(st, driverId, facilityId, packageIds, isoDate, nowMillis);
      (sent.Some? <==> !st.isSubmitting && driverId != [] && facilityId != [] && packageIds != [])
      && (sent.Some? ==> after.isSubmitting && after.pending == Some(Pending(|packageIds|, st.buttonText)))
      && (sent.None? && !st.isSubmitting ==>
            !after.isSubmitting && !after.buttonDisabled && after.buttonText == st.buttonText
            && |after.alerts| == |st.alerts| + 1)
  {
  }

  /**
   * Every exit releases the flag: a refused submit at once, a sent one when
   * the answer arrives, and then the button shows its old text again.
   */
  lemma EveryExitReleasesFlag(st: AssignScreen, driverId: string, facilityId: string, packageIds: seq<string>,
                              isoDate: string, nowMillis: nat, reply: Reply<Option<string>>)
    requires !st.isSubmitting
    ensures var (after, sent) := Submitted(st, driverId, facilityId, packageIds, isoDate, nowMillis);
      if sent.None? then !after.isSubmitting && after.buttonText == st.buttonText
      else
        var done := Finished(after, reply);
        !done.isSubmitting && !done.buttonDisabled && done.buttonText == st.buttonText && done.pending.None?
        && done.alerts == st.alerts + [ResultAlert(PostReply(reply, AssignFallback), |packageIds|)]
  {
  }

  class RouteAssignment {
    var currentFacilityId: Option<string>
    var packages: Table<PackageRow>
    var driverOptions: seq<SelectOption>
    var facilityOptions: seq<SelectOption>
    var alerts: seq<string>
    var isSubmitting: bool
    var buttonDisabled: bool
    var buttonText: string
    var pending: Option<Pending>

    function State(): AssignScreen
      reads this
    {
      AssignScreen(currentFacilityId, packages, driverOptions, facilityOptions, alerts, isSubmitting, buttonDisabled,
                   buttonText, pending)
    }

    /** `initializeRouteAssignment`, before its two loads complete; the page starts by asking for a facility. */
    constructor(buttonText: string)
      ensures State() == AssignScreen(None, NoData(SelectFacility), [], [], [], false, false, buttonText, None)
    {
      currentFacilityId := None;
      packages := NoData(SelectFacility);
      driverOptions := [];
      facilityOptions := [];
      alerts := [];
      isSubmitting := false;
      buttonDisabled := false;
      this.buttonText := buttonText;
      pending := None;
    }

    /** `loadDrivers` once its reply is in: the drop-down is refilled, or one alert is raised. */
    method LoadDrivers(reply: Reply<DriversBody>)
      modifies this
      ensures var r := DriversReply(reply);
        State() == if r.Succeeded? then old(State()).(driverOptions := DriverSelect(r.value))
                   else old(State()).(alerts := old(alerts) + ["Failed to load drivers: " + r.error])
    {
      var result := DriversReply(reply);
      if result.Succeeded? {
        driverOptions := DriverSelect(result.value);
      } else {
        alerts := alerts + ["Failed to load drivers: " + result.error];
      }
    }

    /** `loadFacilities` once its reply is in. */
    method LoadFacilities(reply: Reply<ListBody<Facility>>)
      modifies this
      ensures var r := ListReply(reply);
        State() == if r.Succeeded? then old(State()).(facilityOptions := FacilitySelect(r.value))
                   else old(State()).(alerts := old(alerts) + ["Failed to load facilities: " + r.error])
    {
      var result := ListReply(reply);
      if result.Succeeded? {
        facilityOptions := FacilitySelect(result.value);
      } else {
        alerts := alerts + ["Failed to load facilities: " + result.error];
      }
    }

    /** The facility drop-down's change handler, with the inventory reply for a chosen facility. */
    method ChangeFacility(value: string, reply: Reply<ListBody<InventoryItem>>)
      modifies this
      ensures State() == old(State()).(currentFacilityId := Some(value),
                                       packages := if value != [] then PackageTable(ListReply(reply))
                                                   else NoData(SelectFacility))
    {
      currentFacilityId := Some(value);
      if value != [] {
        packages := PackageTable(ListReply(reply));
      } else {
        packages := NoData(SelectFacility);
      }
    }

    /** The submit handler up to its `await`; returns the payload it sends, if any. */
    method Submit(driverId: string, facilityId: string, packageIds: seq<string>, isoDate: string, nowMillis: nat)
      returns (sent: Option<Payload>)
      modifies this
      ensures (State(), sent) == Submitted(old(State()), driverId, facilityId, packageIds, isoDate, nowMillis)
    {
      if isSubmitting {
        return None;
      }
      isSubmitting := true;
      var originalText := buttonText;
      buttonDisabled := true;
      buttonText := "Assigning Route...";
      if driverId == [] || facilityId == [] {
        alerts := alerts + [MissingSelection];
        isSubmitting := false;
        buttonDisabled := false;
        buttonText := originalText;
        return None;
      }
      if packageIds == [] {
        alerts := alerts + [NoPackages];
        isSubmitting := false;
        buttonDisabled := false;
        buttonText := originalText;
        return None;
      }
      pending := Some(Pending(|packageIds|, originalText));
      sent := Some(PayloadFor(driverId, facilityId, packageIds, isoDate, nowMillis));
    }

    /** The submit handler after its `await`, with the server's reply. */
    method Finish(reply: Reply<Option<string>>)
      requires pending.Some?
      modifies this
      ensures State() == Finished(old(State()), reply)
    {
      var result := PostReply(reply, AssignFallback);
      alerts := alerts + [ResultAlert(result, pending.value.count)];
      if result.Succeeded? {
        currentFacilityId := None;
        packages := NoData(SelectFacility);
      }
      isSubmitting := false;
      buttonDisabled := false;
      buttonText := pending.value.buttonText;
      pending := None;
    }
  }
}
