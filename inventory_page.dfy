// The inventory and transfer screen (frontend/js/inventory.js): a dictionary
// from facility id to the list of packages held there, the list of
// transfers, and the messages shown. The clock, the locale's date format and
// the random transfer id are parameters; the tables are rendered as lists.
module InventoryPage {
  import opened Wrappers
  import opened JavaStrings
  import opened PageCommon

  datatype Package = Package(trackingId: string, details: string, destination: string, arrivalDate: string,
                             status: string)

  datatype Transfer = Transfer(id: string, trackingId: string, source: string, destination: string, transportMethod: string,
                               status: string, initiatedAt: string)

  type Stock = map<string, seq<Package>>

  const FacilityIds: seq<string> := ["FAC-001", "FAC-002", "FAC-003", "FAC-004"]
  const EmptyStock: Stock := map["FAC-001" := [], "FAC-002" := [], "FAC-003" := [], "FAC-004" := []]

  const SameFacility: Message := Message("Source and destination facilities cannot be the same!", "error")
  const PackageMissing: Message := Message("Package not found in source facility!", "error")
  const NoPackagesText: string := "No packages in this facility."

  /** `inventory[facility] || []`: an unknown facility holds nothing. */
  function PackagesAt(stock: Stock, facility: string): seq<Package>
  {
    if facility in stock then stock[facility] else []
  }

  /** `viewInventory`: the facility's packages, or the "no packages" row. */
  function ViewInventory(stock: Stock, facility: string): (r: Table<Package>)
    ensures r.NoData? <==> facility !in stock || stock[facility] == []
    ensures r.Rows? ==> r.items == stock[facility]
  {
    Tabulate(PackagesAt(stock, facility), NoPackagesText)
  }

  /** One row of the transfers table: every field of a transfer but the time it was initiated. */
  datatype TransferRow = TransferRow(id: string, trackingId: string, source: string, destination: string,
                                     transportMethod: string, status: string)

  const NoTransfersText: string := "No active transfers."

  function TransferRowOf(t: Transfer): TransferRow
  {
    TransferRow(t.id, t.trackingId, t.source, t.destination, t.transportMethod, t.status)
  }

  /** `displayTransfers`: one row per recorded transfer in recording order, or the "no active transfers" row. */
  function TransfersTable(transfers: seq<Transfer>): (r: Table<TransferRow>)
    ensures r.NoData? <==> transfers == []
    ensures r.NoData? ==> r.text == NoTransfersText
    ensures r.Rows? ==> |r.items| == |transfers|
    ensures r.Rows? ==> forall i :: 0 <= i < |transfers| ==>
      r.items[i].id == transfers[i].id && r.items[i].trackingId == transfers[i].trackingId
      && r.items[i].status == transfers[i].status
  {
    Tabulate(seq(|transfers|, i requires 0 <= i < |transfers| => TransferRowOf(transfers[i])), NoTransfersText)
  }

  /** The package an order becomes when the sample inventory is seeded. */
  function Stocked(order: Order, localDate: string -> string): Package
  {
    Package(order.id, if order.packageDetails == "" then "Package" else order.packageDetails, order.deliveryAddress,
            localDate(order.createdAt), "In Facility")
  }

  /** `Object.values(inventory).every(arr => arr.length === 0)`. */
  predicate AllEmpty(stock: Stock)
  {
    forall f :: f in stock ==> stock[f] == []
  }

  /** The dictionary after seeding, and whether a push hit a facility missing from it (a TypeError). */
  datatype Seeding = Seeding(stock: Stock, threw: bool)

  /** Order i is pushed onto facility i mod 4; the first missing facility stops the seeding with what was pushed so far. */
  function Seeded(stock: Stock, orders: seq<Order>, localDate: string -> string): Seeding
  {
    if orders == [] then Seeding(stock, false)
    else
      var before := Seeded(stock, orders[..|orders| - 1], localDate);
      var f := FacilityIds[(|orders| - 1) % 4];
      if before.threw then before
      else if f !in before.stock then Seeding(before.stock, true)
      else Seeding(before.stock[f := before.stock[f] + [Stocked(orders[|orders| - 1], localDate)]], false)
  }

  /** The dictionary, the transfers and the messages the screen holds. */
  datatype Desk = Desk(stock: Stock, transfers: seq<Transfer>, messages: seq<Message>)

  /** The test `pkg => pkg.trackingId === id`. */
  function WithTrackingId(id: string): Package -> bool
  {
    (p: Package) => p.trackingId == id
  }

  /**
   * The transfer form's handler: the same facility twice, or a tracking id
   * not held at the source, is an error message and nothing else; otherwise
   * the first matching package leaves the source, a copy with today's date
   * joins the destination, and one transfer in transit is recorded.
   */
  function Submitted(d: Desk, rawTrackingId: string, source: string, destination: string, transportMethod: string,
                     transferId: string, now: string, today: string): Desk
  {
    var trackingId := JsTrim(rawTrackingId);
    var held := PackagesAt(d.stock, source);
    var k := FirstIndex(held, WithTrackingId(trackingId));
    if source == destination then d.(messages := d.messages + [SameFacility])
    else if k < 0 then d.(messages := d.messages + [PackageMissing])
    else
      var transfer := Transfer(transferId, trackingId, source, destination, transportMethod, "In Transit", now);
      Desk(Moved(d.stock, source, destination, k, today), d.transfers + [transfer], d.messages + [Transferred(transferId)])
  }

  function Transferred(transferId: string): Message
  {
    Message("Transfer initiated successfully! Transfer ID: " + transferId, "success")
  }

  /** The source loses its k-th package; the destination (empty if unknown) gains it with a new arrival date. */
  function Moved(stock: Stock, source: string, destination: string, k: nat, today: string): Stock
    requires k < |PackagesAt(stock, source)|
  {
    var held := PackagesAt(stock, source);
    var left := stock[source := held[..k] + held[k + 1..]];
    left[destination := PackagesAt(left, destination) + [held[k].(arrivalDate := today)]]
  }

  /** The number of packages held at the listed facilities. */
  function Total(stock: Stock, facilities: seq<string>): nat
  {
    if facilities == [] then 0
    else Total(stock, facilities[..|facilities| - 1]) + |PackagesAt(stock, facilities[|facilities| - 1])|
  }

  predicate Distinct(xs: seq<string>)
  {
    forall i, j :: 0 <= i < j < |xs| ==> xs[i] != xs[j]
  }

  // ---------------------------------------------------------------------------
  // Properties

  /** Choosing the same facility twice is an error and changes nothing. */
  lemma SameFacilityChangesNothing(d: Desk, rawTrackingId: string, facility: string, transportMethod: string,
                                   transferId: string, now: string, today: string)
    ensures Submitted(d, rawTrackingId, facility, facility, transportMethod, transferId, now, today)
            == d.(messages := d.messages + [SameFacility])
  {
  }

  /** A tracking id (after trimming) that no package at the source carries is an error and changes nothing. */
  lemma MissingPackageChangesNothing(d: Desk, rawTrackingId: string, source: string, destination: string,
                                     transportMethod: string, transferId: string, now: string, today: string)
    requires source != destination
    requires forall p :: p in PackagesAt(d.stock, source) ==> p.trackingId != JsTrim(rawTrackingId)
    ensures Submitted(d, rawTrackingId, source, destination, transportMethod, transferId, now, today)
            == d.(messages := d.messages + [PackageMissing])
  {
    var held := PackagesAt(d.stock, source);
    assert forall j :: 0 <= j < |held| ==> !WithTrackingId(JsTrim(rawTrackingId))(held[j]) by {
      forall j | 0 <= j < |held| ensures !WithTrackingId(JsTrim(rawTrackingId))(held[j]) {
        assert held[j] in held;
      }
    }
  }

  /**
   * A transfer removes the first package with that id from the source,
   * appends it with the new arrival date to the destination (a facility the
   * dictionary lacked starts empty), records exactly one transfer in transit,
   * and leaves every other facility as it was.
   */
  lemma TransferMovesFirstMatch(d: Desk, rawTrackingId: string, source: string, destination: string,
                                transportMethod: string, transferId: string, now: string, today: string, k: nat)
    requires source != destination && source in d.stock
    requires k < |d.stock[source]| && d.stock[source][k].trackingId == JsTrim(rawTrackingId)
    requires forall j :: 0 <= j < k ==> d.stock[source][j].trackingId != JsTrim(rawTrackingId)
    ensures var r := Submitted(d, rawTrackingId, source, destination, transportMethod, transferId, now, today);
      var held := d.stock[source];
      r.stock.Keys == d.stock.Keys + {destination}
      && r.stock[source] == held[..k] + held[k + 1..]
      && r.stock[destination] == PackagesAt(d.stock, destination) + [held[k].(arrivalDate := today)]
      && (forall f :: f in d.stock && f != source && f != destination ==> r.stock[f] == d.stock[f])
      && r.transfers == d.transfers
                        + [Transfer(transferId, JsTrim(rawTrackingId), source, destination, transportMethod, "In Transit", now)]
  {
    var held := d.stock[source];
    var i := FirstIndex(held, WithTrackingId(JsTrim(rawTrackingId)));
    assert WithTrackingId(JsTrim(rawTrackingId))(held[k]);
    assert i == k;
  }

  /**
   * After the transfer form is handled, the transfers table is what it was
   * when the form was refused, and otherwise keeps its earlier rows and
   * gains the new transfer's row, in transit, at the end.
   */
  lemma TransferTableAfterSubmit(d: Desk, rawTrackingId: string, source: string, destination: string,
                                 transportMethod: string, transferId: string, now: string, today: string)
    ensures var r := Submitted(d, rawTrackingId, source, destination, transportMethod, transferId, now, today);
      var before := TransfersTable(d.transfers);
      var after := TransfersTable(r.transfers);
      (r.transfers == d.transfers ==> after == before)
      && (r.transfers != d.transfers ==>
            after.Rows? && |after.items| == |d.transfers| + 1
            && (before.Rows? ==> after.items[..|d.transfers|] == before.items)
            && after.items[|d.transfers|]
               == TransferRow(transferId, JsTrim(rawTrackingId), source, destination, transportMethod, "In Transit"))
  {
    var r := Submitted(d, rawTrackingId, source, destination, transportMethod, transferId, now, today);
    if r.transfers != d.transfers {
      assert r.transfers == d.transfers
               + [Transfer(transferId, JsTrim(rawTrackingId), source, destination, transportMethod, "In Transit", now)];
      var after := TransfersTable(r.transfers);
      assert after.items == seq(|r.transfers|, i requires 0 <= i < |r.transfers| => TransferRowOf(r.transfers[i]));
      if d.transfers != [] {
        assert after.items[..|d.transfers|]
               == seq(|d.transfers|, i requires 0 <= i < |d.transfers| => TransferRowOf(d.transfers[i]));
      }
    }
  }

  /** Replacing one listed facility's packages changes the total by the difference. */
  lemma {:induction false} TotalUpdate(stock: Stock, facilities: seq<string>, f: string, packages: seq<Package>)
    requires Distinct(facilities) && f in facilities
    ensures Total(stock[f := packages], facilities) + |PackagesAt(stock, f)| == Total(stock, facilities) + |packages|
    decreases |facilities|
  {
    var last := facilities[|facilities| - 1];
    var init := facilities[..|facilities| - 1];
    if last == f {
      assert f !in init;
      TotalUnlisted(stock, init, f, packages);
    } else {
      assert f in init;
      TotalUpdate(stock, init, f, packages);
    }
  }

  /** Replacing an unlisted facility's packages leaves the total alone. */
  lemma {:induction false} TotalUnlisted(stock: Stock, facilities: seq<string>, f: string, packages: seq<Package>)
    requires f !in facilities
    ensures Total(stock[f := packages], facilities) == Total(stock, facilities)
    decreases |facilities|
  {
    if facilities != [] {
      TotalUnlisted(stock, facilities[..|facilities| - 1], f, packages);
    }
  }

  /** A transfer keeps the number of packages over any facilities that include both ends. */
  lemma TransferKeepsTotal(d: Desk, rawTrackingId: string, source: string, destination: string, transportMethod: string,
                           transferId: string, now: string, today: string, facilities: seq<string>)
    requires Distinct(facilities) && source in facilities && destination in facilities
    ensures Total(Submitted(d, rawTrackingId, source, destination, transportMethod, transferId, now, today).stock, facilities)
            == Total(d.stock, facilities)
  {
    var trackingId := JsTrim(rawTrackingId);
    var held := PackagesAt(d.stock, source);
    var k := FirstIndex(held, WithTrackingId(trackingId));
    if source != destination && k >= 0 {
      var left := d.stock[source := held[..k] + held[k + 1..]];
      assert Submitted(d, rawTrackingId, source, destination, transportMethod, transferId, now, today).stock
          == left[destination := PackagesAt(left, destination) + [held[k].(arrivalDate := today)]];
      TotalUpdate(d.stock, facilities, source, held[..k] + held[k + 1..]);
      TotalUpdate(left, facilities, destination, PackagesAt(left, destination) + [held[k].(arrivalDate := today)]);
    }
  }

  /** Seeding one more order: nothing more once a push has failed, else a push onto facility i mod 4. */
  lemma SeededSnoc(stock: Stock, orders: seq<Order>, i: nat, localDate: string -> string)
    requires i < |orders|
    ensures var before := Seeded(stock, orders[..i], localDate);
      var f := FacilityIds[i % 4];
      Seeded(stock, orders[..i + 1], localDate)
      == if before.threw then before
         else if f !in before.stock then Seeding(before.stock, true)
         else Seeding(before.stock[f := before.stock[f] + [Stocked(orders[i], localDate)]], false)
  {
    assert orders[..i + 1][..i] == orders[..i];
  }

  /** Once a push has failed, the later orders change nothing. */
  lemma {:induction false} SeededStaysThrown(stock: Stock, orders: seq<Order>, i: nat, localDate: string -> string)
    requires i <= |orders| && Seeded(stock, orders[..i], localDate).threw
    ensures Seeded(stock, orders, localDate) == Seeded(stock, orders[..i], localDate)
    decreases |orders| - i
  {
    if i < |orders| {
      SeededSnoc(stock, orders, i, localDate);
      SeededStaysThrown(stock, orders, i + 1, localDate);
    } else {
      assert orders[..i] == orders;
    }
  }

  /** Facility k holds, in order, exactly the orders 4j + k; other facilities are untouched. */
  predicate DealtRoundRobin(stock: Stock, dealt: Stock, orders: seq<Order>, localDate: string -> string)
  {
    dealt.Keys == stock.Keys
    && (forall f :: f in stock && f !in FacilityIds ==> dealt[f] == stock[f])
    && (forall k :: 0 <= k < 4 ==> FacilityIds[k] in dealt && |dealt[FacilityIds[k]]| == (|orders| + 3 - k) / 4)
    && (forall k, j :: 0 <= k < 4 && 0 <= j < |dealt[FacilityIds[k]]| ==>
          4 * j + k < |orders| && dealt[FacilityIds[k]][j] == Stocked(orders[4 * j + k], localDate))
  }

  /** Dealing the next order onto facility n mod 4 keeps the round-robin shape. */
  lemma DealNext(stock: Stock, dealt: Stock, orders: seq<Order>, longer: seq<Order>, localDate: string -> string)
    requires DealtRoundRobin(stock, dealt, orders, localDate)
    requires |longer| == |orders| + 1 && longer[..|orders|] == orders
    ensures var f := FacilityIds[|orders| % 4];
      DealtRoundRobin(stock, dealt[f := dealt[f] + [Stocked(longer[|orders|], localDate)]], longer, localDate)
  {
    var n := |orders|;
    var m := n % 4;
    var f := FacilityIds[m];
    var after := dealt[f := dealt[f] + [Stocked(longer[n], localDate)]];
    assert forall k :: 0 <= k < 4 && k != m ==> FacilityIds[k] != f;
    var q := n / 4;
    assert n == 4 * q + m;
    forall k | 0 <= k < 4
      ensures |after[FacilityIds[k]]| == (n + 1 + 3 - k) / 4
    {
      if k == m {
        assert (n + 3 - k) / 4 == q && (n + 4 - k) / 4 == q + 1;
      } else if k < m {
        assert (n + 3 - k) / 4 == q + 1 && (n + 4 - k) / 4 == q + 1;
      } else {
        assert (n + 3 - k) / 4 == q && (n + 4 - k) / 4 == q;
      }
    }
    forall k, j | 0 <= k < 4 && 0 <= j < |after[FacilityIds[k]]|
      ensures 4 * j + k < n + 1 && after[FacilityIds[k]][j] == Stocked(longer[4 * j + k], localDate)
    {
      if k == m && j == |dealt[f]| {
        assert 4 * j + k == n;
      } else {
        assert longer[4 * j + k] == orders[4 * j + k];
      }
    }
  }

  /**
   * Seeding four empty facilities with n orders deals them round-robin:
   * facility k holds, in order, exactly the orders 4j + k.
   */
  lemma {:induction false} SeedRoundRobin(stock: Stock, orders: seq<Order>, localDate: string -> string)
    requires forall k :: 0 <= k < 4 ==> FacilityIds[k] in stock && stock[FacilityIds[k]] == []
    ensures var r := Seeded(stock, orders, localDate);
      !r.threw && DealtRoundRobin(stock, r.stock, orders, localDate)
    decreases |orders|
  {
    if orders == [] {
      assert DealtRoundRobin(stock, stock, orders, localDate);
    } else {
      var init := orders[..|orders| - 1];
      SeedRoundRobin(stock, init, localDate);
      DealNext(stock, Seeded(stock, init, localDate).stock, init, orders, localDate);
    }
  }

  // ---------------------------------------------------------------------------
  // The screen

  class InventoryScreen {
    var inventory: Stock
    var transfers: seq<Transfer>
    var messages: seq<Message>

    function State(): Desk
      reads this
    {
      Desk(inventory, transfers, messages)
    }

    /** The stored dictionary and transfer list, or the defaults when storage holds none. */
    constructor(storedInventory: Option<Stock>, storedTransfers: Option<seq<Transfer>>)
      ensures inventory == storedInventory.GetOr(EmptyStock) && transfers == storedTransfers.GetOr([])
      ensures messages == []
    {
      inventory := storedInventory.GetOr(EmptyStock);
      transfers := storedTransfers.GetOr([]);
      messages := [];
    }

    /**
     * `initializeSampleInventory`: only when there are orders and every
     * facility list is empty, each order in turn is pushed onto facility
     * i mod 4; reports whether a push found its facility missing.
     */
    method InitializeSampleInventory(orders: seq<Order>, localDate: string -> string) returns (threw: bool)
      modifies this
      ensures |orders| > 0 && AllEmpty(old(inventory)) ==>
                Seeding(inventory, threw) == Seeded(old(inventory), orders, localDate)
      ensures !(|orders| > 0 && AllEmpty(old(inventory))) ==> inventory == old(inventory) && !threw
      ensures transfers == old(transfers) && messages == old(messages)
    {
      threw := false;
      if |orders| > 0 && forall f :: f in inventory ==> inventory[f] == [] {
        for i := 0 to |orders|
          invariant Seeding(inventory, false) == Seeded(old(inventory), orders[..i], localDate)
          invariant transfers == old(transfers) && messages == old(messages)
        {
          SeededSnoc(old(inventory), orders, i, localDate);
          var facilityId := FacilityIds[i % 4];
          if facilityId !in inventory {
            threw := true;
            SeededStaysThrown(old(inventory), orders, i + 1, localDate);
            return;
          }
          inventory := inventory[facilityId := inventory[facilityId] + [Stocked(orders[i], localDate)]];
        }
        assert orders[..|orders|] == orders;
      }
    }

    /** The transfer form's submit handler. */
    method SubmitTransfer(rawTrackingId: string, source: string, destination: string, transportMethod: string,
                          transferId: string, now: string, today: string)
      modifies this
      ensures State() == Submitted(old(State()), rawTrackingId, source, destination, transportMethod, transferId, now, today)
    {
      var trackingId := JsTrim(rawTrackingId);
      if source == destination {
        messages := messages + [SameFacility];
        return;
      }
      var sourcePackages := PackagesAt(inventory, source);
      var packageIndex := FirstIndex(sourcePackages, WithTrackingId(trackingId));
      if packageIndex == -1 {
        messages := messages + [PackageMissing];
        return;
      }
      var transfer := Transfer(transferId, trackingId, source, destination, transportMethod, "In Transit", now);
      var packageData := sourcePackages[packageIndex];
      inventory := inventory[source := sourcePackages[..packageIndex] + sourcePackages[packageIndex + 1..]];
      transfers := transfers + [transfer];
      inventory := inventory[destination := PackagesAt(inventory, destination)];
      inventory := inventory[destination := inventory[destination] + [packageData.(arrivalDate := today)]];
      assert inventory == Moved(old(inventory), source, destination, packageIndex, today);
      messages := messages + [Transferred(transferId)];
    }
  }

  /** `generateTransferId`: "TRF-" and the upper-cased random suffix. */
  function TransferId(randomText: string): (r: string)
    ensures 4 <= |r| <= 13 && r[..4] == "TRF-"
  {
    assert |"TRF-"| == 4;
    RandomId("TRF-", randomText)
  }
}
