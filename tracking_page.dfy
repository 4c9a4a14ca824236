// The tracking and status screen (frontend/js/tracking.js): it reads the
// stored orders afresh for each action, looks an order up by id, shows it,
// and updates an order's status and location in place before saving the
// list back. The clock is a parameter.
module TrackingPage {
  import opened Wrappers
  import opened JavaStrings
  import opened PageCommon

  const PackageFound: Message := Message("Package found!", "success")
  const InvalidTrackingId: Message := Message("Invalid tracking ID. Please check and try again.", "error")
  const StatusUpdated: Message := Message("Package status updated successfully!", "success")
  const NoPackagesText: string := "No packages to track yet."

  /** The test `o => o.id === id`. */
  function WithId(id: string): Order -> bool
  {
    (o: Order) => o.id == id
  }

  /** `orders.find(o => o.id === id)`. */
  function Lookup(orders: seq<Order>, id: string): (r: Option<Order>)
    ensures r.None? <==> forall i :: 0 <= i < |orders| ==> orders[i].id != id
    ensures r.Some? ==> exists i :: 0 <= i < |orders| && orders[i] == r.value && r.value.id == id
                                    && forall j :: 0 <= j < i ==> orders[j].id != id
  {
    var i := FirstIndex(orders, WithId(id));
    if i < 0 then None else Some(orders[i])
  }

  /** The badge class: "status-" and the status lower-cased with each space made a '-'. */
  function StatusClass(status: string): string
  {
    "status-" + ReplaceChar(ToLower(status), ' ', "-")
  }

  /** What the screen holds: the stored orders, the order on display, and the messages. */
  datatype Screen = Screen(orders: seq<Order>, shown: Option<Order>, messages: seq<Message>)

  /** The tracking form: the order with the trimmed id is shown, or the result is hidden with an error. */
  function Tracked(sc: Screen, rawId: string): Screen
  {
    var order := Lookup(sc.orders, JsTrim(rawId));
    sc.(shown := order, messages := sc.messages + [if order.Some? then PackageFound else InvalidTrackingId])
  }

  /** A "View" button: shows the order with that exact id, if any; nothing happens otherwise. */
  function Viewed(sc: Screen, id: string): Screen
  {
    var order := Lookup(sc.orders, id);
    if order.Some? then sc.(shown := order) else sc
  }

  /**
   * The status form: the first order with the trimmed id gets the new
   * status, location and update time and the list is saved; an unknown id
   * is an error.
   */
  function Updated(sc: Screen, rawId: string, newStatus: string, newLocation: string, now: string): Screen
  {
    var i := FirstIndex(sc.orders, WithId(JsTrim(rawId)));
    if i < 0 then sc.(messages := sc.messages + [InvalidTrackingId])
    else
      sc.(orders := sc.orders[i := sc.orders[i].(status := newStatus, location := newLocation, lastUpdated := Some(now))],
          messages := sc.messages + [StatusUpdated])
  }

  // ---------------------------------------------------------------------------
  // Properties

  /** Replacing each space with '-' keeps the length and changes only the spaces. */
  lemma {:induction false} DashesForSpaces(s: string)
    ensures var r := ReplaceChar(s, ' ', "-");
      |r| == |s| && forall i :: 0 <= i < |s| ==> r[i] == if s[i] == ' ' then '-' else s[i]
    decreases |s|
  {
    if s != [] {
      DashesForSpaces(s[1..]);
    }
  }

  /** The badge class has no space, no upper-case letter, and one character per character of the status. */
  lemma StatusClassShape(status: string)
    ensures var r := StatusClass(status);
      |r| == 7 + |status| && r[..7] == "status-"
      && (forall i :: 0 <= i < |status| ==> r[7 + i] == if status[i] == ' ' then '-' else LowerChar(status[i]))
      && (forall i :: 0 <= i < |r| ==> r[i] != ' ' && !IsUpper(r[i]))
  {
    DashesForSpaces(ToLower(status));
    var r := StatusClass(status);
    assert forall i :: 0 <= i < |status| ==> (ToLower(status)[i] == ' ' <==> status[i] == ' ');
    forall i | 0 <= i < |r| ensures r[i] != ' ' && !IsUpper(r[i]) {
      if i >= 7 {
        assert r[i] == ReplaceChar(ToLower(status), ' ', "-")[i - 7];
      }
    }
  }

  /** The tracking form shows exactly the first order with the trimmed id, or an error when there is none. */
  lemma TrackingShowsFirstMatch(sc: Screen, rawId: string, i: nat)
    requires i < |sc.orders| && sc.orders[i].id == JsTrim(rawId)
    requires forall j :: 0 <= j < i ==> sc.orders[j].id != JsTrim(rawId)
    ensures Tracked(sc, rawId) == sc.(shown := Some(sc.orders[i]), messages := sc.messages + [PackageFound])
  {
    assert WithId(JsTrim(rawId))(sc.orders[i]);
  }

  /** An update changes the status, location and time of the first matching order only, and nothing else. */
  lemma UpdateTouchesFirstMatch(sc: Screen, rawId: string, newStatus: string, newLocation: string, now: string, i: nat)
    requires i < |sc.orders| && sc.orders[i].id == JsTrim(rawId)
    requires forall j :: 0 <= j < i ==> sc.orders[j].id != JsTrim(rawId)
    ensures var r := Updated(sc, rawId, newStatus, newLocation, now);
      |r.orders| == |sc.orders|
      && r.orders[i] == sc.orders[i].(status := newStatus, location := newLocation, lastUpdated := Some(now))
      && (forall j :: 0 <= j < |sc.orders| && j != i ==> r.orders[j] == sc.orders[j])
      && r.shown == sc.shown && r.messages == sc.messages + [StatusUpdated]
  {
    assert WithId(JsTrim(rawId))(sc.orders[i]);
    assert FirstIndex(sc.orders, WithId(JsTrim(rawId))) == i;
  }

  /** An update for an id no order has saves nothing and reports an error. */
  lemma UnknownIdSavesNothing(sc: Screen, rawId: string, newStatus: string, newLocation: string, now: string)
    requires forall o :: o in sc.orders ==> o.id != JsTrim(rawId)
    ensures Updated(sc, rawId, newStatus, newLocation, now) == sc.(messages := sc.messages + [InvalidTrackingId])
    ensures Tracked(sc, rawId) == sc.(shown := None, messages := sc.messages + [InvalidTrackingId])
  {
    assert forall j :: 0 <= j < |sc.orders| ==> sc.orders[j] in sc.orders;
  }

  // ---------------------------------------------------------------------------
  // The screen

  class TrackingScreen {
    var stored: seq<Order>
    var shown: Option<Order>
    var messages: seq<Message>

    function State(): Screen
      reads this
    {
      Screen(stored, shown, messages)
    }

    /** The stored orders, or none when storage holds no list. */
    constructor(storedOrders: Option<seq<Order>>)
      ensures State() == Screen(storedOrders.GetOr([]), None, [])
    {
      stored := storedOrders.GetOr([]);
      shown := None;
      messages := [];
    }

    /** `displayAllPackages`: one row per stored order, or the "no packages" row. */
    function AllPackages(): (r: Table<Order>)
      reads this
      ensures r.NoData? <==> stored == []
      ensures r.Rows? ==> r.items == stored
    {
      Tabulate(stored, NoPackagesText)
    }

    method SubmitTracking(rawId: string)
      modifies this
      ensures State() == Tracked(old(State()), rawId)
    {
      var trackingId := JsTrim(rawId);
      var orders := stored;
      var order := Lookup(orders, trackingId);
      if order.Some? {
        shown := order;
        messages := messages + [PackageFound];
      } else {
        shown := None;
        messages := messages + [InvalidTrackingId];
      }
    }

    method ViewDetails(id: string)
      modifies this
      ensures State() == Viewed(old(State()), id)
    {
      var order := Lookup(stored, id);
      if order.Some? {
        shown := order;
      }
    }

    /** The status form's handler: the fields of the found order are assigned one by one, then the list is saved. */
    method SubmitStatusUpdate(rawId: string, newStatus: string, newLocation: string, now: string)
      modifies this
      ensures State() == Updated(old(State()), rawId, newStatus, newLocation, now)
    {
      var trackingId := JsTrim(rawId);
      var orders := stored;
      var orderIndex := FirstIndex(orders, WithId(trackingId));
      if orderIndex != -1 {
        orders := orders[orderIndex := orders[orderIndex].(status := newStatus)];
        orders := orders[orderIndex := orders[orderIndex].(location := newLocation)];
        orders := orders[orderIndex := orders[orderIndex].(lastUpdated := Some(now))];
        stored := orders;
        messages := messages + [StatusUpdated];
      } else {
        messages := messages + [InvalidTrackingId];
      }
    }
  }
}
