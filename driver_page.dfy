// The driver's pages (frontend/js/driver.js): the route fetch, the status
// update, the dashboard's summary, counts and assignment rows, the "Mark
// Delivered" action, and the route-stops view that groups the route's
// packages by delivery address. The fetch replies and the user's answer to
// the confirmation dialog are parameters.
module DriverPage {
  import opened Wrappers
  import opened JavaStrings
  import opened PageCommon

  datatype RoutePackage = RoutePackage(packageId: int, trackingNumber: string, customerName: Option<string>,
                                       streetAddress: string, city: string, state: string, zipCode: string,
                                       stopSequence: int, estimatedArrival: Option<string>,
                                       deliveryInstructions: Option<string>, status: string)

  datatype Route = Route(routeName: string, routeDate: string, routeStatus: string, facilityName: string,
                         vehicleId: Option<string>, estimatedDurationMinutes: int, totalStops: Option<int>,
                         packages: seq<RoutePackage>)

  /** The route endpoint's body: the route, or a message saying there is none. */
  datatype RouteBody = RouteBody(route: Option<Route>, message: Option<string>)

  /** What `fetchDriverRoute` gives its callers. */
  datatype FetchedRoute = RouteFailed(error: string) | RouteFound(route: Route) | NoRoute(message: string)

  const NoRouteAssigned := "No route assigned"

  /**
   * `fetchDriverRoute`: a non-2xx status fails before the body is read; a
   * body without a route carries its message, or a default one.
   */
  function FetchRoute(reply: Reply<RouteBody>): (r: FetchedRoute)
    ensures r.RouteFound? <==> reply.Replied? && IsOk(reply.status) && reply.body.Returned?
                                && reply.body.value.route.Some?
    ensures r.RouteFound? ==> r.route == reply.body.value.route.value
    ensures reply.Replied? && !IsOk(reply.status) ==> r == RouteFailed("HTTP " + NatToString(reply.status))
    ensures r.NoRoute? ==> reply.Replied? && reply.body.Returned?
                           && r.message == OrDefault(reply.body.value.message, NoRouteAssigned)
    ensures r.NoRoute? ==> r.message != []
  {
    match reply
    case Rejected(message) => RouteFailed(message)
    case Replied(status, body) =>
      if !IsOk(status) then RouteFailed("HTTP " + NatToString(status))
      else match body
        case Threw(message) => RouteFailed(message)
        case Returned(b) =>
          if b.route.Some? then RouteFound(b.route.value) else NoRoute(OrDefault(b.message, NoRouteAssigned))
  }

  /** The body `updateDeliveryStatus` posts. */
  datatype StatusUpdate = StatusUpdate(packageId: int, status: string, notes: string, location: string)

  const StatusFallback := "Failed to update status"

  // ---------------------------------------------------------------------------
  // The dashboard

  predicate IsDelivered(p: RoutePackage) { p.status == "delivered" }

  predicate IsUndelivered(p: RoutePackage) { p.status != "delivered" }

  /** Filtering by a predicate and by its negation splits a list in two. */
  lemma {:induction false} FilterSplits(xs: seq<RoutePackage>)
    ensures |Filter(xs, IsDelivered)| + |Filter(xs, IsUndelivered)| == |xs|
    decreases |xs|
  {
    if xs != [] {
      var init := xs[..|xs| - 1];
      FilterSplits(init);
      assert xs == init + [xs[|xs| - 1]];
      FilterSnoc(init, xs[|xs| - 1], IsDelivered);
      FilterSnoc(init, xs[|xs| - 1], IsUndelivered);
    }
  }

  /** The three summary cards. */
  datatype Counts = Counts(totalStops: int, completed: nat, remaining: int)

  /** `totalStops || packages.length`: a missing or zero count falls back to the number of packages. */
  function CountsOf(route: Route): Counts
  {
    var completed := |Filter(route.packages, IsDelivered)|;
    Counts(if route.totalStops.Some? && route.totalStops.value != 0 then route.totalStops.value
           else |route.packages|,
           completed, |route.packages| - completed)
  }

  /** Completed and remaining add up to the route's packages; remaining counts exactly the undelivered ones. */
  lemma CountsAddUp(route: Route)
    ensures CountsOf(route).completed + CountsOf(route).remaining == |route.packages|
    ensures CountsOf(route).remaining == |Filter(route.packages, IsUndelivered)|
    ensures CountsOf(route).remaining == 0 <==> forall p :: p in route.packages ==> p.status == "delivered"
  {
    FilterSplits(route.packages);
    var rest := Filter(route.packages, IsUndelivered);
    if rest != [] {
      assert rest[0] in route.packages && !IsDelivered(rest[0]);
    }
  }

  /** The route summary panel: the route's details, or a line of text. */
  datatype Summary = RouteSummary(routeName: string, routeDate: string, routeStatus: string, facilityName: string,
                                  vehicle: string, estimatedDurationMinutes: int)
                   | SummaryText(text: string)
                   | NoSummary

  function SummaryOf(route: Route): Summary
  {
    RouteSummary(route.routeName, route.routeDate, route.routeStatus, route.facilityName,
                 OrDefault(route.vehicleId, "Not assigned"), route.estimatedDurationMinutes)
  }

  datatype Badge = DeliveredBadge | OutForDeliveryBadge | PlainBadge(status: string)

  /** One row of the assignments table; `markDelivered` says whether it has the button. */
  datatype AssignmentRow = AssignmentRow(stopSequence: int, trackingNumber: string, customer: string,
                                         address: string, arrival: string, badge: Badge, markDelivered: bool,
                                         packageId: int)

  /** `${streetAddress}, ${city}, ${state} ${zipCode}`: the key the stops view groups by. */
  function FullAddress(p: RoutePackage): string
  {
    p.streetAddress + ", " + p.city + ", " + p.state + " " + p.zipCode
  }

  function BadgeOf(status: string): Badge
  {
    if status == "delivered" then DeliveredBadge
    else if status == "out_for_delivery" then OutForDeliveryBadge
    else PlainBadge(status)
  }

  function AssignmentRowOf(p: RoutePackage): AssignmentRow
  {
    AssignmentRow(p.stopSequence, p.trackingNumber, OrDefault(p.customerName, "N/A"), FullAddress(p),
                  OrDefault(p.estimatedArrival, "N/A"), BadgeOf(p.status), p.status != "delivered", p.packageId)
  }

  /** A row offers "Mark Delivered" exactly when its package is not delivered, and then shows a badge that is not the delivered one. */
  lemma RowOffersActionUntilDelivered(p: RoutePackage)
    ensures AssignmentRowOf(p).markDelivered <==> p.status != "delivered"
    ensures AssignmentRowOf(p).badge == DeliveredBadge <==> p.status == "delivered"
    ensures AssignmentRowOf(p).badge.PlainBadge? ==> AssignmentRowOf(p).badge.status == p.status
  {
  }

  const NoRouteToday := "No route assigned for today."

  /** What the dashboard shows. */
  datatype Dashboard = Dashboard(counts: Option<Counts>, summary: Summary, table: Table<AssignmentRow>,
                                 alerts: seq<string>)

  /**
   * `loadRoute`: a route fills the cards, the summary and one row per
   * package; no route shows the message and the no-route row; a failure
   * only raises an alert.
   */
  function Loaded(d: Dashboard, fetched: FetchedRoute): Dashboard
  {
    match fetched
    case RouteFound(route) =>
      d.(counts := Some(CountsOf(route)), summary := SummaryOf(route),
         table := Rows(seq(|route.packages|, i requires 0 <= i < |route.packages| => AssignmentRowOf(route.packages[i]))))
    case NoRoute(message) => d.(summary := SummaryText(OrDefault(Some(message), "No active route")), table := NoData(NoRouteToday))
    case RouteFailed(error) => d.(alerts := d.alerts + ["Failed to load route: " + error])
  }

  /**
   * With no route the summary shows the server's message or "No route
   * assigned"; the page's own "No active route" fallback is never reached.
   */
  lemma NoRouteSummary(d: Dashboard, reply: Reply<RouteBody>)
    requires FetchRoute(reply).NoRoute?
    ensures Loaded(d, FetchRoute(reply)).summary == SummaryText(OrDefault(reply.body.value.message, NoRouteAssigned))
    ensures Loaded(d, FetchRoute(reply)).table == NoData(NoRouteToday)
  {
  }

  /** `markDelivered`: the request it sends, if confirmed, and the alert once the server answers. */
  function DeliveredRequest(packageId: int, confirmed: bool): (r: Option<StatusUpdate>)
    ensures r.Some? <==> confirmed
    ensures r.Some? ==> r.value.packageId == packageId && r.value.status == "delivered"
  {
    if confirmed then Some(StatusUpdate(packageId, "delivered", "Delivered to customer", "")) else None
  }

  function DeliveredAlert(trackingNumber: string, result: Answer<()>): string
  {
    match result
    case Succeeded(_) => "Package " + trackingNumber + " marked as delivered!"
    case Failed(error) => "Failed to update status: " + error
  }

  class DriverDashboard {
    var counts: Option<Counts>
    var summary: Summary
    var table: Table<AssignmentRow>
    var alerts: seq<string>

    function State(): Dashboard
      reads this
    {
      Dashboard(counts, summary, table, alerts)
    }

    constructor()
      ensures State() == Dashboard(None, NoSummary, Rows([]), [])
    {
      counts := None;
      summary := NoSummary;
      table := Rows([]);
      alerts := [];
    }

    /** `loadRoute` once the route has been fetched; the table is emptied and filled one package at a time. */
    method LoadRoute(fetched: FetchedRoute)
      modifies this
      ensures State() == Loaded(old(State()), fetched)
    {
      match fetched {
        case RouteFound(route) =>
          counts := Some(CountsOf(route));
          summary := SummaryOf(route);
          var rows: seq<AssignmentRow> := [];
          for i := 0 to |route.packages|
            invariant |rows| == i
            invariant forall j :: 0 <= j < i ==> rows[j] == AssignmentRowOf(route.packages[j])
          {
            rows := rows + [AssignmentRowOf(route.packages[i])];
          }
          assert rows == seq(|route.packages|, i requires 0 <= i < |route.packages| => AssignmentRowOf(route.packages[i]));
          table := Rows(rows);
        case NoRoute(message) =>
          table := NoData(NoRouteToday);
          summary := SummaryText(OrDefault(Some(message), "No active route"));
        case RouteFailed(error) =>
          alerts := alerts + ["Failed to load route: " + error];
      }
    }

    /**
     * The action behind "Mark Delivered", given the answer to the
     * confirmation dialog and the server's reply to the update. It returns
     * the request it sends and whether the route is to be reloaded.
     */
    method MarkDelivered(packageId: int, trackingNumber: string, confirmed: bool, reply: Reply<Option<string>>)
      returns (sent: Option<StatusUpdate>, reload: bool)
      modifies this
      ensures sent == DeliveredRequest(packageId, confirmed)
      ensures reload <==> confirmed && PostReply(reply, StatusFallback).Succeeded?
      ensures State() == if confirmed then old(State()).(alerts := old(alerts) + [DeliveredAlert(trackingNumber, PostReply(reply, StatusFallback))])
                         else old(State())
    {
      if !confirmed {
        return None, false;
      }
      sent := Some(StatusUpdate(packageId, "delivered", "Delivered to customer", ""));
      var result := PostReply(reply, StatusFallback);
      alerts := alerts + [DeliveredAlert(trackingNumber, result)];
      reload := result.Succeeded?;
    }
  }

  /** Cancelling the dialog sends nothing and changes nothing; a successful update asks for a reload. */
  lemma MarkDeliveredNeedsConfirmation(packageId: int, confirmed: bool)
    ensures DeliveredRequest(packageId, confirmed).None? <==> !confirmed
    ensures confirmed ==> DeliveredRequest(packageId, confirmed) == Some(StatusUpdate(packageId, "delivered", "Delivered to customer", ""))
  {
  }

  // ---------------------------------------------------------------------------
  // The route-stops view

  /** Packages bound for one address. */
  function AtAddress(address: string): RoutePackage -> bool
  {
    (p: RoutePackage) => FullAddress(p) == address
  }

  function Group(pkgs: seq<RoutePackage>, address: string): seq<RoutePackage>
  {
    Filter(pkgs, AtAddress(address))
  }

  /** The distinct delivery addresses in the order of their first package. */
  function Addresses(pkgs: seq<RoutePackage>): (r: seq<string>)
    ensures forall i, j :: 0 <= i < j < |r| ==> r[i] != r[j]
    ensures forall a :: a in r <==> Group(pkgs, a) != []
    decreases |pkgs|
  {
    if pkgs == [] then []
    else
      var init := pkgs[..|pkgs| - 1];
      var x := pkgs[|pkgs| - 1];
      assert pkgs == init + [x];
      var before := Addresses(init);
      forall a
        ensures Group(pkgs, a) == if FullAddress(x) == a then Group(init, a) + [x] else Group(init, a)
      {
        FilterSnoc(init, x, AtAddress(a));
      }
      if FullAddress(x) in before then before else before + [FullAddress(x)]
  }

  /** A stop as the grouping map holds it: the first package supplies its sequence, arrival and instructions. */
  datatype Stop = Stop(address: string, packages: seq<RoutePackage>, stopSequence: int,
                       estimatedArrival: Option<string>, deliveryInstructions: Option<string>)

  function StopOf(pkgs: seq<RoutePackage>, address: string): Stop
    requires Group(pkgs, address) != []
  {
    var g := Group(pkgs, address);
    Stop(address, g, g[0].stopSequence, g[0].estimatedArrival, g[0].deliveryInstructions)
  }

  /** The stops of a route, one per distinct address, in order of first appearance. */
  function Stops(pkgs: seq<RoutePackage>): (r: seq<Stop>)
    ensures |r| == |Addresses(pkgs)|
  {
    var addresses := Addresses(pkgs);
    seq(|addresses|, i requires 0 <= i < |addresses| => StopOf(pkgs, addresses[i]))
  }

  /** One row of the stops table. */
  datatype StopRow = StopRow(number: nat, address: string, arrival: string, packageList: string,
                             instructions: string, delivered: bool)

  function TrackingNumbers(pkgs: seq<RoutePackage>): seq<string>
  {
    seq(|pkgs|, i requires 0 <= i < |pkgs| => pkgs[i].trackingNumber)
  }

  predicate AllDelivered(pkgs: seq<RoutePackage>)
  {
    forall i :: 0 <= i < |pkgs| ==> pkgs[i].status == "delivered"
  }

  function StopRowOf(number: nat, stop: Stop): StopRow
  {
    StopRow(number, stop.address, OrDefault(stop.estimatedArrival, "N/A"),
            Join(TrackingNumbers(stop.packages), ", "), OrDefault(stop.deliveryInstructions, "None"),
            AllDelivered(stop.packages))
  }

  function StopRows(stops: seq<Stop>): (r: seq<StopRow>)
    ensures |r| == |stops|
  {
    seq(|stops|, i requires 0 <= i < |stops| => StopRowOf(i + 1, stops[i]))
  }

  const RouteError := "Error loading route."

  /** `loadRouteStops`: the stop rows, the no-route row, or the error row. */
  function StopsTable(fetched: FetchedRoute): Table<StopRow>
  {
    match fetched
    case RouteFound(route) => Rows(StopRows(Stops(route.packages)))
    case NoRoute(_) => NoData(NoRouteToday)
    case RouteFailed(_) => NoData(RouteError)
  }

  /** `order` and `stops` hold what the grouping loop has built from `pkgs`. */
  ghost predicate GroupedAs(pkgs: seq<RoutePackage>, order: seq<string>, stops: map<string, Stop>)
  {
    order == Addresses(pkgs)
    && (forall a :: a in stops <==> a in order)
    && (forall a :: a in stops ==> Group(pkgs, a) != [] && stops[a] == StopOf(pkgs, a))
  }

  /**
   * The grouping loop: a map from address to stop, and the addresses in
   * the order they were added (the order a JavaScript `Map` iterates in).
   */
  method GroupByAddress(pkgs: seq<RoutePackage>) returns (order: seq<string>, stops: map<string, Stop>)
    ensures order == Addresses(pkgs)
    ensures forall a :: a in stops <==> a in order
    ensures forall a :: a in stops ==> Group(pkgs, a) != [] && stops[a] == StopOf(pkgs, a)
  {
    order := [];
    stops := map[];
    for i := 0 to |pkgs|
      invariant GroupedAs(pkgs[..i], order, stops)
    {
      var p := pkgs[i];
      var key := FullAddress(p);
      assert pkgs[..i + 1] == pkgs[..i] + [p];
      GroupStep(pkgs[..i], p, order, stops);
      ghost var expected := AfterStep(stops, p);
      if key !in stops {
        stops := stops[key := Stop(key, [], p.stopSequence, p.estimatedArrival, p.deliveryInstructions)];
        order := order + [key];
      }
      stops := stops[key := stops[key].(packages := stops[key].packages + [p])];
      assert stops == expected;
    }
    assert pkgs[..|pkgs|] == pkgs;
  }

  /** The map after one pass of the grouping loop's body: the package's stop is opened if new, then the package joins it. */
  function AfterStep(stops: map<string, Stop>, p: RoutePackage): (r: map<string, Stop>)
    ensures r.Keys == stops.Keys + {FullAddress(p)}
  {
    var key := FullAddress(p);
    var started := if key in stops then stops
                   else stops[key := Stop(key, [], p.stopSequence, p.estimatedArrival, p.deliveryInstructions)];
    started[key := started[key].(packages := started[key].packages + [p])]
  }

  /** One pass of the grouping loop's body keeps what it has built in step with the packages seen. */
  lemma GroupStep(pkgs: seq<RoutePackage>, p: RoutePackage, order: seq<string>, stops: map<string, Stop>)
    requires GroupedAs(pkgs, order, stops)
    ensures GroupedAs(pkgs + [p], if FullAddress(p) in stops then order else order + [FullAddress(p)],
                      AfterStep(stops, p))
  {
    OrderStep(pkgs, p, order, stops);
    KeysStep(pkgs, p, order, stops);
    EntriesStep(pkgs, p, order, stops);
  }

  /** A new address joins the end of the order list. */
  lemma OrderStep(pkgs: seq<RoutePackage>, p: RoutePackage, order: seq<string>, stops: map<string, Stop>)
    requires GroupedAs(pkgs, order, stops)
    ensures (if FullAddress(p) in stops then order else order + [FullAddress(p)]) == Addresses(pkgs + [p])
  {
    AddressesSnoc(pkgs, p);
  }

  /** The map's keys and the order list grow together. */
  lemma KeysStep(pkgs: seq<RoutePackage>, p: RoutePackage, order: seq<string>, stops: map<string, Stop>)
    requires GroupedAs(pkgs, order, stops)
    ensures forall a :: a in AfterStep(stops, p) <==> a in (if FullAddress(p) in stops then order else order + [FullAddress(p)])
  {
  }

  /** Every stop in the map is the one its address's packages make. */
  lemma EntriesStep(pkgs: seq<RoutePackage>, p: RoutePackage, order: seq<string>, stops: map<string, Stop>)
    requires GroupedAs(pkgs, order, stops)
    ensures forall a :: a in AfterStep(stops, p) ==> Group(pkgs + [p], a) != [] && AfterStep(stops, p)[a] == StopOf(pkgs + [p], a)
  {
    if FullAddress(p) !in stops {
      assert Group(pkgs, FullAddress(p)) == [];
    }
    forall a | a in AfterStep(stops, p)
      ensures Group(pkgs + [p], a) != [] && AfterStep(stops, p)[a] == StopOf(pkgs + [p], a)
    {
      StepEntry(pkgs, p, stops, a);
    }
  }

  /** One entry of the map after a pass of the grouping loop's body. */
  lemma StepEntry(pkgs: seq<RoutePackage>, p: RoutePackage, stops: map<string, Stop>, a: string)
    requires forall b :: b in stops ==> Group(pkgs, b) != [] && stops[b] == StopOf(pkgs, b)
    requires FullAddress(p) !in stops ==> Group(pkgs, FullAddress(p)) == []
    requires a in stops || a == FullAddress(p)
    ensures Group(pkgs + [p], a) != [] && AfterStep(stops, p)[a] == StopOf(pkgs + [p], a)
  {
    var key := FullAddress(p);
    var q := pkgs + [p];
    var after := AfterStep(stops, p);
    FilterSnoc(pkgs, p, AtAddress(a));
    if a != key {
      assert after[a] == stops[a];
      assert Group(q, a) == Group(pkgs, a);
    } else if key in stops {
      var g := Group(pkgs, key);
      assert Group(q, key) == g + [p];
      assert (g + [p])[0] == g[0];
      assert after[key] == Stop(key, g + [p], g[0].stopSequence, g[0].estimatedArrival, g[0].deliveryInstructions);
    } else {
      assert Group(q, key) == [p];
      assert after[key] == Stop(key, [p], p.stopSequence, p.estimatedArrival, p.deliveryInstructions);
    }
  }

  /** The addresses of a route with one more package: its address is added at the end if it is new. */
  lemma AddressesSnoc(pkgs: seq<RoutePackage>, p: RoutePackage)
    ensures Addresses(pkgs + [p]) == if FullAddress(p) in Addresses(pkgs) then Addresses(pkgs)
                                     else Addresses(pkgs) + [FullAddress(p)]
  {
    assert (pkgs + [p])[..|pkgs + [p]| - 1] == pkgs;
  }

  /** One more package joins its own address's group and no other. */
  lemma GroupSnoc(pkgs: seq<RoutePackage>, p: RoutePackage)
    ensures forall a :: Group(pkgs + [p], a) == if FullAddress(p) == a then Group(pkgs, a) + [p] else Group(pkgs, a)
  {
    forall a
      ensures Group(pkgs + [p], a) == if FullAddress(p) == a then Group(pkgs, a) + [p] else Group(pkgs, a)
    {
      FilterSnoc(pkgs, p, AtAddress(a));
    }
  }

  /** The rows loop: stops numbered from one in map order. */
  method NumberStops(order: seq<string>, stops: map<string, Stop>) returns (rows: seq<StopRow>)
    requires forall a :: a in order ==> a in stops
    ensures rows == StopRows(seq(|order|, i requires 0 <= i < |order| => stops[order[i]]))
  {
    rows := [];
    var stopNumber := 1;
    for i := 0 to |order|
      invariant stopNumber == i + 1
      invariant |rows| == i
      invariant forall j :: 0 <= j < i ==> rows[j] == StopRowOf(j + 1, stops[order[j]])
    {
      rows := rows + [StopRowOf(stopNumber, stops[order[i]])];
      stopNumber := stopNumber + 1;
    }
  }

  /** The grouping loop, then the rows loop. */
  method StopRowsOfRoute(pkgs: seq<RoutePackage>) returns (rows: seq<StopRow>)
    ensures rows == StopRows(Stops(pkgs))
  {
    var order, stops := GroupByAddress(pkgs);
    rows := NumberStops(order, stops);
    assert forall i :: 0 <= i < |order| ==> stops[order[i]] == StopOf(pkgs, Addresses(pkgs)[i]);
    assert seq(|order|, i requires 0 <= i < |order| => stops[order[i]]) == Stops(pkgs);
  }

  class RouteStopsView {
    var table: Table<StopRow>

    constructor()
      ensures table == Rows([])
    {
      table := Rows([]);
    }

    /** `loadRouteStops` once the route has been fetched. */
    method LoadRouteStops(fetched: FetchedRoute)
      modifies this
      ensures table == StopsTable(fetched)
    {
      match fetched {
        case RouteFound(route) =>
          var rows := StopRowsOfRoute(route.packages);
          table := Rows(rows);
        case NoRoute(_) =>
          table := NoData(NoRouteToday);
        case RouteFailed(_) =>
          table := NoData(RouteError);
      }
    }
  }

  /** Stops are numbered 1, 2, ... and each stop is a different address. */
  lemma StopsNumberedAndDistinct(pkgs: seq<RoutePackage>)
    ensures var rows := StopRows(Stops(pkgs));
      (forall i :: 0 <= i < |rows| ==> rows[i].number == i + 1)
      && (forall i, j :: 0 <= i < j < |rows| ==> rows[i].address != rows[j].address)
  {
    var addresses := Addresses(pkgs);
    var stops := Stops(pkgs);
    var rows := StopRows(stops);
    assert forall i :: 0 <= i < |rows| ==> rows[i] == StopRowOf(i + 1, stops[i]);
    assert forall i :: 0 <= i < |rows| ==> rows[i].address == stops[i].address == addresses[i];
  }

  /** Every package is listed at the stop for its own address, and the stop's first package supplies its details. */
  lemma EveryPackageHasItsStop(pkgs: seq<RoutePackage>, k: int)
    requires 0 <= k < |pkgs|
    ensures var stops := Stops(pkgs);
      exists i :: 0 <= i < |stops| && stops[i].address == FullAddress(pkgs[k]) && pkgs[k] in stops[i].packages
  {
    var a := FullAddress(pkgs[k]);
    assert AtAddress(a)(pkgs[k]);
    assert pkgs[k] in Group(pkgs, a);
    var addresses := Addresses(pkgs);
    var i :| 0 <= i < |addresses| && addresses[i] == a;
    assert Stops(pkgs)[i].address == a;
  }

  /** A stop shows "Delivered" exactly when every package for its address is delivered. */
  lemma StopDeliveredIffAll(pkgs: seq<RoutePackage>, i: int)
    requires 0 <= i < |Stops(pkgs)|
    ensures var stop := Stops(pkgs)[i];
      StopRows(Stops(pkgs))[i].delivered <==>
        forall p :: p in pkgs && FullAddress(p) == stop.address ==> p.status == "delivered"
  {
    var stop := Stops(pkgs)[i];
    var g := Group(pkgs, stop.address);
    assert stop.packages == g;
    forall p | p in pkgs && FullAddress(p) == stop.address
      ensures p in g
    {
      var k :| 0 <= k < |pkgs| && pkgs[k] == p;
      assert AtAddress(stop.address)(pkgs[k]);
    }
    forall j | 0 <= j < |g|
      ensures g[j] in pkgs && FullAddress(g[j]) == stop.address
    {
      assert AtAddress(stop.address)(g[j]);
    }
  }

  /** The number of packages a list of addresses covers. */
  function Covered(pkgs: seq<RoutePackage>, addresses: seq<string>): nat
  {
    if addresses == [] then 0 else Covered(pkgs, addresses[..|addresses| - 1]) + |Group(pkgs, addresses[|addresses| - 1])|
  }

  /** The stops partition the route: their package lists add up to all of its packages. */
  lemma {:induction false} StopsPartitionRoute(pkgs: seq<RoutePackage>)
    ensures Covered(pkgs, Addresses(pkgs)) == |pkgs|
    decreases |pkgs|
  {
    if pkgs != [] {
      var init := pkgs[..|pkgs| - 1];
      var x := pkgs[|pkgs| - 1];
      assert pkgs == init + [x];
      StopsPartitionRoute(init);
      GroupSnoc(init, x);
      var before := Addresses(init);
      CoveredSnoc(init, x, before);
      if FullAddress(x) !in before {
        assert Group(init, FullAddress(x)) == [];
        assert (before + [FullAddress(x)])[..|before|] == before;
      }
    }
  }

  /**
   * Adding one package to a route raises the count over distinct addresses
   * by one if its address is among them, and leaves it otherwise.
   */
  lemma {:induction false} CoveredSnoc(pkgs: seq<RoutePackage>, x: RoutePackage, addresses: seq<string>)
    requires forall i, j :: 0 <= i < j < |addresses| ==> addresses[i] != addresses[j]
    ensures Covered(pkgs + [x], addresses) == Covered(pkgs, addresses) + (if FullAddress(x) in addresses then 1 else 0)
    decreases |addresses|
  {
    GroupSnoc(pkgs, x);
    if addresses != [] {
      var init := addresses[..|addresses| - 1];
      var last := addresses[|addresses| - 1];
      CoveredSnoc(pkgs, x, init);
      assert addresses == init + [last];
      assert FullAddress(x) in addresses <==> FullAddress(x) in init || FullAddress(x) == last;
      if FullAddress(x) == last {
        assert FullAddress(x) !in init by {
          forall j | 0 <= j < |init|
            ensures init[j] != last
          {
            assert init[j] == addresses[j];
          }
        }
      }
    }
  }
}
