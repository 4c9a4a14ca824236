// The route assignment screen (frontend/js/routing.js): the list of routes,
// completed in place or deleted by id after confirmation, new routes built
// from a comma-separated list of package ids checked against the stored
// orders, and the ready-package table with its "assigned" column. The clock,
// the random id text and the confirmation answers are parameters.
module RoutingPage {
  import opened Wrappers
  import opened JavaStrings
  import opened PageCommon

  datatype Route = Route(id: string, driverId: string, driverName: string, date: string, packageIds: seq<string>,
                         packageCount: nat, estimatedTime: string, status: string, createdAt: string)

  const Drivers: map<string, string> := map["DRV-001" := "John Smith", "DRV-002" := "Sarah Johnson",
                                            "DRV-003" := "Mike Wilson"]

  const RouteCompleted: Message := Message("Route marked as completed!", "success")
  const RouteDeleted: Message := Message("Route deleted successfully", "success")
  const NoValidIds: Message := Message("No valid package IDs found!", "error")
  const NoRoutesText: string := "No routes assigned yet."
  const NoReadyText: string := "No packages ready for delivery."

  /** `getDriverName`: the three known drivers, else "Unknown Driver". */
  function DriverName(driverId: string): string
  {
    if driverId in Drivers then Drivers[driverId] else "Unknown Driver"
  }

  /** `value.split(',').map(id => id.trim())`. */
  function TrimAll(parts: seq<string>): (r: seq<string>)
    ensures |r| == |parts| && forall i :: 0 <= i < |parts| ==> r[i] == JsTrim(parts[i])
  {
    if parts == [] then [] else [JsTrim(parts[0])] + TrimAll(parts[1..])
  }

  function PackageIdsOf(text: string): seq<string>
  {
    TrimAll(SplitAll(text, ","))
  }

  /** The test `id => orders.some(order => order.id === id)`. */
  function IsOrderOf(orders: seq<Order>): string -> bool
  {
    (id: string) => exists i :: 0 <= i < |orders| && orders[i].id == id
  }

  /** The test `r => r.id !== routeId`. */
  function RouteIdIsNot(routeId: string): Route -> bool
  {
    (r: Route) => r.id != routeId
  }

  function RouteIdIs(routeId: string): Route -> bool
  {
    (r: Route) => r.id == routeId
  }

  /** Shown as assigned: some Active route lists the id. */
  predicate IsAssigned(routes: seq<Route>, id: string)
  {
    exists i :: 0 <= i < |routes| && id in routes[i].packageIds && routes[i].status == "Active"
  }

  /** The test `order.status === 'Processing' || order.status === 'Order Placed'`. */
  function IsReady(): Order -> bool
  {
    (o: Order) => o.status == "Processing" || o.status == "Order Placed"
  }

  /** A row of the ready-package table: the order and whether it is shown as assigned. */
  datatype ReadyRow = ReadyRow(order: Order, isAssigned: bool)

  function AssignedFlags(routes: seq<Route>, ready: seq<Order>): (r: seq<ReadyRow>)
    ensures |r| == |ready|
    ensures forall i :: 0 <= i < |ready| ==> r[i] == ReadyRow(ready[i], IsAssigned(routes, ready[i].id))
  {
    if ready == [] then [] else [ReadyRow(ready[0], IsAssigned(routes, ready[0].id))] + AssignedFlags(routes, ready[1..])
  }

  /** `displayReadyPackages`: the ready orders with their "assigned" flag, or the "none ready" row. */
  function ReadyPackages(routes: seq<Route>, orders: seq<Order>): Table<ReadyRow>
  {
    Tabulate(AssignedFlags(routes, Filter(orders, IsReady())), NoReadyText)
  }

  datatype Screen = Screen(routes: seq<Route>, messages: seq<Message>)

  function PartlyValid(count: nat): Message
  {
    Message("Warning: Some package IDs were invalid. Assigned " + NatToString(count) + " packages.", "error")
  }

  function Assigned(id: string): Message
  {
    Message("Route assigned successfully! Route ID: " + id, "success")
  }

  /**
   * The route form's handler: the trimmed pieces that name a stored order
   * are kept; none is an error; otherwise an Active route with those ids is
   * appended, after a warning when some piece was dropped.
   */
  function Submitted(sc: Screen, packageIdsText: string, driverId: string, routeDate: string, estimatedTime: string,
                     orders: seq<Order>, randomText: string, now: string): Screen
  {
    var packageIds := PackageIdsOf(packageIdsText);
    var valid := Filter(packageIds, IsOrderOf(orders));
    if |valid| == 0 then sc.(messages := sc.messages + [NoValidIds])
    else
      var warnings := if |valid| != |packageIds| then [PartlyValid(|valid|)] else [];
      var route := Route(RandomId("RTE-", randomText), driverId, DriverName(driverId), routeDate, valid, |valid|,
                         estimatedTime, "Active", now);
      Screen(sc.routes + [route], sc.messages + warnings + [Assigned(route.id)])
  }

  /** `completeRoute`, confirmed: the first route with the id is marked Completed; an unknown id does nothing. */
  function Completed(sc: Screen, routeId: string): Screen
  {
    var i := FirstIndex(sc.routes, RouteIdIs(routeId));
    if i < 0 then sc
    else Screen(sc.routes[i := sc.routes[i].(status := "Completed")], sc.messages + [RouteCompleted])
  }

  /** `deleteRoute`, confirmed: every route with the id is removed. */
  function Deleted(sc: Screen, routeId: string): Screen
  {
    Screen(Filter(sc.routes, RouteIdIsNot(routeId)), sc.messages + [RouteDeleted])
  }

  // ---------------------------------------------------------------------------
  // Properties

  /** Completing marks only the first route with that id; the others, and their order, stay. */
  lemma CompleteMarksFirstOnly(sc: Screen, routeId: string, i: nat)
    requires i < |sc.routes| && sc.routes[i].id == routeId
    requires forall j :: 0 <= j < i ==> sc.routes[j].id != routeId
    ensures var r := Completed(sc, routeId);
      |r.routes| == |sc.routes| && r.routes[i] == sc.routes[i].(status := "Completed")
      && (forall j :: 0 <= j < |sc.routes| && j != i ==> r.routes[j] == sc.routes[j])
      && r.messages == sc.messages + [RouteCompleted]
  {
    assert RouteIdIs(routeId)(sc.routes[i]);
    assert FirstIndex(sc.routes, RouteIdIs(routeId)) == i;
  }

  /** Completing an id no route has changes nothing, not even the messages. */
  lemma CompleteUnknownDoesNothing(sc: Screen, routeId: string)
    requires forall j :: 0 <= j < |sc.routes| ==> sc.routes[j].id != routeId
    ensures Completed(sc, routeId) == sc
  {
    assert forall j :: 0 <= j < |sc.routes| ==> !RouteIdIs(routeId)(sc.routes[j]);
  }

  /** Deleting leaves no route with the id and keeps every other route. */
  lemma DeleteRemovesEveryRoute(sc: Screen, routeId: string)
    ensures var r := Deleted(sc, routeId).routes;
      (forall j :: 0 <= j < |r| ==> r[j].id != routeId && r[j] in sc.routes)
      && (forall j :: 0 <= j < |sc.routes| && sc.routes[j].id != routeId ==> sc.routes[j] in r)
  {
    assert forall j :: 0 <= j < |sc.routes| && sc.routes[j].id != routeId ==> RouteIdIsNot(routeId)(sc.routes[j]);
  }

  /** Without a piece naming a stored order no route is added, and the only message is the error. */
  lemma NoValidIdAddsNoRoute(sc: Screen, packageIdsText: string, driverId: string, routeDate: string,
                             estimatedTime: string, orders: seq<Order>, randomText: string, now: string)
    requires forall i, j :: 0 <= i < |orders| && 0 <= j < |PackageIdsOf(packageIdsText)| ==>
               orders[i].id != PackageIdsOf(packageIdsText)[j]
    ensures Submitted(sc, packageIdsText, driverId, routeDate, estimatedTime, orders, randomText, now)
            == sc.(messages := sc.messages + [NoValidIds])
  {
    var ids := PackageIdsOf(packageIdsText);
    assert forall j :: 0 <= j < |ids| ==> !IsOrderOf(orders)(ids[j]);
    FilterAllOrNone(ids, IsOrderOf(orders));
  }

  /**
   * A new route is Active, counts its ids, and lists exactly the trimmed
   * pieces of the text that name a stored order; the earlier routes stay.
   */
  lemma NewRouteListsValidIds(sc: Screen, packageIdsText: string, driverId: string, routeDate: string,
                              estimatedTime: string, orders: seq<Order>, randomText: string, now: string)
    requires Filter(PackageIdsOf(packageIdsText), IsOrderOf(orders)) != []
    ensures var r := Submitted(sc, packageIdsText, driverId, routeDate, estimatedTime, orders, randomText, now);
      var route := r.routes[|r.routes| - 1];
      var ids := PackageIdsOf(packageIdsText);
      |r.routes| == |sc.routes| + 1 && r.routes[..|sc.routes|] == sc.routes
      && route.status == "Active" && route.packageCount == |route.packageIds|
      && (forall id :: id in route.packageIds ==> id in ids && exists i :: 0 <= i < |orders| && orders[i].id == id)
      && (forall j, i :: 0 <= j < |ids| && 0 <= i < |orders| && orders[i].id == ids[j] ==> ids[j] in route.packageIds)
  {
    var ids := PackageIdsOf(packageIdsText);
    var valid := Filter(ids, IsOrderOf(orders));
    var r := Submitted(sc, packageIdsText, driverId, routeDate, estimatedTime, orders, randomText, now);
    assert r.routes[..|sc.routes|] == sc.routes;
    forall id | id in valid ensures id in ids && exists i :: 0 <= i < |orders| && orders[i].id == id {
      var k :| 0 <= k < |valid| && valid[k] == id;
      assert IsOrderOf(orders)(valid[k]);
    }
    forall j, i | 0 <= j < |ids| && 0 <= i < |orders| && orders[i].id == ids[j] ensures ids[j] in valid {
      assert IsOrderOf(orders)(ids[j]);
    }
  }

  /** After a route is added, every ready order it lists shows as assigned. */
  lemma NewRouteAssignsItsPackages(sc: Screen, packageIdsText: string, driverId: string, routeDate: string,
                                   estimatedTime: string, orders: seq<Order>, randomText: string, now: string,
                                   id: string)
    requires id in Filter(PackageIdsOf(packageIdsText), IsOrderOf(orders))
    ensures IsAssigned(Submitted(sc, packageIdsText, driverId, routeDate, estimatedTime, orders, randomText, now).routes,
                       id)
  {
    var r := Submitted(sc, packageIdsText, driverId, routeDate, estimatedTime, orders, randomText, now);
    assert id in r.routes[|r.routes| - 1].packageIds;
  }

  /**
   * Once the routes listing an id are deleted or completed, it shows as
   * unassigned unless another Active route lists it.
   */
  lemma DeletedRouteReleases(sc: Screen, routeId: string, id: string)
    requires forall j :: 0 <= j < |sc.routes| && id in sc.routes[j].packageIds && sc.routes[j].status == "Active" ==>
               sc.routes[j].id == routeId
    ensures !IsAssigned(Deleted(sc, routeId).routes, id)
  {
  }

  // ---------------------------------------------------------------------------
  // The screen

  class RoutingScreen {
    var routes: seq<Route>
    var messages: seq<Message>

    function State(): Screen
      reads this
    {
      Screen(routes, messages)
    }

    /** The stored routes, or none when storage holds no list. */
    constructor(stored: Option<seq<Route>>)
      ensures State() == Screen(stored.GetOr([]), [])
    {
      routes := stored.GetOr([]);
      messages := [];
    }

    /** `displayRoutes`: one row per route, or the "no routes" row. */
    function Displayed(): (r: Table<Route>)
      reads this
      ensures r.NoData? <==> routes == []
      ensures r.Rows? ==> r.items == routes
    {
      Tabulate(routes, NoRoutesText)
    }

    method CompleteRoute(routeId: string, confirmed: bool)
      modifies this
      ensures State() == if confirmed then Completed(old(State()), routeId) else old(State())
    {
      if confirmed {
        var routeIndex := FirstIndex(routes, RouteIdIs(routeId));
        if routeIndex != -1 {
          routes := routes[routeIndex := routes[routeIndex].(status := "Completed")];
          messages := messages + [RouteCompleted];
        }
      }
    }

    method DeleteRoute(routeId: string, confirmed: bool)
      modifies this
      ensures State() == if confirmed then Deleted(old(State()), routeId) else old(State())
    {
      if confirmed {
        routes := Filter(routes, RouteIdIsNot(routeId));
        messages := messages + [RouteDeleted];
      }
    }

    /** The route form's submit handler, with the stored orders read afresh. */
    method SubmitRoute(packageIdsText: string, driverId: string, routeDate: string, estimatedTime: string,
                       orders: seq<Order>, randomText: string, now: string)
      modifies this
      ensures State() == Submitted(old(State()), packageIdsText, driverId, routeDate, estimatedTime, orders, randomText,
                                   now)
    {
      var packageIds := PackageIdsOf(packageIdsText);
      var validPackages := Filter(packageIds, IsOrderOf(orders));
      if |validPackages| == 0 {
        messages := messages + [NoValidIds];
        return;
      }
      if |validPackages| != |packageIds| {
        messages := messages + [PartlyValid(|validPackages|)];
      }
      var newRoute := Route(RandomId("RTE-", randomText), driverId, DriverName(driverId), routeDate, validPackages,
                            |validPackages|, estimatedTime, "Active", now);
      routes := routes + [newRoute];
      messages := messages + [Assigned(newRoute.id)];
    }
  }
}
