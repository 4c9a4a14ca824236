// The order screen (frontend/js/order-management.js): the list of orders,
// new orders appended from the form, deletion by id after confirmation, and
// the messages shown. The clock (milliseconds), the date formats, the random
// id text and the answer to the confirmation dialog are parameters.
module OrderManagementPage {
  import opened Wrappers
  import opened JavaStrings
  import opened PageCommon

  const NoOrdersText: string := "No orders yet. Create an order above."
  const OrderDeleted: Message := Message("Order deleted successfully", "success")
  const ThreeDaysMillis: int := 3 * 24 * 60 * 60 * 1000

  /** `generateTrackingId`: "TRK-" and the upper-cased random suffix. */
  function TrackingId(randomText: string): (r: string)
    ensures 4 <= |r| <= 13 && r[..4] == "TRK-"
    ensures forall i :: 4 <= i < |r| ==> !IsLower(r[i])
  {
    assert |"TRK-"| == 4;
    RandomId("TRK-", randomText)
  }

  /** The form's fields, as typed. */
  datatype OrderForm = OrderForm(customerName: string, customerEmail: string, pickupAddress: string,
                                 deliveryAddress: string, packageDetails: string)

  /** A new order: placed, at the facility, due three days from now. */
  function NewOrder(form: OrderForm, randomText: string, nowMillis: int, localDate: int -> string,
                    isoDate: int -> string): (r: Order)
    ensures r.status == "Order Placed" && r.location == "Facility" && r.lastUpdated.None?
    ensures 4 <= |r.id| && r.id[..4] == "TRK-" && r.estimatedDelivery == localDate(nowMillis + ThreeDaysMillis)
    ensures r.customerName == form.customerName && r.deliveryAddress == form.deliveryAddress
            && r.packageDetails == form.packageDetails
  {
    Order(TrackingId(randomText), form.customerName, form.customerEmail, form.pickupAddress, form.deliveryAddress,
          form.packageDetails, "Order Placed", "Facility", localDate(nowMillis + ThreeDaysMillis), isoDate(nowMillis),
          None)
  }

  function Created(order: Order): Message
  {
    Message("Order created successfully! Tracking ID: " + order.id, "success")
  }

  /** The test `order => order.id !== orderId`. */
  function IdIsNot(orderId: string): Order -> bool
  {
    (o: Order) => o.id != orderId
  }

  /** `orders.filter(order => order.id !== orderId)`. */
  function WithoutId(orders: seq<Order>, orderId: string): seq<Order>
  {
    Filter(orders, IdIsNot(orderId))
  }

  // ---------------------------------------------------------------------------
  // Properties

  /**
   * Deleting removes every order with that id and keeps every other order,
   * in order: the list is the old one with those orders taken out.
   */
  lemma {:induction false} DeleteRemovesEveryMatch(orders: seq<Order>, orderId: string)
    ensures var r := WithoutId(orders, orderId);
      (forall i :: 0 <= i < |r| ==> r[i].id != orderId)
      && (forall o :: o in orders && o.id != orderId ==> o in r)
      && (forall o :: o in r ==> o in orders)
      && |r| == |orders| - Count(orders, orderId)
    decreases |orders|
  {
    if orders != [] {
      var init := orders[..|orders| - 1];
      DeleteRemovesEveryMatch(init, orderId);
      assert orders == init + [orders[|orders| - 1]];
      FilterSnoc(init, orders[|orders| - 1], IdIsNot(orderId));
      forall o | o in orders && o.id != orderId ensures o in WithoutId(orders, orderId) {
        var i :| 0 <= i < |orders| && orders[i] == o;
        assert IdIsNot(orderId)(orders[i]);
      }
    }
  }

  /** The number of orders with a given id. */
  function Count(orders: seq<Order>, orderId: string): nat
  {
    if orders == [] then 0
    else Count(orders[..|orders| - 1], orderId) + if orders[|orders| - 1].id == orderId then 1 else 0
  }

  /** Deleting an id no order has keeps the list as it is. */
  lemma DeleteUnknownKeepsAll(orders: seq<Order>, orderId: string)
    requires forall i :: 0 <= i < |orders| ==> orders[i].id != orderId
    ensures WithoutId(orders, orderId) == orders
  {
    FilterAllOrNone(orders, IdIsNot(orderId));
  }

  // ---------------------------------------------------------------------------
  // The screen

  class OrderScreen {
    var orders: seq<Order>
    var messages: seq<Message>

    /** The stored orders, or none when storage holds no list. */
    constructor(stored: Option<seq<Order>>)
      ensures orders == stored.GetOr([]) && messages == []
    {
      orders := stored.GetOr([]);
      messages := [];
    }

    /** `displayOrders`: one row per order, or the single "no orders" row. */
    function Displayed(): (r: Table<Order>)
      reads this
      ensures r.NoData? <==> orders == []
      ensures r.Rows? ==> r.items == orders
    {
      Tabulate(orders, NoOrdersText)
    }

    /** The form's submit handler: the new order goes at the end. */
    method SubmitOrder(form: OrderForm, randomText: string, nowMillis: int, localDate: int -> string,
                       isoDate: int -> string)
      modifies this
      ensures orders == old(orders) + [NewOrder(form, randomText, nowMillis, localDate, isoDate)]
      ensures messages == old(messages) + [Created(orders[|orders| - 1])]
    {
      var newOrder := NewOrder(form, randomText, nowMillis, localDate, isoDate);
      orders := orders + [newOrder];
      messages := messages + [Created(newOrder)];
    }

    /** `deleteOrder`: only when the user confirms, every order with that id is removed. */
    method DeleteOrder(orderId: string, confirmed: bool)
      modifies this
      ensures confirmed ==> orders == WithoutId(old(orders), orderId) && messages == old(messages) + [OrderDeleted]
      ensures !confirmed ==> orders == old(orders) && messages == old(messages)
    {
      if confirmed {
        orders := Filter(orders, IdIsNot(orderId));
        messages := messages + [OrderDeleted];
      }
    }
  }

  /** Deleting the only id on the list leaves the "no orders" row. */
  lemma DeletingLastIdShowsNoData(orders: seq<Order>, orderId: string)
    requires forall i :: 0 <= i < |orders| ==> orders[i].id == orderId
    ensures Tabulate(WithoutId(orders, orderId), NoOrdersText) == NoData(NoOrdersText)
  {
    FilterAllOrNone(orders, IdIsNot(orderId));
  }
}
