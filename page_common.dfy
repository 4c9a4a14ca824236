// What the single-page screens share (frontend/js/*.js): the orders kept in
// the browser's local storage under "orders", the transient message banner,
// the table that shows a "no data" row when its list is empty, the random
// identifiers, and the array searches they are built from.
module PageCommon {
  import opened Wrappers
  import opened JavaStrings

  /** An order as the order form stores it; the status page adds `lastUpdated`. */
  datatype Order = Order(id: string, customerName: string, customerEmail: string, pickupAddress: string,
                         deliveryAddress: string, packageDetails: string, status: string, location: string,
                         estimatedDelivery: string, createdAt: string, lastUpdated: Option<string>)

  /** `showMessage(text, type)`: a banner with a text and a kind ("success" or "error"). */
  datatype Message = Message(text: string, kind: string)

  /**
   * What `fetch` followed by `response.json()` gives a page: a rejection with
   * its message (no connection), or the status with the parsed body or the
   * parser's exception.
   */
  datatype Reply<B> = Rejected(message: string) | Replied(status: nat, body: Outcome<B>)

  /** `response.ok`. */
  predicate IsOk(status: nat) { 200 <= status <= 299 }

  /** The `{ success, ... }` objects the page helpers return. */
  datatype Answer<T> = Succeeded(value: T) | Failed(error: string)

  /** JavaScript `text || fallback` on a text that may be missing: a missing or empty text gives the fallback. */
  function OrDefault(text: Option<string>, fallback: string): string
  {
    if text.Some? && text.value != [] then text.value else fallback
  }

  /**
   * The POST helpers (`assignRoutes`, `createTransfer`, `updateDeliveryStatus`): the body is parsed before the status is
   * looked at, so a body that is not JSON fails with the parser's message.
   */
  function PostReply(reply: Reply<Option<string>>, fallback: string): (r: Answer<()>)
    ensures r.Succeeded? <==> reply.Replied? && reply.body.Returned? && IsOk(reply.status)
    ensures reply.Replied? && reply.body.Returned? && !IsOk(reply.status) ==>
              r == Failed(OrDefault(reply.body.value, fallback))
    ensures reply.Replied? && reply.body.Threw? ==> r == Failed(reply.body.exception)
  {
    match reply
    case Rejected(message) => Failed(message)
    case Replied(status, body) =>
      match body
      case Threw(message) => Failed(message)
      case Returned(error) => if IsOk(status) then Succeeded(()) else Failed(OrDefault(error, fallback))
  }

  /** A table body: one "no data" row with its text, or one row per item. */
  datatype Table<T> = NoData(text: string) | Rows(items: seq<T>)

  /** `Array.prototype.findIndex`: the first index whose element satisfies `p`, or -1. */
  function FirstIndex<T>(xs: seq<T>, p: T -> bool): (r: int)
    ensures -1 <= r < |xs|
    ensures r >= 0 ==> p(xs[r]) && forall j :: 0 <= j < r ==> !p(xs[j])
    ensures r < 0 <==> forall j :: 0 <= j < |xs| ==> !p(xs[j])
    decreases |xs|
  {
    if xs == [] then -1
    else if p(xs[0]) then 0
    else
      var k := FirstIndex(xs[1..], p);
      if k < 0 then -1 else k + 1
  }

  /** `Array.prototype.filter`: the elements satisfying `p`, in their order. */
  function Filter<T>(xs: seq<T>, p: T -> bool): (r: seq<T>)
    ensures |r| <= |xs|
    ensures forall i :: 0 <= i < |r| ==> p(r[i]) && r[i] in xs
    ensures forall i :: 0 <= i < |xs| && p(xs[i]) ==> xs[i] in r
    decreases |xs|
  {
    if xs == [] then []
    else if p(xs[|xs| - 1]) then Filter(xs[..|xs| - 1], p) + [xs[|xs| - 1]]
    else Filter(xs[..|xs| - 1], p)
  }

  /** Filtering keeps everything when every element passes, and nothing when none does. */
  lemma {:induction false} FilterAllOrNone<T>(xs: seq<T>, p: T -> bool)
    ensures (forall i :: 0 <= i < |xs| ==> p(xs[i])) ==> Filter(xs, p) == xs
    ensures (forall i :: 0 <= i < |xs| ==> !p(xs[i])) ==> Filter(xs, p) == []
    decreases |xs|
  {
    if xs != [] {
      FilterAllOrNone(xs[..|xs| - 1], p);
    }
  }

  /** Filtering a list with one more element at the end. */
  lemma FilterSnoc<T>(xs: seq<T>, x: T, p: T -> bool)
    ensures Filter(xs + [x], p) == if p(x) then Filter(xs, p) + [x] else Filter(xs, p)
  {
    assert (xs + [x])[..|xs + [x]| - 1] == xs;
  }

  /** `Array.prototype.some`. */
  predicate Exists<T>(xs: seq<T>, p: T -> bool)
  {
    exists i :: 0 <= i < |xs| && p(xs[i])
  }

  /** The table for a list: the "no data" row exactly when the list is empty. */
  function Tabulate<T>(items: seq<T>, noData: string): (r: Table<T>)
    ensures r.NoData? <==> items == []
    ensures r.NoData? ==> r.text == noData
    ensures r.Rows? ==> r.items == items
  {
    if items == [] then NoData(noData) else Rows(items)
  }

  /**
   * `prefix + Math.random().toString(36).substr(2, 9).toUpperCase()`, given
   * the base-36 text of the random number: the prefix, then at most nine
   * characters of its fraction digits, none of them a lower-case letter.
   */
  function RandomId(prefix: string, randomText: string): (r: string)
    ensures |prefix| <= |r| <= |prefix| + 9 && r[..|prefix|] == prefix
    ensures forall i :: |prefix| <= i < |r| ==> !IsLower(r[i])
  {
    var suffix := ToUpper(JsSubstr(randomText, 2, 9));
    assert (prefix + suffix)[..|prefix|] == prefix;
    prefix + suffix
  }
}
