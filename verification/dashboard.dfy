/**
  The orders dashboard's state logic: the order records as fetched, the two
  summary figures, and the delete flow's effect on the list.
 */
module Dashboard {
  import opened Options

  /** Calendar day an order was created on, as an ordered key. */
  type Day = int

  /** Prices are whole cents. */
  type Cents = int

  datatype CartItem = CartItem(key: string, title: string, quantity: int, price: Option<Cents>, image: string)

  datatype Order = Order(
    id: string,
    name: string,
    email: string,
    phone: string,
    totalPrice: Option<Cents>,
    cartItems: seq<CartItem>,
    createdDay: Day
  )

  // ---------------------------------------------------------------- totals

  /**
    The amount an order adds to revenue: `totalPrice || 0`. A missing price
    and a price of 0 are the two falsy cases, and both give 0.
   */
  function Price(o: Order): (r: Cents)
    ensures r == 0 <==> o.totalPrice == None || o.totalPrice == Some(0)
    ensures o.totalPrice.Some? ==> r == o.totalPrice.value
  {
    o.totalPrice.GetOr(0)
  }

  /** Reference sum of the orders' prices. */
  function SumPrices(orders: seq<Order>): Cents {
    if |orders| == 0 then 0 else Price(orders[0]) + SumPrices(orders[1..])
  }

  /** The revenue `reduce`: a left fold that adds each order's price to the accumulator. */
  function Revenue(acc: Cents, orders: seq<Order>): (r: Cents)
    ensures r == acc + SumPrices(orders)
    decreases |orders|
  {
    if |orders| == 0 then acc else Revenue(acc + Price(orders[0]), orders[1..])
  }

  lemma {:induction false} SumPricesAppend(a: seq<Order>, b: seq<Order>)
    ensures SumPrices(a + b) == SumPrices(a) + SumPrices(b)
    decreases |a|
  {
    if |a| > 0 {
      assert (a + b)[1..] == a[1..] + b;
      SumPricesAppend(a[1..], b);
    } else {
      assert a + b == b;
    }
  }

  datatype Totals = Totals(totalOrders: nat, totalRevenue: Cents)

  /** The two summary cards. */
  function Summarize(orders: seq<Order>): (t: Totals)
    ensures t.totalOrders == |orders|
    ensures t.totalRevenue == SumPrices(orders)
  {
    Totals(|orders|, Revenue(0, orders))
  }

  /** Revenue over no orders is zero, and revenue is additive over concatenation. */
  lemma RevenueAdditive(a: seq<Order>, b: seq<Order>)
    ensures Summarize([]).totalRevenue == 0
    ensures Summarize(a + b).totalRevenue == Summarize(a).totalRevenue + Summarize(b).totalRevenue
    ensures Summarize(a + b).totalOrders == Summarize(a).totalOrders + Summarize(b).totalOrders
  {
    SumPricesAppend(a, b);
  }

  /** A missing price adds nothing: it counts exactly as a price of zero. */
  lemma {:induction false} MissingPriceIsZero(orders: seq<Order>, i: nat)
    requires i < |orders| && orders[i].totalPrice == None
    ensures SumPrices(orders[i := orders[i].(totalPrice := Some(0))]) == SumPrices(orders)
    decreases |orders|
  {
    var changed := orders[i := orders[i].(totalPrice := Some(0))];
    if i > 0 {
      assert changed[1..] == orders[1..][i - 1 := orders[i].(totalPrice := Some(0))];
      MissingPriceIsZero(orders[1..], i - 1);
    } else {
      assert changed[1..] == orders[1..];
    }
  }

  function Sample(id: string, price: Option<Cents>): Order {
    Order(id, "", "", "", price, [], 0)
  }

  /** Worked examples: 10.50 + 5.00 and 20.00 + 30.00, in cents. */
  lemma TotalsExamples()
    ensures Summarize([Sample("a", Some(1050)), Sample("b", Some(500))]).totalRevenue == 1550
    ensures Summarize([Sample("a", Some(2000)), Sample("b", Some(3000))]) == Totals(2, 5000)
    ensures Summarize([Sample("a", None), Sample("b", Some(500))]).totalRevenue == 500
  {
  }

  // ---------------------------------------------------------------- delete

  /** How many orders carry this id. */
  function CountId(orders: seq<Order>, id: string): nat {
    if |orders| == 0 then 0
    else (if orders[0].id == id then 1 else 0) + CountId(orders[1..], id)
  }

  /** The list after a successful delete: `orders.filter(o => o._id !== id)`. */
  function RemoveId(orders: seq<Order>, id: string): (r: seq<Order>)
    ensures |r| == |orders| - CountId(orders, id)
    ensures forall o :: o in r ==> o in orders && o.id != id
    ensures forall o :: o in orders && o.id != id ==> o in r
  {
    if |orders| == 0 then []
    else if orders[0].id == id then RemoveId(orders[1..], id)
    else [orders[0]] + RemoveId(orders[1..], id)
  }

  /** Filtering distributes over concatenation; with the single-order case this pins it down as "keep the others, in order". */
  lemma {:induction false} RemoveIdAppend(a: seq<Order>, b: seq<Order>, id: string)
    ensures RemoveId(a + b, id) == RemoveId(a, id) + RemoveId(b, id)
    decreases |a|
  {
    if |a| > 0 {
      assert (a + b)[1..] == a[1..] + b;
      RemoveIdAppend(a[1..], b, id);
    } else {
      assert a + b == b;
    }
  }

  lemma RemoveIdSingle(o: Order, id: string)
    ensures RemoveId([o], id) == if o.id == id then [] else [o]
  {
  }

  /** Filtering for an id no order carries changes nothing. */
  lemma {:induction false} RemoveIdAbsent(orders: seq<Order>, id: string)
    requires forall o :: o in orders ==> o.id != id
    ensures RemoveId(orders, id) == orders
    decreases |orders|
  {
    if |orders| > 0 {
      assert orders[0] in orders;
      assert forall o :: o in orders[1..] ==> o in orders;
      RemoveIdAbsent(orders[1..], id);
      assert orders == [orders[0]] + orders[1..];
    }
  }

  /** Deleting the same id twice leaves the list as deleting it once. */
  lemma RemoveIdIdempotent(orders: seq<Order>, id: string)
    ensures RemoveId(RemoveId(orders, id), id) == RemoveId(orders, id)
  {
    RemoveIdAbsent(RemoveId(orders, id), id);
  }

  /** The outcome of the delete request, as observed by the page. */
  datatype Response = Ok | NotOk | Threw

  /** The page's state after the delete handler ran. */
  datatype DeleteStep = DeleteStep(
    orders: seq<Order>,
    /** the id posted to the delete endpoint, if a request was issued */
    requested: Option<string>,
    /** the alert shown to the user, if any */
    alert: Option<string>
  )

  const FailedAlert := "Failed to delete order"
  const ErrorAlert := "Error deleting order"

  /**
    The delete handler: stop unless confirmed; otherwise post the id and, on an
    ok response, drop every order with that id; on a bad response or a thrown
    request keep the list and alert.
   */
  function HandleDelete(orders: seq<Order>, id: string, confirmed: bool, response: Response): (s: DeleteStep)
    ensures !confirmed ==> s == DeleteStep(orders, None, None)
    ensures confirmed ==> s.requested == Some(id)
    ensures s.orders != orders ==> confirmed && response == Ok
    ensures confirmed && response == Ok ==>
      s.alert == None && forall o :: o in s.orders <==> o in orders && o.id != id
    ensures confirmed && response == Ok ==> s.orders == RemoveId(orders, id)
    ensures confirmed && response != Ok ==> s.orders == orders
    ensures confirmed && response == NotOk ==> s.alert == Some(FailedAlert)
    ensures confirmed && response == Threw ==> s.alert == Some(ErrorAlert)
    ensures |s.orders| <= |orders|
  {
    if !confirmed then DeleteStep(orders, None, None)
    else match response
      case Ok => DeleteStep(RemoveId(orders, id), Some(id), None)
      case NotOk => DeleteStep(orders, Some(id), Some(FailedAlert))
      case Threw => DeleteStep(orders, Some(id), Some(ErrorAlert))
  }

  /** A successful delete removes every order with that id and keeps the rest in order; repeating it changes nothing more. */
  lemma SuccessfulDelete(orders: seq<Order>, id: string)
    ensures HandleDelete(orders, id, true, Ok).orders == RemoveId(orders, id)
    ensures var after := HandleDelete(orders, id, true, Ok).orders;
      HandleDelete(after, id, true, Ok).orders == after
  {
    RemoveIdIdempotent(orders, id);
  }

  /** Deleting an id no order carries leaves the list unchanged. */
  lemma DeleteMissingId(orders: seq<Order>, id: string, confirmed: bool, response: Response)
    requires forall o :: o in orders ==> o.id != id
    ensures HandleDelete(orders, id, confirmed, response).orders == orders
  {
    RemoveIdAbsent(orders, id);
  }

  /** After a successful delete the summary drops by the removed orders' count and prices. */
  lemma {:induction false} DeleteTotals(orders: seq<Order>, id: string)
    ensures Summarize(RemoveId(orders, id)).totalOrders == |orders| - CountId(orders, id)
    ensures Summarize(RemoveId(orders, id)).totalRevenue == SumPrices(orders) - SumPricesOfId(orders, id)
    decreases |orders|
  {
    if |orders| > 0 {
      DeleteTotals(orders[1..], id);
      if orders[0].id != id {
        assert ([orders[0]] + RemoveId(orders[1..], id))[1..] == RemoveId(orders[1..], id);
      }
    }
  }

  /** Total price of the orders carrying this id. */
  function SumPricesOfId(orders: seq<Order>, id: string): Cents {
    if |orders| == 0 then 0
    else (if orders[0].id == id then Price(orders[0]) else 0) + SumPricesOfId(orders[1..], id)
  }
}
