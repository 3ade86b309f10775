/**
  The orders chart: orders are tallied per creation day into a key-to-count
  table (keys kept in first-insertion order, as a JavaScript object keeps
  string keys), and the table's entries are then sorted ascending by day.
 */
module OrdersGraph {
  import opened Options
  import opened Dashboard

  /** One chart bar: a day and the number of orders created on it. */
  datatype Bar = Bar(date: Day, orders: nat)

  // ---------------------------------------------------------------- reference definitions

  /** How many orders were created on day `d`. */
  function CountOn(orders: seq<Order>, d: Day): nat {
    if |orders| == 0 then 0
    else (if orders[0].createdDay == d then 1 else 0) + CountOn(orders[1..], d)
  }

  /** The days on which at least one order was created. */
  function DaysOf(orders: seq<Order>): set<Day> {
    if |orders| == 0 then {} else {orders[0].createdDay} + DaysOf(orders[1..])
  }

  function DatesIn(bars: seq<Bar>): set<Day> {
    if |bars| == 0 then {} else {bars[0].date} + DatesIn(bars[1..])
  }

  /** Sum of the bar heights. */
  function Total(bars: seq<Bar>): nat {
    if |bars| == 0 then 0 else bars[0].orders + Total(bars[1..])
  }

  /** No day appears on two bars. */
  predicate DistinctDates(bars: seq<Bar>) {
    |bars| == 0 || (bars[0].date !in DatesIn(bars[1..]) && DistinctDates(bars[1..]))
  }

  predicate StrictlyAscending(bars: seq<Bar>) {
    forall i, j :: 0 <= i < j < |bars| ==> bars[i].date < bars[j].date
  }

  predicate Positive(bars: seq<Bar>) {
    forall b :: b in bars ==> b.orders >= 1
  }

  // ---------------------------------------------------------------- grouping

  /** The table read `acc[date] || 0`: the count stored for a day, 0 when the day is no key. */
  function Lookup(acc: seq<Bar>, d: Day): (r: nat)
    ensures d !in DatesIn(acc) ==> r == 0
    ensures Positive(acc) && d in DatesIn(acc) ==> r >= 1
  {
    if |acc| == 0 then 0
    else if acc[0].date == d then acc[0].orders
    else Lookup(acc[1..], d)
  }

  /** The table write `acc[date] = (acc[date] || 0) + 1`: an existing key is bumped in place, a new key is appended. */
  function Bump(acc: seq<Bar>, d: Day): (r: seq<Bar>)
    requires DistinctDates(acc)
    ensures DistinctDates(r)
    ensures DatesIn(r) == DatesIn(acc) + {d}
    ensures forall e :: Lookup(r, e) == Lookup(acc, e) + (if e == d then 1 else 0)
    ensures Total(r) == Total(acc) + 1
    ensures Positive(acc) ==> Positive(r)
  {
    if |acc| == 0 then [Bar(d, 1)]
    else if acc[0].date == d then [Bar(d, acc[0].orders + 1)] + acc[1..]
    else [acc[0]] + Bump(acc[1..], d)
  }

  /** The grouping `reduce`: a left fold of Bump over the orders' creation days. */
  function Tally(acc: seq<Bar>, orders: seq<Order>): (r: seq<Bar>)
    requires DistinctDates(acc)
    ensures DistinctDates(r)
    ensures DatesIn(r) == DatesIn(acc) + DaysOf(orders)
    ensures forall e :: Lookup(r, e) == Lookup(acc, e) + CountOn(orders, e)
    ensures Total(r) == Total(acc) + |orders|
    ensures Positive(acc) ==> Positive(r)
    decreases |orders|
  {
    if |orders| == 0 then acc else Tally(Bump(acc, orders[0].createdDay), orders[1..])
  }

  /** The per-day table, before sorting. */
  function OrdersByDate(orders: seq<Order>): (r: seq<Bar>)
    ensures DistinctDates(r)
    ensures DatesIn(r) == DaysOf(orders)
    ensures forall e :: Lookup(r, e) == CountOn(orders, e)
    ensures Total(r) == |orders|
    ensures Positive(r)
  {
    Tally([], orders)
  }

  // ---------------------------------------------------------------- sorting

  /** Places a bar for a new day into an ascending sequence of bars. */
  function Insert(b: Bar, s: seq<Bar>): (r: seq<Bar>)
    requires StrictlyAscending(s)
    requires b.date !in DatesIn(s)
    ensures StrictlyAscending(r)
    ensures DatesIn(r) == DatesIn(s) + {b.date}
    ensures forall x :: x in r <==> x == b || x in s
    ensures Total(r) == Total(s) + b.orders
    ensures |r| == |s| + 1
  {
    if |s| == 0 || b.date < s[0].date then [b] + s
    else [s[0]] + Insert(b, s[1..])
  }

  /** The sort by day: an insertion sort, which for distinct days yields the one ascending order. */
  function SortByDate(s: seq<Bar>): (r: seq<Bar>)
    requires DistinctDates(s)
    ensures StrictlyAscending(r)
    ensures DatesIn(r) == DatesIn(s)
    ensures forall x :: x in r <==> x in s
    ensures Total(r) == Total(s)
    ensures |r| == |s|
  {
    if |s| == 0 then [] else Insert(s[0], SortByDate(s[1..]))
  }

  /**
    The chart data: one bar per distinct creation day, in strictly ascending
    day order, each bar as tall as the number of orders created that day (so
    at least 1), the heights summing to the number of orders.
   */
  function Histogram(orders: seq<Order>): (h: seq<Bar>)
    ensures StrictlyAscending(h)
    ensures DatesIn(h) == DaysOf(orders)
    ensures |h| == |DaysOf(orders)|
    ensures forall b :: b in h ==> b.orders == CountOn(orders, b.date) && b.orders >= 1
    ensures Total(h) == |orders|
  {
    var table := OrdersByDate(orders);
    DistinctCardinality(table);
    forall b | b in table
      ensures b.orders == CountOn(orders, b.date)
    {
      LookupMember(table, b);
    }
    SortByDate(table)
  }

  // ---------------------------------------------------------------- lemmas

  /** In a table with distinct keys, reading a bar's day gives that bar's count. */
  lemma {:induction false} LookupMember(bars: seq<Bar>, b: Bar)
    requires DistinctDates(bars) && b in bars
    ensures Lookup(bars, b.date) == b.orders
    decreases |bars|
  {
    if bars[0] != b {
      assert b in bars[1..];
      DatesInMember(bars[1..], b);
      LookupMember(bars[1..], b);
    }
  }

  lemma {:induction false} DatesInMember(bars: seq<Bar>, b: Bar)
    requires b in bars
    ensures b.date in DatesIn(bars)
    decreases |bars|
  {
    if bars[0] != b {
      assert b in bars[1..];
      DatesInMember(bars[1..], b);
    }
  }

  /** With distinct days, there are exactly as many days as bars. */
  lemma {:induction false} DistinctCardinality(bars: seq<Bar>)
    requires DistinctDates(bars)
    ensures |DatesIn(bars)| == |bars|
    decreases |bars|
  {
    if |bars| > 0 {
      DistinctCardinality(bars[1..]);
    }
  }

  /** A day is in the chart exactly when some order was created on it, and then its bar is at least 1 high. */
  lemma {:induction false} CountOnPositive(orders: seq<Order>, d: Day)
    ensures CountOn(orders, d) >= 1 <==> d in DaysOf(orders)
    decreases |orders|
  {
    if |orders| > 0 {
      CountOnPositive(orders[1..], d);
    }
  }

  function At(id: string, day: Day): Order {
    Order(id, "", "", "", None, [], day)
  }

  /** Two orders on the same day share one bar of height 2; bars come out in day order. */
  lemma HistogramExample()
    ensures Histogram([At("a", 5), At("b", 5)]) == [Bar(5, 2)]
    ensures Histogram([At("a", 9), At("b", 3), At("c", 9)]) == [Bar(3, 1), Bar(9, 2)]
  {
  }
}
