/** The dashboard overview of components/dashboard/overview.tsx: the four
    stat cards, the recent-order table and its status badges, all derived
    from the first hundred orders. The charts draw a constant data set and
    are not part of this model. */
module Overview {
  import opened Wrappers
  import opened Strings
  import opened Seqs
  import opened Records
  import opened Types
  import Orders

  /** The listing the overview asks for: the first page of a hundred orders. */
  function OverviewQuery(): (r: Fields)
    ensures Keys(r) == ["page", "limit"]
    ensures Lookup(r, "page") == Some("1") && Lookup(r, "limit") == Some("100")
  {
    assert NatToString(10) == NatToString(1) + [DigitChar(0)] == "10";
    assert NatToString(100) == NatToString(10) + [DigitChar(0)] == "100";
    assert NatToString(1) == "1";
    Orders.ListParams(1, 100, None)
  }

  /** An order's amount, as `reduce` adds it. */
  function Amount(o: Order): int {
    o.totalAmount
  }

  /** `totalRevenue`: the sum of every loaded order's `totalAmount`. */
  function TotalRevenue(orders: seq<Order>): (r: int)
    ensures orders == [] ==> r == 0
    ensures |orders| == 1 ==> r == orders[0].totalAmount
  {
    assert |orders| == 1 ==> Sum(orders, Amount) == Sum(orders[..0], Amount) + Amount(orders[0]);
    assert |orders| == 1 ==> orders[..0] == [];
    Sum(orders, Amount)
  }

  /** The revenue of two batches of orders is the sum of their revenues. */
  lemma TotalRevenueAppend(a: seq<Order>, b: seq<Order>)
    ensures TotalRevenue(a + b) == TotalRevenue(a) + TotalRevenue(b)
  {
    SumAppend(a, b, Amount);
  }

  /** With no negative amounts the revenue is never negative. */
  lemma TotalRevenueNonNegative(orders: seq<Order>)
    requires forall i :: 0 <= i < |orders| ==> orders[i].totalAmount >= 0
    ensures TotalRevenue(orders) >= 0
  {
    SumNonNegative(orders, Amount);
  }

  /** The `o.status === "Delivered"` test. */
  predicate IsDelivered(o: Order) {
    StatusName(o.status) == "Delivered"
  }

  /** `deliveredCount`: how many loaded orders are delivered. */
  function DeliveredCount(orders: seq<Order>): (r: nat)
    ensures r <= |orders|
  {
    |Filter(orders, IsDelivered)|
  }

  /** Every order counted is delivered, and the count reaches the number of
      orders exactly when every order is delivered. */
  lemma DeliveredCountFull(orders: seq<Order>)
    ensures DeliveredCount(orders) == |orders| <==>
      forall i :: 0 <= i < |orders| ==> orders[i].status == Delivered
  {
    FilterFullIff(orders, IsDelivered);
    forall o: Order ensures IsDelivered(o) <==> o.status == Delivered {
      if IsDelivered(o) {
        StatusNameInjective(o.status, Delivered);
      }
    }
  }

  /** A stat card's value: a count, or the revenue text. */
  datatype StatValue = Count(n: int) | Money(text: string)

  /** One stat card. */
  datatype Stat = Stat(caption: string, value: StatValue)

  /** The four stat cards, in order. */
  function Stats(orders: seq<Order>): (r: seq<Stat>)
    ensures |r| == 4
    ensures r[0] == Stat("Total Orders", Count(|orders|))
    ensures r[1] == Stat("Total Delivered", Count(DeliveredCount(orders)))
    ensures r[2] == Stat("Total Revenue", Money("$" + IntToString(TotalRevenue(orders))))
    ensures r[3] == r[0]
  {
    [ Stat("Total Orders", Count(|orders|)),
      Stat("Total Delivered", Count(DeliveredCount(orders))),
      Stat("Total Revenue", Money("$" + IntToString(TotalRevenue(orders)))),
      Stat("Total Orders", Count(|orders|)) ]
  }

  /** The delivered card never shows more than the order cards. */
  lemma DeliveredAtMostOrders(orders: seq<Order>)
    ensures Stats(orders)[1].value.n <= Stats(orders)[0].value.n
  {
  }

  /** While nothing is loaded every card reads zero. */
  lemma NoDataAllZero()
    ensures Stats(Orders.OrdersOf(None)) == [
      Stat("Total Orders", Count(0)), Stat("Total Delivered", Count(0)),
      Stat("Total Revenue", Money("$0")), Stat("Total Orders", Count(0)) ]
  {
    assert Orders.OrdersOf(None) == [];
    assert DeliveredCount([]) == 0 && TotalRevenue([]) == 0;
    assert IntToString(0) == NatToString(0) == "0";
    var st := Stats([]);
    assert st[0] == Stat("Total Orders", Count(0)) && st[3] == st[0];
    assert st[1] == Stat("Total Delivered", Count(0));
    assert st[2] == Stat("Total Revenue", Money("$" + "0"));
    assert "$" + "0" == "$0";
  }

  /** `orders.slice(0, 10)`: the recent-order rows. */
  function RecentOrders(orders: seq<Order>): (r: seq<Order>)
    ensures |r| == if |orders| < 10 then |orders| else 10
    ensures r == orders[..|r|]
  {
    if |orders| < 10 then orders else orders[..10]
  }

  /** The recent table holds every order when there are ten or fewer, and
      never an order that was not loaded. */
  lemma RecentOrdersLoaded(orders: seq<Order>)
    ensures |orders| <= 10 ==> RecentOrders(orders) == orders
    ensures forall i :: 0 <= i < |RecentOrders(orders)| ==> RecentOrders(orders)[i] == orders[i]
  {
  }

  /** The status badge classes of a recent order. */
  function Badge(status: OrderStatus): (r: string)
    ensures status == Delivered ==> r == "bg-green-100 text-green-800"
    ensures status == Pending ==> r == "bg-yellow-100 text-yellow-800"
    ensures status != Delivered && status != Pending ==> r == "bg-gray-100 text-gray-800"
  {
    if StatusName(status) == "Delivered" then "bg-green-100 text-green-800"
    else if StatusName(status) == "Pending" then "bg-yellow-100 text-yellow-800"
    else "bg-gray-100 text-gray-800"
  }

  /** Processing and Cancelled orders share the gray badge. */
  lemma GrayBadgeShared()
    ensures Badge(Processing) == Badge(Cancelled)
    ensures Badge(Delivered) != Badge(Pending)
  {
  }
}
