/** The delivered-order list of app/dashboard/delivered-orders/page.tsx:
    the listing query, the status colours, the payment menu's update calls,
    and the pager. */
module DeliveredOrders {
  import opened Wrappers
  import opened Strings
  import opened Records
  import opened Types
  import opened Paging
  import Orders

  /** The listing this page asks for: ten rows of the current page, status "Delivered". */
  function DeliveredQuery(page: int): (r: Fields)
    ensures Lookup(r, "status") == Some("Delivered")
    ensures Lookup(r, "limit") == Some("10") && Lookup(r, "page") == Some(IntToString(page))
  {
    assert NatToString(10) == NatToString(1) + [DigitChar(0)] == "10";
    Orders.ListParams(page, PageSize, Some("Delivered"))
  }

  /** `data?.data?.orders`, or no rows. */
  function Rows(data: Option<OrdersPage>): (r: seq<Order>)
    ensures data.Some? && data.value.orders.Some? ==> r == data.value.orders.value
    ensures data.None? || data.value.orders.None? ==> r == []
  {
    if data.Some? && data.value.orders.Some? then data.value.orders.value else []
  }

  /** `getStatusColor`: the badge classes for a status string. */
  function StatusColor(status: string): (r: string)
    ensures status == "Delivered" ==> r == "text-green-600 bg-green-50"
    ensures status == "Processing" ==> r == "text-blue-600 bg-blue-50"
    ensures status == "Pending" ==> r == "text-yellow-600 bg-yellow-50"
    ensures status == "Cancelled" ==> r == "text-red-600 bg-red-50"
    ensures status !in {"Delivered", "Processing", "Pending", "Cancelled"} ==> r == "text-gray-600 bg-gray-50"
  {
    match status
    case "Delivered" => "text-green-600 bg-green-50"
    case "Processing" => "text-blue-600 bg-blue-50"
    case "Pending" => "text-yellow-600 bg-yellow-50"
    case "Cancelled" => "text-red-600 bg-red-50"
    case _ => "text-gray-600 bg-gray-50"
  }

  /** The four statuses have four different colours, none of them the default. */
  lemma StatusColorsDistinct(s: OrderStatus, t: OrderStatus)
    ensures s != t ==> StatusColor(StatusName(s)) != StatusColor(StatusName(t))
    ensures StatusColor(StatusName(s)) != "text-gray-600 bg-gray-50"
  {
  }

  /** The two entries of the payment menu. */
  datatype PaymentItem = MarkAsPaid | MarkAsPending

  /** The update call an entry issues, as written: `mutate({ id, status })`
      with "Delivered" for "Mark as Paid" and "Pending" for "Mark as
      Pending", and `mutationFn` passes the bare status string as the body. */
  function MenuCall(orderId: string, item: PaymentItem): (r: OrderUpdateCall)
    ensures r.orderId == orderId
    ensures r.body == StringBody(if item.MarkAsPaid? then "Delivered" else "Pending")
  {
    OrderUpdateCall(orderId, StringBody(if item.MarkAsPaid? then StatusName(Delivered) else StatusName(Pending)))
  }

  /** As written, neither entry sends an object, so no call from this menu
      ever carries a `paymentStatus` (or a `status`) field. */
  lemma MenuNeverUpdatesPayment(orderId: string, item: PaymentItem)
    ensures !MenuCall(orderId, item).body.FieldsBody?
    ensures MenuCall(orderId, MarkAsPaid).body != MenuCall(orderId, MarkAsPaid).body.(text := "Paid")
  {
  }

  /** The payment entries as evidently meant, and as the order list sends
      them: an object whose only field is `paymentStatus`. */
  function CorrectedMenuCall(orderId: string, item: PaymentItem): (r: OrderUpdateCall)
    ensures r.orderId == orderId && r.body.FieldsBody?
  {
    Orders.MenuCall(orderId, if item.MarkAsPaid? then Orders.MarkAsPaid else Orders.MarkAsPending)
  }

  /** The corrected entries set `paymentStatus` to "Paid" or "Pending" and
      nothing else. */
  lemma CorrectedMenuSetsPayment(orderId: string, item: PaymentItem)
    ensures var f := CorrectedMenuCall(orderId, item).body.fields;
      Keys(f) == ["paymentStatus"] &&
      Lookup(f, "paymentStatus") == Some(if item.MarkAsPaid? then "Paid" else "Pending")
  {
    Orders.MenuCallFields(orderId, if item.MarkAsPaid? then Orders.MarkAsPaid else Orders.MarkAsPending);
  }

  /** The toast once the update settles. */
  function UpdateToast(outcome: CallOutcome): (r: Toast)
    ensures r.SuccessToast? <==> outcome.Resolved?
    ensures r == SuccessToast("Order status updated successfully") || r == ErrorToast("Failed to update order status")
  {
    if outcome.Resolved? then SuccessToast("Order status updated successfully")
    else ErrorToast("Failed to update order status")
  }

  /** The payment button's label. */
  function PaymentButtonLabel(p: PaymentStatus): (r: string)
    ensures r == "Done" <==> p == Paid
    ensures p != Paid ==> r == "Hold"
  {
    if PaymentName(p) == "Paid" then "Done" else "Hold"
  }

  /** `data?.data?.total || 0`. */
  function TotalOrZero(data: Option<OrdersPage>): (r: nat)
    ensures data.Some? && data.value.total.Some? ==> r == data.value.total.value
    ensures data.None? || data.value.total.None? ==> r == 0
  {
    if data.Some? && data.value.total.Some? then data.value.total.value else 0
  }

  /** "Showing a-b": from `(page - 1) * 10 + 1` to `min(page * 10, total || 0)`. */
  function ShownRange(page: int, data: Option<OrdersPage>): (r: (int, int))
    requires page >= 1
    ensures r == (FirstShown(page), LastShown(page, TotalOrZero(data)))
    ensures r.1 - r.0 + 1 <= PageSize
    ensures (page - 1) * PageSize < TotalOrZero(data) ==> 1 <= r.0 <= r.1 <= TotalOrZero(data)
    ensures data.None? ==> r.1 == 0 && r.0 >= 1
  {
    Paging.ShownRange(page, TotalOrZero(data));
    (FirstShown(page), LastShown(page, TotalOrZero(data)))
  }

  /** `!data?.data?.pages || page >= data.data.pages`: "next" is off without
      a page count (missing or 0) and from the last page on. */
  predicate NextDisabled(page: int, data: Option<OrdersPage>) {
    !(data.Some? && data.value.pages.Some? && data.value.pages.value != 0) || page >= data.value.pages.value
  }

  /** "next" is enabled exactly when a page count is known and lies beyond
      the current page, so it moves to a page that exists. */
  lemma NextEnabledIff(page: int, data: Option<OrdersPage>)
    ensures !NextDisabled(page, data) <==>
      data.Some? && data.value.pages.Some? && data.value.pages.value != 0 && page < data.value.pages.value
  {
  }

  /** The numbered buttons, fixed: 1, 2, 3 and 17. */
  const PageButtons: seq<int> := [1, 2, 3, 17]

  /** The page's state. */
  class Page {
    var page: int

    /** The initial `useState` value. */
    constructor ()
      ensures page == 1
    {
      page := 1;
    }

    /** "previous", disabled on page 1. */
    method Previous()
      requires page != 1
      modifies this
      ensures page == StepBack(old(page)) && page >= 1
    {
      page := StepBack(page);
    }

    /** "next", unclamped: `p + 1`. */
    method Next(data: Option<OrdersPage>)
      requires !NextDisabled(page, data)
      modifies this
      ensures page == old(page) + 1
      ensures page <= data.value.pages.value
    {
      page := page + 1;
    }

    /** A numbered button. */
    method GoToPage(n: int)
      requires n in PageButtons
      modifies this
      ensures page == n && page >= 1
    {
      page := n;
    }
  }
}
