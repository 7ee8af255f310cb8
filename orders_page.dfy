/** The order list of app/dashboard/orders/page.tsx: the partial update
    body its menus send, the search over the loaded page, the short order
    id, and the page number the pager moves between. */
module Orders {
  import opened Wrappers
  import opened Strings
  import opened Seqs
  import opened Records
  import opened Types
  import opened Paging

  /** A JavaScript `if (v)` on an optional string: present and non-empty. */
  predicate Truthy(v: Option<string>) {
    v.Some? && v.value != ""
  }

  /** The query parameters of `ordersAPI.getOrders(page, limit, status)`
      (lib/orders-api.ts:5-10): `page` and `limit`, then `status` when
      a non-empty one is given. */
  function ListParams(page: int, limit: int, status: Option<string>): (r: Fields)
    ensures Keys(r) == ["page", "limit"] + (if Truthy(status) then ["status"] else [])
    ensures Lookup(r, "page") == Some(IntToString(page)) && Lookup(r, "limit") == Some(IntToString(limit))
    ensures Lookup(r, "status") == (if Truthy(status) then status else None)
  {
    var base: Fields := [("page", IntToString(page)), ("limit", IntToString(limit))];
    if Truthy(status) then base + [("status", status.value)] else base
  }

  /** The listing the page asks for: ten orders of the current page, any status. */
  function PageQuery(page: int): (r: Fields)
    ensures Keys(r) == ["page", "limit"] && Lookup(r, "limit") == Some("10")
    ensures Lookup(r, "page") == Some(IntToString(page))
  {
    assert NatToString(10) == NatToString(1) + [DigitChar(0)] == "10";
    ListParams(page, PageSize, None)
  }

  /** The object `mutationFn` hands to `updateOrderStatus`: `status` when a
      non-empty one is given, then `paymentStatus` when a non-empty one is
      given, and no other key. */
  function UpdateData(status: Option<string>, paymentStatus: Option<string>): (r: Fields)
    ensures Keys(r) == (if Truthy(status) then ["status"] else []) +
                       (if Truthy(paymentStatus) then ["paymentStatus"] else [])
    ensures UniqueKeys(r)
    ensures Lookup(r, "status") == (if Truthy(status) then status else None)
    ensures Lookup(r, "paymentStatus") == (if Truthy(paymentStatus) then paymentStatus else None)
  {
    var s: Fields := if Truthy(status) then [("status", status.value)] else [];
    var p: Fields := if Truthy(paymentStatus) then [("paymentStatus", paymentStatus.value)] else [];
    assert Keys(s + p) == Keys(s) + Keys(p) by {
      if s != [] {
        assert (s + p)[1..] == p;
      }
    }
    s + p
  }

  /** `mutationFn`'s construction: an empty object, then each field assigned
      when its argument is truthy. */
  method BuildUpdateData(status: Option<string>, paymentStatus: Option<string>) returns (data: Fields)
    ensures data == UpdateData(status, paymentStatus)
  {
    data := [];
    if status.Some? && status.value != "" {
      data := Assign(data, "status", status.value);
    }
    if paymentStatus.Some? && paymentStatus.value != "" {
      data := Assign(data, "paymentStatus", paymentStatus.value);
    }
    assert Keys(data) == Keys(UpdateData(status, paymentStatus));
  }

  /** The entries of the payment and status drop-down menus of a row. */
  datatype MenuItem = MarkAsPaid | MarkAsPending | SetStatus(status: OrderStatus)

  /** The `{ status, paymentStatus }` arguments an entry mutates with. */
  function MenuArguments(item: MenuItem): (r: (Option<string>, Option<string>))
    ensures item.MarkAsPaid? ==> r == (None, Some("Paid"))
    ensures item.MarkAsPending? ==> r == (None, Some("Pending"))
    ensures item.SetStatus? ==> r == (Some(StatusName(item.status)), None)
  {
    match item
    case MarkAsPaid => (None, Some(PaymentName(Paid)))
    case MarkAsPending => (None, Some(PaymentName(PaymentPending)))
    case SetStatus(s) => (Some(StatusName(s)), None)
  }

  /** The update call an entry of order `orderId`'s menus issues. */
  function MenuCall(orderId: string, item: MenuItem): (r: OrderUpdateCall)
    ensures r.orderId == orderId && r.body.FieldsBody?
  {
    var (status, paymentStatus) := MenuArguments(item);
    OrderUpdateCall(orderId, FieldsBody(UpdateData(status, paymentStatus)))
  }

  /** The payment menu changes only `paymentStatus`, to "Paid" or "Pending";
      the status menu changes only `status`, to the chosen status's name. */
  lemma MenuCallFields(orderId: string, item: MenuItem)
    ensures var f := MenuCall(orderId, item).body.fields;
      (item.MarkAsPaid? ==> Keys(f) == ["paymentStatus"] && Lookup(f, "paymentStatus") == Some("Paid")) &&
      (item.MarkAsPending? ==> Keys(f) == ["paymentStatus"] && Lookup(f, "paymentStatus") == Some("Pending")) &&
      (item.SetStatus? ==> Keys(f) == ["status"] && Lookup(f, "status") == Some(StatusName(item.status)))
  {
    if item.SetStatus? {
      assert StatusName(item.status) != "";
    }
  }

  /** Different status entries send different bodies. */
  lemma StatusMenuDistinct(orderId: string, s: OrderStatus, t: OrderStatus)
    requires s != t
    ensures MenuCall(orderId, SetStatus(s)) != MenuCall(orderId, SetStatus(t))
  {
    MenuCallFields(orderId, SetStatus(s));
    MenuCallFields(orderId, SetStatus(t));
    StatusNameInjective(s, t);
  }

  /** The toast once the update settles; the server's message is not shown. */
  function UpdateToast(outcome: CallOutcome): (r: Toast)
    ensures r.SuccessToast? <==> outcome.Resolved?
    ensures r == SuccessToast("Order updated successfully") || r == ErrorToast("Failed to update order")
  {
    if outcome.Resolved? then SuccessToast("Order updated successfully") else ErrorToast("Failed to update order")
  }

  /** `ordersData?.data.orders`, or no orders. */
  function OrdersOf(data: Option<OrdersPage>): (r: seq<Order>)
    ensures data.Some? && data.value.orders.Some? ==> r == data.value.orders.value
    ensures data.None? || data.value.orders.None? ==> r == []
  {
    if data.Some? && data.value.orders.Some? then data.value.orders.value else []
  }

  /** The search test: the term occurs in the id as typed, or in the
      lowercased customer name in lower case. */
  predicate OrderMatches(o: Order, term: string) {
    Contains(o.id, term) || Contains(ToLower(o.user.name), ToLower(term))
  }

  /** `filteredOrders`: the loaded orders passing the search, in order. */
  function FilteredOrders(data: Option<OrdersPage>, term: string): (r: seq<Order>)
    ensures |r| <= |OrdersOf(data)|
    ensures forall i :: 0 <= i < |r| ==> r[i] in OrdersOf(data) && OrderMatches(r[i], term)
    ensures forall i :: 0 <= i < |OrdersOf(data)| && OrderMatches(OrdersOf(data)[i], term) ==>
      OrdersOf(data)[i] in r
  {
    Filter(OrdersOf(data), (o: Order) => OrderMatches(o, term))
  }

  /** An empty term keeps every loaded order, because every id includes "". */
  lemma {:induction false} EmptyTermKeepsAll(data: Option<OrdersPage>)
    ensures FilteredOrders(data, "") == OrdersOf(data)
  {
    var s := OrdersOf(data);
    forall i | 0 <= i < |s|
      ensures OrderMatches(s[i], "")
    {
      ContainsEmpty(s[i].id);
    }
    FilterKeepsAll(s, (o: Order) => OrderMatches(o, ""));
  }

  /** The search keeps the orders in their listed order. */
  lemma FilteredIsSubseq(data: Option<OrdersPage>, term: string)
    ensures IsSubseq(FilteredOrders(data, term), OrdersOf(data))
  {
    FilterIsSubseq(OrdersOf(data), (o: Order) => OrderMatches(o, term));
  }

  /** With nothing loaded, the table is empty whatever the term. */
  lemma NothingLoadedShowsNothing(term: string)
    ensures FilteredOrders(None, term) == []
  {
  }

  /** The footer "Showing 1 to n from t": the lower end is 1 on every page,
      `n` counts the rows the search leaves on this page, and `t` is the
      server's total, which renders as nothing while no data is loaded. */
  function Footer(data: Option<OrdersPage>, term: string): (r: (int, nat, Option<nat>))
    ensures r.0 == 1
    ensures r.1 == |FilteredOrders(data, term)| && r.1 <= |OrdersOf(data)|
    ensures data.None? ==> r.1 == 0 && r.2.None?
    ensures data.Some? ==> r.2 == data.value.total
  {
    (1, |FilteredOrders(data, term)|, if data.Some? then data.value.total else None)
  }

  /** Without a search term the footer's upper end is the number of orders
      on the page, not a row number within the total. */
  lemma FooterCountsPageRows(data: Option<OrdersPage>)
    ensures Footer(data, "").1 == |OrdersOf(data)|
  {
    EmptyTermKeepsAll(data);
  }

  /** `#{order._id.slice(-6)}`: the id column and the detail title. */
  function DisplayId(id: string): (r: string)
    ensures |r| == 1 + (if |id| < 6 then |id| else 6)
    ensures r[0] == '#' && r[1..] == id[|id| - (|r| - 1)..]
  {
    "#" + SliceLast(id, 6)
  }

  /** The payment button's label: "Done ✓" for a paid order, otherwise "Hold ⏱". */
  function PaymentButtonLabel(p: PaymentStatus): (r: string)
    ensures r == "Done ✓" <==> p == Paid
    ensures p != Paid ==> r == "Hold ⏱"
  {
    if PaymentName(p) == "Paid" then "Done ✓" else "Hold ⏱"
  }

  /** `ordersData?.data.pages || 1`: the last page; 0 and a missing count read as 1. */
  function LastPage(pages: Option<nat>): (r: nat)
    ensures r >= 1
    ensures pages.Some? && pages.value != 0 ==> r == pages.value
    ensures pages.None? || pages.value == 0 ==> r == 1
  {
    if pages.Some? && pages.value != 0 then pages.value else 1
  }

  /** `Math.min(last, p + 1)`: the page "next" moves to. */
  function StepForward(page: int, last: nat): (r: int)
    ensures r <= last && r <= page + 1
    ensures page < last ==> r == page + 1
    ensures page >= last ==> r == last
  {
    if last < page + 1 then last else page + 1
  }

  /** The numbered buttons: 1 to the smaller of 5 and the last page. */
  function PageButtons(pages: Option<nat>): (r: seq<int>)
    ensures |r| == (if LastPage(pages) < 5 then LastPage(pages) else 5)
    ensures forall i :: 0 <= i < |r| ==> r[i] == i + 1
  {
    var n := if LastPage(pages) < 5 then LastPage(pages) else 5;
    seq(n, i requires 0 <= i < n => i + 1)
  }

  /** Every button names a page between 1 and the last page, and there is always one. */
  lemma PageButtonsInRange(pages: Option<nat>)
    ensures PageButtons(pages) != [] && PageButtons(pages)[0] == 1
    ensures forall n :: n in PageButtons(pages) ==> 1 <= n <= LastPage(pages)
  {
  }

  /** From a page between 1 and the last, "previous", "next" and every
      numbered button land between 1 and the last page again. */
  lemma PagerStaysInRange(page: int, pages: Option<nat>, n: int)
    requires 1 <= page <= LastPage(pages)
    requires n in PageButtons(pages)
    ensures 1 <= StepBack(page) <= LastPage(pages)
    ensures 1 <= StepForward(page, LastPage(pages)) <= LastPage(pages)
    ensures 1 <= n <= LastPage(pages)
  {
    PageButtonsInRange(pages);
  }

  /** The disabled rules match the moves: "previous" is off exactly on page 1,
      "next" exactly on the last page, and a disabled button would not move. */
  lemma DisabledButtonsDoNotMove(page: int, pages: Option<nat>)
    requires page >= 1
    ensures page == 1 <==> StepBack(page) == page
    ensures page == LastPage(pages) ==> StepForward(page, LastPage(pages)) == page
    ensures page < LastPage(pages) ==> StepForward(page, LastPage(pages)) == page + 1
  {
  }

  /** The page's state. */
  class Page {
    var page: int
    var searchTerm: string
    var selectedOrder: Option<Order>

    /** The initial `useState` values. */
    constructor ()
      ensures page == 1 && searchTerm == "" && selectedOrder == None
    {
      page := 1;
      searchTerm := "";
      selectedOrder := None;
    }

    /** The search box's `onChange`; the page is kept. */
    method SetSearchTerm(term: string)
      modifies this
      ensures searchTerm == term && page == old(page) && selectedOrder == old(selectedOrder)
    {
      searchTerm := term;
    }

    /** The "previous" button, disabled on page 1. */
    method Previous()
      requires page != 1
      modifies this
      ensures page == StepBack(old(page)) && page >= 1
      ensures searchTerm == old(searchTerm) && selectedOrder == old(selectedOrder)
    {
      page := StepBack(page);
    }

    /** The "next" button, disabled on the last page of the loaded data. */
    method Next(pages: Option<nat>)
      requires page != LastPage(pages)
      modifies this
      ensures page == StepForward(old(page), LastPage(pages)) && page <= LastPage(pages)
      ensures searchTerm == old(searchTerm) && selectedOrder == old(selectedOrder)
    {
      var last := LastPage(pages);
      page := if last < page + 1 then last else page + 1;
    }

    /** A numbered button. */
    method GoToPage(n: int, pages: Option<nat>)
      requires n in PageButtons(pages)
      modifies this
      ensures page == n && 1 <= page <= LastPage(pages)
      ensures searchTerm == old(searchTerm) && selectedOrder == old(selectedOrder)
    {
      PageButtonsInRange(pages);
      page := n;
    }

    /** The eye button opens the detail dialog on the row's order. */
    method SelectOrder(o: Order)
      modifies this
      ensures selectedOrder == Some(o) && page == old(page) && searchTerm == old(searchTerm)
    {
      selectedOrder := Some(o);
    }

    /** The detail dialog's `onOpenChange` clears the selection. */
    method CloseDetails()
      modifies this
      ensures selectedOrder == None && page == old(page) && searchTerm == old(searchTerm)
    {
      selectedOrder := None;
    }
  }
}
