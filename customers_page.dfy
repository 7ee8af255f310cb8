/** The customer list of app/dashboard/customers/page.tsx: the users taken
    from the listing, the name/email search, what each customer has spent,
    the pager, and the per-order figures of the detail dialog. */
module CustomersPage {
  import opened Wrappers
  import opened Strings
  import opened Seqs
  import opened Paging

  /** One line of a customer's order, as the history table reads it. */
  datatype UserOrderItem = UserOrderItem(itemName: Option<string>, quantity: int)

  /** One order in a customer's history; the backend may leave fields out. */
  datatype UserOrder = UserOrder(
    id: string,
    totalAmount: Option<int>,
    items: Option<seq<UserOrderItem>>,
    paymentStatus: string)

  /** A customer as the listing returns it; optional fields may be missing. */
  datatype User = User(
    id: string,
    name: Option<string>,
    email: Option<string>,
    phone: Option<string>,
    orders: Option<seq<UserOrder>>)

  /** The `data` of `usersAPI.getUsers`' reply. */
  datatype UsersData = UsersData(users: Option<seq<User>>, total: Option<nat>, pages: Option<nat>)

  /** `data?.data?.users || []`. */
  function UsersOf(data: Option<UsersData>): (r: seq<User>)
    ensures data.Some? && data.value.users.Some? ==> r == data.value.users.value
    ensures data.None? || data.value.users.None? ==> r == []
  {
    if data.Some? && data.value.users.Some? then data.value.users.value else []
  }

  /** `data?.data?.total || users.length`: a missing or zero total falls
      back to the number of users loaded. */
  function TotalUsers(data: Option<UsersData>): (r: nat)
    ensures data.Some? && data.value.total.Some? && data.value.total.value != 0 ==> r == data.value.total.value
    ensures !(data.Some? && data.value.total.Some? && data.value.total.value != 0) ==> r == |UsersOf(data)|
  {
    if data.Some? && data.value.total.Some? && data.value.total.value != 0 then data.value.total.value
    else |UsersOf(data)|
  }

  /** `data?.data?.pages || 1`. */
  function TotalPages(data: Option<UsersData>): (r: nat)
    ensures r >= 1
    ensures data.Some? && data.value.pages.Some? && data.value.pages.value != 0 ==> r == data.value.pages.value
    ensures !(data.Some? && data.value.pages.Some? && data.value.pages.value != 0) ==> r == 1
  {
    if data.Some? && data.value.pages.Some? && data.value.pages.value != 0 then data.value.pages.value else 1
  }

  /** `field?.toLowerCase().includes(query.toLowerCase())`: a missing field never matches. */
  predicate FieldMatches(field: Option<string>, query: string) {
    field.Some? && Contains(ToLower(field.value), ToLower(query))
  }

  /** The search test: no query, or the name or the email matches. */
  predicate UserMatches(u: User, query: string) {
    query == "" || FieldMatches(u.name, query) || FieldMatches(u.email, query)
  }

  /** `filteredUsers`: the loaded users passing the search, in order. */
  function FilteredUsers(users: seq<User>, query: string): (r: seq<User>)
    ensures |r| <= |users|
    ensures forall i :: 0 <= i < |r| ==> r[i] in users && UserMatches(r[i], query)
    ensures forall i :: 0 <= i < |users| && UserMatches(users[i], query) ==> users[i] in r
  {
    Filter(users, (u: User) => UserMatches(u, query))
  }

  /** An empty search keeps every user, in order. */
  lemma EmptyQueryKeepsAll(users: seq<User>)
    ensures FilteredUsers(users, "") == users
  {
    FilterKeepsAll(users, (u: User) => UserMatches(u, ""));
  }

  /** The search keeps the users in their listed order. */
  lemma FilteredIsSubseq(users: seq<User>, query: string)
    ensures IsSubseq(FilteredUsers(users, query), users)
  {
    FilterIsSubseq(users, (u: User) => UserMatches(u, query));
  }

  /** Under a non-empty search, every user kept has a name or an email
      that contains the query; a user with neither is never kept. */
  lemma SearchNeedsAField(users: seq<User>, query: string)
    requires query != ""
    ensures forall i :: 0 <= i < |FilteredUsers(users, query)| ==>
      FieldMatches(FilteredUsers(users, query)[i].name, query) ||
      FieldMatches(FilteredUsers(users, query)[i].email, query)
    ensures forall u :: u in FilteredUsers(users, query) ==> u.name.Some? || u.email.Some?
  {
  }

  /** "No customers found" is shown exactly when no loaded user passes the search. */
  lemma {:induction false} NoCustomersIff(users: seq<User>, query: string)
    ensures FilteredUsers(users, query) == [] <==>
      forall i :: 0 <= i < |users| ==> !UserMatches(users[i], query)
  {
    var r := FilteredUsers(users, query);
    if r != [] {
      var k :| 0 <= k < |users| && users[k] == r[0];
    }
  }

  /** `o.totalAmount || 0`. */
  function AmountOrZero(o: UserOrder): int {
    if o.totalAmount.Some? then o.totalAmount.value else 0
  }

  /** `getTotalSpent`: the amounts of the customer's orders added up, a
      missing amount counting 0. */
  function TotalSpent(u: User): (r: int)
    ensures u.orders.Some? && |u.orders.value| == 1 ==> r == AmountOrZero(u.orders.value[0])
  {
    assert u.orders.Some? && |u.orders.value| == 1 ==>
      Sum(u.orders.value, AmountOrZero) == Sum(u.orders.value[..0], AmountOrZero) + AmountOrZero(u.orders.value[0]);
    assert u.orders.Some? && |u.orders.value| == 1 ==> u.orders.value[..0] == [];
    Sum(if u.orders.Some? then u.orders.value else [], AmountOrZero)
  }

  /** A customer without orders has spent 0. */
  lemma NoOrdersSpentNothing(u: User)
    requires u.orders.None? || u.orders.value == []
    ensures TotalSpent(u) == 0
  {
  }

  /** One more order adds its amount to the total, or nothing when the
      amount is missing. */
  lemma TotalSpentAddsOrder(u: User, o: UserOrder)
    requires u.orders.Some?
    ensures TotalSpent(u.(orders := Some(u.orders.value + [o]))) ==
      TotalSpent(u) + (if o.totalAmount.Some? then o.totalAmount.value else 0)
  {
    SumSnoc(u.orders.value, o, AmountOrZero);
  }

  /** With no negative amounts, what a customer spent is never negative. */
  lemma TotalSpentNonNegative(u: User)
    requires u.orders.Some? ==> forall i :: 0 <= i < |u.orders.value| ==> AmountOrZero(u.orders.value[i]) >= 0
    ensures TotalSpent(u) >= 0
  {
    if u.orders.Some? {
      SumNonNegative(u.orders.value, AmountOrZero);
    }
  }

  /** `user.orders?.length || 0`: the "times" column and the Total Orders card. */
  function OrderCount(u: User): (r: nat)
    ensures u.orders.None? ==> r == 0
    ensures u.orders.Some? ==> r == |u.orders.value|
  {
    if u.orders.Some? then |u.orders.value| else 0
  }

  /** `user.phone || "N/A"`. */
  function PhoneCell(u: User): (r: string)
    ensures u.phone.Some? && u.phone.value != "" ==> r == u.phone.value
    ensures u.phone.None? || u.phone.value == "" ==> r == "N/A"
  {
    if u.phone.Some? && u.phone.value != "" then u.phone.value else "N/A"
  }

  /** A line's quantity, as the reduce adds it. */
  function Quantity(i: UserOrderItem): int {
    i.quantity
  }

  /** "Total Numbers": the quantities of an order's items added up; nothing
      is shown when the order has no item list. */
  function TotalNumbers(o: UserOrder): (r: Option<int>)
    ensures r.Some? <==> o.items.Some?
  {
    if o.items.Some? then Some(Sum(o.items.value, Quantity)) else None
  }

  /** An order with an empty item list shows 0, and with no negative
      quantity the figure is never negative. */
  lemma TotalNumbersBounds(o: UserOrder)
    requires o.items.Some?
    requires forall i :: 0 <= i < |o.items.value| ==> o.items.value[i].quantity >= 0
    ensures TotalNumbers(o).value >= 0
    ensures o.items.value == [] ==> TotalNumbers(o) == Some(0)
  {
    SumNonNegative(o.items.value, Quantity);
  }

  /** An order's item list split in two adds up to the sum of its parts. */
  lemma TotalNumbersSplit(o: UserOrder, a: seq<UserOrderItem>, b: seq<UserOrderItem>)
    requires o.items == Some(a + b)
    ensures TotalNumbers(o).value ==
      TotalNumbers(o.(items := Some(a))).value + TotalNumbers(o.(items := Some(b))).value
  {
    SumAppend(a, b, Quantity);
  }

  /** `order.items?.[0]?.item?.name || "N/A"`. */
  function ItemNameCell(o: UserOrder): (r: string)
    ensures (o.items.Some? && o.items.value != [] && o.items.value[0].itemName.Some? &&
             o.items.value[0].itemName.value != "") ==> r == o.items.value[0].itemName.value
    ensures r == "N/A" || (o.items.Some? && o.items.value != [] && o.items.value[0].itemName == Some(r))
    ensures !(o.items.Some? && o.items.value != [] && o.items.value[0].itemName.Some? && o.items.value[0].itemName.value != "")
      ==> r == "N/A"
  {
    if o.items.Some? && o.items.value != [] && o.items.value[0].itemName.Some? && o.items.value[0].itemName.value != ""
    then o.items.value[0].itemName.value
    else "N/A"
  }

  /** The payment badge of a history row: green for "Paid", red otherwise. */
  function PaymentBadge(status: string): (r: string)
    ensures r == "bg-green-100 text-green-800" <==> status == "Paid"
    ensures status != "Paid" ==> r == "bg-red-100 text-red-800"
  {
    if status == "Paid" then "bg-green-100 text-green-800" else "bg-red-100 text-red-800"
  }

  /** "No orders found for this customer." is shown when the list is missing or empty. */
  predicate ShowsNoOrders(u: User) {
    u.orders.None? || |u.orders.value| == 0
  }

  /** The notice is shown exactly when the order count reads 0. */
  lemma NoOrdersIffZeroCount(u: User)
    ensures ShowsNoOrders(u) <==> OrderCount(u) == 0
  {
  }

  /** "Showing a to b": the rows of the current page within `totalUsers`. */
  function ShownRange(page: int, data: Option<UsersData>): (r: (int, int))
    requires page >= 1
    ensures r == (FirstShown(page), LastShown(page, TotalUsers(data)))
    ensures r.1 - r.0 + 1 <= PageSize
    ensures (page - 1) * PageSize < TotalUsers(data) ==> 1 <= r.0 <= r.1 <= TotalUsers(data)
  {
    Paging.ShownRange(page, TotalUsers(data));
    (FirstShown(page), LastShown(page, TotalUsers(data)))
  }

  /** "next" is disabled from the last page on. */
  predicate NextDisabled(page: int, data: Option<UsersData>) {
    page >= TotalPages(data)
  }

  /** With one page (or no page count) "next" is disabled on page 1. */
  lemma SinglePageNoNext(data: Option<UsersData>)
    requires data.None? || data.value.pages.None? || data.value.pages.value <= 1
    ensures NextDisabled(1, data)
  {
  }

  /** The numbered buttons, fixed: 1, 2 and 3. */
  const PageButtons: seq<int> := [1, 2, 3]

  /** The page's state. */
  class Page {
    var page: int
    var searchQuery: string
    var selectedCustomer: Option<User>

    /** The initial `useState` values. */
    constructor ()
      ensures page == 1 && searchQuery == "" && selectedCustomer == None
    {
      page := 1;
      searchQuery := "";
      selectedCustomer := None;
    }

    /** The search box's `onChange`; the page is kept. */
    method SetSearchQuery(q: string)
      modifies this
      ensures searchQuery == q && page == old(page) && selectedCustomer == old(selectedCustomer)
    {
      searchQuery := q;
    }

    /** "previous", disabled on page 1. */
    method Previous()
      requires page != 1
      modifies this
      ensures page == StepBack(old(page)) && page >= 1
      ensures searchQuery == old(searchQuery) && selectedCustomer == old(selectedCustomer)
    {
      page := StepBack(page);
    }

    /** "next", unclamped, disabled from the last page on: it never passes
        the page count. */
    method Next(data: Option<UsersData>)
      requires !NextDisabled(page, data)
      modifies this
      ensures page == old(page) + 1 && page <= TotalPages(data)
      ensures searchQuery == old(searchQuery) && selectedCustomer == old(selectedCustomer)
    {
      page := page + 1;
    }

    /** A numbered button. */
    method GoToPage(n: int)
      requires n in PageButtons
      modifies this
      ensures page == n && 1 <= page <= 3
      ensures searchQuery == old(searchQuery) && selectedCustomer == old(selectedCustomer)
    {
      page := n;
    }

    /** The eye button opens the detail dialog on the row's user. */
    method SelectCustomer(u: User)
      modifies this
      ensures selectedCustomer == Some(u) && page == old(page) && searchQuery == old(searchQuery)
    {
      selectedCustomer := Some(u);
    }

    /** The dialog's `onOpenChange`: closing clears the selection, opening changes nothing. */
    method OnOpenChange(open: bool)
      modifies this
      ensures selectedCustomer == (if open then old(selectedCustomer) else None)
      ensures page == old(page) && searchQuery == old(searchQuery)
    {
      if !open {
        selectedCustomer := None;
      }
    }

    /** The "Back" button clears the selection. */
    method Back()
      modifies this
      ensures selectedCustomer == None && page == old(page) && searchQuery == old(searchQuery)
    {
      selectedCustomer := None;
    }
  }
}
