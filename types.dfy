/** The entities of lib/types.ts as the dashboard's screens read them, and the
    shapes shared by several screens: a chosen file, a form-data entry, a
    toast, and the outcome of a backend call. */
module Types {
  import opened Wrappers
  import opened Records

  /** A `File` the user picked in a file input; only its identity matters here. */
  datatype FileRef = FileRef(name: string)

  /** The value of one `FormData` entry. */
  datatype FormValue = TextValue(text: string) | FileValue(file: FileRef)

  /** A `FormData` body: its entries in `append` order. */
  type FormEntries = seq<(string, FormValue)>

  /** The entry names of a form, in order. */
  function EntryNames(f: FormEntries): (r: seq<string>)
    ensures |r| == |f|
    ensures forall i :: 0 <= i < |f| ==> r[i] == f[i].0
  {
    seq(|f|, i requires 0 <= i < |f| => f[i].0)
  }

  /** A `sonner` toast shown to the operator. */
  datatype Toast = SuccessToast(text: string) | ErrorToast(text: string)

  /** How a backend call settled: resolved, or rejected with the server's
      `response.data.message` when it sent one. */
  datatype CallOutcome = Resolved | Rejected(serverMessage: Option<string>)

  /** `error?.response?.data?.message || fallback`. */
  function RejectionText(outcome: CallOutcome, fallback: string): (r: string)
    requires outcome.Rejected?
    ensures r == fallback || (outcome.serverMessage == Some(r) && r != "")
    ensures outcome.serverMessage.None? ==> r == fallback
  {
    match outcome.serverMessage
    case Some(m) => if m != "" then m else fallback
    case None => fallback
  }

  /** An order's delivery status (lib/types.ts:47). */
  datatype OrderStatus = Pending | Processing | Delivered | Cancelled

  /** The string the backend uses for an order status. */
  function StatusName(s: OrderStatus): string {
    match s
    case Pending => "Pending"
    case Processing => "Processing"
    case Delivered => "Delivered"
    case Cancelled => "Cancelled"
  }

  /** Distinct statuses have distinct names, so a name identifies its status. */
  lemma StatusNameInjective(s: OrderStatus, t: OrderStatus)
    ensures StatusName(s) == StatusName(t) ==> s == t
  {
  }

  /** An order's payment status (lib/types.ts:48). */
  datatype PaymentStatus = Paid | PaymentPending | PaymentFailed

  /** The string the backend uses for a payment status. */
  function PaymentName(p: PaymentStatus): string {
    match p
    case Paid => "Paid"
    case PaymentPending => "Pending"
    case PaymentFailed => "Failed"
  }

  /** A product's category as the screens meet it: declared as an id string,
      but the backend also sends the populated category object, or nothing. */
  datatype CategoryRef =
    | CategoryId(id: string)
    | CategoryObject(objectId: Option<string>, objectName: Option<string>)
    | NoCategory

  /** One ingredient of a stored product. */
  datatype ProductIngredient = ProductIngredient(name: string, image: Option<string>)

  /** A product (`Product` in lib/types.ts); numbers are whole. */
  datatype Product = Product(
    id: string,
    name: string,
    category: CategoryRef,
    description: Option<string>,
    price: int,
    image: Option<string>,
    ingredients: Option<seq<ProductIngredient>>,
    createdAt: string)

  /** A category (`Category` in lib/types.ts, plus the `bgColor` the edit dialog reads). */
  datatype Category = Category(
    id: string,
    name: string,
    image: Option<string>,
    bgColor: Option<string>,
    createdAt: Option<string>)

  /** The customer an order belongs to. */
  datatype OrderUser = OrderUser(id: string, name: string, email: string)

  /** One line of an order. */
  datatype OrderItem = OrderItem(product: Product, quantity: int, id: string)

  /** An order (`Order` in lib/types.ts); amounts are whole. */
  datatype Order = Order(
    id: string,
    user: OrderUser,
    items: seq<OrderItem>,
    totalAmount: int,
    status: OrderStatus,
    paymentStatus: PaymentStatus)

  /** The `data` of a paginated order listing (`PaginatedResponse` in lib/types.ts). */
  datatype OrdersPage = OrdersPage(orders: Option<seq<Order>>, total: Option<nat>, pages: Option<nat>)

  /** The second argument handed to `ordersAPI.updateOrderStatus`, sent as the
      PUT body: declared as an object, but a screen may pass a bare string. */
  datatype UpdateBody = FieldsBody(fields: Fields) | StringBody(text: string)

  /** A call `ordersAPI.updateOrderStatus(id, body)` (lib/orders-api.ts:17-20). */
  datatype OrderUpdateCall = OrderUpdateCall(orderId: string, body: UpdateBody)
}
