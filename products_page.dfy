/** The product list of app/dashboard/products/page.tsx: the rows taken from
    the listing response, the name search, the category cell, and the state
    of the product dialog and the delete dialog. */
module ProductsPage {
  import opened Wrappers
  import opened Strings
  import opened Seqs
  import opened Types
  import opened ProductDialog

  /** The `data` of `getProducts`' reply: its `items`, when present. */
  datatype ProductsData = ProductsData(items: Option<seq<Product>>)

  /** The reply of `getProducts` (`PaginatedResponse<Product>`), as the page reads it. */
  datatype ProductsReply = ProductsReply(data: Option<ProductsData>)

  /** `productsData?.data?.items || []`. */
  function ProductsOf(reply: Option<ProductsReply>): (r: seq<Product>)
    ensures reply.None? || reply.value.data.None? || reply.value.data.value.items.None? ==> r == []
    ensures reply.Some? && reply.value.data.Some? && reply.value.data.value.items.Some? ==>
      r == reply.value.data.value.items.value
  {
    if reply.Some? && reply.value.data.Some? && reply.value.data.value.items.Some?
    then reply.value.data.value.items.value
    else []
  }

  /** The search test on a product: no query, or the lowercased name
      contains the lowercased query. */
  predicate NameMatches(p: Product, query: string) {
    query == "" || Contains(ToLower(p.name), ToLower(query))
  }

  /** The rows rendered: the products passing the search, in order. */
  function VisibleProducts(products: seq<Product>, query: string): (r: seq<Product>)
    ensures |r| <= |products|
    ensures forall i :: 0 <= i < |r| ==> r[i] in products && NameMatches(r[i], query)
    ensures forall i :: 0 <= i < |products| && NameMatches(products[i], query) ==> products[i] in r
  {
    Filter(products, (p: Product) => NameMatches(p, query))
  }

  /** An empty query renders every product. */
  lemma EmptyQueryShowsAll(products: seq<Product>)
    ensures VisibleProducts(products, "") == products
  {
    FilterKeepsAll(products, (p: Product) => NameMatches(p, ""));
  }

  /** The rendered rows keep the listing's order. */
  lemma VisibleIsSubseq(products: seq<Product>, query: string)
    ensures IsSubseq(VisibleProducts(products, query), products)
  {
    FilterIsSubseq(products, (p: Product) => NameMatches(p, query));
  }

  /** A query equal to the name up to letter case always matches it. */
  lemma SearchIgnoresCase(p: Product, query: string)
    requires ToLower(p.name) == ToLower(query)
    ensures NameMatches(p, query)
  {
    assert StartsWith(ToLower(p.name), ToLower(query));
  }

  /** The category cell: the category string itself, else the object's
      name, else "N/A". */
  function CategoryCell(c: CategoryRef): (r: string)
    ensures c.CategoryId? ==> r == c.id
    ensures c.CategoryObject? && c.objectName.Some? ==> r == c.objectName.value
    ensures c.NoCategory? || (c.CategoryObject? && c.objectName.None?) ==> r == "N/A"
  {
    match c
    case CategoryId(id) => id
    case CategoryObject(_, name) => name.GetOr("N/A")
    case NoCategory => "N/A"
  }

  /** "No products found" is decided on the whole listing, before the search
      runs (app/dashboard/products/page.tsx:133): a search that matches
      nothing on a non-empty listing renders neither rows nor the notice. */
  predicate ShowsNoProductsRow(products: seq<Product>) {
    products == []
  }

  /** A listing of one product named "Cake" searched for "pie": the notice
      is off and no row is rendered, leaving the table body empty. */
  lemma EmptyTableWithoutNotice(p: Product)
    requires p.name == "Cake"
    ensures !ShowsNoProductsRow([p]) && VisibleProducts([p], "pie") == []
  {
    assert ToLower("pie") == "pie";
    assert ToLower("Cake") == "cake";
    assert !Contains("cake", "pie") by {
      assert "cake"[..3][0] == 'c' && "ake"[..3][0] == 'a';
      assert "cake"[1..] == "ake" && "ake"[1..] == "ke" && "ke"[1..] == "e" && "e"[1..] == "";
    }
  }

  /** The notice as the page evidently means it: shown exactly when no row
      is rendered. */
  predicate ShowsNoMatchesRow(products: seq<Product>, query: string) {
    VisibleProducts(products, query) == []
  }

  /** With the notice taken from the rendered rows, the table body is never
      empty: there is a product row, or the notice, and never both. */
  lemma {:induction false} NoMatchesRowIff(products: seq<Product>, query: string)
    ensures ShowsNoMatchesRow(products, query) <==>
      forall i :: 0 <= i < |products| ==> !NameMatches(products[i], query)
  {
    var r := VisibleProducts(products, query);
    if r != [] {
      var k :| 0 <= k < |products| && products[k] == r[0];
    }
  }

  /** `productDialog` state. */
  datatype ProductDialogState = ProductDialogState(open: bool, mode: Mode, product: Option<Product>)

  /** `deleteDialog` state. */
  datatype DeleteDialogState = DeleteDialogState(open: bool, product: Option<Product>)

  /** The page's state. */
  class Page {
    var page: int
    var searchQuery: string
    var productDialog: ProductDialogState
    var deleteDialog: DeleteDialogState

    /** The initial `useState` values. */
    constructor ()
      ensures page == 1 && searchQuery == ""
      ensures productDialog == ProductDialogState(false, AddMode, None)
      ensures deleteDialog == DeleteDialogState(false, None)
    {
      page := 1;
      searchQuery := "";
      productDialog := ProductDialogState(false, AddMode, None);
      deleteDialog := DeleteDialogState(false, None);
    }

    /** The search box's `onChange`. */
    method SetSearchQuery(q: string)
      modifies this
      ensures searchQuery == q && page == old(page)
      ensures productDialog == old(productDialog) && deleteDialog == old(deleteDialog)
    {
      searchQuery := q;
    }

    /** `handleAddProduct`. */
    method HandleAddProduct()
      modifies this
      ensures productDialog == ProductDialogState(true, AddMode, None)
      ensures deleteDialog == old(deleteDialog) && page == old(page) && searchQuery == old(searchQuery)
    {
      productDialog := ProductDialogState(true, AddMode, None);
    }

    /** `handleEditProduct`. */
    method HandleEditProduct(p: Product)
      modifies this
      ensures productDialog == ProductDialogState(true, EditMode, Some(p))
      ensures deleteDialog == old(deleteDialog) && page == old(page) && searchQuery == old(searchQuery)
    {
      productDialog := ProductDialogState(true, EditMode, Some(p));
    }

    /** `handleViewProduct`. */
    method HandleViewProduct(p: Product)
      modifies this
      ensures productDialog == ProductDialogState(true, ViewMode, Some(p))
      ensures deleteDialog == old(deleteDialog) && page == old(page) && searchQuery == old(searchQuery)
    {
      productDialog := ProductDialogState(true, ViewMode, Some(p));
    }

    /** `handleDeleteProduct`: the product dialog is left as it was. */
    method HandleDeleteProduct(p: Product)
      modifies this
      ensures deleteDialog == DeleteDialogState(true, Some(p))
      ensures productDialog == old(productDialog) && page == old(page) && searchQuery == old(searchQuery)
    {
      deleteDialog := DeleteDialogState(true, Some(p));
    }

    /** The product dialog's `onOpenChange`: only `open` changes. */
    method SetProductDialogOpen(open: bool)
      modifies this
      ensures productDialog == old(productDialog).(open := open)
      ensures deleteDialog == old(deleteDialog) && page == old(page) && searchQuery == old(searchQuery)
    {
      productDialog := productDialog.(open := open);
    }

    /** The delete dialog's `onOpenChange`: only `open` changes. */
    method SetDeleteDialogOpen(open: bool)
      modifies this
      ensures deleteDialog == old(deleteDialog).(open := open)
      ensures productDialog == old(productDialog) && page == old(page) && searchQuery == old(searchQuery)
    {
      deleteDialog := deleteDialog.(open := open);
    }
  }
}
