/** The navigation of components/dashboard/sidebar.tsx: the fixed list of
    menu entries and the rule that highlights the entry of the current
    path. */
module Sidebar {
  import opened Strings
  import opened Seqs

  /** One menu entry (its icon is presentation only). */
  datatype MenuItem = MenuItem(caption: string, href: string)

  /** `menuItems`, in display order. */
  const MenuItems: seq<MenuItem> := [
    MenuItem("Overview", "/dashboard"),
    MenuItem("Order Lists", "/dashboard/orders"),
    MenuItem("Delivered Orders", "/dashboard/delivered-orders"),
    MenuItem("Customer Lists", "/dashboard/customers"),
    MenuItem("Product Lists", "/dashboard/products"),
    MenuItem("Category Lists", "/dashboard/categories"),
    MenuItem("Messages", "/dashboard/messages")
  ]

  /** `isActive` for an entry: the path is the entry's href, or starts with
      the href followed by "/dashboard/". */
  predicate IsActive(path: string, href: string) {
    path == href || StartsWith(path, href + "/dashboard/")
  }

  /** The entries highlighted on `path`. */
  function ActiveItems(path: string): (r: seq<MenuItem>)
    ensures forall i :: 0 <= i < |r| ==> r[i] in MenuItems && IsActive(path, r[i].href)
    ensures forall i :: 0 <= i < |MenuItems| && IsActive(path, MenuItems[i].href) ==> MenuItems[i] in r
  {
    Filter(MenuItems, (m: MenuItem) => IsActive(path, m.href))
  }

  /** No two entries share an href. */
  lemma HrefsDistinct()
    ensures forall i, j :: 0 <= i < j < |MenuItems| ==> MenuItems[i].href != MenuItems[j].href
  {
  }

  /** A path shorter than "/dashboard/dashboard/" is active only by an exact match. */
  lemma {:induction false} ShortPathsMatchExactly(path: string, k: int)
    requires 0 <= k < |MenuItems|
    requires |path| < 21
    ensures IsActive(path, MenuItems[k].href) <==> path == MenuItems[k].href
  {
    assert |MenuItems[k].href + "/dashboard/"| >= 21;
  }

  /** On the order list, "Order Lists" is the one entry highlighted; "Overview" is not. */
  lemma {:induction false} OrdersPathHighlightsOrderLists()
    ensures ActiveItems("/dashboard/orders") == [MenuItems[1]]
    ensures !IsActive("/dashboard/orders", "/dashboard")
  {
    var path := "/dashboard/orders";
    forall k | 0 <= k < |MenuItems|
      ensures IsActive(path, MenuItems[k].href) <==> k == 1
    {
      ShortPathsMatchExactly(path, k);
    }
    FilterSingleHit(MenuItems, (m: MenuItem) => IsActive(path, m.href), 1);
  }

  /** A page below an entry, such as "/dashboard/orders/x", highlights no entry. */
  lemma {:induction false} NestedPathHighlightsNothing()
    ensures ActiveItems("/dashboard/orders/x") == []
  {
    var path := "/dashboard/orders/x";
    forall k | 0 <= k < |MenuItems|
      ensures !IsActive(path, MenuItems[k].href)
    {
      ShortPathsMatchExactly(path, k);
    }
    FilterKeepsNone(MenuItems, (m: MenuItem) => IsActive(path, m.href));
  }
}
