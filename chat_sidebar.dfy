/** The conversation list of components/chat/ChatSidebar.tsx: the search box,
    which row is highlighted, and what a click on a row asks the page to do. */
module ChatSidebar {
  import opened Wrappers
  import opened Strings
  import opened Seqs

  /** A row of the list (`Customer` in ChatSidebar.tsx). */
  datatype Customer = Customer(
    id: string,
    name: string,
    email: string,
    conversationId: Option<string>,
    lastMessagePreview: Option<string>,
    hasUnread: Option<bool>)

  /** A lowercased query `q` matches a customer when it occurs in the
      lowercased name, email or last-message preview (a missing preview is ""). */
  predicate Matches(c: Customer, q: string) {
    || Contains(ToLower(c.name), q)
    || Contains(ToLower(c.email), q)
    || Contains(ToLower(c.lastMessagePreview.GetOr("")), q)
  }

  /** The `filtered` memo: an empty lowercased query returns the list itself,
      any other keeps, in order, the customers it matches. */
  function Filtered(customers: seq<Customer>, search: string): (r: seq<Customer>)
    ensures search == "" ==> r == customers
    ensures |r| <= |customers|
  {
    var q := ToLower(search);
    if q == [] then customers else Filter(customers, c => Matches(c, q))
  }

  /** The search shows an order-preserving sub-sequence of the customers. */
  lemma FilteredIsSubseq(customers: seq<Customer>, search: string)
    ensures IsSubseq(Filtered(customers, search), customers)
  {
    var q := ToLower(search);
    if q != [] {
      FilterIsSubseq(customers, c => Matches(c, q));
    } else {
      FilterKeepsAll(customers, c => true);
      FilterIsSubseq(customers, c => true);
    }
  }

  /** The early return for an empty query agrees with filtering by that
      query: every string contains "", so every customer would be kept anyway. */
  lemma {:induction false} EmptyQueryKeepsAll(customers: seq<Customer>)
    ensures Filter(customers, c => Matches(c, "")) == Filtered(customers, "")
  {
    forall i | 0 <= i < |customers| ensures Matches(customers[i], "") {
      ContainsEmpty(ToLower(customers[i].name));
    }
    FilterKeepsAll(customers, c => Matches(c, ""));
  }

  /** A listed customer is shown exactly when the lowercased query matches it. */
  lemma {:induction false} FilteredKeepsIff(customers: seq<Customer>, search: string, i: nat)
    requires i < |customers|
    ensures customers[i] in Filtered(customers, search) <==> Matches(customers[i], ToLower(search))
  {
    if ToLower(search) == [] {
      assert search == [];
      ContainsEmpty(ToLower(customers[i].name));
    }
  }

  /** A shown customer is one of the list's customers and matches the query. */
  lemma FilteredSound(customers: seq<Customer>, search: string, j: nat)
    requires j < |Filtered(customers, search)|
    ensures Filtered(customers, search)[j] in customers
    ensures Matches(Filtered(customers, search)[j], ToLower(search))
  {
    if ToLower(search) == [] {
      ContainsEmpty(ToLower(customers[j].name));
    }
  }

  /** "No conversations found" is displayed exactly when no customer matches. */
  lemma {:induction false} NoConversationsIff(customers: seq<Customer>, search: string)
    ensures Filtered(customers, search) == [] <==>
      forall i :: 0 <= i < |customers| ==> !Matches(customers[i], ToLower(search))
  {
    var r := Filtered(customers, search);
    if r != [] {
      FilteredSound(customers, search, 0);
      var k :| 0 <= k < |customers| && customers[k] == r[0];
      assert Matches(customers[k], ToLower(search));
    } else {
      forall i | 0 <= i < |customers| ensures !Matches(customers[i], ToLower(search)) {
        FilteredKeepsIff(customers, search, i);
      }
    }
  }

  /** What a click on a row asks the page to do. */
  datatype ClickAction = SelectCustomer(customer: Customer) | StartConversation(customer: Customer)

  /** `c.conversationId ? onSelectCustomer(c) : onStartConversation(c)`: an
      existing (truthy) conversation is opened, otherwise one is started; the
      action always carries the clicked customer. */
  function OnClick(c: Customer): (a: ClickAction)
    ensures a.customer == c
    ensures a.SelectCustomer? <==> c.conversationId.Some? && c.conversationId.value != ""
  {
    if c.conversationId.Some? && c.conversationId.value != "" then SelectCustomer(c) else StartConversation(c)
  }

  /** `selectedCustomer?.id === c.id`: nothing is highlighted without a selection. */
  function IsSelected(selected: Option<Customer>, c: Customer): (b: bool)
    ensures selected.None? ==> !b
    ensures b <==> selected.Some? && selected.value.id == c.id
  {
    match selected
    case None => false
    case Some(s) => s.id == c.id
  }

  /** Rows of distinct ids: then one selection highlights at most one row. */
  lemma SelectionHighlightsOneRow(rows: seq<Customer>, selected: Option<Customer>, i: nat, j: nat)
    requires forall a, b :: 0 <= a < b < |rows| ==> rows[a].id != rows[b].id
    requires i < |rows| && j < |rows|
    requires IsSelected(selected, rows[i]) && IsSelected(selected, rows[j])
    ensures i == j
  {
  }

  /** `c.lastMessagePreview || c.email`: the second line of a row. */
  function PreviewLine(c: Customer): (s: string)
    ensures c.lastMessagePreview.Some? && c.lastMessagePreview.value != "" ==> s == c.lastMessagePreview.value
    ensures c.lastMessagePreview.None? || c.lastMessagePreview.value == "" ==> s == c.email
  {
    match c.lastMessagePreview
    case Some(p) => if p != "" then p else c.email
    case None => c.email
  }
}
