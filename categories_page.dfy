/** The category list of app/dashboard/categories/page.tsx: turning whatever
    shape `getCategories` resolved with into a list, the name search, and
    the state of the add/edit dialog and the delete dialog. */
module CategoriesPage {
  import opened Wrappers
  import opened Strings
  import opened Seqs
  import opened Types

  /** The value `getCategories` resolves with, as far as the normalisation
      looks into it: an array of categories, an object (whose missing `data`
      or `items` property reads as `JNull`), `null`/`undefined`, or anything else. */
  datatype Json = JArray(cats: seq<Category>) | JObject(data: Json, items: Json) | JNull | JOther

  /** `v?.name` for the two properties the chain reads. */
  function Data(v: Json): Json {
    if v.JObject? then v.data else JNull
  }
  function Items(v: Json): Json {
    if v.JObject? then v.items else JNull
  }

  /** The `categories` chain: the value itself if it is an array, else
      `data`, else `data.items`, else `items`, else `[]`. */
  function CategoriesOf(v: Json): (r: seq<Category>)
    ensures v.JArray? ==> r == v.cats
    ensures v.JNull? || v.JOther? ==> r == []
  {
    if v.JArray? then v.cats
    else if Data(v).JArray? then Data(v).cats
    else if Items(Data(v)).JArray? then Items(Data(v)).cats
    else if Items(v).JArray? then Items(v).cats
    else []
  }

  /** The first candidate that is an array, or `[]`. */
  function FirstArray(candidates: seq<Json>): seq<Category> {
    if candidates == [] then []
    else if candidates[0].JArray? then candidates[0].cats
    else FirstArray(candidates[1..])
  }

  /** The chain tries, in this order, the value, its `data`, `data.items` and
      its `items`, and takes the first that is an array. */
  lemma {:induction false} CategoriesOfFirstArray(v: Json)
    ensures CategoriesOf(v) == FirstArray([v, Data(v), Items(Data(v)), Items(v)])
  {
    var c4: seq<Json> := [Items(v)];
    var c3 := [Items(Data(v))] + c4;
    var c2 := [Data(v)] + c3;
    var c1 := [v] + c2;
    assert c4[1..] == [];
    assert FirstArray(c4) == if Items(v).JArray? then Items(v).cats else [];
    assert c3[1..] == c4 && c3[0] == Items(Data(v));
    assert FirstArray(c3) == if Items(Data(v)).JArray? then Items(Data(v)).cats else FirstArray(c4);
    assert c2[1..] == c3 && c2[0] == Data(v);
    assert FirstArray(c2) == if Data(v).JArray? then Data(v).cats else FirstArray(c3);
    assert c1[1..] == c2 && c1[0] == v;
    assert FirstArray(c1) == if v.JArray? then v.cats else FirstArray(c2);
    assert c1 == [v, Data(v), Items(Data(v)), Items(v)];
  }

  /** The result lists only categories the response itself holds: it is
      always one of the arrays found at the four places. */
  lemma CategoriesOfFromResponse(v: Json)
    ensures CategoriesOf(v) == [] ||
      (v.JArray? && CategoriesOf(v) == v.cats) ||
      (Data(v).JArray? && CategoriesOf(v) == Data(v).cats) ||
      (Items(Data(v)).JArray? && CategoriesOf(v) == Items(Data(v)).cats) ||
      (Items(v).JArray? && CategoriesOf(v) == Items(v).cats)
  {
  }

  /** The search test: no query, or the lowercased name contains the lowercased query. */
  predicate NameMatches(c: Category, query: string) {
    query == "" || Contains(ToLower(c.name), ToLower(query))
  }

  /** `filteredCategories`: with a query, the categories whose lowercased
      name contains the lowercased query; without one, all of them. */
  function FilteredCategories(cats: seq<Category>, query: string): (r: seq<Category>)
    ensures |r| <= |cats|
    ensures forall i :: 0 <= i < |r| ==> r[i] in cats && NameMatches(r[i], query)
    ensures forall i :: 0 <= i < |cats| && NameMatches(cats[i], query) ==> cats[i] in r
  {
    Filter(cats, (c: Category) => NameMatches(c, query))
  }

  /** An empty query keeps every category, in order. */
  lemma EmptyQueryKeepsAll(cats: seq<Category>)
    ensures FilteredCategories(cats, "") == cats
  {
    FilterKeepsAll(cats, (c: Category) => NameMatches(c, ""));
  }

  /** The search keeps the categories in their listed order. */
  lemma FilteredIsSubseq(cats: seq<Category>, query: string)
    ensures IsSubseq(FilteredCategories(cats, query), cats)
  {
    FilterIsSubseq(cats, (c: Category) => NameMatches(c, query));
  }

  /** "No categories found" is displayed (once loaded) exactly when no
      category passes the search. */
  lemma {:induction false} NoCategoriesIff(cats: seq<Category>, query: string)
    ensures FilteredCategories(cats, query) == [] <==>
      forall i :: 0 <= i < |cats| ==> !NameMatches(cats[i], query)
  {
    var r := FilteredCategories(cats, query);
    if r != [] {
      var k :| 0 <= k < |cats| && cats[k] == r[0];
    }
  }

  /** The two modes of the category dialog. */
  datatype CategoryMode = AddCategory | EditCategory

  /** `categoryDialog` state. */
  datatype CategoryDialogState = CategoryDialogState(open: bool, mode: CategoryMode, category: Option<Category>)

  /** `deleteDialog` state. */
  datatype DeleteDialogState = DeleteDialogState(open: bool, category: Option<Category>)

  /** The page's state. */
  class Page {
    var searchQuery: string
    var categoryDialog: CategoryDialogState
    var deleteDialog: DeleteDialogState

    /** The initial `useState` values: both dialogs closed, add mode, nothing chosen. */
    constructor ()
      ensures searchQuery == ""
      ensures categoryDialog == CategoryDialogState(false, AddCategory, None)
      ensures deleteDialog == DeleteDialogState(false, None)
    {
      searchQuery := "";
      categoryDialog := CategoryDialogState(false, AddCategory, None);
      deleteDialog := DeleteDialogState(false, None);
    }

    /** The search box's `onChange`. */
    method SetSearchQuery(q: string)
      modifies this
      ensures searchQuery == q && categoryDialog == old(categoryDialog) && deleteDialog == old(deleteDialog)
    {
      searchQuery := q;
    }

    /** `handleAddCategory`. */
    method HandleAddCategory()
      modifies this
      ensures categoryDialog == CategoryDialogState(true, AddCategory, None)
      ensures deleteDialog == old(deleteDialog) && searchQuery == old(searchQuery)
    {
      categoryDialog := CategoryDialogState(true, AddCategory, None);
    }

    /** `handleEditCategory`. */
    method HandleEditCategory(c: Category)
      modifies this
      ensures categoryDialog == CategoryDialogState(true, EditCategory, Some(c))
      ensures deleteDialog == old(deleteDialog) && searchQuery == old(searchQuery)
    {
      categoryDialog := CategoryDialogState(true, EditCategory, Some(c));
    }

    /** `handleDeleteCategory`: the category dialog is left as it was. */
    method HandleDeleteCategory(c: Category)
      modifies this
      ensures deleteDialog == DeleteDialogState(true, Some(c))
      ensures categoryDialog == old(categoryDialog) && searchQuery == old(searchQuery)
    {
      deleteDialog := DeleteDialogState(true, Some(c));
    }

    /** The category dialog's `onOpenChange`: only `open` changes. */
    method SetCategoryDialogOpen(open: bool)
      modifies this
      ensures categoryDialog == old(categoryDialog).(open := open)
      ensures deleteDialog == old(deleteDialog) && searchQuery == old(searchQuery)
    {
      categoryDialog := categoryDialog.(open := open);
    }

    /** The delete dialog's `onOpenChange`: only `open` changes. */
    method SetDeleteDialogOpen(open: bool)
      modifies this
      ensures deleteDialog == old(deleteDialog).(open := open)
      ensures categoryDialog == old(categoryDialog) && searchQuery == old(searchQuery)
    {
      deleteDialog := deleteDialog.(open := open);
    }
  }
}
