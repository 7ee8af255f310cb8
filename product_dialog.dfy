/** The product editor of components/products/product-dialog.tsx: the form
    (name, category id, description and price as text), the product photo,
    the ingredient rows, what opening the dialog loads, and what submitting
    validates and sends. Backend replies and FileReader results are inputs. */
module ProductDialog {
  import opened Wrappers
  import opened Strings
  import opened Seqs
  import opened Types
  import CategoriesPage

  /** The three ways the dialog is opened. */
  datatype Mode = AddMode | EditMode | ViewMode

  /** An ingredient row's image: none, a newly chosen file, or the URL of a
      stored image. */
  datatype IngredientImage = NoImage | ImageFile(file: FileRef) | ImageUrl(url: string)

  /** One ingredient row (`Ingredient` in the dialog). */
  datatype Ingredient = Ingredient(name: string, image: IngredientImage, preview: Option<string>)

  /** `{ name: "", image: undefined, preview: "" }`: the row "Add More Ingredient" appends. */
  const BlankIngredient: Ingredient := Ingredient("", NoImage, Some(""))

  /** The text fields of the form. */
  datatype FormData = FormData(name: string, category: string, description: string, price: string)

  const EmptyForm: FormData := FormData("", "", "", "")

  /** `addIngredient`: one blank row appended, every row before it unchanged. */
  function WithIngredient(xs: seq<Ingredient>): (r: seq<Ingredient>)
    ensures |r| == |xs| + 1 && r[..|xs|] == xs && r[|xs|] == BlankIngredient
  {
    xs + [BlankIngredient]
  }

  /** `xs.filter((_, i) => i !== index)`: the rows whose position is not `index`. */
  function ExceptIndex(xs: seq<Ingredient>, index: int): (r: seq<Ingredient>)
    ensures |r| == if 0 <= index < |xs| then |xs| - 1 else |xs|
    ensures forall k :: 0 <= k < |r| ==> r[k] in xs
  {
    if xs == [] then []
    else (if index == 0 then [] else [xs[0]]) + ExceptIndex(xs[1..], index - 1)
  }

  /** Dropping by position removes exactly the row at `index`, or nothing
      when `index` names no row. */
  lemma {:induction false} ExceptIndexRemoves(xs: seq<Ingredient>, index: int)
    ensures 0 <= index < |xs| ==> ExceptIndex(xs, index) == xs[..index] + xs[index + 1..]
    ensures !(0 <= index < |xs|) ==> ExceptIndex(xs, index) == xs
  {
    if xs != [] {
      ExceptIndexRemoves(xs[1..], index - 1);
      if index == 0 {
        assert xs[1..] == xs[..0] + xs[1..];
      } else if 0 < index < |xs| {
        assert [xs[0]] + (xs[1..][..index - 1] + xs[1..][index..]) == xs[..index] + xs[index + 1..];
      } else {
        assert [xs[0]] + xs[1..] == xs;
      }
    }
  }

  /** `removeIngredient`: the row at `index` goes, but only while more than
      one row is left, so the list never becomes empty. */
  function WithoutIngredient(xs: seq<Ingredient>, index: int): (r: seq<Ingredient>)
    ensures |xs| <= 1 ==> r == xs
    ensures |xs| >= 1 ==> |r| >= 1
    ensures |xs| > 1 && 0 <= index < |xs| ==> r == xs[..index] + xs[index + 1..]
    ensures !(0 <= index < |xs|) ==> r == xs
  {
    ExceptIndexRemoves(xs, index);
    if |xs| > 1 then ExceptIndex(xs, index) else xs
  }

  /** `updateIngredientName`: only the name of row `index` changes. */
  function Renamed(xs: seq<Ingredient>, index: nat, name: string): (r: seq<Ingredient>)
    requires index < |xs|
    ensures |r| == |xs|
    ensures r[index] == xs[index].(name := name)
    ensures forall k :: 0 <= k < |xs| && k != index ==> r[k] == xs[k]
  {
    xs[index := xs[index].(name := name)]
  }

  /** The ingredient image handler once the FileReader is done: the row gets
      the file and its data URL as preview; nothing else changes. */
  function WithIngredientImage(xs: seq<Ingredient>, index: nat, file: FileRef, dataUrl: string): (r: seq<Ingredient>)
    requires index < |xs|
    ensures |r| == |xs| && r[index].name == xs[index].name
    ensures r[index].image == ImageFile(file) && r[index].preview == Some(dataUrl)
    ensures forall k :: 0 <= k < |xs| && k != index ==> r[k] == xs[k]
  {
    xs[index := xs[index].(image := ImageFile(file), preview := Some(dataUrl))]
  }

  /** The category id the form holds for a product: the string itself, the
      object's `_id`, or "" when neither is there. */
  function CategoryIdOf(c: CategoryRef): (r: string)
    ensures c.CategoryId? ==> r == c.id
    ensures c.CategoryObject? ==> r == c.objectId.GetOr("")
    ensures c.NoCategory? ==> r == ""
  {
    match c
    case CategoryId(id) => id
    case CategoryObject(id, _) => id.GetOr("")
    case NoCategory => ""
  }

  /** The form fields loaded from a product. */
  function LoadedForm(p: Product): (f: FormData)
    ensures f.name == p.name && f.category == CategoryIdOf(p.category)
    ensures f.description == p.description.GetOr("")
    ensures f.price == IntToString(p.price)
  {
    FormData(p.name, CategoryIdOf(p.category), p.description.GetOr(""), IntToString(p.price))
  }

  /** A stored ingredient as an editable row. */
  function LoadedIngredient(i: ProductIngredient): (r: Ingredient)
    ensures r.name == i.name && r.preview == i.image
    ensures ToPayload(r) == IngredientPayload(i.name, i.image)
  {
    Ingredient(i.name, if i.image.Some? then ImageUrl(i.image.value) else NoImage, i.image)
  }

  /** The rows loaded from a product: its ingredients, or a single blank row
      when it has none. */
  function LoadedIngredients(p: Product): (r: seq<Ingredient>)
    ensures |r| >= 1
    ensures p.ingredients.None? || p.ingredients.value == [] ==> r == [BlankIngredient]
    ensures p.ingredients.Some? && p.ingredients.value != [] ==>
      r == Map(p.ingredients.value, LoadedIngredient)
  {
    if p.ingredients.Some? && |p.ingredients.value| > 0 then Map(p.ingredients.value, LoadedIngredient)
    else [BlankIngredient]
  }

  /** One entry of the `ingredients` JSON array sent with the product. */
  datatype IngredientPayload = IngredientPayload(name: string, image: Option<string>)

  /** A row as sent: its name, and its image only when that is a URL string. */
  function ToPayload(i: Ingredient): (r: IngredientPayload)
    ensures r.name == i.name
    ensures r.image.Some? <==> i.image.ImageUrl?
    ensures i.image.ImageUrl? ==> r.image == Some(i.image.url)
  {
    IngredientPayload(i.name, if i.image.ImageUrl? then Some(i.image.url) else None)
  }

  /** A row is sent when its trimmed name is not empty. */
  predicate NamedRow(i: Ingredient) {
    !IsBlank(i.name)
  }

  /** `ingredientsPayload`: the named rows, in order, each as `ToPayload`. */
  function IngredientsPayload(xs: seq<Ingredient>): (r: seq<IngredientPayload>)
    ensures |r| <= |xs|
  {
    Map(Filter(xs, NamedRow), ToPayload)
  }

  /** The names sent are exactly the non-blank row names, in row order. */
  lemma IngredientsPayloadNames(xs: seq<Ingredient>)
    ensures Map(IngredientsPayload(xs), (p: IngredientPayload) => p.name) ==
      Filter(Map(xs, (i: Ingredient) => i.name), (n: string) => !IsBlank(n))
  {
    var names := (i: Ingredient) => i.name;
    MapFilter(xs, NamedRow, names, (n: string) => !IsBlank(n));
    var f := Filter(xs, NamedRow);
    assert Map(Map(f, ToPayload), (p: IngredientPayload) => p.name) == Map(f, names);
  }

  /** Every entry sent comes from a named row, and carries an image only
      when that row's image is a stored URL. */
  lemma IngredientsPayloadSound(xs: seq<Ingredient>, k: nat)
    requires k < |IngredientsPayload(xs)|
    ensures exists j :: 0 <= j < |xs| && NamedRow(xs[j]) && IngredientsPayload(xs)[k] == ToPayload(xs[j])
  {
    var f := Filter(xs, NamedRow);
    assert f[k] in xs;
    var j :| 0 <= j < |xs| && xs[j] == f[k];
  }

  /** When no row has a name, the array sent is empty. */
  lemma NoNamedRowsSendsEmpty(xs: seq<Ingredient>)
    requires forall k :: 0 <= k < |xs| ==> IsBlank(xs[k].name)
    ensures IngredientsPayload(xs) == []
  {
    FilterKeepsNone(xs, NamedRow);
  }

  /** The multipart body of a save: name, category, description and price in
      that order, then "image" only when a photo file was chosen; the
      `ingredients` JSON entry that follows is carried as its array. */
  datatype ProductPayload = ProductPayload(fields: FormEntries, ingredients: seq<IngredientPayload>)

  function BuildPayload(f: FormData, image: Option<FileRef>, xs: seq<Ingredient>): (r: ProductPayload)
    ensures EntryNames(r.fields) == if image.Some? then ["name", "category", "description", "price", "image"]
                                    else ["name", "category", "description", "price"]
    ensures r.fields[..4] == [("name", TextValue(f.name)), ("category", TextValue(f.category)),
                              ("description", TextValue(f.description)), ("price", TextValue(f.price))]
    ensures image.Some? ==> r.fields[4] == ("image", FileValue(image.value))
    ensures r.ingredients == IngredientsPayload(xs)
  {
    var base: FormEntries := [("name", TextValue(f.name)), ("category", TextValue(f.category)),
                              ("description", TextValue(f.description)), ("price", TextValue(f.price))];
    assert EntryNames(base) == ["name", "category", "description", "price"];
    if image.Some? then
      var fields := base + [("image", FileValue(image.value))];
      assert fields[..4] == base;
      assert EntryNames(fields) == EntryNames(base) + ["image"];
      ProductPayload(fields, IngredientsPayload(xs))
    else
      ProductPayload(base, IngredientsPayload(xs))
  }

  /** The request a save issues. */
  datatype ProductCall = CreateProduct(payload: ProductPayload) | UpdateProduct(id: string, payload: ProductPayload)

  /** Where `handleSubmit` goes before any request settles: nothing in view
      mode; a toast when a required field is empty; a `TypeError` when
      editing without a product (`product!._id`); else the request. */
  datatype SubmitPlan = ViewOnly | MissingFields | MissingProduct | Send(call: ProductCall)

  function PlanSubmit(mode: Mode, product: Option<Product>, f: FormData, image: Option<FileRef>, xs: seq<Ingredient>): (r: SubmitPlan)
    ensures r == ViewOnly <==> mode.ViewMode?
    ensures r == MissingFields <==> !mode.ViewMode? && (f.name == "" || f.category == "" || f.price == "")
    ensures r.Send? ==> f.name != "" && f.category != "" && f.price != ""
    ensures r.Send? ==> r.call.payload == BuildPayload(f, image, xs)
    ensures r.Send? && mode.AddMode? ==> r.call.CreateProduct?
    ensures r.Send? && mode.EditMode? ==> product.Some? && r.call == UpdateProduct(product.value.id, r.call.payload)
    ensures r == MissingProduct <==> mode.EditMode? && f.name != "" && f.category != "" && f.price != "" && product.None?
  {
    if mode.ViewMode? then ViewOnly
    else if f.name == "" || f.category == "" || f.price == "" then MissingFields
    else if mode.AddMode? then Send(CreateProduct(BuildPayload(f, image, xs)))
    else if product.None? then MissingProduct
    else Send(UpdateProduct(product.value.id, BuildPayload(f, image, xs)))
  }

  /** The categories offered in the select after `loadCategories`, and its
      toast: the response normalised as on the categories page, or `[]` with
      "Failed to load categories" when the call rejected (`None`) or resolved
      with `null`/`undefined`, whose `.data` throws. */
  function LoadedCategories(res: Option<CategoriesPage.Json>): (r: (seq<Category>, Option<Toast>))
    ensures res.None? || res.value.JNull? ==> r == ([], Some(ErrorToast("Failed to load categories")))
    ensures res.Some? && !res.value.JNull? ==> r == (CategoriesPage.CategoriesOf(res.value), None)
  {
    if res.None? || res.value.JNull? then ([], Some(ErrorToast("Failed to load categories")))
    else (CategoriesPage.CategoriesOf(res.value), None)
  }

  /** The dialog's state. */
  class Editor {
    var formData: FormData
    var productImage: Option<FileRef>
    var productImagePreview: string
    var ingredients: seq<Ingredient>
    var loading: bool
    var categories: seq<Category>

    /** There is always at least one ingredient row. */
    ghost predicate Valid()
      reads this
    {
      |ingredients| >= 1
    }

    /** The initial `useState` values. */
    constructor ()
      ensures Valid()
      ensures formData == EmptyForm && productImage == None && productImagePreview == ""
      ensures ingredients == [BlankIngredient] && !loading && categories == []
    {
      formData := EmptyForm;
      productImage := None;
      productImagePreview := "";
      ingredients := [BlankIngredient];
      loading := false;
      categories := [];
    }

    /** `resetForm`. */
    method ResetForm()
      modifies this
      ensures Valid()
      ensures formData == EmptyForm && productImage == None && productImagePreview == ""
      ensures ingredients == [BlankIngredient]
      ensures loading == old(loading) && categories == old(categories)
    {
      formData := EmptyForm;
      productImage := None;
      productImagePreview := "";
      ingredients := [BlankIngredient];
    }

    /** The load effect on `[open, product, mode]`, without the category
        request it starts (see `SetCategories`). A closed dialog is left
        alone; editing or viewing a product loads it, keeping any photo file
        already chosen; anything else resets the form. */
    method Load(open: bool, product: Option<Product>, mode: Mode)
      requires Valid()
      modifies this
      ensures Valid()
      ensures loading == old(loading) && categories == old(categories)
      ensures !open ==>
        formData == old(formData) && productImage == old(productImage) &&
        productImagePreview == old(productImagePreview) && ingredients == old(ingredients)
      ensures open && product.Some? && !mode.AddMode? ==>
        formData == LoadedForm(product.value) &&
        productImagePreview == product.value.image.GetOr("") &&
        ingredients == LoadedIngredients(product.value) &&
        productImage == old(productImage)
      ensures open && (product.None? || mode.AddMode?) ==>
        formData == EmptyForm && productImage == None && productImagePreview == "" &&
        ingredients == [BlankIngredient]
    {
      if !open {
        return;
      }
      if product.Some? && (mode.EditMode? || mode.ViewMode?) {
        var p := product.value;
        formData := LoadedForm(p);
        productImagePreview := if p.image.Some? && p.image.value != "" then p.image.value else "";
        ingredients := LoadedIngredients(p);
      } else {
        ResetForm();
      }
    }

    /** `loadCategories` once `getCategories` settled. */
    method SetCategories(res: Option<CategoriesPage.Json>) returns (toast: Option<Toast>)
      requires Valid()
      modifies this
      ensures Valid()
      ensures (categories, toast) == LoadedCategories(res)
      ensures formData == old(formData) && ingredients == old(ingredients) && loading == old(loading)
      ensures productImage == old(productImage) && productImagePreview == old(productImagePreview)
    {
      var r := LoadedCategories(res);
      categories := r.0;
      toast := r.1;
    }

    /** A text field's `onChange` (`setFormData({...formData, k: value})`). */
    method SetFormData(f: FormData)
      requires Valid()
      modifies this
      ensures Valid() && formData == f
      ensures ingredients == old(ingredients) && productImage == old(productImage)
      ensures productImagePreview == old(productImagePreview) && loading == old(loading) && categories == old(categories)
    {
      formData := f;
    }

    /** `handleProductImageChange` with the first chosen file (if any) and
        the data URL its reader produced. */
    method HandleProductImageChange(files: seq<FileRef>, dataUrl: string)
      requires Valid()
      modifies this
      ensures Valid()
      ensures files == [] ==> productImage == old(productImage) && productImagePreview == old(productImagePreview)
      ensures files != [] ==> productImage == Some(files[0]) && productImagePreview == dataUrl
      ensures formData == old(formData) && ingredients == old(ingredients)
      ensures loading == old(loading) && categories == old(categories)
    {
      if files != [] {
        productImage := Some(files[0]);
        productImagePreview := dataUrl;
      }
    }

    /** The photo's "Remove" button. */
    method RemoveProductImage()
      requires Valid()
      modifies this
      ensures Valid() && productImage == None && productImagePreview == ""
      ensures formData == old(formData) && ingredients == old(ingredients)
      ensures loading == old(loading) && categories == old(categories)
    {
      productImage := None;
      productImagePreview := "";
    }

    /** `addIngredient`. */
    method AddIngredient()
      requires Valid()
      modifies this
      ensures Valid() && ingredients == WithIngredient(old(ingredients))
      ensures formData == old(formData) && productImage == old(productImage)
      ensures productImagePreview == old(productImagePreview) && loading == old(loading) && categories == old(categories)
    {
      ingredients := ingredients + [BlankIngredient];
    }

    /** `removeIngredient(index)`. */
    method RemoveIngredient(index: int)
      requires Valid()
      modifies this
      ensures Valid() && ingredients == WithoutIngredient(old(ingredients), index)
      ensures formData == old(formData) && productImage == old(productImage)
      ensures productImagePreview == old(productImagePreview) && loading == old(loading) && categories == old(categories)
    {
      if |ingredients| > 1 {
        ingredients := ExceptIndex(ingredients, index);
        assert ingredients == WithoutIngredient(old(ingredients), index);
      }
    }

    /** `updateIngredientName(index, name)`, called from row `index`'s input. */
    method UpdateIngredientName(index: nat, name: string)
      requires Valid() && index < |ingredients|
      modifies this
      ensures Valid() && ingredients == Renamed(old(ingredients), index, name)
      ensures formData == old(formData) && productImage == old(productImage)
      ensures productImagePreview == old(productImagePreview) && loading == old(loading) && categories == old(categories)
    {
      ingredients := ingredients[index := ingredients[index].(name := name)];
    }

    /** `handleIngredientImageChange(index, e)` once its reader finished. */
    method HandleIngredientImageChange(index: nat, files: seq<FileRef>, dataUrl: string)
      requires Valid() && index < |ingredients|
      modifies this
      ensures Valid()
      ensures ingredients == if files == [] then old(ingredients)
                             else WithIngredientImage(old(ingredients), index, files[0], dataUrl)
      ensures formData == old(formData) && productImage == old(productImage)
      ensures productImagePreview == old(productImagePreview) && loading == old(loading) && categories == old(categories)
    {
      if files != [] {
        ingredients := ingredients[index := ingredients[index].(image := ImageFile(files[0]), preview := Some(dataUrl))];
      }
    }

    /** `handleSubmit`, with `outcome` the settling of the create or update
        request. Returns the plan, the toast shown, and whether the dialog
        asked to close (after `onSuccess`). A sent request that resolves
        resets the form; loading is false whenever the request path was taken. */
    method HandleSubmit(mode: Mode, product: Option<Product>, outcome: CallOutcome)
      returns (plan: SubmitPlan, toast: Option<Toast>, closed: bool)
      requires Valid()
      modifies this
      ensures Valid()
      ensures plan == PlanSubmit(mode, product, old(formData), old(productImage), old(ingredients))
      ensures plan == ViewOnly ==> toast == None && !closed && loading == old(loading)
      ensures plan == MissingFields ==>
        toast == Some(ErrorToast("Please fill in all required fields")) && !closed && loading == old(loading)
      ensures plan == MissingProduct ==> toast == Some(ErrorToast("Failed to save product")) && !closed
      ensures plan.Send? && outcome.Resolved? ==>
        closed && toast == Some(SuccessToast(if mode.AddMode? then "Product added successfully" else "Product updated successfully"))
      ensures plan.Send? && outcome.Rejected? ==>
        !closed && toast == Some(ErrorToast(RejectionText(outcome, "Failed to save product")))
      ensures plan == MissingProduct || plan.Send? ==> !loading
      ensures closed ==>
        formData == EmptyForm && productImage == None && productImagePreview == "" && ingredients == [BlankIngredient]
      ensures !closed ==>
        formData == old(formData) && productImage == old(productImage) &&
        productImagePreview == old(productImagePreview) && ingredients == old(ingredients)
      ensures categories == old(categories)
    {
      plan := PlanSubmit(mode, product, formData, productImage, ingredients);
      toast := None;
      closed := false;
      if plan == ViewOnly {
        return;
      }
      if plan == MissingFields {
        toast := Some(ErrorToast("Please fill in all required fields"));
        return;
      }
      loading := true;
      if plan == MissingProduct {
        toast := Some(ErrorToast("Failed to save product"));
      } else if outcome.Resolved? {
        toast := Some(SuccessToast(if mode.AddMode? then "Product added successfully" else "Product updated successfully"));
        closed := true;
        ResetForm();
      } else {
        toast := Some(ErrorToast(RejectionText(outcome, "Failed to save product")));
      }
      loading := false;
    }
  }
}
