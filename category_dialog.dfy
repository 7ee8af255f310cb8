/** The category editor of components/categories/category-dialog.tsx: name,
    image, preview and background colour, what opening the dialog loads,
    and what submitting validates and sends. Backend replies and FileReader
    results are inputs. */
module CategoryDialog {
  import opened Wrappers
  import opened Types
  import opened CategoriesPage

  /** The colour a reset form starts from. */
  const DefaultBgColor: string := "#ffffff"

  /** The first validation message of `handleSubmit`, if any: the name is
      checked before the colour. */
  function ValidationError(name: string, bgColor: string): (r: Option<string>)
    ensures r.None? <==> name != "" && bgColor != ""
    ensures name == "" ==> r == Some("Please enter a category name")
    ensures name != "" && bgColor == "" ==> r == Some("Please choose a background color")
  {
    if name == "" then Some("Please enter a category name")
    else if bgColor == "" then Some("Please choose a background color")
    else None
  }

  /** The `FormData` a save sends, appended field by field: name, bgColor,
      and image only when a file was chosen. */
  method BuildForm(name: string, bgColor: string, image: Option<FileRef>) returns (form: FormEntries)
    ensures EntryNames(form) == if image.Some? then ["name", "bgColor", "image"] else ["name", "bgColor"]
    ensures form[0] == ("name", TextValue(name)) && form[1] == ("bgColor", TextValue(bgColor))
    ensures image.Some? ==> form[2] == ("image", FileValue(image.value))
  {
    form := [];
    form := form + [("name", TextValue(name))];
    form := form + [("bgColor", TextValue(bgColor))];
    if image.Some? {
      form := form + [("image", FileValue(image.value))];
    }
  }

  /** The request a save issues. */
  datatype CategoryCall = CreateCategory(form: FormEntries) | UpdateCategory(id: string, form: FormEntries)

  /** The dialog's state. */
  class Editor {
    var name: string
    var image: Option<FileRef>
    var imagePreview: string
    var bgColor: string
    var loading: bool

    /** The initial `useState` values. */
    constructor ()
      ensures name == "" && image == None && imagePreview == "" && bgColor == DefaultBgColor && !loading
    {
      name := "";
      image := None;
      imagePreview := "";
      bgColor := DefaultBgColor;
      loading := false;
    }

    /** `resetForm`. */
    method ResetForm()
      modifies this
      ensures name == "" && image == None && imagePreview == "" && bgColor == DefaultBgColor
      ensures loading == old(loading)
    {
      name := "";
      image := None;
      imagePreview := "";
      bgColor := DefaultBgColor;
    }

    /** The load effect on `[open, category, mode]`: editing a category loads
        its name, image URL (or "") and colour (or the default), keeping any
        file already chosen; otherwise the form is reset; a closed dialog is
        left alone. */
    method Load(open: bool, category: Option<Category>, mode: CategoryMode)
      modifies this
      ensures loading == old(loading)
      ensures !open ==>
        name == old(name) && image == old(image) && imagePreview == old(imagePreview) && bgColor == old(bgColor)
      ensures open && category.Some? && mode.EditCategory? ==>
        name == category.value.name &&
        imagePreview == category.value.image.GetOr("") &&
        bgColor == (if category.value.bgColor.Some? && category.value.bgColor.value != ""
                    then category.value.bgColor.value else DefaultBgColor) &&
        image == old(image)
      ensures open && !(category.Some? && mode.EditCategory?) ==>
        name == "" && image == None && imagePreview == "" && bgColor == DefaultBgColor
    {
      if open {
        if category.Some? && mode.EditCategory? {
          var c := category.value;
          name := c.name;
          imagePreview := if c.image.Some? && c.image.value != "" then c.image.value else "";
          bgColor := if c.bgColor.Some? && c.bgColor.value != "" then c.bgColor.value else DefaultBgColor;
        } else {
          ResetForm();
        }
      }
    }

    /** The name input's `onChange`. */
    method SetName(v: string)
      modifies this
      ensures name == v && image == old(image) && imagePreview == old(imagePreview)
      ensures bgColor == old(bgColor) && loading == old(loading)
    {
      name := v;
    }

    /** Either colour input's `onChange`. */
    method SetBgColor(v: string)
      modifies this
      ensures bgColor == v && name == old(name) && image == old(image)
      ensures imagePreview == old(imagePreview) && loading == old(loading)
    {
      bgColor := v;
    }

    /** `handleImageChange` with the chosen files and the data URL the reader produced. */
    method HandleImageChange(files: seq<FileRef>, dataUrl: string)
      modifies this
      ensures files == [] ==> image == old(image) && imagePreview == old(imagePreview)
      ensures files != [] ==> image == Some(files[0]) && imagePreview == dataUrl
      ensures name == old(name) && bgColor == old(bgColor) && loading == old(loading)
    {
      if files != [] {
        image := Some(files[0]);
        imagePreview := dataUrl;
      }
    }

    /** `handleSubmit`, with `outcome` the settling of the create or update
        request. Returns the request issued (none on a validation error or
        when editing without a category, where `category!._id` throws), the
        toast, and whether the dialog asked to close. */
    method HandleSubmit(mode: CategoryMode, category: Option<Category>, outcome: CallOutcome)
      returns (call: Option<CategoryCall>, toast: Toast, closed: bool)
      modifies this
      ensures var err := ValidationError(old(name), old(bgColor));
        err.Some? ==> call.None? && toast == ErrorToast(err.value) && !closed && loading == old(loading)
      ensures ValidationError(old(name), old(bgColor)).None? ==> !loading
      ensures call.Some? ==> |call.value.form| >= 2 && call.value.form[..2] == [("name", TextValue(old(name))), ("bgColor", TextValue(old(bgColor)))]
      ensures call.Some? ==>
        EntryNames(call.value.form) == (if old(image).Some? then ["name", "bgColor", "image"] else ["name", "bgColor"])
      ensures call.Some? && old(image).Some? ==> call.value.form[2] == ("image", FileValue(old(image).value))
      ensures call.Some? ==> (call.value.CreateCategory? <==> mode.AddCategory?)
      ensures call.Some? && mode.EditCategory? ==> category.Some? && call.value.id == category.value.id
      ensures ValidationError(old(name), old(bgColor)).None? && mode.EditCategory? && category.None? ==>
        call.None? && toast == ErrorToast("Failed to save category") && !closed
      ensures ValidationError(old(name), old(bgColor)).None? && (mode.AddCategory? || category.Some?) ==>
        call.Some? &&
        (outcome.Resolved? ==> closed && toast == SuccessToast(if mode.AddCategory? then "Category added successfully" else "Category updated successfully")) &&
        (outcome.Rejected? ==> !closed && toast == ErrorToast(RejectionText(outcome, "Failed to save category")))
      ensures closed ==> name == "" && image == None && imagePreview == "" && bgColor == DefaultBgColor
      ensures !closed ==> name == old(name) && image == old(image) && imagePreview == old(imagePreview) && bgColor == old(bgColor)
    {
      call := None;
      closed := false;
      var err := ValidationError(name, bgColor);
      if err.Some? {
        toast := ErrorToast(err.value);
        return;
      }
      loading := true;
      var form := BuildForm(name, bgColor, image);
      assert form[..2] == [("name", TextValue(name)), ("bgColor", TextValue(bgColor))];
      if mode.EditCategory? && category.None? {
        toast := ErrorToast("Failed to save category");
      } else {
        call := Some(if mode.AddCategory? then CreateCategory(form) else UpdateCategory(category.value.id, form));
        if outcome.Resolved? {
          toast := SuccessToast(if mode.AddCategory? then "Category added successfully" else "Category updated successfully");
          closed := true;
          ResetForm();
        } else {
          toast := ErrorToast(RejectionText(outcome, "Failed to save category"));
        }
      }
      loading := false;
    }
  }
}
