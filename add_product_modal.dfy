/**
 * The add-product dialog (app/inventory/AddProductModal.tsx): its form state,
 * the category effect, the gated input handlers, `resetForm` and
 * `handleSubmit`.
 *
 * The create call `createInventoryProduct` is not run: `Submit` returns the
 * request it would send and takes what the call reports back as the
 * parameter `outcome`. `onAdded` and `onClose` are reported by the result
 * `closed`.
 */
module AddProductModal {
  import opened Wrappers
  import opened ProductForm

  const AddFailed := "Failed to add product."

  class AddProductModal {
    var formData: FormData
    var submitting: bool
    var error: string
    /** The `categories` prop. */
    const categories: seq<Category>
    /** `parseInt(_, 10)` and `parseFloat` as the browser evaluates them. */
    const parseInt: string -> Num
    const parseFloat: string -> Num

    /** The numeric fields only ever hold text their gates let through. */
    predicate Valid()
      reads this
    {
      GatesHold(formData, parseInt, parseFloat)
    }

    /** The three `useState` calls: an empty form, not submitting, no error. */
    constructor (categories: seq<Category>, parseInt: string -> Num, parseFloat: string -> Num)
      ensures formData == FormData("", "", "", "", "") && !submitting && error == ""
      ensures this.categories == categories && this.parseInt == parseInt && this.parseFloat == parseFloat
      ensures Valid()
    {
      this.categories := categories;
      this.parseInt := parseInt;
      this.parseFloat := parseFloat;
      formData := FormData("", "", "", "", "");
      submitting := false;
      error := "";
    }

    /** The effect that selects the first category while none is selected. */
    method SyncCategory()
      requires Valid()
      modifies this
      ensures Valid()
      ensures formData == WithDefaultCategory(old(formData), categories)
      ensures formData.category == CategoryIdFor(old(formData), categories)
      ensures submitting == old(submitting) && error == old(error)
    {
      CategoryFallback(formData, categories);
      if |categories| > 0 && formData.category == "" {
        formData := formData.(category := categories[0].id);
      }
    }

    /** An input's `onChange`, through its gate when the input is numeric. */
    method Change(field: Field, value: string)
      requires Valid()
      modifies this
      ensures Valid()
      ensures formData == Changed(old(formData), field, value, parseInt, parseFloat)
      ensures submitting == old(submitting) && error == old(error)
    {
      ChangedKeepsGates(formData, field, value, parseInt, parseFloat);
      match field
      case ProductName =>
        formData := WithField(formData, field, value);
      case CategoryField =>
        formData := WithField(formData, field, value);
      case InitialStock =>
        if value == "" || AtLeastZero(parseInt(value)) {
          formData := WithField(formData, field, value);
        }
      case ReorderLevel =>
        if value == "" || AtLeastZero(parseInt(value)) {
          formData := WithField(formData, field, value);
        }
      case Price =>
        if value == "" || AtLeastZero(parseFloat(value)) {
          formData := WithField(formData, field, value);
        }
    }

    /** `resetForm`: every field empty except the category, set to the first one's id. */
    method ResetForm()
      modifies this
      ensures Valid()
      ensures formData == BlankForm(categories)
      ensures submitting == old(submitting) && error == old(error)
    {
      BlankFormGates(categories, parseInt, parseFloat);
      formData := FormData("", FirstCategoryId(categories), "", "", "");
    }

    /**
     * `handleSubmit`. A failed check sets its message and sends nothing.
     * Otherwise the create request carries the trimmed name, the resolved
     * category and the parsed numbers; a successful save resets the form and
     * closes the dialog, a failed or throwing one leaves the form as it was
     * with the reported message or "Failed to add product.".
     */
    method Submit(outcome: SaveOutcome) returns (request: Option<Draft>, closed: bool)
      requires Valid()
      modifies this
      ensures Valid()
      ensures var c := Validate(old(formData), categories, parseInt, parseFloat);
        && (c.Rejected? ==>
              request == None && !closed && error == c.message
              && formData == old(formData) && submitting == old(submitting))
        && (c.Accepted? ==> request == Some(c.draft) && !submitting)
        && (c.Accepted? && outcome.Saved? ==> closed && error == "" && formData == BlankForm(categories))
        && (c.Accepted? && !outcome.Saved? ==>
              !closed && error == SaveError(outcome, AddFailed) && formData == old(formData))
    {
      error := "";
      var checked := Validate(formData, categories, parseInt, parseFloat);
      if checked.Rejected? {
        error := checked.message;
        return None, false;
      }
      submitting := true;
      request := Some(checked.draft);
      match outcome {
        case Saved =>
          ResetForm();
          closed := true;
        case Failed(e) =>
          error := ErrorOr(e, AddFailed);
          closed := false;
        case Threw(m) =>
          error := ErrorOr(m, AddFailed);
          closed := false;
      }
      submitting := false;
    }
  }
}
