/**
 * The edit-product dialog (app/inventory/EditProductModal.tsx): the form
 * filled from the product being edited, the effects that refill it and pick
 * a category, the gated input handlers and `handleSubmit`.
 *
 * The update call `updateInventoryProduct` is not run: `Submit` returns the
 * product id and payload it would send and takes what the call reports back
 * as the parameter `outcome`. `price.toString()` on a JavaScript number is
 * the parameter `priceText`.
 */
module EditProductModal {
  import opened Wrappers
  import Text
  import opened ProductForm

  const UpdateFailed := "Failed to update product."

  /** The fields of the product being edited that the form reads; a null category id is read as "". */
  datatype EditedProduct = EditedProduct(
    id: string, name: string, categoryId: string,
    stockQuantity: Option<int>, reorderLevel: Option<int>, price: Option<real>)

  /** `n?.toString() || ""` for the whole-number fields. */
  function IntText(n: Option<int>): (r: string)
    ensures n.None? <==> r == ""
    ensures n.Some? ==> r == Text.IntToString(n.value)
  {
    if n.Some? then Text.IntToString(n.value) else ""
  }

  /** `price?.toString() || ""`. */
  function PriceText(price: Option<real>, priceText: real -> string): string {
    if price.Some? && priceText(price.value) != "" then priceText(price.value) else ""
  }

  /** The form the effect writes for `product`, and the state `useState` starts from. */
  function FormOf(p: EditedProduct, priceText: real -> string): FormData {
    FormData(p.name, p.categoryId, IntText(p.stockQuantity), IntText(p.reorderLevel), PriceText(p.price, priceText))
  }

  /** `useState({ productName: product?.name || "", ... })`: all empty without a product. */
  function InitialForm(product: Option<EditedProduct>, priceText: real -> string): (r: FormData)
    ensures product.None? ==> r == FormData("", "", "", "", "")
    ensures product.Some? ==> r == FormOf(product.value, priceText)
  {
    if product.Some? then FormOf(product.value, priceText) else FormData("", "", "", "", "")
  }

  class EditProductModal {
    var formData: FormData
    var submitting: bool
    var error: string
    /** The `product` prop; `None` for `null` or `undefined`. */
    var product: Option<EditedProduct>
    const categories: seq<Category>
    const parseInt: string -> Num
    const parseFloat: string -> Num
    const priceText: real -> string

    constructor (product: Option<EditedProduct>, categories: seq<Category>,
                 parseInt: string -> Num, parseFloat: string -> Num, priceText: real -> string)
      ensures this.product == product && this.categories == categories
      ensures this.parseInt == parseInt && this.parseFloat == parseFloat && this.priceText == priceText
      ensures formData == InitialForm(product, priceText)
      ensures !submitting && error == ""
    {
      this.product := product;
      this.categories := categories;
      this.parseInt := parseInt;
      this.parseFloat := parseFloat;
      this.priceText := priceText;
      formData := InitialForm(product, priceText);
      submitting := false;
      error := "";
    }

    /**
     * A new `product` prop and the effect keyed on it: a product refills the
     * whole form from its fields, no product leaves the form as it was.
     */
    method SetProduct(p: Option<EditedProduct>)
      modifies this
      ensures product == p
      ensures p.Some? ==> formData == FormOf(p.value, priceText)
      ensures p.None? ==> formData == old(formData)
      ensures submitting == old(submitting) && error == old(error)
    {
      product := p;
      if p.Some? {
        formData := FormOf(p.value, priceText);
      }
    }

    /** The effect that selects the first category while none is selected. */
    method SyncCategory()
      modifies this
      ensures formData == WithDefaultCategory(old(formData), categories)
      ensures formData.category == CategoryIdFor(old(formData), categories)
      ensures product == old(product) && submitting == old(submitting) && error == old(error)
    {
      CategoryFallback(formData, categories);
      if |categories| > 0 && formData.category == "" {
        formData := formData.(category := categories[0].id);
      }
    }

    /** An input's `onChange`, through its gate when the input is numeric. */
    method Change(field: Field, value: string)
      modifies this
      ensures formData == Changed(old(formData), field, value, parseInt, parseFloat)
      ensures GatesHold(old(formData), parseInt, parseFloat) ==> GatesHold(formData, parseInt, parseFloat)
      ensures product == old(product) && submitting == old(submitting) && error == old(error)
    {
      if GatesHold(formData, parseInt, parseFloat) {
        ChangedKeepsGates(formData, field, value, parseInt, parseFloat);
      }
      match field
      case ProductName =>
        formData := WithField(formData, field, value);
      case CategoryField =>
        formData := WithField(formData, field, value);
      case InitialStock =>
        if value == "" || AtLeastZero(parseInt(value)) {
          formData := WithField(formData, field, value);
        }
      case ReorderLevel =>
        if value == "" || AtLeastZero(parseInt(value)) {
          formData := WithField(formData, field, value);
        }
      case Price =>
        if value == "" || AtLeastZero(parseFloat(value)) {
          formData := WithField(formData, field, value);
        }
    }

    /**
     * `handleSubmit`. Without a product nothing happens, not even clearing the
     * error. Otherwise a failed check sets its message and sends nothing; when
     * all pass, the update carries the product's id with the trimmed name, the
     * resolved category and the parsed numbers. A successful save closes the
     * dialog; a failed or throwing one sets the reported message or "Failed
     * to update product.". The form is never reset.
     */
    method Submit(outcome: SaveOutcome) returns (request: Option<(string, Draft)>, closed: bool)
      modifies this
      ensures formData == old(formData) && product == old(product)
      ensures old(product).None? ==>
        request == None && !closed && error == old(error) && submitting == old(submitting)
      ensures var c := Validate(old(formData), categories, parseInt, parseFloat);
        && (old(product).Some? && c.Rejected? ==>
              request == None && !closed && error == c.message && submitting == old(submitting))
        && (old(product).Some? && c.Accepted? ==>
              request == Some((old(product).value.id, c.draft)) && !submitting)
        && (old(product).Some? && c.Accepted? && outcome.Saved? ==> closed && error == "")
        && (old(product).Some? && c.Accepted? && !outcome.Saved? ==>
              !closed && error == SaveError(outcome, UpdateFailed))
    {
      if product.None? {
        return None, false;
      }
      var id := product.value.id;
      var checked := Validate(formData, categories, parseInt, parseFloat);
      error := "";
      if checked.Rejected? {
        error := checked.message;
        return None, false;
      }
      submitting := true;
      request := Some((id, checked.draft));
      match outcome {
        case Saved =>
          closed := true;
        case Failed(e) =>
          error := ErrorOr(e, UpdateFailed);
          closed := false;
        case Threw(m) =>
          error := ErrorOr(m, UpdateFailed);
          closed := false;
      }
      submitting := false;
    }
  }

  /**
   * The form for a product shows its name and category as they are, its
   * whole numbers in decimal, and leaves a field empty exactly when the
   * product's value is null (for the price, also when its text is empty).
   */
  lemma FormOfProduct(p: EditedProduct, priceText: real -> string)
    ensures var f := FormOf(p, priceText);
      && f.productName == p.name && f.category == p.categoryId
      && (f.initialStock == "" <==> p.stockQuantity.None?)
      && (f.reorderLevel == "" <==> p.reorderLevel.None?)
      && (p.stockQuantity.Some? ==> f.initialStock == Text.IntToString(p.stockQuantity.value))
      && (p.reorderLevel.Some? ==> f.reorderLevel == Text.IntToString(p.reorderLevel.value))
      && (f.price == "" <==> p.price.None? || priceText(p.price.value) == "")
  {
  }

  /**
   * A product with a non-blank name, a category id and non-negative stock and
   * reorder level, whose price reads back as a non-negative number, passes
   * every check as loaded: the request repeats the product's own values.
   */
  lemma UnchangedProductAccepted(p: EditedProduct, categories: seq<Category>,
                                 parseInt: string -> Num, parseFloat: string -> Num, priceText: real -> string)
    requires !Text.AllSpace(p.name) && p.categoryId != ""
    requires p.stockQuantity.Some? && p.reorderLevel.Some? && p.price.Some?
    requires AtLeastZero(parseInt(Text.IntToString(p.stockQuantity.value)))
    requires AtLeastZero(parseInt(Text.IntToString(p.reorderLevel.value)))
    requires AtLeastZero(parseFloat(PriceText(p.price, priceText)))
    ensures Validate(FormOf(p, priceText), categories, parseInt, parseFloat)
      == Accepted(Draft(Text.Trim(p.name), p.categoryId,
                        parseInt(Text.IntToString(p.stockQuantity.value)),
                        parseInt(Text.IntToString(p.reorderLevel.value)),
                        parseFloat(PriceText(p.price, priceText))))
  {
    ValidateOutcome(FormOf(p, priceText), categories, parseInt, parseFloat);
  }
}
