/**
 * What the add-product and edit-product forms share
 * (app/inventory/AddProductModal.tsx, app/inventory/EditProductModal.tsx):
 * the form fields as strings, the numeric input gates, the category
 * fallback and the validation chain run on submit.
 *
 * `parseInt(s, 10)` and `parseFloat(s)` are parameters of type
 * `string -> Num`; their digit-by-digit reading is not modelled.
 */
module ProductForm {
  import opened Wrappers
  import Text

  /** A JavaScript number as the checks see it: NaN, a finite value, or an infinity. */
  datatype Num = NaN | Finite(v: real) | PosInf | NegInf

  datatype Category = Category(id: string, name: string)

  /** `formData`: every field is the text of its input. */
  datatype FormData = FormData(productName: string, category: string, initialStock: string, reorderLevel: string, price: string)

  /** The `name` attribute of an input, which `handleChange` uses as the key to set. */
  datatype Field = ProductName | CategoryField | InitialStock | ReorderLevel | Price

  /** The payload handed to the create or update call. */
  datatype Draft = Draft(name: string, categoryId: string, stock: Num, reorder: Num, price: Num)

  /** The outcome of the checks in `handleSubmit`: the error they set, or the payload. */
  datatype Checked = Rejected(message: string) | Accepted(draft: Draft)

  const NameRequired := "Product name is required."
  const CategoryRequired := "Please select a category."
  const NumbersInvalid := "Please enter valid non-negative numbers."

  /** `n >= 0` on a number: false for NaN and for negative values. */
  predicate AtLeastZero(n: Num) {
    match n
    case NaN => false
    case Finite(v) => v >= 0.0
    case PosInf => true
    case NegInf => false
  }

  /** The test `Number.isNaN(n) || n < 0`. */
  predicate NaNOrNegative(n: Num) {
    n.NaN? || n.NegInf? || (n.Finite? && n.v < 0.0)
  }

  /** `{ ...prev, [name]: value }`. */
  function WithField(form: FormData, field: Field, value: string): FormData {
    match field
    case ProductName => form.(productName := value)
    case CategoryField => form.(category := value)
    case InitialStock => form.(initialStock := value)
    case ReorderLevel => form.(reorderLevel := value)
    case Price => form.(price := value)
  }

  function FieldValue(form: FormData, field: Field): string {
    match field
    case ProductName => form.productName
    case CategoryField => form.category
    case InitialStock => form.initialStock
    case ReorderLevel => form.reorderLevel
    case Price => form.price
  }

  /** The numeric inputs' `onChange` gate: `value === "" || parse(value) >= 0`. */
  predicate AcceptsChange(value: string, parse: string -> Num) {
    value == "" || AtLeastZero(parse(value))
  }

  /**
   * An input's `onChange`: the name field and the category select go straight
   * to `handleChange`; the stock and reorder inputs only when the new text is
   * empty or `parseInt` reads it as at least zero, the price input likewise
   * with `parseFloat`.
   */
  function Changed(form: FormData, field: Field, value: string, parseInt: string -> Num, parseFloat: string -> Num): FormData {
    match field
    case ProductName => WithField(form, field, value)
    case CategoryField => WithField(form, field, value)
    case InitialStock => if AcceptsChange(value, parseInt) then WithField(form, field, value) else form
    case ReorderLevel => if AcceptsChange(value, parseInt) then WithField(form, field, value) else form
    case Price => if AcceptsChange(value, parseFloat) then WithField(form, field, value) else form
  }

  /** Every numeric field holds text its gate would let through. */
  predicate GatesHold(form: FormData, parseInt: string -> Num, parseFloat: string -> Num) {
    AcceptsChange(form.initialStock, parseInt) && AcceptsChange(form.reorderLevel, parseInt)
    && AcceptsChange(form.price, parseFloat)
  }

  /** `resetForm`, and the initial state of the add form once the category effect has run. */
  function BlankForm(categories: seq<Category>): FormData {
    FormData("", FirstCategoryId(categories), "", "", "")
  }

  /** `categories[0]?.id || ""`. */
  function FirstCategoryId(categories: seq<Category>): string {
    if categories != [] then categories[0].id else ""
  }

  /** `formData.category || categories[0]?.id || ""`. */
  function CategoryIdFor(form: FormData, categories: seq<Category>): string {
    if form.category != "" then form.category else FirstCategoryId(categories)
  }

  /** The effect that fills an empty category with the first category's id. */
  function WithDefaultCategory(form: FormData, categories: seq<Category>): FormData {
    if |categories| > 0 && form.category == "" then form.(category := categories[0].id) else form
  }

  /** The checks of `handleSubmit`, in their order: name, category, then the three numbers. */
  function Validate(form: FormData, categories: seq<Category>, parseInt: string -> Num, parseFloat: string -> Num): Checked {
    var stock := parseInt(form.initialStock);
    var reorder := parseInt(form.reorderLevel);
    var price := parseFloat(form.price);
    var categoryId := CategoryIdFor(form, categories);
    if Text.Trim(form.productName) == "" then Rejected(NameRequired)
    else if categoryId == "" then Rejected(CategoryRequired)
    else if NaNOrNegative(stock) || NaNOrNegative(reorder) || NaNOrNegative(price) then Rejected(NumbersInvalid)
    else Accepted(Draft(Text.Trim(form.productName), categoryId, stock, reorder, price))
  }

  /** All three numbers are at least zero, as the numeric gates ask. */
  predicate NumbersValid(form: FormData, parseInt: string -> Num, parseFloat: string -> Num) {
    AtLeastZero(parseInt(form.initialStock)) && AtLeastZero(parseInt(form.reorderLevel))
    && AtLeastZero(parseFloat(form.price))
  }

  /** `result.error || fallback`, and likewise `err?.message || fallback`. */
  function ErrorOr(error: Option<string>, fallback: string): (r: string)
    ensures error.Some? && error.value != "" ==> r == error.value
    ensures error.None? || error.value == "" ==> r == fallback
  {
    if error.Some? && error.value != "" then error.value else fallback
  }

  /** What the create or update call reports back: a result object, or an exception. */
  datatype SaveOutcome = Saved | Failed(error: Option<string>) | Threw(message: Option<string>)

  /** The error text a failed save leaves, with the modal's fallback message. */
  function SaveError(outcome: SaveOutcome, fallback: string): string
    requires !outcome.Saved?
  {
    match outcome
    case Failed(e) => ErrorOr(e, fallback)
    case Threw(m) => ErrorOr(m, fallback)
  }

  /** A number passes the check exactly when the numeric gate would take it: both ask for `>= 0`. */
  lemma CheckMatchesGate(n: Num)
    ensures NaNOrNegative(n) <==> !AtLeastZero(n)
  {
  }

  /**
   * The category is empty exactly when the form has none and there is no
   * first category with a non-empty id.
   */
  lemma CategoryFallback(form: FormData, categories: seq<Category>)
    ensures CategoryIdFor(form, categories) == "" <==>
      form.category == "" && (categories == [] || categories[0].id == "")
    ensures WithDefaultCategory(form, categories).category == CategoryIdFor(form, categories)
  {
  }

  /**
   * The first failing check decides the message: a blank name, then a
   * missing category, then a number that is NaN or negative; when all pass,
   * the payload carries the non-empty trimmed name, the resolved category
   * and the parsed numbers. The four cases cover every form and the three
   * messages differ, so each outcome happens exactly in its case.
   */
  lemma ValidateOutcome(form: FormData, categories: seq<Category>, parseInt: string -> Num, parseFloat: string -> Num)
    ensures Text.AllSpace(form.productName) ==>
      Validate(form, categories, parseInt, parseFloat) == Rejected(NameRequired)
    ensures !Text.AllSpace(form.productName) && CategoryIdFor(form, categories) == "" ==>
      Validate(form, categories, parseInt, parseFloat) == Rejected(CategoryRequired)
    ensures (!Text.AllSpace(form.productName) && CategoryIdFor(form, categories) != ""
             && !NumbersValid(form, parseInt, parseFloat)) ==>
      Validate(form, categories, parseInt, parseFloat) == Rejected(NumbersInvalid)
    ensures (!Text.AllSpace(form.productName) && CategoryIdFor(form, categories) != ""
             && NumbersValid(form, parseInt, parseFloat)) ==>
      Validate(form, categories, parseInt, parseFloat)
        == Accepted(Draft(Text.Trim(form.productName), CategoryIdFor(form, categories),
                          parseInt(form.initialStock), parseInt(form.reorderLevel), parseFloat(form.price)))
      && Text.Trim(form.productName) != ""
  {
    Text.TrimBlank(form.productName);
    var v := Validate(form, categories, parseInt, parseFloat);
    if Text.Trim(form.productName) == "" {
      assert v == Rejected(NameRequired);
    } else if CategoryIdFor(form, categories) == "" {
      assert v == Rejected(CategoryRequired);
    } else if !NumbersValid(form, parseInt, parseFloat) {
      assert v == Rejected(NumbersInvalid);
    }
  }

  /**
   * Setting a field changes that field and no other, so a field that passed
   * its gate keeps its value until that same field is set again.
   */
  lemma WithFieldFrame(form: FormData, field: Field, value: string, other: Field)
    ensures FieldValue(WithField(form, field, value), field) == value
    ensures other != field ==> FieldValue(WithField(form, field, value), other) == FieldValue(form, other)
  {
  }

  /**
   * An input change sets its own field to the new text or leaves the form as
   * it was; a numeric field takes the text only when its gate accepts it, so
   * the gates keep holding whatever is typed.
   */
  lemma ChangedKeepsGates(form: FormData, field: Field, value: string, parseInt: string -> Num, parseFloat: string -> Num)
    requires GatesHold(form, parseInt, parseFloat)
    ensures var r := Changed(form, field, value, parseInt, parseFloat);
      && GatesHold(r, parseInt, parseFloat)
      && (r == form || r == WithField(form, field, value))
      && (field in {ProductName, CategoryField} ==> r == WithField(form, field, value))
      && (field in {InitialStock, ReorderLevel} ==>
            (r == WithField(form, field, value) <==> AcceptsChange(value, parseInt) || FieldValue(form, field) == value))
      && (field == Price ==>
            (r == WithField(form, field, value) <==> AcceptsChange(value, parseFloat) || form.price == value))
  {
    var r := Changed(form, field, value, parseInt, parseFloat);
    if r == WithField(form, field, value) {
      WithFieldFrame(form, field, value, field);
    }
  }

  /** The blank form has every numeric field empty, which every gate accepts. */
  lemma BlankFormGates(categories: seq<Category>, parseInt: string -> Num, parseFloat: string -> Num)
    ensures GatesHold(BlankForm(categories), parseInt, parseFloat)
    ensures BlankForm(categories).category == CategoryIdFor(BlankForm(categories), categories)
  {
  }

  /**
   * A form reached through the gates whose name is not blank, whose category
   * resolves and whose numeric fields are all filled in passes every check.
   */
  lemma FilledFormAccepted(form: FormData, categories: seq<Category>, parseInt: string -> Num, parseFloat: string -> Num)
    requires GatesHold(form, parseInt, parseFloat)
    requires !Text.AllSpace(form.productName) && CategoryIdFor(form, categories) != ""
    requires form.initialStock != "" && form.reorderLevel != "" && form.price != ""
    ensures Validate(form, categories, parseInt, parseFloat).Accepted?
  {
    ValidateOutcome(form, categories, parseInt, parseFloat);
  }

  /**
   * When each numeric field is non-empty and was let through by its gate
   * (and the submit parser reads it as the gate's parser did), the number
   * check of `handleSubmit` passes; an empty numeric field, which the gates
   * let through, fails it since `parseInt("")` and `parseFloat("")` are NaN.
   */
  lemma GatesAndNumberCheck(form: FormData, parseInt: string -> Num, parseFloat: string -> Num)
    requires parseInt("").NaN? && parseFloat("").NaN?
    ensures form.initialStock != "" && AcceptsChange(form.initialStock, parseInt)
         && form.reorderLevel != "" && AcceptsChange(form.reorderLevel, parseInt)
         && form.price != "" && AcceptsChange(form.price, parseFloat)
         ==> !(NaNOrNegative(parseInt(form.initialStock)) || NaNOrNegative(parseInt(form.reorderLevel))
               || NaNOrNegative(parseFloat(form.price)))
    ensures form.initialStock == "" || form.reorderLevel == "" || form.price == "" ==>
      NaNOrNegative(parseInt(form.initialStock)) || NaNOrNegative(parseInt(form.reorderLevel))
      || NaNOrNegative(parseFloat(form.price))
  {
  }
}
