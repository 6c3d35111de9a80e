/**
 * The product schema as a validator. Mongoose first runs the setters (`trim`
 * on the name), then checks each path; a path reports at most one error, and
 * `required` is checked before `min`. A required String must be a non-empty
 * string, a required Number may be zero, and `min` is not checked on a
 * missing value. Prices and stock are integers in this model.
 */
module ProductModel {
  import opened Wrappers
  import opened Text

  type ObjectId = string

  /** The fields as they arrive; None is a field left out of the document. */
  datatype ProductInput = ProductInput(
    name: Option<string>,
    description: Option<string>,
    price: Option<int>,
    image: Option<string>,
    stock: Option<int>,
    seller: Option<ObjectId>)

  /** A stored product. */
  datatype Product = Product(
    name: string,
    description: string,
    price: int,
    image: string,
    stock: int,
    seller: ObjectId)

  datatype Field = Name | Description | Price | Image | Stock | Seller

  datatype Violation = Required | BelowMin

  datatype FieldError = FieldError(field: Field, violation: Violation)

  /** The `required` check of a String path. */
  function RequiredString(f: Field, v: Option<string>): set<FieldError> {
    if v.None? || v.value == "" then {FieldError(f, Required)} else {}
  }

  /** The `required` and then `min: 0` checks of a Number path. */
  function NonNegativeNumber(f: Field, v: Option<int>): set<FieldError> {
    if v.None? then {FieldError(f, Required)}
    else if v.value < 0 then {FieldError(f, BelowMin)}
    else {}
  }

  /** The name after the `trim` setter. */
  function TrimmedName(input: ProductInput): Option<string> {
    if input.name.None? then None else Some(Trim(input.name.value))
  }

  /** The errors the checks report once the setters have produced `name`. */
  function CheckedErrors(name: Option<string>, input: ProductInput): (errors: set<FieldError>)
    ensures errors == {} <==>
      && name.Some? && name.value != ""
      && input.description.Some? && input.description.value != ""
      && input.price.Some? && input.price.value >= 0
      && input.image.Some? && input.image.value != ""
      && input.stock.Some? && input.stock.value >= 0
      && input.seller.Some?
    ensures forall e1, e2 | e1 in errors && e2 in errors && e1.field == e2.field :: e1 == e2
  {
    RequiredString(Name, name)
    + RequiredString(Description, input.description)
    + NonNegativeNumber(Price, input.price)
    + RequiredString(Image, input.image)
    + NonNegativeNumber(Stock, input.stock)
    + (if input.seller.None? then {FieldError(Seller, Required)} else {})
  }

  /**
   * Every error the schema reports for `input`: none exactly when every
   * constraint holds, and at most one per field.
   */
  function Errors(input: ProductInput): (errors: set<FieldError>)
    ensures errors == {} <==>
      && input.name.Some? && Trim(input.name.value) != ""
      && input.description.Some? && input.description.value != ""
      && input.price.Some? && input.price.value >= 0
      && input.image.Some? && input.image.value != ""
      && input.stock.Some? && input.stock.value >= 0
      && input.seller.Some?
    ensures forall e1, e2 | e1 in errors && e2 in errors && e1.field == e2.field :: e1 == e2
  {
    CheckedErrors(TrimmedName(input), input)
  }

  /**
   * Validation: the stored product, or the full set of errors. A product is
   * stored only with every field present, a name that is not blank once
   * trimmed, a non-empty description and image, and a price and stock of at
   * least zero.
   */
  function Validate(input: ProductInput): (r: Result<Product, set<FieldError>>)
    ensures r.Success? <==>
      && input.name.Some? && Trim(input.name.value) != ""
      && input.description.Some? && input.description.value != ""
      && input.price.Some? && input.price.value >= 0
      && input.image.Some? && input.image.value != ""
      && input.stock.Some? && input.stock.value >= 0
      && input.seller.Some?
    ensures r.Success? ==>
      && r.value.name == Trim(input.name.value)
      && r.value.price == input.price.value && r.value.stock == input.stock.value
      && r.value.description == input.description.value
      && r.value.image == input.image.value
      && r.value.seller == input.seller.value
    ensures r.Failure? ==> r.error != {}
  {
    var errors := Errors(input);
    if errors != {} then Failure(errors)
    else
      Success(Product(Trim(input.name.value), input.description.value, input.price.value,
                      input.image.value, input.stock.value, input.seller.value))
  }

  /**
   * A stored product keeps the schema's constraints: its name is non-empty
   * with no white space at either end, and its price and stock are at least
   * zero.
   */
  lemma StoredProductConstraints(input: ProductInput)
    requires Validate(input).Success?
    ensures var p := Validate(input).value;
      && p.name != "" && !IsJsSpace(p.name[0]) && !IsJsSpace(p.name[|p.name| - 1])
      && p.price >= 0 && p.stock >= 0
      && p.description != "" && p.image != ""
  {
  }

  /** The price checks do not depend on the other fields. */
  lemma PriceErrorsAfterSetters(name: Option<string>, input: ProductInput)
    ensures FieldError(Price, BelowMin) in CheckedErrors(name, input) <==> input.price.Some? && input.price.value < 0
    ensures FieldError(Price, Required) in CheckedErrors(name, input) <==> input.price.None?
  {
  }

  /**
   * A negative price is reported as a `min` violation on the price, and a
   * missing one as a `required` violation, never both.
   */
  lemma PriceErrors(input: ProductInput)
    ensures FieldError(Price, BelowMin) in Errors(input) <==> input.price.Some? && input.price.value < 0
    ensures FieldError(Price, Required) in Errors(input) <==> input.price.None?
  {
    PriceErrorsAfterSetters(TrimmedName(input), input);
  }

  /** A name of white space only is reported missing. */
  lemma BlankNameRequired(input: ProductInput)
    requires input.name.Some?
    requires forall k | 0 <= k < |input.name.value| :: IsJsSpace(input.name.value[k])
    ensures FieldError(Name, Required) in Errors(input)
  {
    TrimEmptyIff(input.name.value);
  }
}
