/**
 * The product validators of src/features/products/product.validators.ts. The
 * payload arrives as JSON, so a field the type declares a number may hold
 * anything; the model keeps the distinctions the checks make with `typeof`,
 * `Number.isNaN`, `Number.isInteger` and `Array.isArray`.
 */
module ProductValidators {
  import opened Wrappers
  import opened JsText

  /** A field read as a number: absent, present but not of type number, or a number. */
  datatype NumberField = Undefined | NotNumber | Num(n: JsNumber)

  /** The `images` field: absent, an array of paths, or some other value that is truthy or not. */
  datatype ImagesField = NoImages | ImageArray(paths: seq<string>) | NotArray(truthy: bool)

  datatype ProductCreateInput = ProductCreateInput(
    name: string,
    price: NumberField,
    stock: NumberField,
    category: Option<string>,
    description: Option<string>,
    images: ImagesField)

  /** A partial product: every field but `id` may be left out. */
  datatype ProductUpdateInput = ProductUpdateInput(
    id: string,
    name: Option<string>,
    price: NumberField,
    stock: NumberField,
    category: Option<string>,
    description: Option<string>,
    images: ImagesField)

  /** The keys the product validators write. */
  datatype ProductKey = Id | Name | Price | Stock | Images

  const IdMessage := "ID продукта обязателен."
  const NameMessage := "Название должно содержать минимум 2 символа."
  const PriceMessage := "Цена должна быть числом >= 0."
  const StockMessage := "Остаток (stock) должен быть целым числом >= 0."
  const ImagesMessage := "Images должен быть массивом строк (путей/URL)."

  function MessageFor(key: ProductKey): string {
    match key
    case Id => IdMessage
    case Name => NameMessage
    case Price => PriceMessage
    case Stock => StockMessage
    case Images => ImagesMessage
  }

  // The field rules, as the source writes them.

  predicate NameTooShort(name: string) {
    |Trim(name)| < 2
  }

  /** `!payload.name || payload.name.trim().length < 2` */
  predicate CreateNameRejected(name: string) {
    name == "" || NameTooShort(name)
  }

  /** `typeof price !== "number" || Number.isNaN(price) || price < 0` */
  predicate PriceRejected(price: NumberField) {
    !price.Num? || price.n.NaN? || price.n.IsNegative()
  }

  /** `!Number.isInteger(stock) || stock < 0` */
  predicate StockRejected(stock: NumberField) {
    !(stock.Num? && stock.n.IsInteger()) || stock.n.IsNegative()
  }

  /** `images && !Array.isArray(images)` */
  predicate ImagesRejected(images: ImagesField) {
    images.NotArray? && images.truthy
  }

  /** `validateProductCreate` */
  method ValidateProductCreate(payload: ProductCreateInput) returns (valid: bool, errors: map<ProductKey, string>)
    ensures valid <==> errors == map[]
    ensures valid <==> !CreateNameRejected(payload.name) && !PriceRejected(payload.price)
                       && !StockRejected(payload.stock) && !ImagesRejected(payload.images)
    ensures Name in errors <==> CreateNameRejected(payload.name)
    ensures Price in errors <==> PriceRejected(payload.price)
    ensures Stock in errors <==> StockRejected(payload.stock)
    ensures Images in errors <==> ImagesRejected(payload.images)
    ensures Id !in errors
    ensures forall key :: key in errors ==> errors[key] == MessageFor(key)
  {
    errors := map[];
    if CreateNameRejected(payload.name) {
      errors := errors[Name := NameMessage];
    }
    if PriceRejected(payload.price) {
      errors := errors[Price := PriceMessage];
    }
    if StockRejected(payload.stock) {
      errors := errors[Stock := StockMessage];
    }
    if ImagesRejected(payload.images) {
      errors := errors[Images := ImagesMessage];
    }
    valid := |errors| == 0;
  }

  /** `validateProductUpdate`: an undefined field is skipped, a defined one checked as on create. */
  method ValidateProductUpdate(payload: ProductUpdateInput) returns (valid: bool, errors: map<ProductKey, string>)
    ensures valid <==> errors == map[]
    ensures Id in errors <==> payload.id == ""
    ensures Name in errors <==> payload.name.Some? && NameTooShort(payload.name.value)
    ensures Price in errors <==> payload.price != Undefined && PriceRejected(payload.price)
    ensures Stock in errors <==> payload.stock != Undefined && StockRejected(payload.stock)
    ensures Images !in errors
    ensures forall key :: key in errors ==> errors[key] == MessageFor(key)
  {
    errors := map[];
    if payload.id == "" {
      errors := errors[Id := IdMessage];
    }
    if payload.name.Some? && NameTooShort(payload.name.value) {
      errors := errors[Name := NameMessage];
    }
    if payload.price != Undefined && PriceRejected(payload.price) {
      errors := errors[Price := PriceMessage];
    }
    if payload.stock != Undefined && StockRejected(payload.stock) {
      errors := errors[Stock := StockMessage];
    }
    valid := |errors| == 0;
  }

  /**
   * The price rule on the numbers it can meet: zero and every other non-negative
   * integer or fraction and +Infinity pass; a negative number, NaN and any
   * non-number fail.
   */
  lemma PriceRule(price: NumberField)
    ensures !PriceRejected(price) <==>
      match price
      case Num(Int(v)) => v >= 0
      case Num(Fraction(negative)) => !negative
      case Num(Infinity(negative)) => !negative
      case _ => false
  {
    match price
    case Num(NaN) =>
    case Num(_) =>
    case _ =>
  }

  /** The stock rule: exactly the non-negative integers pass. */
  lemma StockRule(stock: NumberField)
    ensures !StockRejected(stock) <==> stock.Num? && stock.n.Int? && stock.n.value >= 0
  {
    match stock
    case Num(Int(_)) =>
    case _ =>
  }

  /** The falsy test on the create name is subsumed by the length test: "" trims to "". */
  lemma CreateNameIsLengthRule(name: string)
    ensures CreateNameRejected(name) <==> NameTooShort(name)
  {
    if name == "" {
      assert Trim(name) == "";
    }
  }

  /**
   * An update whose name, price and stock are all defined is judged on those
   * three fields exactly as a create payload carrying the same values.
   */
  lemma UpdateChecksLikeCreate(c: ProductCreateInput, u: ProductUpdateInput)
    requires u.name == Some(c.name) && u.price == c.price && u.stock == c.stock
    requires u.price != Undefined && u.stock != Undefined
    ensures (u.name.Some? && NameTooShort(u.name.value)) <==> CreateNameRejected(c.name)
    ensures (u.price != Undefined && PriceRejected(u.price)) <==> PriceRejected(c.price)
    ensures (u.stock != Undefined && StockRejected(u.stock)) <==> StockRejected(c.stock)
  {
    CreateNameIsLengthRule(c.name);
  }
}
