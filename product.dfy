/**
 * The product shape: the `Product` record, its nested `CurrentPrice` document, the
 * bean-validation constraints on both, and their Jackson form.
 */
module ProductModel {
  import opened Wrappers
  import opened JsonTree

  /**
   * `Product.CurrentPrice`, the only document that is persisted. `id` is its store key;
   * it is accepted when a body is read and never written out.
   */
  datatype CurrentPrice = CurrentPrice(id: Option<string>, value: Option<string>, currencyCode: Option<string>)

  /** `Product`: a read-time join of a price (stored locally) and a name (looked up remotely). */
  datatype Product = Product(id: Option<string>, name: Option<string>, currentPrice: Option<CurrentPrice>)

  // ---------------------------------------------------------------------------------------------
  // Validation

  /** `@NotNull @Size(min=1)` on a string field. */
  predicate Filled(s: Option<string>) {
    s.Some? && |s.value| >= 1
  }

  /** The constraints on `CurrentPrice`; its `id` carries none. */
  predicate ValidPrice(cp: CurrentPrice) {
    Filled(cp.value) && Filled(cp.currencyCode)
  }

  /** The constraints on `Product`; `@Valid` on `currentPrice` cascades into `ValidPrice`. */
  predicate ValidProduct(p: Product)
    ensures ValidProduct(p) ==>
      && p.id.Some? && p.name.Some? && p.currentPrice.Some?
      && p.currentPrice.value.value.Some? && p.currentPrice.value.currencyCode.Some?
  {
    && Filled(p.id)
    && Filled(p.name)
    && p.currentPrice.Some?
    && ValidPrice(p.currentPrice.value)
  }

  /** The property paths a constraint violation can be reported against. */
  datatype Field = IdField | NameField | CurrentPriceField | ValueField | CurrencyCodeField

  /** Every violated constraint of `p`, collected the way a validator collects them. */
  function Violations(p: Product): (r: set<Field>)
    ensures p.currentPrice.None? ==> CurrentPriceField in r && ValueField !in r && CurrencyCodeField !in r
    ensures p.currentPrice.Some? ==> CurrentPriceField !in r
  {
    (if Filled(p.id) then {} else {IdField})
    + (if Filled(p.name) then {} else {NameField})
    + match p.currentPrice {
        case None => {CurrentPriceField}
        case Some(cp) =>
          (if Filled(cp.value) then {} else {ValueField})
          + (if Filled(cp.currencyCode) then {} else {CurrencyCodeField})
      }
  }

  /** A product passes validation exactly when no constraint is violated. */
  lemma ValidIffNoViolations(p: Product)
    ensures ValidProduct(p) <==> Violations(p) == {}
  {
  }

  /**
   * Each field is checked on its own: a product that is fine except for one missing or empty
   * field is invalid, and the violation names exactly that field.
   */
  lemma EachFieldRejected(p: Product)
    requires ValidProduct(p)
    ensures Violations(p.(id := None)) == {IdField} && Violations(p.(id := Some(""))) == {IdField}
    ensures Violations(p.(name := None)) == {NameField} && Violations(p.(name := Some(""))) == {NameField}
    ensures Violations(p.(currentPrice := None)) == {CurrentPriceField}
    ensures Violations(p.(currentPrice := Some(p.currentPrice.value.(value := None)))) == {ValueField}
    ensures Violations(p.(currentPrice := Some(p.currentPrice.value.(value := Some(""))))) == {ValueField}
    ensures Violations(p.(currentPrice := Some(p.currentPrice.value.(currencyCode := None)))) == {CurrencyCodeField}
    ensures Violations(p.(currentPrice := Some(p.currentPrice.value.(currencyCode := Some(""))))) == {CurrencyCodeField}
  {
  }

  // ---------------------------------------------------------------------------------------------
  // Repricing

  /**
   * `setValue` and `setCurrencyCode` applied to a stored price with an incoming one: the amount
   * and the currency come from `incoming`, the key stays that of `stored`.
   */
  function Reprice(stored: CurrentPrice, incoming: CurrentPrice): (r: CurrentPrice)
    ensures r.id == stored.id
    ensures r.value == incoming.value && r.currencyCode == incoming.currencyCode
  {
    stored.(value := incoming.value, currencyCode := incoming.currencyCode)
  }

  /**
   * The store after repricing the record under `id`: the same keys, the record under `id`
   * repriced, every other record as it was.
   */
  function ApplyReprice(prices: map<string, CurrentPrice>, id: string, incoming: CurrentPrice): (r: map<string, CurrentPrice>)
    requires id in prices
    ensures r.Keys == prices.Keys
    ensures r[id] == Reprice(prices[id], incoming)
    ensures forall k :: k in prices && k != id ==> r[k] == prices[k]
  {
    prices[id := Reprice(prices[id], incoming)]
  }

  // ---------------------------------------------------------------------------------------------
  // Jackson form

  /** How a string field is written: a JSON string, or JSON null for a null field. */
  function WriteText(s: Option<string>): JsonNode
  {
    match s
    case None => Null
    case Some(t) => Str(t)
  }

  /** The outward form of a price: `value` and `currencyCode` only, since `id` is write-only. */
  function WritePrice(cp: CurrentPrice): JsonNode
  {
    Obj(map["value" := WriteText(cp.value), "currencyCode" := WriteText(cp.currencyCode)])
  }

  /** The outward form of a product, `{id, name, currentPrice: {value, currencyCode}}`. */
  function WriteProduct(p: Product): (r: JsonNode)
    ensures r.Obj? && r.fields.Keys == {"id", "name", "currentPrice"}
    ensures p.id.None? ==> r.fields["id"] == Null
    ensures p.name.None? ==> r.fields["name"] == Null
    ensures p.currentPrice.None? ==> r.fields["currentPrice"] == Null
  {
    Obj(map[
      "id" := WriteText(p.id),
      "name" := WriteText(p.name),
      "currentPrice" := match p.currentPrice { case None => Null case Some(cp) => WritePrice(cp) }
    ])
  }

  /** Why a body could not be bound to a `Product`. */
  datatype BindError = MismatchedInput

  /**
   * How a string field is read: absent or null gives null, a scalar gives its text (Jackson
   * coerces numbers and booleans to strings, a number as its literal text from the token stream,
   * not as the tree's rendering), an object or array cannot be bound.
   */
  function ReadText(n: JsonNode): Result<Option<string>, BindError>
  {
    match n
    case Missing => Ok(None)
    case Null => Ok(None)
    case Str(t) => Ok(Some(t))
    case Num(l, _) => Ok(Some(l))
    case Bool(b) => Ok(Some(if b then "true" else "false"))
    case Obj(_) => Err(MismatchedInput)
    case Arr(_) => Err(MismatchedInput)
  }

  /** How the `currentPrice` member is read; here `id` is accepted. Unknown keys are ignored. */
  function ReadPrice(n: JsonNode): Result<Option<CurrentPrice>, BindError>
  {
    match n
    case Missing => Ok(None)
    case Null => Ok(None)
    case Obj(_) =>
      var id :- ReadText(Path(n, "id"));
      var value :- ReadText(Path(n, "value"));
      var currencyCode :- ReadText(Path(n, "currencyCode"));
      Ok(Some(CurrentPrice(id, value, currencyCode)))
    case _ => Err(MismatchedInput)
  }

  /** How a request body is bound to a `Product`; a body that is not an object cannot be bound. */
  function ReadProduct(n: JsonNode): (r: Result<Product, BindError>)
    ensures r.Ok? ==> n.Obj?
    ensures n == Obj(map[]) ==> r == Ok(Product(None, None, None))
    ensures r.Ok? && Path(n, "id").Str? ==> r.value.id == Some(Path(n, "id").text)
    ensures r.Ok? && Path(n, "name").Str? ==> r.value.name == Some(Path(n, "name").text)
    ensures r.Ok? && Path(n, "id").Num? ==> r.value.id == Some(Path(n, "id").literal)
    ensures r.Ok? && Path(n, "name").Num? ==> r.value.name == Some(Path(n, "name").literal)
    ensures r.Ok? && Path(n, "name").Bool? ==> r.value.name == Some(if Path(n, "name").b then "true" else "false")
    ensures Path(n, "name").Obj? || Path(n, "name").Arr? ==> r.Err?
  {
    if !n.Obj? then Err(MismatchedInput)
    else
      var id :- ReadText(Path(n, "id"));
      var name :- ReadText(Path(n, "name"));
      var currentPrice :- ReadPrice(Path(n, "currentPrice"));
      Ok(Product(id, name, currentPrice))
  }

  /** What survives a write: everything but the price's `id`. */
  function WithoutPriceId(p: Product): Product
  {
    match p.currentPrice
    case None => p
    case Some(cp) => p.(currentPrice := Some(cp.(id := None)))
  }

  /** The written form of a product never carries the price's `id`. */
  lemma WriteOmitsPriceId(p: Product)
    ensures Path(Path(WriteProduct(p), "currentPrice"), "id") == Missing
  {
  }

  /** Reading back what was written gives the product with its price `id` dropped, and nothing else lost. */
  lemma ReadWriteRoundTrip(p: Product)
    ensures ReadProduct(WriteProduct(p)) == Ok(WithoutPriceId(p))
  {
  }

  /**
   * A numeric `value` in a body is bound as written: `"value": 50.00` gives "50.00", although the
   * same number read from a tree with `asText` gives "50.0".
   */
  lemma NumericValueBindsLiteral(n: JsonNode, literal: string, rendered: string)
    requires n == Obj(map["currentPrice" := Obj(map["value" := Num(literal, rendered)])])
    ensures ReadProduct(n) == Ok(Product(None, None, Some(CurrentPrice(None, Some(literal), None))))
    ensures AsText(Path(Path(n, "currentPrice"), "value")) == rendered
  {
  }

  /** A body that does carry a price `id` has it read into the price. */
  lemma ReadAcceptsPriceId(n: JsonNode, key: string)
    requires ReadProduct(n).Ok?
    requires Path(Path(n, "currentPrice"), "id") == Str(key)
    ensures ReadProduct(n).value.currentPrice.Some?
    ensures ReadProduct(n).value.currentPrice.value.id == Some(key)
  {
  }
}
