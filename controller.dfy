/**
 * `ProductController`: the request-level operations over the price store, with the
 * exception handler's mapping of `NotFoundException` folded in.
 */
module Controller {
  import opened Wrappers
  import opened Errors
  import opened ProductModel
  import opened NameLookup
  import opened PriceStore
  import opened ProductRepository
  import opened JsonTree

  const OK := 200
  const BAD_REQUEST := 400

  /**
   * What a handler hands back to the framework: a status with an optional body, or an
   * exception that no handler in the core catches.
   */
  datatype Response<+T> = Respond(status: int, body: Option<T>) | Raised(failure: Failure)

  /** `ProductControllerExceptionHandler`: `NotFoundException` becomes 404 with no body; the rest propagates. */
  function Handle<T>(f: Failure): (r: Response<T>)
    ensures f == NotFound <==> r == Respond(NOT_FOUND as int, None)
    ensures f != NotFound <==> r == Raised(f)
  {
    if f == NotFound then Respond(NOT_FOUND as int, None) else Raised(f)
  }

  /** A handler's returned value as 200 with that body, or its exception as handled. */
  function Reply<T>(r: Result<T, Failure>): (resp: Response<T>)
    ensures (resp.Respond? && resp.status == OK) <==> r.Ok?
    ensures r.Ok? ==> resp.body == Some(r.value)
    ensures r.Err? ==> resp == Handle(r.error)
  {
    match r
    case Ok(v) => Respond(OK, Some(v))
    case Err(f) => Handle(f)
  }

  class ProductController {
    /** The price documents, shared with the aggregation repository. */
    const currentPriceRepository: CurrentPriceRepository
    const productImplRepository: ProductImplRepository

    ghost predicate Valid()
      reads currentPriceRepository
    {
      && currentPriceRepository.Valid()
      && productImplRepository.currentPriceRepository == currentPriceRepository
    }

    constructor (store: CurrentPriceRepository, names: NameService)
      requires store.Valid()
      ensures Valid()
      ensures currentPriceRepository == store && productImplRepository.names == names
    {
      currentPriceRepository := store;
      productImplRepository := new ProductImplRepository(store, names);
    }

    /**
     * `createProduct`: an invalid body is refused with 400; a valid one has its price saved under
     * the price's own id (or a store-assigned one), whatever the product's id, and nothing else.
     */
    method CreateProduct(product: Product, freshId: string) returns (resp: Response<()>)
      requires Valid()
      requires product.currentPrice.Some? && product.currentPrice.value.id.None? ==>
                 freshId !in currentPriceRepository.prices
      modifies currentPriceRepository
      ensures Valid()
      ensures !ValidProduct(product) ==>
                resp == Respond(BAD_REQUEST, None) && unchanged(currentPriceRepository)
      ensures ValidProduct(product) ==>
                var cp := product.currentPrice.value;
                var key := KeyOf(cp, freshId);
                && resp == Respond(OK, None)
                && currentPriceRepository.prices == old(currentPriceRepository.prices)[key := cp.(id := Some(key))]
                && currentPriceRepository.order ==
                     if key in old(currentPriceRepository.prices) then old(currentPriceRepository.order)
                     else old(currentPriceRepository.order) + [key]
    {
      if !ValidProduct(product) {
        return Respond(BAD_REQUEST, None);
      }
      var currentPrice := product.currentPrice.value;
      var _ := currentPriceRepository.Save(currentPrice, freshId);
      resp := Respond(OK, None);
    }

    /** `getProduct`: exactly what `findAll` yields, as the framework renders it. */
    method GetProduct() returns (resp: Response<seq<Product>>)
      requires Valid()
      ensures resp == Reply(ListProducts(currentPriceRepository.FindAll(), productImplRepository.names))
    {
      var products := productImplRepository.FindAll();
      resp := Reply(products);
    }

    /**
     * `getProductById`: 200 with the joined product, or 404 with no body when the price is
     * missing or the name service does not know the id; other lookup failures propagate.
     */
    method GetProductById(id: string) returns (resp: Response<Product>)
      requires Valid()
      ensures resp == Reply(productImplRepository.FindOne(id))
      ensures resp == Respond(NOT_FOUND as int, None) <==>
                || GetName(id, productImplRepository.names) == Err(NotFound)
                || (GetName(id, productImplRepository.names).Ok? && id !in currentPriceRepository.prices)
      ensures resp.Respond? && resp.status == OK ==>
                && id in currentPriceRepository.prices
                && GetName(id, productImplRepository.names).Ok?
                && resp.body == Some(Product(Some(id), Some(GetName(id, productImplRepository.names).value),
                                             Some(currentPriceRepository.prices[id])))
    {
      var found := productImplRepository.FindOne(id);
      match found
      case Err(f) =>
        resp := Handle(f);
      case Ok(product) =>
        resp := Respond(OK, Some(product));
    }

    /**
     * `updateProductById`: 400 for an invalid body, 404 with no write for an unknown id, and
     * otherwise the stored record repriced under its own key and 200 with no body.
     */
    method UpdateProductById(id: string, product: Product) returns (resp: Response<Product>)
      requires Valid()
      modifies currentPriceRepository
      ensures Valid()
      ensures !ValidProduct(product) ==>
                resp == Respond(BAD_REQUEST, None) && unchanged(currentPriceRepository)
      ensures ValidProduct(product) && id !in old(currentPriceRepository.prices) ==>
                resp == Respond(NOT_FOUND as int, None) && unchanged(currentPriceRepository)
      ensures ValidProduct(product) && id in old(currentPriceRepository.prices) ==>
                && resp == Respond(OK, None)
                && currentPriceRepository.prices ==
                     ApplyReprice(old(currentPriceRepository.prices), id, product.currentPrice.value)
                && currentPriceRepository.order == old(currentPriceRepository.order)
    {
      if !ValidProduct(product) {
        return Respond(BAD_REQUEST, None);
      }
      var newPrice := product.currentPrice.value;
      var currentPrice := currentPriceRepository.FindOne(id);
      if currentPrice.None? {
        return Respond(NOT_FOUND as int, None);
      }
      var updated := Reprice(currentPrice.value, newPrice);
      var _ := currentPriceRepository.Save(updated, id);
      resp := Respond(OK, None);
    }

    /** `deleteProductById`: the record under `id` is gone, every other record stays where it was. */
    method DeleteProductById(id: string) returns (resp: Response<()>)
      requires Valid()
      modifies currentPriceRepository
      ensures Valid()
      ensures resp == Respond(OK, None)
      ensures currentPriceRepository.prices == old(currentPriceRepository.prices) - {id}
      ensures currentPriceRepository.order == Without(old(currentPriceRepository.order), id)
    {
      currentPriceRepository.Delete(id);
      resp := Respond(OK, None);
    }
  }

  /**
   * Creating a price and then reading it back, from any state of the store and against any name
   * service that knows the price's key by `title`: the product comes back under that key, with
   * that title and the created amount and currency.
   */
  method CreateThenGet(c: ProductController, product: Product, freshId: string, title: string)
    returns (created: Response<()>, fetched: Response<Product>)
    requires c.Valid()
    requires ValidProduct(product)
    requires product.currentPrice.value.id.None? ==> freshId !in c.currentPriceRepository.prices
    requires GetName(KeyOf(product.currentPrice.value, freshId), c.productImplRepository.names) == Ok(title)
    modifies c.currentPriceRepository
    ensures c.Valid()
    ensures created == Respond(OK, None)
    ensures fetched.Respond? && fetched.status == OK && fetched.body.Some?
    ensures fetched.body.value.id == Some(KeyOf(product.currentPrice.value, freshId))
    ensures fetched.body.value.name == Some(title)
    ensures fetched.body.value.currentPrice.Some?
    ensures fetched.body.value.currentPrice.value.value == product.currentPrice.value.value
    ensures fetched.body.value.currentPrice.value.currencyCode == product.currentPrice.value.currencyCode
  {
    created := c.CreateProduct(product, freshId);
    fetched := c.GetProductById(KeyOf(product.currentPrice.value, freshId));
  }
}
