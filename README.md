# my-retail products: a Dafny model

my-retail is a small REST service. It keeps each product's current price in a document
store and adds the product's display name at read time, fetched from an outside product
information service. This project models the core of that service and proves properties of the model:

- the product shape (`Product`, `Product.CurrentPrice`), its bean-validation constraints and its Jackson form;
- the aggregation repository `ProductImplRepository`, which joins a stored price with a looked-up name.
  It also classifies the name service's outcomes and reprices a stored record;
- the request-level operations of `ProductController` over the price store.

Files, one module each:

| file | module | models |
|---|---|---|
| wrappers.dfy | `Wrappers` | `Option` (a Java reference that may be null) and `Result` (a value or a raised exception) |
| errors.dfy | `Errors` | the exceptions the core raises or lets through, as a `Failure` datatype |
| json.dfy | `JsonTree` | Jackson's `JsonNode`, with `path` and `asText` |
| product.dfy | `ProductModel` | `Product`, `CurrentPrice`, validation, repricing, writing and reading the JSON form |
| price_store.dfy | `PriceStore` | the Mongo repository of price documents, as a class over a `map` plus the assumed order of its keys |
| name_lookup.dfy | `NameLookup` | `getName`: the upstream call's outcome, sorted into a name or a failure |
| repository.dfy | `ProductRepository` | `findOne`, `findAll` and `update` of `ProductImplRepository` |
| controller.dfy | `Controller` | `ProductController`'s five handlers, and the exception handler's 404 mapping |

Modelling choices:

- Java strings that may be null are `Option<string>`. Every field of a bound request body may be absent.
- The store is the class `CurrentPriceRepository`. Its field `prices` maps keys to documents. Its field
  `order` lists the keys in the store's order. The model takes that order to be insertion order, with
  an upsert keeping its place; "## Left out" says why this is an assumption.
  `Valid()` says three things: the keys of `prices` and of `order` agree, no key repeats, and every
  stored document carries its own key as `id`.
- When a document without an `id` is saved, the store assigns one. That id is a parameter, `freshId`,
  and it must not already be in use.
- The name service is a value `NameService(fetch, readTree)`. `fetch` gives the outcome of the outbound
  call for each id: a body, a 4xx client error with its status, or any other failure.
  `readTree` is Jackson's parser, which yields a tree or fails.
- A handler's outcome is `Respond(status, body)` or `Raised(failure)`. `Raised` is an exception that no
  handler in the core catches and that is left to the framework.
  `ProductControllerExceptionHandler` is folded in as `Handle`: `NotFoundException` becomes 404 with no body.
- `@Valid` on a controller's request body is an explicit `ValidProduct` check that comes first. A body
  that fails it gets 400 with no body, and nothing is written.

The model follows the code where it behaves unexpectedly:

- `findOne` looks up the name before the price (ProductImplRepository.java:70-71). A lookup failure
  therefore wins over a missing price.
- A single failed name lookup aborts the whole of `findAll`. Products with a failed lookup are not
  left out one by one.
- `createProduct` keys the saved price by the body's price `id`, or by a store-assigned one. Nothing
  ties that key to the product's `id`.
- `updateProductById` carries its own copy of the find, reprice and save steps, and does not call
  `ProductImplRepository.update`. Both are modelled, through the same `Reprice` and `Save`.
- The repository's `update` has `@Valid` on its parameter, but the bean is not `@Validated`, so
  nothing enforces it. A null incoming price on a known id fails when it is dereferenced
  (`NullReference`), before anything is written.
- `getProductById`'s `product == null` branch can never be taken, because `findOne` never returns
  null. Its 404 comes from the exception handler.

Behaviour worth knowing that follows from Jackson:

- An absent key on the title's path is Jackson's missing node, whose text is `""`. That makes it a
  read failure, not a not-found.
- A JSON `null` title has the text `"null"`, so it is returned as the name `"null"` (`GetNameOfNullTitle`).
- A successful reply with no body (a 204, or an empty 200) makes `getBody()` return null. `readTree`
  then throws an unchecked exception, which the `IOException` handler at
  ProductImplRepository.java:111 does not catch. The model raises `NullReference` on that path,
  distinct from the read failure.

## Model

| member | source | states |
|---|---|---|
| `ProductModel.ValidIffNoViolations` | src/main/java/com/ryanfranklin/myretail/model/Product.java:17-108 | a product passes the annotation constraints (id, name non-null and non-empty, price present and itself valid) exactly when the collected violation set is empty |
| `ProductModel.ValidProduct` | src/main/java/com/ryanfranklin/myretail/model/Product.java:17-25 | the annotation constraints: id and name non-null with length at least 1, the price non-null and, by the cascade, its value and currency code non-null with length at least 1; a valid product has every one of those fields present |
| `ProductModel.Violations` | src/main/java/com/ryanfranklin/myretail/model/Product.java:17-108 | the violated constraints collected together; a null price is one violation and is not cascaded into, so no value or currency-code violation is reported with it |
| `ProductModel.EachFieldRejected` | src/main/java/com/ryanfranklin/myretail/model/Product.java:17-108 | starting from a valid product, making any one of id, name, value or currencyCode null or empty, or dropping the price, yields exactly that one violation |
| `ProductModel.Reprice` | src/main/java/com/ryanfranklin/myretail/model/Product.java:133-153 | the setters give the stored record the incoming value and currency code and keep its key |
| `ProductModel.ApplyReprice` | src/main/java/com/ryanfranklin/myretail/repository/ProductImplRepository.java:147-151 | repricing one record keeps the store's key set, reprices that record and leaves every other record as it was |
| `ProductModel.WriteProduct` | src/main/java/com/ryanfranklin/myretail/model/Product.java:15-102 | the outward form is an object with exactly the members `id`, `name` and `currentPrice`, a null field written as JSON null |
| `ProductModel.ReadProduct` | src/main/java/com/ryanfranklin/myretail/model/Product.java:15-28 | only an object binds; an empty object binds to a product with every field null; a string `id` or `name` is taken as is, a number as its literal text and a boolean as "true" or "false"; an object or array where `name` should be cannot be bound |
| `ProductModel.WriteOmitsPriceId` | src/main/java/com/ryanfranklin/myretail/model/Product.java:100-102 | the outward JSON of a product never has an `id` inside `currentPrice` |
| `ProductModel.ReadWriteRoundTrip` | src/main/java/com/ryanfranklin/myretail/model/Product.java:97-108 | reading back the written form gives the same product with only the price `id` dropped |
| `ProductModel.NumericValueBindsLiteral` | src/main/java/com/ryanfranklin/myretail/model/Product.java:97-108 | a numeric `value` in a body binds to its literal text as written, which can differ from the rendering `asText` gives for the same number |
| `ProductModel.ReadAcceptsPriceId` | src/main/java/com/ryanfranklin/myretail/model/Product.java:100-102 | a body binds the price `id` it carries, since the field is write-only rather than ignored |
| `JsonTree.Path` | src/main/java/com/ryanfranklin/myretail/repository/ProductImplRepository.java:116 | `path` yields a node other than the missing node only for a key present in an object, and then that child |
| `JsonTree.AsText` | src/main/java/com/ryanfranklin/myretail/repository/ProductImplRepository.java:117 | a JSON null has the text "null"; containers and the missing node have the text ""; a number has its rendered value as its text; the text is empty only for those or for an empty string or number rendering |
| `NameLookup.GetName` | src/main/java/com/ryanfranklin/myretail/repository/ProductImplRepository.java:85-125 | upstream 404 if and only if `NotFound`; any other 4xx status if and only if that status rethrown; another call failure if and only if it passes through; a missing body if and only if the unchecked `NullReference`; unparseable body or empty title if and only if a read failure; a parsed body with a non-empty title if and only if that title is returned as the name |
| `NameLookup.GetNameReadsTitle` | src/main/java/com/ryanfranklin/myretail/repository/ProductImplRepository.java:116-124 | a body whose title is a string yields that string as the name when it is non-empty, and a read failure when it is empty |
| `NameLookup.GetNameOfNullTitle` | src/main/java/com/ryanfranklin/myretail/repository/ProductImplRepository.java:116-119 | a JSON null title is returned as the name "null", not as a failure |
| `NameLookup.GetNameMissingTitle` | src/main/java/com/ryanfranklin/myretail/repository/ProductImplRepository.java:116-121 | a parseable body with no `product` key is a read failure, distinct from `NotFound` |
| `PriceStore.CurrentPriceRepository.FindOne` | src/main/java/com/ryanfranklin/myretail/repository/ProductImplRepository.java:140 | a document is found exactly when its key is stored, it is the stored one, and it carries the key asked for |
| `PriceStore.CurrentPriceRepository.FindAll` | src/main/java/com/ryanfranklin/myretail/repository/ProductCurrentPriceRepository.java:8-11 | every stored document once, in the assumed store order, each carrying its key as its `id` |
| `PriceStore.CurrentPriceRepository.Save` | src/main/java/com/ryanfranklin/myretail/repository/ProductCurrentPriceRepository.java:8-11 | an upsert under the document's own id, or under the store-assigned one; the saved document carries that key; a new key goes to the end of the assumed order |
| `PriceStore.CurrentPriceRepository.Delete` | src/main/java/com/ryanfranklin/myretail/repository/ProductCurrentPriceRepository.java:8-11 | the key is gone, every other document stays, and the remaining order is kept |
| `ProductRepository.ProductFor` | src/main/java/com/ryanfranklin/myretail/repository/ProductImplRepository.java:54-55 | one listing step succeeds exactly when the name lookup under the price's own id does, and then joins that id, the name and the price |
| `ProductRepository.ListProducts` | src/main/java/com/ryanfranklin/myretail/repository/ProductImplRepository.java:53-56 | a successful listing has one product per price, the first built from the first price |
| `ProductRepository.ListProductsOk` | src/main/java/com/ryanfranklin/myretail/repository/ProductImplRepository.java:48-58 | the listing succeeds exactly when every step does, and then has one product per price, the i-th built from the i-th price |
| `ProductRepository.ListProductsFirstFailure` | src/main/java/com/ryanfranklin/myretail/repository/ProductImplRepository.java:53-56 | a failed listing reports the failure of the first price whose step fails, every earlier step having succeeded |
| `ProductRepository.ProductImplRepository.FindOne` | src/main/java/com/ryanfranklin/myretail/repository/ProductImplRepository.java:66-78 | a name failure is reported even when the price is missing; with a name, a missing price is `NotFound`; on success the product is exactly the argument id, the looked-up name and the stored record |
| `ProductRepository.ProductImplRepository.FindAll` | src/main/java/com/ryanfranklin/myretail/repository/ProductImplRepository.java:48-59 | the loop yields the listing of the store's documents in store order, aborting at the first failed lookup |
| `ProductRepository.ProductImplRepository.Update` | src/main/java/com/ryanfranklin/myretail/repository/ProductImplRepository.java:133-152 | an unknown id is `NotFound` and the store is unchanged; on a known id only value and currency code change, the key and the order stay, the name is not stored, other keys are untouched |
| `Controller.Reply` | src/main/java/com/ryanfranklin/myretail/controller/ProductController.java:35-42 | a handler's result is 200 with that result as the body if and only if it returned normally; an exception goes through the exception handler |
| `Controller.Handle` | src/main/java/com/ryanfranklin/myretail/controller/ProductControllerExceptionHandler.java:12-15 | `NotFound` and only `NotFound` becomes 404 with no body; any other failure propagates |
| `Controller.ProductController.CreateProduct` | src/main/java/com/ryanfranklin/myretail/controller/ProductController.java:24-28 | an invalid body is 400 with no write; a valid one writes exactly its price, keyed by the price's own (or a store-assigned) id, and nothing else |
| `Controller.ProductController.GetProduct` | src/main/java/com/ryanfranklin/myretail/controller/ProductController.java:30-33 | the response is exactly the listing `findAll` yields, with a name not-found handled as 404 |
| `Controller.ProductController.GetProductById` | src/main/java/com/ryanfranklin/myretail/controller/ProductController.java:35-42 | 404 with no body exactly when the name service does not know the id, or the name is found and the price is missing; 200 only with the joined product |
| `Controller.ProductController.UpdateProductById` | src/main/java/com/ryanfranklin/myretail/controller/ProductController.java:44-60 | an invalid body is 400, an unknown id is 404, and neither writes; a known id is 200 with no body, after only value and currency code are rewritten under the same key |
| `Controller.ProductController.DeleteProductById` | src/main/java/com/ryanfranklin/myretail/controller/ProductController.java:62-65 | the key is removed, every other record and the order of the rest are unchanged |
| `Controller.CreateThenGet` | src/main/java/com/ryanfranklin/myretail/controller/ProductController.java:24-42 | from any valid store and with any name service that answers the price's key with a title, creating a valid product and reading it back under that key gives 200 with that key as the id, that title and the created value and currency code |

## Left out

- HTTP routing, media types and the 405 for unsupported methods are left out. They are framework dispatch.
- Turning request text into a `Product` is left out, because the framework does it. Handlers take
  the bound `Product`. `ReadProduct` models the binding on a parsed tree.
- The outbound HTTP call, its URL template, its query string and the client built per call are left
  out. They are network I/O, so the call's outcome is the `fetch` oracle.
- Jackson's `readTree` is left out because it is a foreign library. It is the `readTree` oracle.
  Of the tree, only `path` and `asText` are modelled.
- `PriceStore.CurrentPriceRepository.Save`, `PriceStore.CurrentPriceRepository.Delete`,
  `PriceStore.CurrentPriceRepository.FindAll` and `Controller.ProductController.CreateProduct` rest on an
  assumed order. `findAll` is called with no sort, and MongoDB promises no natural order; a storage
  engine may move an updated document. The model's insertion order, with an upsert keeping its
  place, is one order the store may give, not the only one.
- Mongo persistence, `@Transactional` and the format of generated ObjectIds are left out. The store
  is a map, and a generated id is the `freshId` parameter.
- The status Spring gives an exception that no handler catches is left out, because the framework
  decides it. Such an exception appears as `Raised`.
- The field list a 400 response may carry is left out. The test expects that body to be empty.
  `Violations` collects the fields.
- Logging is left out, and so is `MyRetailApplication`, which only starts the application.
- `Product`'s constructors, getters and setters are not separate members. They are the datatype's
  constructor, its field selectors and the `.(field := …)` update, which behave that way by
  construction. The setters that `update` uses are `Reprice`.
- `Product`'s validation and JSON form work by value. The in-place mutation of a fetched record
  through its setters does not matter: the store hands out a copy, and it is saved back explicitly.
