/**
 * `ProductImplRepository`: joins stored prices with looked-up names, and reprices a stored
 * record.
 */
module ProductRepository {
  import opened Wrappers
  import opened Errors
  import opened ProductModel
  import opened NameLookup
  import opened PriceStore

  /**
   * One step of `findAll`'s loop: the name is looked up under the price's own id and joined
   * with the price. A price without an id fails `checkNotNull`.
   */
  function ProductFor(cp: CurrentPrice, svc: NameService): (r: Result<Product, Failure>)
    ensures cp.id.None? ==> r == Err(NullReference)
    ensures cp.id.Some? ==> (r.Ok? <==> GetName(cp.id.value, svc).Ok?)
    ensures cp.id.Some? && r.Err? ==> r.error == GetName(cp.id.value, svc).error
    ensures r.Ok? ==> r.value == Product(cp.id, Some(GetName(cp.id.value, svc).value), Some(cp))
  {
    match cp.id
    case None => Err(NullReference)
    case Some(id) =>
      var name :- GetName(id, svc);
      Ok(Product(cp.id, Some(name), Some(cp)))
  }

  /** What `findAll` yields for the prices listed: all products in order, or the first failure. */
  function ListProducts(prices: seq<CurrentPrice>, svc: NameService): (r: Result<seq<Product>, Failure>)
    ensures r.Ok? ==> |r.value| == |prices|
    ensures r.Ok? && prices != [] ==> ProductFor(prices[0], svc) == Ok(r.value[0])
  {
    if prices == [] then Ok([])
    else
      var p :- ProductFor(prices[0], svc);
      var rest :- ListProducts(prices[1..], svc);
      Ok([p] + rest)
  }

  /** `ps` put in front of a list of products, a failure passed along. */
  function Prepend(ps: seq<Product>, r: Result<seq<Product>, Failure>): Result<seq<Product>, Failure>
  {
    match r
    case Ok(rest) => Ok(ps + rest)
    case Err(f) => Err(f)
  }

  /**
   * The listing succeeds exactly when every price's product can be built; it then has one
   * product per price, in the prices' order.
   */
  lemma {:induction false} ListProductsOk(prices: seq<CurrentPrice>, svc: NameService)
    ensures ListProducts(prices, svc).Ok? <==> forall i :: 0 <= i < |prices| ==> ProductFor(prices[i], svc).Ok?
    ensures ListProducts(prices, svc).Ok? ==>
              && |ListProducts(prices, svc).value| == |prices|
              && forall i :: 0 <= i < |prices| ==> ListProducts(prices, svc).value[i] == ProductFor(prices[i], svc).value
  {
    if prices != [] {
      ListProductsOk(prices[1..], svc);
      forall i | 1 <= i < |prices|
        ensures prices[i] == prices[1..][i - 1]
      {
      }
      if ListProducts(prices, svc).Ok? {
        var rest := ListProducts(prices[1..], svc).value;
        assert ListProducts(prices, svc).value == [ProductFor(prices[0], svc).value] + rest;
      }
      if forall i :: 0 <= i < |prices| ==> ProductFor(prices[i], svc).Ok? {
        assert ProductFor(prices[0], svc).Ok?;
        assert forall i :: 0 <= i < |prices[1..]| ==> ProductFor(prices[1..][i], svc).Ok?;
      }
    }
  }

  /** A failing listing reports the failure of the first price whose product cannot be built. */
  lemma {:induction false} ListProductsFirstFailure(prices: seq<CurrentPrice>, svc: NameService)
    requires ListProducts(prices, svc).Err?
    ensures exists i :: && 0 <= i < |prices|
                        && (forall j :: 0 <= j < i ==> ProductFor(prices[j], svc).Ok?)
                        && ProductFor(prices[i], svc) == Err(ListProducts(prices, svc).error)
  {
    var f := ListProducts(prices, svc).error;
    if ProductFor(prices[0], svc).Err? {
      assert ProductFor(prices[0], svc) == Err(f);
    } else {
      ListProductsFirstFailure(prices[1..], svc);
      var i :| && 0 <= i < |prices[1..]|
               && (forall j :: 0 <= j < i ==> ProductFor(prices[1..][j], svc).Ok?)
               && ProductFor(prices[1..][i], svc) == Err(ListProducts(prices[1..], svc).error);
      assert ProductFor(prices[i + 1], svc) == Err(f);
      forall j | 0 <= j < i + 1
        ensures ProductFor(prices[j], svc).Ok?
      {
        if j > 0 {
          assert prices[j] == prices[1..][j - 1];
        }
      }
    }
  }

  class ProductImplRepository {
    /** The price documents. */
    const currentPriceRepository: CurrentPriceRepository
    /** The name service each lookup calls. */
    const names: NameService

    constructor (store: CurrentPriceRepository, names: NameService)
      ensures currentPriceRepository == store && this.names == names
    {
      currentPriceRepository := store;
      this.names := names;
    }

    /**
     * `findOne(id)`. The name is looked up first, so a lookup failure wins over a missing price;
     * otherwise a missing price is `NotFound`, and a present one is joined with the name.
     */
    function FindOne(id: string): (r: Result<Product, Failure>)
      reads currentPriceRepository
      ensures GetName(id, names).Err? ==> r == Err(GetName(id, names).error)
      ensures GetName(id, names).Ok? && id !in currentPriceRepository.prices ==> r == Err(NotFound)
      ensures r.Ok? <==> GetName(id, names).Ok? && id in currentPriceRepository.prices
      ensures r.Ok? ==> r.value == Product(Some(id), Some(GetName(id, names).value), Some(currentPriceRepository.prices[id]))
    {
      var name :- GetName(id, names);
      match currentPriceRepository.FindOne(id)
      case None => Err(NotFound)
      case Some(cp) => Ok(Product(Some(id), Some(name), Some(cp)))
    }

    /** `findAll()`: a product for every stored price, in store order; one failed lookup aborts it. */
    method FindAll() returns (r: Result<seq<Product>, Failure>)
      requires currentPriceRepository.Valid()
      ensures r == ListProducts(currentPriceRepository.FindAll(), names)
    {
      var all := currentPriceRepository.FindAll();
      var products: seq<Product> := [];
      var i := 0;
      assert all[i..] == all;
      match ListProducts(all, names) {
        case Ok(rest) => assert [] + rest == rest;
        case Err(_) =>
      }
      while i < |all|
        invariant 0 <= i <= |all|
        invariant ListProducts(all, names) == Prepend(products, ListProducts(all[i..], names))
      {
        var cp := all[i];
        assert all[i..][0] == cp && all[i..][1..] == all[i + 1..];
        var lookup := GetName(cp.id.value, names);
        if lookup.Err? {
          assert ListProducts(all[i..], names) == Err(lookup.error);
          return Err(lookup.error);
        }
        var p := Product(cp.id, Some(lookup.value), Some(cp));
        assert ListProducts(all[i..], names) == Prepend([p], ListProducts(all[i + 1..], names));
        match ListProducts(all[i + 1..], names) {
          case Ok(rest) => assert (products + [p]) + rest == products + ([p] + rest);
          case Err(_) =>
        }
        products := products + [p];
        i := i + 1;
      }
      assert all[i..] == [] && products + [] == products;
      r := Ok(products);
    }

    /**
     * `update(id, product)`: an unknown id is `NotFound` and nothing is written; a known id gets
     * the incoming amount and currency written under the same key, and the name is not stored.
     * A null incoming price on a known id fails when it is dereferenced, before any write.
     */
    method Update(id: string, product: Product) returns (r: Result<(), Failure>)
      requires currentPriceRepository.Valid()
      modifies currentPriceRepository
      ensures currentPriceRepository.Valid()
      ensures id !in old(currentPriceRepository.prices) ==>
                r == Err(NotFound) && unchanged(currentPriceRepository)
      ensures id in old(currentPriceRepository.prices) && product.currentPrice.None? ==>
                r == Err(NullReference) && unchanged(currentPriceRepository)
      ensures id in old(currentPriceRepository.prices) && product.currentPrice.Some? ==>
                && r == Ok(())
                && currentPriceRepository.prices ==
                     ApplyReprice(old(currentPriceRepository.prices), id, product.currentPrice.value)
                && currentPriceRepository.order == old(currentPriceRepository.order)
    {
      var found := currentPriceRepository.FindOne(id);
      if found.None? {
        return Err(NotFound);
      }
      if product.currentPrice.None? {
        return Err(NullReference);
      }
      var updated := Reprice(found.value, product.currentPrice.value);
      var _ := currentPriceRepository.Save(updated, id);
      r := Ok(());
    }
  }
}
