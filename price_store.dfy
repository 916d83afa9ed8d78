/**
 * The document store behind `ProductCurrentPriceRepository`: price documents keyed by id,
 * enumerated in the order the model assumes for the store (insertion order).
 */
module PriceStore {
  import opened Wrappers
  import opened ProductModel

  predicate NoDuplicates(s: seq<string>) {
    forall i, j :: 0 <= i < j < |s| ==> s[i] != s[j]
  }

  /** `s` with every occurrence of `k` taken out, the rest in their order. */
  function Without(s: seq<string>, k: string): seq<string>
  {
    if s == [] then []
    else if s[0] == k then Without(s[1..], k)
    else [s[0]] + Without(s[1..], k)
  }

  lemma {:induction false} WithoutMembers(s: seq<string>, k: string)
    ensures forall x :: x in Without(s, k) <==> x in s && x != k
  {
    if s != [] {
      WithoutMembers(s[1..], k);
      assert s == [s[0]] + s[1..];
    }
  }

  lemma {:induction false} WithoutKeepsNoDuplicates(s: seq<string>, k: string)
    requires NoDuplicates(s)
    ensures NoDuplicates(Without(s, k))
  {
    if s != [] {
      assert NoDuplicates(s[1..]);
      WithoutKeepsNoDuplicates(s[1..], k);
      if s[0] != k {
        WithoutMembers(s[1..], k);
        assert s[0] !in s[1..];
        var r := Without(s[1..], k);
        assert s[0] !in r;
        assert Without(s, k) == [s[0]] + r;
      }
    }
  }

  /** The documents stored under `keys`, in the order of `keys`. */
  function Lookup(keys: seq<string>, m: map<string, CurrentPrice>): (r: seq<CurrentPrice>)
    requires forall k :: k in keys ==> k in m
    ensures |r| == |keys|
    ensures forall i :: 0 <= i < |keys| ==> r[i] == m[keys[i]]
  {
    if keys == [] then [] else [m[keys[0]]] + Lookup(keys[1..], m)
  }

  /** The key under which `save` files a document: its own id, or the id the store assigns. */
  function KeyOf(cp: CurrentPrice, freshId: string): string
  {
    match cp.id
    case Some(k) => k
    case None => freshId
  }

  class CurrentPriceRepository {
    /** The stored documents by key. */
    var prices: map<string, CurrentPrice>
    /** The keys in the order the model assumes for the store: insertion order, an upsert keeping its place. */
    var order: seq<string>

    ghost predicate Valid()
      reads this
    {
      && (forall k :: k in prices <==> k in order)
      && NoDuplicates(order)
      && (forall k :: k in prices ==> prices[k].id == Some(k))
    }

    constructor ()
      ensures Valid() && prices == map[] && order == []
    {
      prices := map[];
      order := [];
    }

    /** `findOne(id)`: the stored document, or null; a found document carries the key asked for. */
    function FindOne(id: string): (r: Option<CurrentPrice>)
      reads this
      ensures r.Some? <==> id in prices
      ensures r.Some? ==> r.value == prices[id]
      ensures r.Some? && Valid() ==> r.value.id == Some(id)
    {
      if id in prices then Some(prices[id]) else None
    }

    /** `findAll()`: every stored document exactly once, in the assumed store order, each carrying its key. */
    function FindAll(): (r: seq<CurrentPrice>)
      reads this
      requires Valid()
      ensures |r| == |order|
      ensures forall i :: 0 <= i < |r| ==> r[i] == prices[order[i]] && r[i].id == Some(order[i])
    {
      Lookup(order, prices)
    }

    /**
     * `save(cp)`: an upsert under the document's key. A document without an id gets the one the
     * store assigns, `freshId`, which is not yet in use.
     */
    method Save(cp: CurrentPrice, freshId: string) returns (saved: CurrentPrice)
      requires Valid()
      requires cp.id.None? ==> freshId !in prices
      modifies this
      ensures Valid()
      ensures saved == cp.(id := Some(KeyOf(cp, freshId)))
      ensures prices == old(prices)[KeyOf(cp, freshId) := saved]
      ensures order == if KeyOf(cp, freshId) in old(prices) then old(order) else old(order) + [KeyOf(cp, freshId)]
    {
      var key := KeyOf(cp, freshId);
      saved := cp.(id := Some(key));
      if key !in prices {
        order := order + [key];
      }
      prices := prices[key := saved];
    }

    /** `delete(id)`: removes the document under `id`; a missing id is not an error. */
    method Delete(id: string)
      requires Valid()
      modifies this
      ensures Valid()
      ensures prices == old(prices) - {id}
      ensures order == Without(old(order), id)
    {
      WithoutMembers(order, id);
      WithoutKeepsNoDuplicates(order, id);
      prices := prices - {id};
      order := Without(order, id);
    }
  }
}
