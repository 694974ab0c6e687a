/** The cart provider's state: the in-memory product list and the copy kept
    in the device's key-value storage under '@GoMarketplace:products'. Each
    operation is one atomic step that replaces the list and overwrites the
    stored copy. */
module CartStore {
  import opened CartList
  import FloatingCart

  class CartProvider {
    /** The current list, replaced by every operation. */
    var products: seq<Product>
    /** The value under the storage key; `None` when nothing was ever written. */
    var stored: Option<seq<Product>>

    /** Ids are unique in the list in memory and in the stored copy. */
    predicate Valid()
      reads this
    {
      UniqueIds(products) && (stored.Some? ==> UniqueIds(stored.value))
    }

    /** A provider mounts with an empty list over whatever the storage holds. */
    constructor (storage: Option<seq<Product>>)
      ensures products == [] && stored == storage
    {
      products := [];
      stored := storage;
    }

    /** `loadProducts`: adopt the stored list if there is one, otherwise keep
        the list as it is. Storage is only read. */
    method LoadProducts()
      modifies this
      ensures stored == old(stored)
      ensures stored.Some? ==> products == stored.value
      ensures stored.None? ==> products == old(products)
      ensures old(Valid()) ==> Valid()
    {
      if stored.Some? {
        products := stored.value;
      }
    }

    /** `addToCart`: the list becomes `Added(products, item)`, but the value
        written to storage is the list as it was before the call. */
    method AddToCart(item: Item)
      modifies this
      ensures products == Added(old(products), item)
      ensures stored == Some(old(products))
      ensures stored.value != products
      ensures old(UniqueIds(products)) ==> UniqueIds(products)
      ensures old(Valid()) ==> Valid()
    {
      var before := products;
      products := Added(products, item);
      stored := Some(before);
      AddedChangesList(before, item);
      if UniqueIds(before) {
        AddedKeepsUniqueIds(before, item);
      }
    }

    /** `increment`: the list becomes `Incremented(products, id)` and that new
        list is written to storage, even when no line matched. */
    method Increment(id: string)
      modifies this
      ensures products == Incremented(old(products), id)
      ensures stored == Some(products)
      ensures !HasId(old(products), id) ==> products == old(products)
      ensures old(UniqueIds(products)) ==> UniqueIds(products)
      ensures old(Valid()) ==> Valid()
    {
      var next := Incremented(products, id);
      products := next;
      stored := Some(next);
      if UniqueIds(old(products)) {
        AdjustKeepsUniqueIds(old(products), id, 1);
      }
    }

    /** `decrement`: the list becomes `Decremented(products, id)` and that new
        list is written to storage. */
    method Decrement(id: string)
      modifies this
      ensures products == Decremented(old(products), id)
      ensures stored == Some(products)
      ensures !HasId(old(products), id) ==> products == old(products)
      ensures old(UniqueIds(products)) ==> UniqueIds(products)
      ensures old(Valid()) ==> Valid()
    {
      var next := Decremented(products, id);
      products := next;
      stored := Some(next);
      if UniqueIds(old(products)) {
        AdjustKeepsUniqueIds(old(products), id, -1);
      }
    }
  }

  /** An application restart: a new provider mounts over the same storage and
      runs its startup load. */
  method Restart(s: CartProvider) returns (t: CartProvider)
    ensures t.stored == s.stored
    ensures s.stored.Some? ==> t.products == s.stored.value
    ensures s.stored.None? ==> t.products == []
    ensures (s.stored.Some? ==> UniqueIds(s.stored.value)) ==> t.Valid()
  {
    t := new CartProvider(s.stored);
    t.LoadProducts();
  }

  /** After `increment` the stored copy is current: a restart recovers exactly
      the list that was in memory. */
  method RestartAfterIncrement(s: CartProvider, id: string) returns (t: CartProvider)
    modifies s
    ensures s.products == Incremented(old(s.products), id)
    ensures t.products == s.products
  {
    s.Increment(id);
    t := Restart(s);
  }

  /** After `decrement` the stored copy is current as well. */
  method RestartAfterDecrement(s: CartProvider, id: string) returns (t: CartProvider)
    modifies s
    ensures s.products == Decremented(old(s.products), id)
    ensures t.products == s.products
  {
    s.Decrement(id);
    t := Restart(s);
  }

  /** After `addToCart` the stored copy lags one step behind: a restart
      recovers the list from before the add, never the list in memory. */
  method RestartAfterAddToCart(s: CartProvider, item: Item) returns (t: CartProvider)
    modifies s
    ensures s.products == Added(old(s.products), item)
    ensures t.products == old(s.products)
    ensures t.products != s.products
  {
    s.AddToCart(item);
    t := Restart(s);
  }

  /** A walk-through: start empty, add a product twice, decrement it once. One item worth 10 remains, and storage holds it. */
  method Walkthrough() returns (s: CartProvider)
    ensures s.products == [Product("a", "X", "u", 10, 1)]
    ensures FloatingCart.Count(s.products) == 1 && FloatingCart.Total(s.products) == 10
    ensures s.stored == Some(s.products)
  {
    var item := Item("a", "X", "u", 10);
    s := new CartProvider(None);
    s.LoadProducts();
    s.AddToCart(item);
    assert s.products == [Product("a", "X", "u", 10, 1)];
    assert HasId(s.products, "a");
    s.AddToCart(item);
    assert s.products == [Product("a", "X", "u", 10, 2)];
    s.Decrement("a");
  }
}
