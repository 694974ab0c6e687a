/** The cart's line-item list and the three transformations the cart store
    applies to it: `addToCart`, `increment` and `decrement`. Every
    transformation builds a new list from the old one; nothing is updated in
    place here (the store that holds the current list is in cart_store.dfy). */
module CartList {

  datatype Option<+T> = None | Some(value: T)

  /** A cart line. `price` is an integer number of cents, so sums are exact;
      `quantity` is an `int` because `decrement` has no floor. */
  datatype Product = Product(id: string, title: string, imageUrl: string, price: int, quantity: int)

  /** What `addToCart` receives: a product without its quantity. */
  datatype Item = Item(id: string, title: string, imageUrl: string, price: int)

  /** The spread `{ ...item, quantity: q }`. */
  function WithQuantity(item: Item, q: int): Product
  {
    Product(item.id, item.title, item.imageUrl, item.price, q)
  }

  predicate HasId(ps: seq<Product>, id: string)
  {
    exists i :: 0 <= i < |ps| && ps[i].id == id
  }

  /** No two lines share an id. */
  predicate UniqueIds(ps: seq<Product>)
  {
    forall i, j :: 0 <= i < j < |ps| ==> ps[i].id != ps[j].id
  }

  /** `id` matches the line at index `k` and no other line. */
  predicate OccursOnceAt(ps: seq<Product>, id: string, k: int)
  {
    0 <= k < |ps| && ps[k].id == id &&
    forall j :: 0 <= j < |ps| && j != k ==> ps[j].id != id
  }

  /** `products.find(p => p.id === id)`: the first line with that id, if any. */
  function Find(ps: seq<Product>, id: string): (r: Option<Product>)
    ensures r.None? <==> !HasId(ps, id)
    ensures r.Some? ==>
      exists k :: 0 <= k < |ps| && ps[k] == r.value && r.value.id == id &&
        forall j :: 0 <= j < k ==> ps[j].id != id
  {
    if ps == [] then None
    else if ps[0].id == id then Some(ps[0])
    else
      var r := Find(ps[1..], id);
      assert HasId(ps[1..], id) ==> HasId(ps, id);
      assert HasId(ps, id) ==> HasId(ps[1..], id) by {
        if HasId(ps, id) {
          var i :| 0 <= i < |ps| && ps[i].id == id;
          assert ps[1..][i - 1].id == id;
        }
      }
      if r.Some? then
        var k :| 0 <= k < |ps[1..]| && ps[1..][k] == r.value && r.value.id == id &&
          forall j :: 0 <= j < k ==> ps[1..][j].id != id;
        assert ps[k + 1] == r.value && forall j :: 0 <= j < k + 1 ==> ps[j].id != id;
        r
      else r
  }

  /** The `map` shared by `increment` and `decrement`: a line whose id matches
      gets `delta` added to its quantity; nothing else changes. */
  function Adjust(ps: seq<Product>, id: string, delta: int): (r: seq<Product>)
    ensures |r| == |ps|
    ensures forall i :: 0 <= i < |ps| ==>
      r[i].id == ps[i].id && r[i].title == ps[i].title &&
      r[i].imageUrl == ps[i].imageUrl && r[i].price == ps[i].price &&
      r[i].quantity == ps[i].quantity + (if ps[i].id == id then delta else 0)
    ensures !HasId(ps, id) ==> r == ps
  {
    if ps == [] then []
    else
      var head := if ps[0].id == id then ps[0].(quantity := ps[0].quantity + delta) else ps[0];
      var r := [head] + Adjust(ps[1..], id, delta);
      assert !HasId(ps, id) ==> !HasId(ps[1..], id) by {
        if HasId(ps[1..], id) {
          var i :| 0 <= i < |ps[1..]| && ps[1..][i].id == id;
          assert ps[i + 1].id == id;
        }
      }
      r
  }

  /** `increment(id)`: the list with one more of every line whose id matches. */
  function Incremented(ps: seq<Product>, id: string): (r: seq<Product>)
    ensures |r| == |ps|
    ensures forall i :: 0 <= i < |ps| && ps[i].id == id ==>
      r[i] == ps[i].(quantity := ps[i].quantity + 1)
    ensures forall i :: 0 <= i < |ps| && ps[i].id != id ==> r[i] == ps[i]
    ensures !HasId(ps, id) ==> r == ps
  {
    Adjust(ps, id, 1)
  }

  /** `decrement(id)`: the list with one fewer of every line whose id matches,
      with no floor at zero and no removal of the line. */
  function Decremented(ps: seq<Product>, id: string): (r: seq<Product>)
    ensures |r| == |ps|
    ensures forall i :: 0 <= i < |ps| && ps[i].id == id ==>
      r[i] == ps[i].(quantity := ps[i].quantity - 1)
    ensures forall i :: 0 <= i < |ps| && ps[i].id != id ==> r[i] == ps[i]
    ensures !HasId(ps, id) ==> r == ps
  {
    Adjust(ps, id, -1)
  }

  /** The `map` in the existing-line branch of `addToCart`: the matching line
      takes the incoming fields and its old quantity plus one. */
  function Refresh(ps: seq<Product>, item: Item): (r: seq<Product>)
    ensures |r| == |ps|
    ensures forall i :: 0 <= i < |ps| && ps[i].id == item.id ==>
      r[i] == WithQuantity(item, ps[i].quantity + 1)
    ensures forall i :: 0 <= i < |ps| && ps[i].id != item.id ==> r[i] == ps[i]
  {
    if ps == [] then []
    else
      var head := if ps[0].id == item.id then WithQuantity(item, ps[0].quantity + 1) else ps[0];
      [head] + Refresh(ps[1..], item)
  }

  /** `addToCart(item)`: bump and refresh an existing line, or append a new
      line with quantity 1. */
  function Added(ps: seq<Product>, item: Item): (r: seq<Product>)
    ensures !HasId(ps, item.id) ==>
      |r| == |ps| + 1 && r[..|ps|] == ps && r[|ps|] == WithQuantity(item, 1)
    ensures HasId(ps, item.id) ==> |r| == |ps|
    ensures HasId(ps, item.id) ==>
      forall i :: 0 <= i < |ps| && ps[i].id == item.id ==>
        r[i] == WithQuantity(item, ps[i].quantity + 1)
    ensures forall i :: 0 <= i < |ps| && ps[i].id != item.id ==> r[i] == ps[i]
    ensures HasId(r, item.id)
  {
    match Find(ps, item.id)
    case Some(_) =>
      var r := Refresh(ps, item);
      assert HasId(r, item.id) by {
        var i :| 0 <= i < |ps| && ps[i].id == item.id;
        assert r[i].id == item.id;
      }
      r
    case None =>
      var r := ps + [WithQuantity(item, 1)];
      assert r[|ps|].id == item.id;
      r
  }

  /** Whatever `decrement` takes away, `increment` gives back: the shared map
      with `-delta` undoes the one with `delta`. */
  lemma AdjustInverse(ps: seq<Product>, id: string, delta: int)
    ensures Adjust(Adjust(ps, id, delta), id, -delta) == ps
  {
    var a := Adjust(ps, id, delta);
    var b := Adjust(a, id, -delta);
    forall i | 0 <= i < |ps| ensures b[i] == ps[i] {
      assert a[i].id == ps[i].id;
    }
  }

  lemma {:induction false} DecrementUndoesIncrement(ps: seq<Product>, id: string)
    ensures Decremented(Incremented(ps, id), id) == ps
  {
    AdjustInverse(ps, id, 1);
  }

  lemma {:induction false} IncrementUndoesDecrement(ps: seq<Product>, id: string)
    ensures Incremented(Decremented(ps, id), id) == ps
  {
    AdjustInverse(ps, id, -1);
  }

  /** With the id at exactly one index, the shared map changes that one line. */
  lemma AdjustOnce(ps: seq<Product>, id: string, delta: int, k: int)
    requires OccursOnceAt(ps, id, k)
    ensures Adjust(ps, id, delta) == ps[k := ps[k].(quantity := ps[k].quantity + delta)]
  {
  }

  /** With the id at exactly one index, `addToCart` replaces that one line. */
  lemma AddedOnce(ps: seq<Product>, item: Item, k: int)
    requires OccursOnceAt(ps, item.id, k)
    ensures Added(ps, item) == ps[k := WithQuantity(item, ps[k].quantity + 1)]
  {
  }

  /** `increment` and `decrement` change quantities only, so ids stay unique. */
  lemma AdjustKeepsUniqueIds(ps: seq<Product>, id: string, delta: int)
    requires UniqueIds(ps)
    ensures UniqueIds(Adjust(ps, id, delta))
  {
  }

  /** `addToCart` never introduces a second line with the same id. */
  lemma AddedKeepsUniqueIds(ps: seq<Product>, item: Item)
    requires UniqueIds(ps)
    ensures UniqueIds(Added(ps, item))
  {
    var r := Added(ps, item);
    if !HasId(ps, item.id) {
      forall i, j | 0 <= i < j < |r| ensures r[i].id != r[j].id {
        if j == |ps| {
          assert r[i] == ps[i];
        } else {
          assert r[i] == ps[i] && r[j] == ps[j];
        }
      }
    }
  }

  /** `addToCart` always changes the list: it grows by a line, or one line's
      quantity goes up by one. So the pre-call list it stores is never the
      list it leaves in memory. */
  lemma AddedChangesList(ps: seq<Product>, item: Item)
    ensures Added(ps, item) != ps
  {
    var r := Added(ps, item);
    if HasId(ps, item.id) {
      var i :| 0 <= i < |ps| && ps[i].id == item.id;
      assert r[i].quantity == ps[i].quantity + 1;
    }
  }
}
