/** The two totals the floating cart shows: the monetary total (before
    currency formatting) and the number of items. Both are `reduce` folds
    over the cart's list, seeded with 0. */
module FloatingCart {
  import opened CartList

  /** The reference sum of `term` over a list, element by element. */
  function SumOf(ps: seq<Product>, term: Product -> int): int
  {
    if ps == [] then 0 else term(ps[0]) + SumOf(ps[1..], term)
  }

  /** `ps.reduce((acc, p) => acc + term(p), acc)`: a left-to-right fold whose
      accumulator ends up as its seed plus the sum of the terms. */
  function Reduce(ps: seq<Product>, acc: int, term: Product -> int): (r: int)
    ensures r == acc + SumOf(ps, term)
  {
    if ps == [] then acc else Reduce(ps[1..], acc + term(ps[0]), term)
  }

  /** The subtotal of one line, `product.price * product.quantity`. */
  function Subtotal(p: Product): int
  {
    p.price * p.quantity
  }

  function Quantity(p: Product): int
  {
    p.quantity
  }

  /** `cartTotal` before `formatValue`: the sum of price times quantity. */
  function Total(ps: seq<Product>): (r: int)
    ensures r == SumOf(ps, Subtotal)
    ensures ps == [] ==> r == 0
  {
    Reduce(ps, 0, Subtotal)
  }

  /** `totalItensInCart`: the sum of the quantities. */
  function Count(ps: seq<Product>): (r: int)
    ensures r == SumOf(ps, Quantity)
    ensures ps == [] ==> r == 0
  {
    Reduce(ps, 0, Quantity)
  }

  lemma {:induction false} SumOfAppend(a: seq<Product>, b: seq<Product>, term: Product -> int)
    ensures SumOf(a + b, term) == SumOf(a, term) + SumOf(b, term)
  {
    if a == [] {
      assert a + b == b;
    } else {
      assert (a + b)[1..] == a[1..] + b;
      SumOfAppend(a[1..], b, term);
    }
  }

  /** Replacing one line changes the sum by the difference of its terms. */
  lemma {:induction false} SumOfUpdate(ps: seq<Product>, k: int, x: Product, term: Product -> int)
    requires 0 <= k < |ps|
    ensures SumOf(ps[k := x], term) == SumOf(ps, term) - term(ps[k]) + term(x)
  {
    if k > 0 {
      assert ps[k := x][1..] == ps[1..][k - 1 := x];
      SumOfUpdate(ps[1..], k - 1, x, term);
    }
  }

  lemma Distribute(price: int, q: int, d: int)
    ensures price * (q + d) == price * q + d * price
  {
  }

  lemma TotalAppend(a: seq<Product>, b: seq<Product>)
    ensures Total(a + b) == Total(a) + Total(b)
  {
    SumOfAppend(a, b, Subtotal);
  }

  lemma CountAppend(a: seq<Product>, b: seq<Product>)
    ensures Count(a + b) == Count(a) + Count(b)
  {
    SumOfAppend(a, b, Quantity);
  }

  /** Two lines, 10 cents times 2 and 5 cents times 3: total 35, count 5. */
  lemma TotalsExample()
    ensures var ps := [Product("a", "A", "a.png", 10, 2), Product("b", "B", "b.png", 5, 3)];
      Total(ps) == 35 && Count(ps) == 5
  {
  }

  /** On a line whose id occurs once, the shared map of `increment` and
      `decrement` moves the count by `delta` and the total by `delta` times
      that line's price. */
  lemma AdjustOnceTotals(ps: seq<Product>, id: string, delta: int, k: int)
    requires OccursOnceAt(ps, id, k)
    ensures Count(Adjust(ps, id, delta)) == Count(ps) + delta
    ensures Total(Adjust(ps, id, delta)) == Total(ps) + delta * ps[k].price
  {
    var x := ps[k].(quantity := ps[k].quantity + delta);
    AdjustOnce(ps, id, delta, k);
    assert Adjust(ps, id, delta) == ps[k := x];
    SumOfUpdate(ps, k, x, Quantity);
    assert Quantity(x) == Quantity(ps[k]) + delta;
    SumOfUpdate(ps, k, x, Subtotal);
    assert Subtotal(x) == Subtotal(ps[k]) + delta * ps[k].price by {
      Distribute(ps[k].price, ps[k].quantity, delta);
    }
  }

  lemma IncrementedTotals(ps: seq<Product>, id: string, k: int)
    requires OccursOnceAt(ps, id, k)
    ensures Count(Incremented(ps, id)) == Count(ps) + 1
    ensures Total(Incremented(ps, id)) == Total(ps) + ps[k].price
  {
    AdjustOnceTotals(ps, id, 1, k);
  }

  lemma DecrementedTotals(ps: seq<Product>, id: string, k: int)
    requires OccursOnceAt(ps, id, k)
    ensures Count(Decremented(ps, id)) == Count(ps) - 1
    ensures Total(Decremented(ps, id)) == Total(ps) - ps[k].price
  {
    AdjustOnceTotals(ps, id, -1, k);
  }

  /** With unique ids, `addToCart` puts exactly one more item in the cart. */
  lemma AddedCount(ps: seq<Product>, item: Item)
    requires UniqueIds(ps)
    ensures Count(Added(ps, item)) == Count(ps) + 1
  {
    if HasId(ps, item.id) {
      var k :| 0 <= k < |ps| && ps[k].id == item.id;
      assert OccursOnceAt(ps, item.id, k);
      AddedOnce(ps, item, k);
      SumOfUpdate(ps, k, WithQuantity(item, ps[k].quantity + 1), Quantity);
    } else {
      var r := Added(ps, item);
      assert r == ps + [WithQuantity(item, 1)];
      SumOfAppend(ps, [WithQuantity(item, 1)], Quantity);
    }
  }

  /** A new line adds its price to the total; an existing line adds one more
      unit at the incoming price and re-prices the units already there. */
  lemma AddedTotal(ps: seq<Product>, item: Item)
    requires UniqueIds(ps)
    ensures !HasId(ps, item.id) ==> Total(Added(ps, item)) == Total(ps) + item.price
    ensures forall k :: 0 <= k < |ps| && ps[k].id == item.id ==>
      Total(Added(ps, item)) == Total(ps) + (item.price - ps[k].price) * ps[k].quantity + item.price
  {
    if HasId(ps, item.id) {
      var k :| 0 <= k < |ps| && ps[k].id == item.id;
      assert OccursOnceAt(ps, item.id, k);
      var x := WithQuantity(item, ps[k].quantity + 1);
      AddedOnce(ps, item, k);
      SumOfUpdate(ps, k, x, Subtotal);
      Distribute(item.price, ps[k].quantity, 1);
    } else {
      var r := Added(ps, item);
      assert r == ps + [WithQuantity(item, 1)];
      SumOfAppend(ps, [WithQuantity(item, 1)], Subtotal);
    }
  }
}
