/** What the cart view computes from the slice state: the discounted total,
    and the condition under which it starts the catalog fetch. */
module ShoppingCart {
  import opened CartItems
  import opened CartSlice

  /** What one line-item adds to the running total: price × quantity. */
  function LineAmount(x: Item): real
  {
    x.price * x.quantity as real
  }

  /** Every price and every quantity is non-negative. */
  predicate NonNegative(items: seq<Item>)
  {
    forall j :: 0 <= j < |items| ==> items[j].price >= 0.0 && items[j].quantity >= 0
  }

  /** `items.reduce((total, item) => total + item.price * item.quantity, acc)`:
      a left fold from the accumulator `acc`. */
  function Fold(acc: real, items: seq<Item>): (r: real)
    ensures NonNegative(items) ==> r >= acc
    decreases |items|
  {
    if items == [] then acc
    else
      assert NonNegative(items) ==> NonNegative(items[1..]) && LineAmount(items[0]) >= 0.0;
      Fold(acc + LineAmount(items[0]), items[1..])
  }

  /** The fold started from 0, as the view starts it. */
  function Subtotal(items: seq<Item>): real
  {
    Fold(0.0, items)
  }

  /** `calculateTotal`: the subtotal less `discount` percent of it. */
  function Total(s: CartState): real
  {
    var subtotal := Subtotal(s.items);
    subtotal - subtotal * (s.discount / 100.0)
  }

  /** The view dispatches the catalog fetch only while the status is idle. */
  predicate ShouldFetch(status: Status)
  {
    status == Idle
  }

  /** A fold from `acc` is `acc` plus the fold from 0. */
  lemma {:induction false} FoldFromAccumulator(acc: real, items: seq<Item>)
    ensures Fold(acc, items) == acc + Subtotal(items)
    decreases |items|
  {
    if items != [] {
      FoldFromAccumulator(acc + LineAmount(items[0]), items[1..]);
      FoldFromAccumulator(LineAmount(items[0]), items[1..]);
    }
  }

  /** The subtotal of an empty cart is 0, and the subtotal of a concatenation
      is the sum of the subtotals. */
  lemma {:induction false} SubtotalConcat(a: seq<Item>, b: seq<Item>)
    ensures Subtotal([]) == 0.0
    ensures Subtotal(a + b) == Subtotal(a) + Subtotal(b)
    decreases |a|
  {
    if a == [] {
      assert a + b == b;
    } else {
      assert (a + b)[0] == a[0] && (a + b)[1..] == a[1..] + b;
      SubtotalConcat(a[1..], b);
      FoldFromAccumulator(LineAmount(a[0]), a[1..] + b);
      FoldFromAccumulator(LineAmount(a[0]), a[1..]);
    }
  }

  /** Appending an item raises the subtotal by exactly its price × quantity. */
  lemma SubtotalAppend(items: seq<Item>, x: Item)
    ensures Subtotal(items + [x]) == Subtotal(items) + x.price * x.quantity as real
  {
    SubtotalConcat(items, [x]);
    assert [x][1..] == [];
    assert Subtotal([x]) == Fold(0.0 + LineAmount(x), []);
  }

  /** With non-negative prices and quantities the subtotal is non-negative. */
  lemma SubtotalNonNegative(items: seq<Item>)
    requires NonNegative(items)
    ensures Subtotal(items) >= 0.0
  {
  }

  /** Adding a product to the cart raises the subtotal by its price. */
  lemma AddToCartRaisesSubtotal(s: CartState, p: Product)
    ensures Subtotal(Reduce(s, AddToCart(p)).items) == Subtotal(s.items) + p.price
  {
    SubtotalAppend(s.items, LineItem(p));
  }

  /** With discount 0 the total is the subtotal; with discount 100 it is 0. */
  lemma TotalAtDiscountBounds(s: CartState)
    ensures s.discount == 0.0 ==> Total(s) == Subtotal(s.items)
    ensures s.discount == 100.0 ==> Total(s) == 0.0
  {
  }

  /** With non-negative prices and quantities and a discount between 0 and
      100, the total lies between 0 and the subtotal. */
  lemma TotalBetweenZeroAndSubtotal(s: CartState)
    requires NonNegative(s.items)
    requires 0.0 <= s.discount <= 100.0
    ensures 0.0 <= Total(s) <= Subtotal(s.items)
  {
    var subtotal := Subtotal(s.items);
    var f := s.discount / 100.0;
    SubtotalNonNegative(s.items);
    assert 0.0 <= f <= 1.0;
    assert Total(s) == subtotal * (1.0 - f);
    assert subtotal - Total(s) == subtotal * f;
    NonNegativeProduct(subtotal, 1.0 - f);
    NonNegativeProduct(subtotal, f);
  }

  /** The product of two non-negative reals is non-negative. */
  lemma NonNegativeProduct(a: real, b: real)
    requires a >= 0.0 && b >= 0.0
    ensures a * b >= 0.0
  {
  }

  /** Items of price 10 × 2 and 20 × 1 with a 10% discount total 36. */
  lemma TotalExample()
    ensures Total(CartState([Item(1, "Product 1", 10.0, 2), Item(2, "Product 2", 20.0, 1)],
                            [], 10.0, Idle, Wrappers.None, [], [])) == 36.0
  {
    var items := [Item(1, "Product 1", 10.0, 2), Item(2, "Product 2", 20.0, 1)];
    assert items[1..][1..] == [];
    assert Subtotal(items) == 40.0;
  }

  /** The fresh store asks for the catalog; once the pending case has been
      reduced, no later action makes the view ask again. */
  lemma FetchRequestedAtMostOnce(s: CartState, acts: seq<Action>)
    ensures ShouldFetch(Initial.status)
    ensures !ShouldFetch(ReduceAll(Reduce(s, FetchPending), acts).status)
  {
    StatusNeverReturnsToIdle(Reduce(s, FetchPending), acts);
  }
}
