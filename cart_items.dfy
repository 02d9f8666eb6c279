/** Line-items of the cart and the three array operations the reducers apply
    to them: append, `filter` by id, and `find` of the first item with an id
    followed by an update of its quantity. */
module CartItems {
  import opened Wrappers

  /** A catalog entry as the product loader resolves it. */
  datatype Product = Product(id: int, name: string, price: real)

  /** A cart line-item: the product's fields spread out, plus a quantity. */
  datatype Item = Item(id: int, name: string, price: real, quantity: int)

  /** The line-item `addToCart` builds from its payload: `{ ...product, quantity: 1 }`. */
  function LineItem(p: Product): Item
  {
    Item(p.id, p.name, p.price, 1)
  }

  /** Does some item of `items` carry the id `id`? */
  predicate HasId(items: seq<Item>, id: int)
  {
    exists j :: 0 <= j < |items| && items[j].id == id
  }

  /** `items.filter((item) => item.id !== id)`: the items whose id differs
      from `id`, in their original order. */
  function Without(items: seq<Item>, id: int): (r: seq<Item>)
    ensures |r| <= |items|
    ensures forall x :: x in r <==> x in items && x.id != id
  {
    if items == [] then []
    else
      assert items == [items[0]] + items[1..];
      if items[0].id == id then Without(items[1..], id)
      else [items[0]] + Without(items[1..], id)
  }

  /** `r` is obtained from `s` by deleting elements, keeping the order of the rest. */
  predicate SubsequenceOf(r: seq<Item>, s: seq<Item>)
  {
    if r == [] then true
    else if s == [] then false
    else if r[0] == s[0] then SubsequenceOf(r[1..], s[1..])
    else SubsequenceOf(r, s[1..])
  }

  /** The surviving items of a filter keep their relative order. */
  lemma {:induction false} WithoutIsSubsequence(items: seq<Item>, id: int)
    ensures SubsequenceOf(Without(items, id), items)
  {
    if items != [] {
      WithoutIsSubsequence(items[1..], id);
      var r := Without(items, id);
      if items[0].id == id {
        assert r == Without(items[1..], id);
        if r != [] {
          assert r[0] in r;
          assert r[0] != items[0];
        }
      } else {
        assert r == [items[0]] + Without(items[1..], id);
        assert r[1..] == Without(items[1..], id);
      }
    }
  }

  /** Every item with another id survives the filter as often as it
      occurred, duplicates included; items with the id do not survive. */
  lemma {:induction false} WithoutCounts(items: seq<Item>, id: int)
    ensures forall x :: multiset(Without(items, id))[x] == (if x.id == id then 0 else multiset(items)[x])
  {
    if items != [] {
      WithoutCounts(items[1..], id);
      assert items == [items[0]] + items[1..];
      assert multiset(items) == multiset([items[0]]) + multiset(items[1..]);
      if items[0].id != id {
        var r := Without(items, id);
        assert r == [items[0]] + Without(items[1..], id);
        assert multiset(r) == multiset([items[0]]) + multiset(Without(items[1..], id));
      }
    }
  }

  /** Filtering distributes over concatenation: each item is kept or dropped
      on its own, where it stands. */
  lemma {:induction false} WithoutConcat(a: seq<Item>, b: seq<Item>, id: int)
    ensures Without(a + b, id) == Without(a, id) + Without(b, id)
  {
    if a == [] {
      assert a + b == b;
    } else {
      assert (a + b)[0] == a[0];
      assert (a + b)[1..] == a[1..] + b;
      WithoutConcat(a[1..], b, id);
    }
  }

  /** Removing an id that no item carries leaves the items as they were. */
  lemma {:induction false} WithoutAbsent(items: seq<Item>, id: int)
    requires !HasId(items, id)
    ensures Without(items, id) == items
  {
    if items != [] {
      assert items[0].id != id;
      assert !HasId(items[1..], id) by {
        forall j | 0 <= j < |items[1..]| ensures items[1..][j].id != id {
          assert items[1..][j] == items[j + 1];
        }
      }
      WithoutAbsent(items[1..], id);
      assert items == [items[0]] + items[1..];
    }
  }

  /** `items.find((item) => item.id === id)`, as the position of the element
      found: the index of the first item with id `id`, or None. */
  function FirstIndexOf(items: seq<Item>, id: int): (r: Option<nat>)
    ensures r.None? <==> !HasId(items, id)
    ensures r.Some? ==> r.value < |items| && items[r.value].id == id
    ensures r.Some? ==> forall j :: 0 <= j < r.value ==> items[j].id != id
  {
    if items == [] then None
    else if items[0].id == id then Some(0)
    else
      match FirstIndexOf(items[1..], id)
      case None =>
        assert forall j :: 1 <= j < |items| ==> items[j] == items[1..][j - 1];
        None
      case Some(k) =>
        assert forall j :: 1 <= j < |items| ==> items[j] == items[1..][j - 1];
        Some(k + 1)
  }

  /** The `updateQuantity` edit: the first item with id `id`, if any, gets
      quantity `quantity`; every other item stays. */
  function WithQuantity(items: seq<Item>, id: int, quantity: int): (r: seq<Item>)
    ensures |r| == |items|
    ensures forall j :: 0 <= j < |items| ==> r[j] == items[j].(quantity := r[j].quantity)
  {
    match FirstIndexOf(items, id)
    case None => items
    case Some(k) => items[k := items[k].(quantity := quantity)]
  }

  /** Only the first item with the id is updated; the length, the order and
      every other item are unchanged. */
  lemma WithQuantityFirst(items: seq<Item>, id: int, quantity: int, k: nat)
    requires k < |items| && items[k].id == id
    requires forall j :: 0 <= j < k ==> items[j].id != id
    ensures WithQuantity(items, id, quantity)[k] == items[k].(quantity := quantity)
    ensures forall j :: 0 <= j < |items| && j != k ==> WithQuantity(items, id, quantity)[j] == items[j]
  {
    var f := FirstIndexOf(items, id);
    assert f.Some? by { assert HasId(items, id); }
    assert f.value == k;
  }

  /** An id that no item carries leaves the items unchanged. */
  lemma WithQuantityAbsent(items: seq<Item>, id: int, quantity: int)
    requires !HasId(items, id)
    ensures WithQuantity(items, id, quantity) == items
  {
  }
}
