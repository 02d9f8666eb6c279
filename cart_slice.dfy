/** The cart slice: its state record, the actions it answers, the reducer as
    one value-to-value function, the undo/redo history lemmas, and a `Cart`
    object whose methods update the state fields in place the way the
    reducers update their draft. */
module CartSlice {
  import opened Wrappers
  import opened CartItems

  /** The catalog-load status: "idle", "loading", "succeeded" or "failed". */
  datatype Status = Idle | Loading | Succeeded | Failed

  /** The slice state. `history` is the undo stack (newest snapshot last),
      `future` the redo queue (next snapshot to redo first). */
  datatype CartState = CartState(
    items: seq<Item>,
    products: seq<Product>,
    discount: real,
    status: Status,
    error: Option<string>,
    history: seq<seq<Item>>,
    future: seq<seq<Item>>)

  /** The initial state: empty collections, no discount, status idle, no error. */
  const Initial := CartState([], [], 0.0, Idle, None, [], [])

  /** The actions the slice reduces: its six reducers, the three outcomes of
      the product fetch, and any action type the slice does not recognise. */
  datatype Action =
    | AddToCart(product: Product)
    | RemoveFromCart(id: int)
    | UpdateQuantity(id: int, quantity: int)
    | ApplyDiscount(percent: real)
    | Undo
    | Redo
    | FetchPending
    | FetchFulfilled(catalog: seq<Product>)
    | FetchRejected(message: string)
    | Unrecognized

  /** The four reducers that edit the cart and record a snapshot. */
  predicate IsMutation(a: Action)
  {
    a.AddToCart? || a.RemoveFromCart? || a.UpdateQuantity? || a.ApplyDiscount?
  }

  /** The three catalog-load lifecycle cases. */
  predicate IsLoadEvent(a: Action)
  {
    a.FetchPending? || a.FetchFulfilled? || a.FetchRejected?
  }

  /** The tail shared by every mutating reducer: push a copy of the current
      (already edited) items onto `history` and empty `future`. */
  function Commit(s: CartState): CartState
  {
    s.(history := s.history + [s.items], future := [])
  }

  /** The slice reducer: the state after one action. */
  function Reduce(s: CartState, a: Action): CartState
  {
    match a
    case AddToCart(p) => Commit(s.(items := s.items + [LineItem(p)]))
    case RemoveFromCart(id) => Commit(s.(items := Without(s.items, id)))
    case UpdateQuantity(id, q) => Commit(s.(items := WithQuantity(s.items, id, q)))
    case ApplyDiscount(d) => Commit(s.(discount := d))
    case Undo =>
      if |s.history| > 0 then
        s.(future := [s.items] + s.future,
           items := s.history[|s.history| - 1],
           history := s.history[..|s.history| - 1])
      else s
    case Redo =>
      if |s.future| > 0 then
        s.(history := s.history + [s.items],
           items := s.future[0],
           future := s.future[1..])
      else s
    case FetchPending => s.(status := Loading)
    case FetchFulfilled(ps) => s.(status := Succeeded, products := ps)
    case FetchRejected(m) => s.(status := Failed, error := Some(m))
    case Unrecognized => s
  }

  /** The state after dispatching `acts` in order. */
  function ReduceAll(s: CartState, acts: seq<Action>): CartState
    decreases |acts|
  {
    if acts == [] then s else ReduceAll(Reduce(s, acts[0]), acts[1..])
  }

  /** The whole undo/redo timeline: every snapshot that undo or redo can
      reach, with the live items at position |history|. */
  function Timeline(s: CartState): seq<seq<Item>>
  {
    s.history + [s.items] + s.future
  }

  // ---------------------------------------------------------------------
  // The mutating reducers

  /** Every mutating reducer pushes exactly one snapshot, equal to the items
      after the edit, empties `future`, and leaves products, status and error;
      all but `applyDiscount` also leave the discount. */
  lemma MutationCommits(s: CartState, a: Action)
    requires IsMutation(a)
    ensures Reduce(s, a).history == s.history + [Reduce(s, a).items]
    ensures Reduce(s, a).future == []
    ensures Reduce(s, a).products == s.products
    ensures Reduce(s, a).status == s.status && Reduce(s, a).error == s.error
    ensures !a.ApplyDiscount? ==> Reduce(s, a).discount == s.discount
  {
  }

  /** `addToCart` appends the product with quantity 1 after the existing
      items, which it leaves as they were; it never merges with an item of
      the same id, so the cart grows by one even when the id is present. */
  lemma AddToCartAppends(s: CartState, p: Product)
    ensures var r := Reduce(s, AddToCart(p));
      |r.items| == |s.items| + 1 && r.items[..|s.items|] == s.items &&
      r.items[|s.items|] == Item(p.id, p.name, p.price, 1) &&
      r.discount == s.discount
  {
    var r := Reduce(s, AddToCart(p));
    assert r.items[..|s.items|] == s.items;
  }

  /** `removeFromCart` removes every item with the id and nothing else: each
      other item survives as many times as it occurred, and the surviving
      items keep their relative order. */
  lemma RemoveFromCartFilters(s: CartState, id: int)
    ensures var r := Reduce(s, RemoveFromCart(id));
      !HasId(r.items, id) &&
      (forall x :: x in r.items <==> x in s.items && x.id != id) &&
      (forall x :: multiset(r.items)[x] == if x.id == id then 0 else multiset(s.items)[x]) &&
      SubsequenceOf(r.items, s.items) &&
      r.discount == s.discount
  {
    var r := Reduce(s, RemoveFromCart(id));
    WithoutIsSubsequence(s.items, id);
    WithoutCounts(s.items, id);
  }

  /** `updateQuantity` sets the quantity of the first item with the id only;
      the length, the order and every other item are unchanged. */
  lemma UpdateQuantityFirstOnly(s: CartState, id: int, q: int, k: nat)
    requires k < |s.items| && s.items[k].id == id
    requires forall j :: 0 <= j < k ==> s.items[j].id != id
    ensures Reduce(s, UpdateQuantity(id, q)).items == s.items[k := s.items[k].(quantity := q)]
  {
    WithQuantityFirst(s.items, id, q, k);
  }

  /** `updateQuantity` of an id no item carries leaves the items unchanged,
      yet still pushes an identical snapshot and empties `future`. */
  lemma UpdateQuantityAbsent(s: CartState, id: int, q: int)
    requires !HasId(s.items, id)
    ensures Reduce(s, UpdateQuantity(id, q)).items == s.items
    ensures Reduce(s, UpdateQuantity(id, q)).history == s.history + [s.items]
    ensures Reduce(s, UpdateQuantity(id, q)).future == []
  {
    WithQuantityAbsent(s.items, id, q);
  }

  /** `applyDiscount` stores the percentage verbatim and leaves the items. */
  lemma ApplyDiscountSets(s: CartState, d: real)
    ensures Reduce(s, ApplyDiscount(d)).discount == d
    ensures Reduce(s, ApplyDiscount(d)).items == s.items
    ensures Reduce(s, ApplyDiscount(d)).history == s.history + [s.items]
  {
  }

  /** After any non-empty run of mutating reducers `future` is empty and
      `history` has grown by one snapshot per action. */
  lemma {:induction false} MutationsClearFuture(s: CartState, acts: seq<Action>)
    requires acts != []
    requires forall i :: 0 <= i < |acts| ==> IsMutation(acts[i])
    ensures ReduceAll(s, acts).future == []
    ensures |ReduceAll(s, acts).history| == |s.history| + |acts|
    decreases |acts|
  {
    var s' := Reduce(s, acts[0]);
    MutationCommits(s, acts[0]);
    if |acts| > 1 {
      MutationsClearFuture(s', acts[1..]);
    }
  }

  // ---------------------------------------------------------------------
  // Undo and redo

  /** Undo with an empty history and redo with an empty future change nothing. */
  lemma UndoRedoNoOpWhenEmpty(s: CartState)
    ensures s.history == [] ==> Reduce(s, Undo) == s
    ensures s.future == [] ==> Reduce(s, Redo) == s
  {
  }

  /** Undo followed by redo restores the state exactly. */
  lemma UndoThenRedo(s: CartState)
    requires s.history != []
    ensures Reduce(Reduce(s, Undo), Redo) == s
  {
    var n := |s.history|;
    assert s.history[..n - 1] + [s.history[n - 1]] == s.history;
    assert ([s.items] + s.future)[1..] == s.future;
  }

  /** Redo followed by undo restores the state exactly. */
  lemma RedoThenUndo(s: CartState)
    requires s.future != []
    ensures Reduce(Reduce(s, Redo), Undo) == s
  {
    var h := s.history + [s.items];
    assert h[..|h| - 1] == s.history;
    assert [s.future[0]] + s.future[1..] == s.future;
  }

  /** Undo and redo only move the cursor along the timeline: the timeline,
      |history| + |future|, the discount, the products, the status and the
      error are preserved; undo moves the cursor back one step and redo
      forward one step when they can. */
  lemma UndoRedoKeepTimeline(s: CartState, a: Action)
    requires a.Undo? || a.Redo?
    ensures var r := Reduce(s, a);
      Timeline(r) == Timeline(s) &&
      |r.history| + |r.future| == |s.history| + |s.future| &&
      r.discount == s.discount && r.products == s.products &&
      r.status == s.status && r.error == s.error
    ensures a.Undo? && s.history != [] ==> |Reduce(s, a).history| == |s.history| - 1
    ensures a.Redo? && s.future != [] ==> |Reduce(s, a).history| == |s.history| + 1
  {
    var r := Reduce(s, a);
    if a.Undo? && s.history != [] {
      var n := |s.history|;
      assert s.history == s.history[..n - 1] + [s.history[n - 1]];
      assert Timeline(r) == s.history[..n - 1] + [s.history[n - 1]] + [s.items] + s.future;
    } else if a.Redo? && s.future != [] {
      assert s.future == [s.future[0]] + s.future[1..];
      assert Timeline(r) == s.history + [s.items] + [s.future[0]] + s.future[1..];
    }
  }

  /** Any run of undos and redos keeps the timeline and every field outside
      the history mechanism. */
  lemma {:induction false} NavigationKeepsTimeline(s: CartState, acts: seq<Action>)
    requires forall i :: 0 <= i < |acts| ==> acts[i].Undo? || acts[i].Redo?
    ensures var r := ReduceAll(s, acts);
      Timeline(r) == Timeline(s) &&
      |r.history| + |r.future| == |s.history| + |s.future| &&
      r.discount == s.discount && r.products == s.products &&
      r.status == s.status && r.error == s.error
    decreases |acts|
  {
    if acts != [] {
      UndoRedoKeepTimeline(s, acts[0]);
      NavigationKeepsTimeline(Reduce(s, acts[0]), acts[1..]);
    }
  }

  /** Because the snapshot is pushed after the edit, undo straight after a
      mutating reducer leaves the items as the mutation made them; the
      snapshot it takes moves to the front of `future`. */
  lemma UndoAfterMutationKeepsItems(s: CartState, a: Action)
    requires IsMutation(a)
    ensures var m := Reduce(s, a);
      Reduce(m, Undo).items == m.items &&
      Reduce(m, Undo).history == s.history &&
      Reduce(m, Undo).future == [m.items]
  {
    var m := Reduce(s, a);
    assert m.history[..|m.history| - 1] == s.history;
  }

  /** Add two products, then undo: the cart still holds both; only a second
      undo brings back the cart with the first product alone. */
  lemma AddTwiceThenUndo(p1: Product, p2: Product)
    ensures var s2 := ReduceAll(Initial, [AddToCart(p1), AddToCart(p2)]);
      var u1 := Reduce(s2, Undo);
      var u2 := Reduce(u1, Undo);
      u1.items == [LineItem(p1), LineItem(p2)] && |u1.future| == 1 &&
      u2.items == [LineItem(p1)] && |u2.future| == 2 && u2.history == []
  {
    var acts := [AddToCart(p1), AddToCart(p2)];
    var s1 := Reduce(Initial, AddToCart(p1));
    var s2 := Reduce(s1, AddToCart(p2));
    assert acts[1..] == [AddToCart(p2)] && acts[1..][1..] == [];
    assert ReduceAll(s2, []) == s2;
    assert ReduceAll(s1, acts[1..]) == s2;
    assert ReduceAll(Initial, acts) == s2;
    assert s1.items == [LineItem(p1)];
    assert s2.items == [LineItem(p1), LineItem(p2)];
    assert s2.history == [[LineItem(p1)], [LineItem(p1), LineItem(p2)]];
  }

  // ---------------------------------------------------------------------
  // The catalog-load lifecycle

  /** The load cases set the status (and products or error) without any guard
      on the current status; none of them clears the error or touches the
      items, history, future or discount. */
  lemma LoadEventsLeaveCart(s: CartState, a: Action)
    requires IsLoadEvent(a)
    ensures var r := Reduce(s, a);
      r.items == s.items && r.history == s.history && r.future == s.future &&
      r.discount == s.discount
    ensures a.FetchPending? ==>
      Reduce(s, a).status == Loading && Reduce(s, a).products == s.products &&
      Reduce(s, a).error == s.error
    ensures a.FetchFulfilled? ==>
      Reduce(s, a).status == Succeeded && Reduce(s, a).products == a.catalog &&
      Reduce(s, a).error == s.error
    ensures a.FetchRejected? ==>
      Reduce(s, a).status == Failed && Reduce(s, a).error == Some(a.message) &&
      Reduce(s, a).products == s.products
  {
  }

  /** Once the status has left idle no action brings it back. */
  lemma {:induction false} StatusNeverReturnsToIdle(s: CartState, acts: seq<Action>)
    requires s.status != Idle
    ensures ReduceAll(s, acts).status != Idle
    decreases |acts|
  {
    if acts != [] {
      StatusNeverReturnsToIdle(Reduce(s, acts[0]), acts[1..]);
    }
  }

  /** Pending, fulfilled, then a late rejection: the rejection still wins,
      and the loaded products stay. */
  lemma LoadThenLateFailure(ps: seq<Product>, msg: string)
    ensures var r := ReduceAll(Initial, [FetchPending, FetchFulfilled(ps), FetchRejected(msg)]);
      r.status == Failed && r.error == Some(msg) && r.products == ps
  {
    var acts := [FetchPending, FetchFulfilled(ps), FetchRejected(msg)];
    var s1 := Reduce(Initial, FetchPending);
    var s2 := Reduce(s1, FetchFulfilled(ps));
    var s3 := Reduce(s2, FetchRejected(msg));
    assert acts[1..] == [FetchFulfilled(ps), FetchRejected(msg)];
    assert acts[1..][1..] == [FetchRejected(msg)];
    assert acts[1..][1..][1..] == [];
    assert ReduceAll(s3, []) == s3;
    assert ReduceAll(s2, acts[1..][1..]) == s3;
    assert ReduceAll(s1, acts[1..]) == s3;
    assert ReduceAll(Initial, acts) == s3;
  }

  // ---------------------------------------------------------------------
  // The store: the state fields, changed in place by one method per case

  class Cart {
    var items: seq<Item>
    var products: seq<Product>
    var discount: real
    var status: Status
    var error: Option<string>
    var history: seq<seq<Item>>
    var future: seq<seq<Item>>

    /** The current state record. */
    function State(): CartState
      reads this
    {
      CartState(items, products, discount, status, error, history, future)
    }

    constructor ()
      ensures State() == Initial
    {
      items, products, discount := [], [], 0.0;
      status, error := Idle, None;
      history, future := [], [];
    }

    method AddToCart(p: Product)
      modifies this
      ensures State() == Reduce(old(State()), Action.AddToCart(p))
    {
      items := items + [LineItem(p)];
      history := history + [items];
      future := [];
    }

    method RemoveFromCart(id: int)
      modifies this
      ensures State() == Reduce(old(State()), Action.RemoveFromCart(id))
    {
      items := Without(items, id);
      history := history + [items];
      future := [];
    }

    method UpdateQuantity(id: int, quantity: int)
      modifies this
      ensures State() == Reduce(old(State()), Action.UpdateQuantity(id, quantity))
    {
      var found := FirstIndexOf(items, id);
      if found.Some? {
        var k := found.value;
        items := items[k := items[k].(quantity := quantity)];
      }
      history := history + [items];
      future := [];
    }

    method ApplyDiscount(percent: real)
      modifies this
      ensures State() == Reduce(old(State()), Action.ApplyDiscount(percent))
    {
      discount := percent;
      history := history + [items];
      future := [];
    }

    method Undo()
      modifies this
      ensures State() == Reduce(old(State()), Action.Undo)
    {
      if |history| > 0 {
        future := [items] + future;
        items := history[|history| - 1];
        history := history[..|history| - 1];
      }
    }

    method Redo()
      modifies this
      ensures State() == Reduce(old(State()), Action.Redo)
    {
      if |future| > 0 {
        history := history + [items];
        items := future[0];
        future := future[1..];
      }
    }

    method FetchPending()
      modifies this
      ensures State() == Reduce(old(State()), Action.FetchPending)
    {
      status := Loading;
    }

    method FetchFulfilled(catalog: seq<Product>)
      modifies this
      ensures State() == Reduce(old(State()), Action.FetchFulfilled(catalog))
    {
      status := Succeeded;
      products := catalog;
    }

    method FetchRejected(message: string)
      modifies this
      ensures State() == Reduce(old(State()), Action.FetchRejected(message))
    {
      status := Failed;
      error := Some(message);
    }

    /** Route an action to its case; an unrecognised action changes nothing. */
    method Dispatch(a: Action)
      modifies this
      ensures State() == Reduce(old(State()), a)
    {
      match a
      case AddToCart(p) => AddToCart(p);
      case RemoveFromCart(id) => RemoveFromCart(id);
      case UpdateQuantity(id, q) => UpdateQuantity(id, q);
      case ApplyDiscount(d) => ApplyDiscount(d);
      case Undo => Undo();
      case Redo => Redo();
      case FetchPending => FetchPending();
      case FetchFulfilled(ps) => FetchFulfilled(ps);
      case FetchRejected(m) => FetchRejected(m);
      case Unrecognized =>
    }
  }
}
