# Shopping cart slice, modelled in Dafny

This project models the client-side state engine of a Redux Toolkit shopping
cart. The cart slice keeps the cart line-items, the loaded product catalog, a
discount percentage, the catalog-load status and error, and a two-stack
undo/redo history of item snapshots. Its reducers are `addToCart`,
`removeFromCart`, `updateQuantity`, `applyDiscount`, `undo` and `redo`, and
its load lifecycle has three cases: pending, fulfilled and rejected. The
cart view computes the discounted total from this state. It starts the
catalog fetch only while the status is idle.

Files:

- `wrappers.dfy` (module `Wrappers`): `Option`. It stands for the JavaScript `null` error.
- `cart_items.dfy` (module `CartItems`): products and line-items, plus the three array operations the reducers use:
  - append;
  - `filter` by id (`Without`);
  - `find` of the first item with an id (`FirstIndexOf`), then a change to its quantity (`WithQuantity`).

  These are library calls in the source, not loops it writes, so they are recursive functions here.
- `cart_slice.dfy` (module `CartSlice`):
  - the state record `CartState`, the initial state and the `Action` datatype;
  - `Reduce`, the slice reducer as one value-to-value function, and `ReduceAll` for a run of actions;
  - the lemmas about the reducers and the history;
  - the class `Cart`. Its fields are the state fields. It has one method per reducer case, and each method updates the fields in place the way the reducer updates its draft. Each method's contract says the new state is `Reduce` of the old state and that action.
- `shopping_cart.dfy` (module `ShoppingCart`):
  - the subtotal, modelled as the left fold that `items.reduce` performs;
  - the discounted total;
  - the fetch gate;
  - lemmas about all three.

Undo and redo are described with the *timeline* `history + [items] + future`.
Undo and redo never change the timeline. They only move the position of the
live items along it. This is where the conservation of
`|history| + |future|` and the exact undo/redo round trips come from.

On two points the code does not do what a reader might expect; the model
follows the code:

- Every mutating reducer pushes its snapshot *after* it edits `items`. So an
  undo straight after a mutation leaves `items` as the mutation made it. It
  does not restore the previous cart. `UndoAfterMutationKeepsItems` and
  `AddTwiceThenUndo` state this. After adding p1 and then p2, one undo still
  shows both items. A second undo shows p1 alone.
- The load status can leave `succeeded` or `failed` again, because the load
  cases have no guard. Only the return to `idle` is impossible
  (`StatusNeverReturnsToIdle`).

## Model

| member | source | states |
|---|---|---|
| `CartItems.Without` | src/cartSlice.jsx:41 | the filter keeps an item exactly when it was in the cart and its id differs from the removed id (both directions), and it never lengthens the cart |
| `CartItems.WithoutIsSubsequence` | src/cartSlice.jsx:41 | the surviving items are a subsequence of the old items, so their relative order is kept |
| `CartItems.WithoutCounts` | src/cartSlice.jsx:41 | every item whose id differs survives as many times as it occurred, duplicates included, and no item with the id survives |
| `CartItems.WithoutConcat` | src/cartSlice.jsx:41 | the filter distributes over concatenation: each item is kept or dropped where it stands |
| `CartItems.WithoutAbsent` | src/cartSlice.jsx:41 | removing an id that no item carries leaves the items unchanged |
| `CartItems.FirstIndexOf` | src/cartSlice.jsx:47 | `find` yields nothing exactly when no item has the id; otherwise it yields an in-range index whose item has the id and before which no item has it |
| `CartItems.WithQuantity` | src/cartSlice.jsx:46-50 | the quantity update keeps the length and changes no field other than quantity, in any position |
| `CartItems.WithQuantityFirst` | src/cartSlice.jsx:46-50 | only the first item with the id gets the new quantity; every other position is unchanged |
| `CartItems.WithQuantityAbsent` | src/cartSlice.jsx:47-50 | an id no item carries leaves the items unchanged |
| `CartSlice.MutationCommits` | src/cartSlice.jsx:35-58 | each mutating reducer pushes exactly one snapshot, equal to the items after the edit, empties `future`, and keeps products, status and error; all but `applyDiscount` keep the discount |
| `CartSlice.AddToCartAppends` | src/cartSlice.jsx:35-39 | `addToCart` appends the product with quantity 1 after the unchanged earlier items and never merges, so the cart grows by one even for an id already present |
| `CartSlice.RemoveFromCartFilters` | src/cartSlice.jsx:40-44 | after `removeFromCart` no item has the id, every other item survives with its number of occurrences, their order is kept, and the discount is kept |
| `CartSlice.UpdateQuantityFirstOnly` | src/cartSlice.jsx:45-53 | `updateQuantity` changes the quantity of the first item with the id and nothing else in `items` |
| `CartSlice.UpdateQuantityAbsent` | src/cartSlice.jsx:45-53 | for an absent id the items are unchanged, yet an identical snapshot is pushed and `future` is emptied |
| `CartSlice.ApplyDiscountSets` | src/cartSlice.jsx:54-58 | `applyDiscount` stores the percentage verbatim, keeps the items and pushes a snapshot of them |
| `CartSlice.MutationsClearFuture` | src/cartSlice.jsx:35-58 | after any non-empty run of mutating reducers `future` is empty and `history` has grown by one entry per action |
| `CartSlice.UndoRedoNoOpWhenEmpty` | src/cartSlice.jsx:59-70 | undo with an empty history and redo with an empty future leave the whole state unchanged |
| `CartSlice.UndoThenRedo` | src/cartSlice.jsx:59-70 | with a non-empty history, undo then redo gives back exactly the same state |
| `CartSlice.RedoThenUndo` | src/cartSlice.jsx:59-70 | with a non-empty future, redo then undo gives back exactly the same state |
| `CartSlice.UndoRedoKeepTimeline` | src/cartSlice.jsx:59-70 | undo and redo keep the timeline `history + [items] + future`, the combined length of `history` and `future`, the discount, the products, the status and the error; undo shortens `history` by one and redo lengthens it by one when they can act |
| `CartSlice.NavigationKeepsTimeline` | src/cartSlice.jsx:59-70 | any run of undos and redos keeps the timeline, the size of the two stacks together, and every field outside the history |
| `CartSlice.UndoAfterMutationKeepsItems` | src/cartSlice.jsx:35-64 | undo straight after a mutating reducer leaves the items as the mutation made them, restores the earlier history, and puts that snapshot at the front of `future` |
| `CartSlice.AddTwiceThenUndo` | src/cartSlice.jsx:35-64 | from the initial state, add p1, add p2, undo: the items are still both products and `future` holds one entry; a second undo gives the cart with p1 alone and an empty history |
| `CartSlice.LoadEventsLeaveCart` | src/cartSlice.jsx:74-84 | pending sets loading, fulfilled sets succeeded and the products, rejected sets failed and the error; none has a guard on the status, none clears the error, none touches the items, history, future or discount |
| `CartSlice.StatusNeverReturnsToIdle` | src/cartSlice.jsx:74-84 | once the status is not idle, no run of actions makes it idle again |
| `CartSlice.LoadThenLateFailure` | src/cartSlice.jsx:74-84 | pending, fulfilled, then rejected: the status ends failed with the message as error, and the loaded products stay |
| `CartSlice.Cart.constructor` | src/cartSlice.jsx:25-33 | the store starts with empty items, products, history and future, discount 0, status idle and no error |
| `CartSlice.Cart.AddToCart` | src/cartSlice.jsx:35-39 | the in-place push of the new item and of its snapshot, and the emptied future, give the reducer's next state |
| `CartSlice.Cart.RemoveFromCart` | src/cartSlice.jsx:40-44 | reassigning the filtered items, pushing the snapshot and emptying the future give the reducer's next state |
| `CartSlice.Cart.UpdateQuantity` | src/cartSlice.jsx:45-53 | the in-place quantity change on the found item, the push and the emptied future give the reducer's next state |
| `CartSlice.Cart.ApplyDiscount` | src/cartSlice.jsx:54-58 | setting the discount, pushing the items and emptying the future give the reducer's next state |
| `CartSlice.Cart.Undo` | src/cartSlice.jsx:59-64 | the guarded `unshift` onto future and `pop` from history give the reducer's next state |
| `CartSlice.Cart.Redo` | src/cartSlice.jsx:65-70 | the guarded push onto history and `shift` from future give the reducer's next state |
| `CartSlice.Cart.FetchPending` | src/cartSlice.jsx:74-76 | the pending case gives the reducer's next state |
| `CartSlice.Cart.FetchFulfilled` | src/cartSlice.jsx:77-80 | the fulfilled case gives the reducer's next state |
| `CartSlice.Cart.FetchRejected` | src/cartSlice.jsx:81-84 | the rejected case gives the reducer's next state |
| `CartSlice.Cart.Dispatch` | src/cartSlice.jsx:34-85 | routing an action to its case gives the reducer's next state; an unrecognised action changes nothing |
| `ShoppingCart.Fold` | src/ShoppingCart.jsx:25-28 | with non-negative prices and quantities the running total never falls below its starting value |
| `ShoppingCart.FoldFromAccumulator` | src/ShoppingCart.jsx:25-28 | a fold started from any value is that value plus the fold started from 0 |
| `ShoppingCart.SubtotalConcat` | src/ShoppingCart.jsx:25-28 | the subtotal of an empty cart is 0, and the subtotal of two item lists put together is the sum of their subtotals |
| `ShoppingCart.SubtotalAppend` | src/ShoppingCart.jsx:25-28 | appending an item raises the subtotal by exactly its price times its quantity |
| `ShoppingCart.SubtotalNonNegative` | src/ShoppingCart.jsx:25-28 | with non-negative prices and quantities the subtotal is non-negative |
| `ShoppingCart.AddToCartRaisesSubtotal` | src/ShoppingCart.jsx:25-28 | reducing `addToCart` raises the subtotal by exactly the product's price |
| `ShoppingCart.TotalAtDiscountBounds` | src/ShoppingCart.jsx:29-30 | discount 0 gives the subtotal; discount 100 gives 0 |
| `ShoppingCart.TotalBetweenZeroAndSubtotal` | src/ShoppingCart.jsx:29-30 | with non-negative prices and quantities and a discount from 0 to 100, the total lies between 0 and the subtotal |
| `ShoppingCart.TotalExample` | src/ShoppingCart.jsx:24-31 | items at 10 × 2 and 20 × 1 with a 10 percent discount total 36 |
| `ShoppingCart.FetchRequestedAtMostOnce` | src/ShoppingCart.jsx:18-22 | the fresh store passes the idle gate; once the pending case has been reduced, no later run of actions opens the gate again |

## Left out

- The body of the `fetchProducts` thunk, which is a timer-driven promise that resolves to a fixed three-product catalog. It is asynchronous plumbing. Only its three outcomes are modelled, as the `FetchPending`, `FetchFulfilled` and `FetchRejected` actions, and the catalog is a parameter.
- The Redux Toolkit and Immer machinery: `createSlice`, `createAsyncThunk`, draft proxies and the exported action creators. Each reducer is modelled by its effect on the state value. Immer's structural sharing makes stored snapshots independent of later edits, so snapshots are plain `seq<Item>` values.
- React rendering, hooks, subscriptions, event handlers and the enabling of the undo and redo buttons. These are UI. The `min="1"` on the quantity input is not enforced by the slice, so the model lets any integer quantity through, as the reducer does.
- `parseInt` and `parseFloat` producing `NaN`, and the `toFixed(2)` rendering of the total. Quantities are `int`, and prices and discounts are exact `real`s. Floating-point rounding of the fold and of the discount is not modelled.
- `action.error.message` may be `undefined` in JavaScript. The rejected case takes a string message.
- `src/App.jsx` only wires a provider to a store module, and that store module is not part of this model.
