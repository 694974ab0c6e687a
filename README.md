# GoMarketplace cart, modelled in Dafny

This project models the shopping cart of the GoMarketplace mobile storefront.

- The cart provider keeps a list of line items. Each line has an id, a title, an image URL, a price and a quantity.
- It changes the list through three operations: `addToCart`, `increment` and `decrement`.
- After each operation it writes a copy of a list to the device's key-value storage under `@GoMarketplace:products`.
- At start-up it adopts the stored copy, if there is one.
- The floating cart shows two numbers derived from the list: the monetary total and the number of items.

Files:

- `cart_list.dfy`, module `CartList`: the data model and the three list transformations as pure functions. `Added` models `addToCart`, `Incremented` models `increment` and `Decremented` models `decrement`. All three are built from `Find`, `Adjust` and `Refresh`, which model the source's `find` and `map` calls.
- `floating_cart.dfy`, module `FloatingCart`: the `reduce` folds behind `cartTotal` and `totalItensInCart`. They are proved equal to a reference element-by-element sum (`SumOf`). The module also proves how each operation moves the two totals.
- `cart_store.dfy`, module `CartStore`: the class `CartProvider`. Its field `products` is the in-memory list and its field `stored` is the storage slot. It has one method per operation and one for the start-up load. Client methods show what an application restart recovers after each operation.

Prices are integer cents and quantities are unbounded integers. `decrement` has no floor, so a quantity can go below zero.

Three behaviours of the code worth noting:

- `addToCart` writes the list as it was BEFORE the call (`src/hooks/cart.tsx:73-76` stringifies `products`, not the new list). So after an add, the stored copy never equals the in-memory list (`CartProvider.AddToCart`, `AddedChangesList`). A restart then recovers the pre-add list (`RestartAfterAddToCart`). `increment` and `decrement` write the new list.
- Quantities are not kept at zero or above. `decrement` on a quantity of 0 gives -1, and the line stays in the list.
- `increment` and `decrement` with an id that is not in the list leave the list unchanged. They still write it to storage.

## Model

| member | source | states |
|---|---|---|
| `CartList.Find` | src/hooks/cart.tsx:53 | `find` returns nothing exactly when no line has the id; otherwise it returns a line with that id, and no earlier line has it |
| `CartList.Adjust` | src/hooks/cart.tsx:86-111 | the map shared by increment and decrement keeps the length and every field except quantity; a matching line's quantity moves by delta; a list without the id comes back unchanged |
| `CartList.Incremented` | src/hooks/cart.tsx:84-90 | `increment` keeps length and order; every matching line gets quantity + 1 with its other fields unchanged; other lines are identical; an unknown id leaves the list unchanged |
| `CartList.Decremented` | src/hooks/cart.tsx:105-111 | `decrement` subtracts 1 from matching lines with no floor and removes nothing; other lines are identical; an unknown id leaves the list unchanged |
| `CartList.Refresh` | src/hooks/cart.tsx:57-66 | the existing-line map keeps the length; a matching line takes the incoming id, title, image and price with its old quantity + 1; other lines are identical |
| `CartList.Added` | src/hooks/cart.tsx:50-71 | for a new id, `addToCart` appends exactly one line at the end with the incoming fields and quantity 1, and keeps the earlier lines and their order; for a known id, it keeps the length and refreshes the matching lines with quantity + 1; the id is always present afterwards |
| `CartList.AdjustInverse` | src/hooks/cart.tsx:86-111 | adding `-delta` to the matching quantities undoes adding `delta` |
| `CartList.DecrementUndoesIncrement` | src/hooks/cart.tsx:84-121 | for any list and id, `decrement` after `increment` gives back the original list |
| `CartList.IncrementUndoesDecrement` | src/hooks/cart.tsx:84-121 | for any list and id, `increment` after `decrement` gives back the original list |
| `CartList.AdjustOnce` | src/hooks/cart.tsx:86-111 | when the id occurs at exactly one index, increment and decrement change only that line's quantity |
| `CartList.AddedOnce` | src/hooks/cart.tsx:53-66 | when the id occurs at exactly one index, `addToCart` replaces only that line, with the incoming fields and quantity + 1 |
| `CartList.AdjustKeepsUniqueIds` | src/hooks/cart.tsx:84-121 | increment and decrement keep ids unique |
| `CartList.AddedKeepsUniqueIds` | src/hooks/cart.tsx:53-70 | if ids are unique before `addToCart`, they are unique after it |
| `CartList.AddedChangesList` | src/hooks/cart.tsx:53-76 | `addToCart` always changes the list, so the pre-call list it stores differs from the new in-memory list |
| `FloatingCart.Reduce` | src/components/FloatingCart/index.tsx:29-49 | the `reduce` fold, run left to right from an initial accumulator, returns that accumulator plus the element-by-element sum of the terms |
| `FloatingCart.Total` | src/components/FloatingCart/index.tsx:29-35 | the total before formatting is the sum of price × quantity over all lines, accumulated from 0; the empty cart totals 0 |
| `FloatingCart.Count` | src/components/FloatingCart/index.tsx:42-49 | the item count is the sum of the quantities, accumulated from 0; the empty cart counts 0 |
| `FloatingCart.SumOfAppend` | src/components/FloatingCart/index.tsx:29-49 | the sum of a term over a concatenation is the sum of the two parts |
| `FloatingCart.SumOfUpdate` | src/components/FloatingCart/index.tsx:29-49 | replacing one line changes the sum by the new line's term minus the old line's term |
| `FloatingCart.TotalAppend` | src/components/FloatingCart/index.tsx:29-35 | `Total(a + b) == Total(a) + Total(b)` |
| `FloatingCart.CountAppend` | src/components/FloatingCart/index.tsx:42-49 | `Count(a + b) == Count(a) + Count(b)` |
| `FloatingCart.TotalsExample` | src/components/FloatingCart/index.tsx:29-49 | lines of 10 × 2 and 5 × 3 give a total of 35 and a count of 5 |
| `FloatingCart.AdjustOnceTotals` | src/components/FloatingCart/index.tsx:29-49 | when the id occurs once, moving its quantity by delta moves the count by delta and the total by delta × price |
| `FloatingCart.IncrementedTotals` | src/components/FloatingCart/index.tsx:29-49 | when the id occurs once with price p, `increment` raises the count by 1 and the total by p |
| `FloatingCart.DecrementedTotals` | src/components/FloatingCart/index.tsx:29-49 | when the id occurs once with price p, `decrement` lowers the count by 1 and the total by p |
| `FloatingCart.AddedCount` | src/components/FloatingCart/index.tsx:42-49 | with unique ids, `addToCart` raises the item count by exactly 1, whether the id is new or known |
| `FloatingCart.AddedTotal` | src/components/FloatingCart/index.tsx:29-35 | with unique ids, adding a new id raises the total by its price; adding a known id re-prices the existing units at the incoming price and adds one more unit |
| `CartStore.CartProvider.constructor` | src/hooks/cart.tsx:30 | the provider starts with an empty list over the storage as it is |
| `CartStore.CartProvider.LoadProducts` | src/hooks/cart.tsx:32-47 | the start-up load adopts the stored list if one exists and otherwise leaves the list unchanged; storage is not written; unique ids in both the list and the stored copy stay unique (`Valid`) |
| `CartStore.CartProvider.AddToCart` | src/hooks/cart.tsx:50-79 | the list becomes `Added` of the old list; storage receives the old list, which differs from the new one; unique ids stay unique, in memory and in the stored copy (`Valid`) |
| `CartStore.CartProvider.Increment` | src/hooks/cart.tsx:84-100 | the list becomes `Incremented` of the old list and storage receives that new list, even for an unknown id; unique ids stay unique, in memory and in the stored copy (`Valid`) |
| `CartStore.CartProvider.Decrement` | src/hooks/cart.tsx:105-121 | the list becomes `Decremented` of the old list and storage receives that new list; unique ids stay unique, in memory and in the stored copy (`Valid`) |
| `CartStore.Restart` | src/hooks/cart.tsx:30-47 | a fresh provider over the same storage ends its start-up load holding the stored list, or the empty list when nothing is stored; a stored list with unique ids gives a provider whose ids are unique (`Valid`) |
| `CartStore.RestartAfterIncrement` | src/hooks/cart.tsx:92-97 | after `increment`, a restart recovers exactly the in-memory list |
| `CartStore.RestartAfterDecrement` | src/hooks/cart.tsx:113-118 | after `decrement`, a restart recovers exactly the in-memory list |
| `CartStore.RestartAfterAddToCart` | src/hooks/cart.tsx:73-76 | after `addToCart`, a restart recovers the list from before the add, never the in-memory list |
| `CartStore.Walkthrough` | src/hooks/cart.tsx:50-121 | from empty, adding a product twice and then decrementing it once leaves one line with quantity 1, count 1 and total 10, and storage holds that list |

## Left out

- React wiring is not modelled: the context, `useState`, `useEffect`, `useCallback`, `useMemo` and the provider/consumer plumbing. Each operation is one atomic step on the `CartProvider` object.
- The `useCart` error outside a provider (`src/hooks/cart.tsx:131-139`) is not modelled. It concerns context wiring, not cart logic.
- Asynchrony is not modelled. The model does not cover overlapping operations, writes that finish out of order, or state captured by a callback from an earlier render. Each write lands before the next operation starts.
- Storage is a field holding the list itself, or `None` when nothing was written. JSON serialisation and parsing are not modelled, so the serialise-then-parse round trip and a failing parse are not covered. A failed read or write is not covered either.
- `formatValue` (locale currency formatting) is not part of this model. Only the numeric total it receives is modelled.
- Prices are integer cents instead of floating-point numbers, so sums are exact and floating-point rounding is not modelled.
- Navigation, icons, styled components and the unused `api` import are not modelled.
