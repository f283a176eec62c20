# Shopping cart state transitions

A Dafny model of the cart held by the storefront's cart provider
(`src/hooks/cart.tsx`). The cart is an ordered list of line items
(`Product`: id, title, image URL, price, quantity). Three operations replace
the list with a new one:

- **add to cart** makes one pass over the list. It bumps the quantity of every
  item whose id matches and raises a `productExists` flag. If the flag was
  never raised, it appends the caller's product with quantity 1. The caller's
  own optional `quantity` is ignored.
- **increment** maps over the list and adds 1 to the matching item.
- **decrement** maps over the list and subtracts 1 from the matching item. It
  then filters out every item whose quantity is not above 0.

Everything lives in module `Cart` (`cart.dfy`):

- `Adjusted` is the shared `map`, a sequence comprehension. `KeepInCart` is
  the `filter`.
- `Incremented` and `Decremented` are the increment and decrement updaters as
  functions.
- `AddedTo` is the reference meaning of add to cart: increment when the id is
  present, otherwise append one quantity-1 line.
- `AddToCartUpdater` is the add-to-cart updater as the code runs it: a loop
  with the flag, then the conditional append. Its postcondition proves it
  equal to `AddedTo`.
- `CartStore` is the provider's `products` state. It is a class with a `seq`
  field, and each of its methods replaces that field with the updater's
  result.

The two cart invariants are `UniqueIds` (at most one line per id) and
`AllPositive` (every quantity at least 1). Together they form `ValidCart`.
Each operation is proved to preserve them. Decrement establishes `AllPositive`
from any starting list.

The operations do not require the invariants. The code hydrates the list from
storage without validating it, so the updaters can run on any list. Every
property that depends on the invariants takes them as a hypothesis.

Choices the code makes that a reader may not expect:

- A missing id raises no error. Increment returns the list unchanged
  (`IncrementedMissing`). Decrement does so when every quantity is at least 1
  (`DecrementedMissing`); otherwise it still drops the items at 0 or below.
- Decrement's filter drops every item whose quantity is 0 or below, not only
  the one that was decremented.
- Add to cart bumps every item with the matching id, which is exactly one item
  when ids are unique.

## Model

| member | source | states |
|---|---|---|
| `Cart.AddToCartUpdater` | src/hooks/cart.tsx:58-71 | The flag-and-push pass over the old list returns exactly the reference result: increment by the id when it is present, otherwise the old list with one quantity-1 line appended |
| `Cart.AddedNew` | src/hooks/cart.tsx:67-69 | When the id is absent, the result is one longer, the old items come first unchanged and in order, and the last item is the caller's product with quantity 1 |
| `Cart.AddedIgnoresQuantity` | src/hooks/cart.tsx:68 | The result does not depend on the quantity the caller put in the added product |
| `Cart.AddedExisting` | src/hooks/cart.tsx:60-66 | When the id is present and ids are unique, the length is unchanged, that item keeps its position, title, image and price and gains exactly 1, and every other item is unchanged |
| `Cart.AddedValid` | src/hooks/cart.tsx:58-71 | Add to cart keeps ids unique and every quantity at least 1 |
| `Cart.IncrementedAt` | src/hooks/cart.tsx:82-89 | With unique ids, increment raises the matching item's quantity by exactly 1 and leaves the length and every other item unchanged |
| `Cart.IncrementedMissing` | src/hooks/cart.tsx:83-87 | Increment with an id that is not in the cart returns the cart unchanged, with no error |
| `Cart.IncrementedValid` | src/hooks/cart.tsx:82-89 | Increment keeps ids unique and every quantity at least 1 |
| `Cart.AdjustedKeepsIds` | src/hooks/cart.tsx:83-87 | The quantity-adjusting map never changes ids, so a list with unique ids keeps them unique |
| `Cart.AdjustedSingle` | src/hooks/cart.tsx:101-105 | With unique ids, the quantity-adjusting map changes only the item at the matching position |
| `Cart.Adjusted` | src/hooks/cart.tsx:83-87 | The `map` shared by increment and decrement keeps the length, every id, title, image and price, and every item whose id does not match; the exact change to the matching item is stated by `IncrementedAt`, `AdjustedSingle` and `AdjustedKeepsIds` |
| `Cart.Incremented` | src/hooks/cart.tsx:82-89 | The increment updater keeps the length and every id, never lowers a quantity, and keeps every quantity at least 1; `IncrementedAt`, `IncrementedMissing` and `IncrementedValid` give its exact result |
| `Cart.NewLine` | src/hooks/cart.tsx:68 | The appended line carries the caller's id, title, image and price with quantity 1; `AddedNew` places it at the end of the list |
| `Cart.KeepInCart` | src/hooks/cart.tsx:106 | The filter keeps exactly the items whose quantity is above 0, so none of its items is below 1, and it is never longer than its input |
| `Cart.KeepInCartAppend` | src/hooks/cart.tsx:106 | Filtering a concatenation equals concatenating the filtered parts, so the filter preserves relative order |
| `Cart.KeepInCartOfPositive` | src/hooks/cart.tsx:106 | The filter returns a list whose quantities are all at least 1 unchanged |
| `Cart.KeepInCartUnique` | src/hooks/cart.tsx:106 | The filter keeps ids unique |
| `Cart.Decremented` | src/hooks/cart.tsx:100-108 | After decrement, every remaining item has quantity at least 1, whatever the cart held before |
| `Cart.DecrementedValid` | src/hooks/cart.tsx:100-108 | From any list with unique ids, decrement yields a list that satisfies both invariants |
| `Cart.DecrementedAbove1` | src/hooks/cart.tsx:101-106 | On a valid cart, decrement of an item with quantity above 1 lowers it by 1 in place and changes nothing else |
| `Cart.DecrementedRemoves` | src/hooks/cart.tsx:101-106 | On a valid cart, decrement of an item with quantity 1 removes it, and the items before and after it keep their order |
| `Cart.DecrementedMissing` | src/hooks/cart.tsx:101-106 | Decrement with an absent id leaves a cart whose quantities are all at least 1 unchanged, with no error and no removal |
| `Cart.DecrementedKeeps` | src/hooks/cart.tsx:106 | An item that decrement does not target stays in the result exactly when its quantity is above 0, so items already at 0 or below are dropped too |
| `Cart.SessionAdds` | src/hooks/cart.tsx:58-71 | From an empty cart, add shoe, add shoe, add hat gives [shoe 1], then [shoe 2], then [shoe 2, hat 1] |
| `Cart.SessionDecrements` | src/hooks/cart.tsx:100-108 | Continuing that session, decrement shoe twice gives [shoe 1, hat 1], then [hat 1] |
| `Cart.CartStore.constructor` | src/hooks/cart.tsx:37 | The cart state starts as an empty list, which satisfies both invariants |
| `Cart.CartStore.AddToCart` | src/hooks/cart.tsx:55-71 | Replaces the list with the add-to-cart result, and keeps both invariants when they held before |
| `Cart.CartStore.Increment` | src/hooks/cart.tsx:79-89 | Replaces the list with the increment result, and keeps both invariants when they held before |
| `Cart.CartStore.Decrement` | src/hooks/cart.tsx:97-108 | Replaces the list with the decrement result, and keeps both invariants when they held before |

## Left out

- Loading the cart from AsyncStorage under `'@GoMarketplace:cart'` at start-up, and writing it back after each operation. This is asynchronous I/O to an external store. The model's cart starts empty. No operation requires the invariants, because the code's loading can install an unvalidated list.
- `JSON.parse` and `JSON.stringify` of the persisted list. These are library calls, and the serialization round trip is not modelled.
- The React context, state hooks, memoisation and provider component. This is UI framework plumbing; `CartStore` stands in for the `products` state.
- The `newProducts` variable captured outside each updater, and the ordering of the fire-and-forget storage write relative to the state update. Both depend on React's scheduling of updaters.
- The missing-provider check in `useCart`. It is context wiring, not cart logic.
- JavaScript numbers: `quantity` is an unbounded integer and `price` a real. Quantities start at 1 and change by plus or minus 1, so they stay whole unless storage installs other values; floating-point rounding only starts at 2^53. Fractional quantities loaded from storage and rounding above 2^53 are not modelled, and the price is never computed with.
