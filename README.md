# Shopping-cart state of the single-product storefront

This project models `CartManager`, the cart widget of the storefront's `script.js`.
The cart is an ordered list of line items. Each item is one configuration of the
product (id, name, price, color, image, size) with a quantity. The widget supports three
mutations:

- **add** fills in missing product fields with the defaults of the store's one product
  (`collier-led-1`, "Collier LED pour Chiens", 29, `rouge`, a placeholder image, `M`,
  quantity 1). It then either raises the quantity of the first entry with the same
  (id, color, size) or appends a new entry.
- **remove** deletes the entry at an index.
- **update quantity** sets one entry's quantity. A quantity of zero or less removes the entry.

After every mutation the whole list is written to one record in browser storage, and every
count badge is refreshed with the item count.

Files:

- `wrappers.dfy`: `Option`.
- `line_items.dfy` (module `LineItems`): the `LineItem`, the partial `Product` passed to
  add, the merge `Key`, the defaults, and the JavaScript `||` default filling. Here `None`,
  the empty string and `0` all mean "absent", because all three are falsy.
- `cart.dfy` (module `Cart`): the cart as a value. Each mutation has a specification function
  (`Find`, `Added`, `Removed`, `Updated`). The two reductions are `Total` and `Count`. The
  module also holds the invariants (`UniqueKeys`, `AllPositive`) and the lemmas about them.
- `cart_store.dfy` (module `CartStore`): the class `CartManager`. It has the fields `cart`,
  `stored` (the persisted record, taken to be a lossless snapshot of the list) and `badge`
  (the number every `.cart-count` element shows). Its methods update these fields in place,
  and each is proved against the functions of `Cart`. The method `DefaultSession` walks
  one session through these methods on empty storage: a reload at startup, `addToCart({})`
  twice, a second reload, then `updateQuantity(0, 0)`. After each of these five steps its
  assertions check the cart, the total, the badge and the stored record.

Prices are whole numbers (`nat`), not floating-point values. The storage record is passed to
the constructor, so the browser's storage is a parameter of the model.

Two edge cases of the code shape the model:

- `loadCart` (script.js:16) calls `JSON.parse` without a handler, so malformed text throws.
  The model has no malformed record: a record is either absent (`None`, which also covers
  the falsy empty string) or a list of items.
- `splice` and `cart[index]` are only well-behaved for an in-range index, so remove and
  update require `index < |cart|`.

## Model

| member | source | states |
|---|---|---|
| LineItems.OrText | script.js:27-41 | the JavaScript falsy fallback for a string: a supplied non-empty string is kept; an absent or empty one gives the default |
| LineItems.OrNumber | script.js:38-42 | the JavaScript falsy fallback for a number: a supplied non-zero number is kept; an absent or zero one gives the default |
| LineItems.ResolvedQuantity | script.js:33 | the quantity added is the supplied one when it is at least 1, and 1 when it is absent or 0; it is always at least 1 |
| LineItems.ProductKey | script.js:27-29 | the key searched for: each of id, color and size is the supplied non-empty value, or its default (collier-led-1, rouge, M) when absent or empty |
| LineItems.Resolve | script.js:35-43 | the appended entry carries exactly the key that was searched for, a quantity of at least 1 and a price of at least 1 |
| LineItems.ResolveKeepsSuppliedFields | script.js:36-42 | every truthy supplied property is kept; an absent, empty or zero id, price or quantity falls back to its default |
| LineItems.ResolveNoFields | script.js:27-42 | `{}` resolves to the default item with key (collier-led-1, rouge, M) |
| Cart.Find | script.js:26-30 | the result is the first position whose (id, color, size) equals the key; it is None exactly when no entry has that key |
| Cart.Total | script.js:64-66 | the price-times-quantity reduction; it is 0 on the empty cart and never negative when all quantities are positive |
| Cart.Count | script.js:69 | the quantity reduction; it is 0 on the empty cart and at least the number of entries when all quantities are positive |
| Cart.TotalConcat | script.js:65 | the total of two consecutive parts of a cart is the sum of their totals |
| Cart.CountConcat | script.js:69 | the count of two consecutive parts of a cart is the sum of their counts |
| Cart.CountZeroIffEmpty | script.js:69 | with positive quantities, the item count is 0 exactly when the cart is empty |
| Cart.Added | script.js:25-44 | with no match, one entry is appended and it is the default-filled item; with a match at the first matching position i, the length stays and only entry i changes, its quantity rising by the supplied quantity; every other entry is unchanged |
| Cart.Updated | script.js:55-60 | a quantity of zero or less drops entry i and keeps the rest in order; a positive one keeps the length, sets only entry i's quantity and leaves every other entry unchanged |
| Cart.Removed | script.js:51 | removal gives one entry fewer: entries before the index stay in place and entries after it move down by one, in their original order |
| Cart.AddMergesIntoMatch | script.js:26-33 | when the first match is at i, only entry i changes and its quantity rises by the supplied quantity; its name, price and image stay; the length is unchanged |
| Cart.AddMergesIntoUniqueMatch | script.js:26-33 | in a cart with unique keys, any matching entry is the one merged into, and every other entry is unchanged |
| Cart.AddAppendsNew | script.js:34-43 | when nothing matches, the new cart is the old cart with the default-filled entry appended at the end |
| Cart.AddPreservesUniqueKeys | script.js:26-44 | add keeps at most one entry per (id, color, size) |
| Cart.AddPreservesAllPositive | script.js:33-42 | add keeps every quantity at least 1 |
| Cart.AddCount | script.js:33-42 | add raises the item count by exactly the supplied quantity, or by 1 when none is given |
| Cart.AddTotal | script.js:33-42 | add raises the total by the supplied quantity times the merged entry's own price, or times the new entry's price when it appends |
| Cart.AddMatching | script.js:26-43 | the entries under the added key become one new entry or have the first one bumped; the entries under every other key are unchanged |
| Cart.AddOneUnderKey | script.js:26-43 | on a cart with at most one entry for the key, add leaves exactly one entry for it, and the key's quantity rises by the supplied quantity |
| Cart.AddRepeatedly | script.js:26-44 | on a cart holding at most one entry for a configuration, any nonempty run of adds of it leaves exactly one entry for it, holding the earlier quantity plus every supplied quantity |
| Cart.AddSameConfiguration | script.js:26-44 | adding one configuration n times to a cart without it gives one entry whose quantity is the sum of the supplied quantities |
| Cart.RemovePreservesInvariants | script.js:51 | removal keeps keys unique and quantities positive |
| Cart.RemoveSums | script.js:51 | removal lowers the total by the entry's subtotal and the count by its quantity |
| Cart.UpdateNonPositiveRemoves | script.js:55-58 | a quantity of zero or less has the same effect as removing that entry |
| Cart.UpdatePositiveSetsQuantity | script.js:60 | a positive quantity replaces entry i's quantity and no other field or entry; the count and the total change by the quantity difference |
| Cart.UpdatePreservesInvariants | script.js:55-60 | update keeps keys unique and quantities positive |
| Cart.ScenarioAddDefaultToEmpty | script.js:25-43 | `{}` on an empty cart gives one default entry with quantity 1, a count of 1 and a total of 29 |
| Cart.ScenarioAddDefaultTwice | script.js:25-43 | the default item added twice gives one entry with quantity 2 and a total of 58 |
| Cart.ScenarioTwoColors | script.js:26-43 | `rouge` then `bleu` of the same id and size gives two entries |
| Cart.ScenarioUpdateToZero | script.js:55-58 | `updateQuantity(0, 0)` on a one-entry cart empties it, and the total is 0 |
| CartStore.CartManager.LoadCart | script.js:14-17 | an absent record gives the empty cart; otherwise the stored list |
| CartStore.CartManager.GetTotal | script.js:64-66 | the empty cart totals 0; with positive quantities the total is never negative |
| CartStore.CartManager.constructor | script.js:3-9 | the cart is what storage holds, or empty if nothing is stored; the badges show its count; storage is not written |
| CartStore.CartManager.UpdateCartCount | script.js:68-73 | every badge shows the sum of the quantities |
| CartStore.CartManager.SaveCart | script.js:19-21 | the stored record becomes the whole cart and reloads to it unchanged; the badges show its count; the cart is unchanged |
| CartStore.CartManager.AddToCart | script.js:25-48 | the new cart is `Added` of the old; storage and badges are in step; the count rises by the supplied quantity; unique keys and positive quantities are kept; it appends one entry when nothing matches and keeps the length otherwise |
| CartStore.CartManager.RemoveFromCart | script.js:50-53 | the new cart is `Removed` of the old; the stored record equals it; the count and total drop by that entry's share; the invariants are kept |
| CartStore.CartManager.UpdateQuantity | script.js:55-62 | the new cart is `Updated` of the old; with a quantity of zero or less it equals removal; storage and badges are in step; the invariants are kept |
| CartStore.Reload | script.js:264-265 | a new page over the same storage reproduces the cart and the badge count exactly in every stable state: right after page load (where the cart is what loadCart gives) and after every completed mutation |

## Left out

- Rendering (`renderCart`, script.js:76-123): HTML templating and `toFixed(2)` formatting of floating-point totals are presentation only.
- The DOM side of `updateCartCount` (script.js:70-73): the badge elements are the single field `badge`, because all of them receive the same value.
- Event wiring (`setupEventListeners`, `setupProductImages`, `setupMobileMenu`) and the style injection (script.js:125-161, 189-261) are DOM reads and writes. The values the add button reads from the active selectors are simply the `Product` argument.
- `showNotification` (script.js:163-185): a timed cosmetic message.
- The checkout redirect (script.js:158): navigation to an external payment page.
- JSON encoding: the stored record is a snapshot of the list, assumed to be lossless. Records whose items lack fields cannot be expressed. For example, an old item without `size` is shown as `M` but never merges, because `undefined !== 'M'`.
- A malformed stored record: in the code, `JSON.parse` throws; the model has no such record.
- Items are values, not shared objects. `existingItem.quantity +=` in the code mutates the only reference to that item, so no aliasing is lost.
- Preconditions exclude behaviour callers never rely on: negative quantities passed to add (the type `nat` excludes them), `NaN` from `parseInt` in the quantity input (script.js:112), and negative or out-of-range indices for remove and update.
- Prices are whole numbers; the code's floating-point arithmetic and rounding are not modelled.
- Failed storage writes (for example, quota exceeded) are not modelled; the code does not handle them either.
