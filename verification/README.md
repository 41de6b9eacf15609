# taharLuxe store slices in Dafny

This project models the four Redux Toolkit slices behind the taharLuxe shop front. Each case reducer is a pure function from state and payload to state. Each slice also has an action datatype, a `Reduce` that dispatches one action, and a `Run` that dispatches a sequence.

- **Cart** (`cart.dfy`, `cart_facts.dfy`). Line items are identified by the key (product id, selected size, selected colour). Adding merges into an existing line or appends. Removing filters out every line with the key. Setting a quantity stores the value as given. Clearing empties the cart, and three actions drive the panel's visibility flag. The badge count and the panel subtotal are the two derived sums the components compute.
- **Products** (`products.dfy`, `product_facts.dfy`). The catalogue, the shown list and the derived category list. The category filter and the search both start again from the whole catalogue. The sort reorders the shown list in place with a stable comparator sort.
- **Orders** (`orders.dfy`, `order_facts.dfy`). Every order, plus a snapshot of one user's orders. Placing appends. A status update changes the first order with the id. Selecting a user filters the orders.
- **Auth** (`auth.dfy`, `auth_facts.dfy`). The signed-in user and the two flags set at sign-in. Updating the user spreads a partial payload over it.

The shared pieces are:

- `seqs.dfy`, `module Seqs`: the array operations the reducers use. `find` is `FindIndex`, `filter` is `Filter`, a summing `reduce` is `SumOf`, and `[...new Set(xs)]` is `Distinct`.
- `sorting.dfy`: `Array.prototype.sort` with a comparator, modelled as a stable insertion sort. ECMAScript 2019 requires the sort to be stable.
- `text.dfy`: `toLowerCase` and `includes`.
- `users.dfy` and `common.dfy`: the record shapes and `Option`.

Representation choices:

- JavaScript `undefined` in an optional size, colour, password or address is `None`. Strict equality `===` on two `undefined` values is `None == None`.
- Prices are integers in the smallest currency unit and ratings are integers in tenths.
- The `createdAt` strings of products are pre-parsed to integer timestamps in milliseconds.
- `Partial<User>` is a record of `Option` fields. `None` means the key is absent. For the two optional fields, `Some(None)` means the key is present with the value `undefined`.

The quantity inputs of the product page and the cart panel declare `min={1}`, and some of their handlers check for it. Those guards are modelled as a predicate on actions, `CartFacts.Guarded`. The reducers themselves store whatever quantity they receive, and the model follows them: `UpdateQuantity` keeps 0 or a negative number, and `CartFacts.ShirtEdits` shows a line kept at quantity 0.

## Model

| member | source | states |
|---|---|---|
| Seqs.FindIndex | lib/redux/features/cart/cartSlice.ts:20-22 | `Array.prototype.find`: the result is the first position whose element passes the test. `None` means no element passes. |
| Seqs.Filter | lib/redux/features/orders/orderSlice.ts:38 | `Array.prototype.filter`: the result keeps relative order, every kept element passes the test, and every passing element is kept. |
| Seqs.FilterCounts | lib/redux/features/orders/orderSlice.ts:38 | The filter keeps exactly the copies of each passing value and none of any other value. |
| Seqs.SumOfPartition | components/layout/navbar.tsx:42 | A `reduce` sum over a list is the sum over the kept part plus the sum over the dropped part. |
| Seqs.Distinct | lib/redux/features/products/productSlice.ts:16 | `[...new Set(xs)]`: no value repeats, the values present are exactly those of `xs`, and they are ordered by first occurrence. |
| Sorting.SortBy | lib/redux/features/products/productSlice.ts:42 | The comparator sort returns a permutation of its input that is ordered by the key. |
| Sorting.SortByStable | lib/redux/features/products/productSlice.ts:40-58 | Stability: the elements sharing any one key appear in the same relative order as before the sort. |
| Sorting.SortBySorted | lib/redux/features/products/productSlice.ts:40-58 | A list already in key order is returned unchanged. |
| Text.LowerIdempotent | lib/redux/features/products/productSlice.ts:61 | Lower-casing keeps the length, and lower-casing twice gives the same result as once. |
| Text.LowerEmpty | lib/redux/features/products/productSlice.ts:61-62 | Only the empty term lower-cases to `""`, so the reducer's empty-term branch is taken exactly for the empty term. |
| Text.IncludesEmpty | lib/redux/features/products/productSlice.ts:67-69 | Every string includes the empty string. |
| Cart.AddToCart | lib/redux/features/cart/cartSlice.ts:18-29 | If the key is present, the cart keeps its length and the first line with the key (the one `find` returns) has its quantity grown by the incoming quantity. If the key is absent, the item is appended. Every other line, including any later line with the same key, stays where it was, unchanged. The panel flag is untouched. |
| Cart.RemoveFromCart | lib/redux/features/cart/cartSlice.ts:30-42 | No line with the key remains. Every line with another key is kept, in order (`CartFacts.RemoveFromCartCounts` adds that every copy is kept). Removing a key the cart lacks leaves the items equal to before. |
| Cart.UpdateQuantity | lib/redux/features/cart/cartSlice.ts:43-62 | If the key is present, the first line with the key gets the given quantity, however small. If it is absent, the state is unchanged. The length and every other line, including any later line with the same key, stay the same. |
| Cart.ClearCart | lib/redux/features/cart/cartSlice.ts:63-65 | No items remain and the panel flag is unchanged. |
| Cart.ToggleCart | lib/redux/features/cart/cartSlice.ts:66-68 | The flag flips and the items are untouched. |
| Cart.CloseCart | lib/redux/features/cart/cartSlice.ts:69-71 | The flag is false and the items are untouched. |
| Cart.OpenCart | lib/redux/features/cart/cartSlice.ts:72-74 | The flag is true and the items are untouched. |
| CartFacts.AddToCartKeys | lib/redux/features/cart/cartSlice.ts:18-29 | Adding registers exactly the incoming key on top of the keys already there. |
| CartFacts.AddToCartOtherLines | lib/redux/features/cart/cartSlice.ts:20-28 | Looking up any other key after an add finds the same line as before. |
| CartFacts.AddSameKeyTwice | lib/redux/features/cart/cartSlice.ts:20-28 | Two adds of one key to a cart without it give a single line. Its quantity is the sum, and its name, price and image come from the first add. |
| CartFacts.ReachableUnique | lib/redux/features/cart/cartSlice.ts:9-74 | From the empty cart, no sequence of actions ever produces two lines with the same key. |
| CartFacts.RunKeepsUnique | lib/redux/features/cart/cartSlice.ts:18-74 | Every action sequence preserves the absence of duplicate keys. |
| CartFacts.AddThenRemove | lib/redux/features/cart/cartSlice.ts:18-42 | Removing a key after adding it gives the same result as removing it alone. A cart that lacked the key is restored exactly. |
| CartFacts.UpdateThenRemove | lib/redux/features/cart/cartSlice.ts:30-62 | Removing a key after setting its quantity gives the same result as removing it alone. |
| CartFacts.RemoveFromCartCounts | lib/redux/features/cart/cartSlice.ts:36-41 | The remove keeps every copy of each line with another key, and no line with the key. |
| CartFacts.RemoveFromCartLookups | lib/redux/features/cart/cartSlice.ts:30-42 | After a remove, the key finds no line and every other key finds the line it found before. |
| CartFacts.UniqueKeySelection | lib/redux/features/cart/cartSlice.ts:36-41 | In a cart without duplicate keys, the lines with a given key are exactly the one line the lookup finds, or none. |
| CartFacts.AddToCartItemCount | components/layout/navbar.tsx:42 | Adding `q` of an item raises the badge count by exactly `q`, whether the line is merged or new. |
| CartFacts.AddToCartSubtotal | components/cart/cart-sheet.tsx:42-45 | Adding `q` raises the subtotal by `q` times the price of the line it lands in. That is the price already in the cart when the key was there, and the incoming price otherwise. |
| CartFacts.UpdateQuantityTotals | components/cart/cart-sheet.tsx:42-45 | Setting a quantity moves the badge count by the change in quantity and the subtotal by the price times that change. An absent key moves neither. |
| CartFacts.RemoveFromCartTotals | components/cart/cart-sheet.tsx:42-45 | In a cart without duplicate keys, removing a key lowers the count by that line's quantity and the subtotal by that line's total. |
| CartFacts.GuardedRunKeepsPositive | components/cart/cart-sheet.tsx:110-120 | If every add and quantity update passes at least 1, as the product page and the panel's −/+ buttons ensure, all quantities stay at least 1. |
| CartFacts.ReduceKeepsPositive | components/product/product-detail.tsx:190-195 | One guarded action keeps every quantity at least 1. |
| CartFacts.VisibilityCommutes | lib/redux/features/cart/cartSlice.ts:63-74 | The visibility actions commute with every item action, so the flag and the lines are independent. |
| CartFacts.VisibilityAlgebra | lib/redux/features/cart/cartSlice.ts:66-74 | Toggling twice restores the state. Closing and opening are idempotent. Toggling a closed cart opens it, and toggling an open cart closes it. |
| CartFacts.ShirtLines | lib/redux/features/cart/cartSlice.ts:18-29 | Worked session: a size-M shirt added with quantities 1 and 2 makes one line of 3. Size L makes a second line, and the panel stays closed. The badge shows 4 and the subtotal is 4 × 2000. |
| CartFacts.ShirtEdits | lib/redux/features/cart/cartSlice.ts:30-62 | On a closed cart with an M line and an L line of any quantities: setting M to 0 stores 0. Removing L, then the never-added XL, leaves only the M line. |
| CartFacts.ShirtSession | lib/redux/features/cart/cartSlice.ts:9-62 | The whole session from the empty cart, the three adds followed by the three edits, ends with one M line of quantity 0 in a closed cart. |
| Products.CategoriesOf | lib/redux/features/products/productSlice.ts:16 | Every category some product has appears exactly once, ordered by the position of its first product. |
| Products.FilterByCategory | lib/redux/features/products/productSlice.ts:25-34 | `"all"` shows the whole catalogue. Any other value shows, in catalogue order, exactly the products of that category. Nothing else in the state changes. |
| Products.SortProducts | lib/redux/features/products/productSlice.ts:35-59 | The shown list is permuted into ascending price, descending price, descending rating or newest-first order, depending on the mode. An unknown mode changes nothing. |
| Products.SearchProducts | lib/redux/features/products/productSlice.ts:60-72 | The shown list is the catalogue entries whose name, description or category includes the lower-cased term, in catalogue order. An empty term shows the whole catalogue. |
| Products.EmptyTermMatchesAll | lib/redux/features/products/productSlice.ts:62-63 | Filtering by the empty term would keep every product, so the reducer's empty-term shortcut agrees with the filter. |
| ProductFacts.FilterByCategoryCounts | lib/redux/features/products/productSlice.ts:25-34 | The category filter keeps every copy of each product of the category and no other product. |
| ProductFacts.SearchProductsCounts | lib/redux/features/products/productSlice.ts:60-72 | The search keeps every copy of each matching product and no other product. |
| ProductFacts.SortProductsStable | lib/redux/features/products/productSlice.ts:40-55 | Products that the mode's comparator considers equal keep their relative order. |
| ProductFacts.SortProductsIdempotent | lib/redux/features/products/productSlice.ts:35-59 | Choosing the same sort option twice gives the same result as choosing it once. |
| ProductFacts.SearchIgnoresCase | lib/redux/features/products/productSlice.ts:61 | A search for a term gives the same result as a search for its lower-cased form. |
| ProductFacts.ViewsRestartFromCatalogue | lib/redux/features/products/productSlice.ts:25-72 | A search discards an earlier filter or sort. A category filter discards an earlier search or sort. |
| ProductFacts.ReachableCoherent | lib/redux/features/products/productSlice.ts:13-72 | From the initial state, any sequence of filter, sort and search actions leaves the catalogue, the category list and the status unchanged. The shown list never holds a product more often than the catalogue does. |
| Orders.AddOrder | lib/redux/features/orders/orderSlice.ts:23-25 | The order is appended after the existing ones, and nothing else changes. |
| Orders.UpdateOrderStatus | lib/redux/features/orders/orderSlice.ts:26-35 | Only the first order with the id gets the new status. Every order keeps all its other fields. With no such id the state is unchanged. |
| Orders.FetchUserOrders | lib/redux/features/orders/orderSlice.ts:36-39 | The selection is exactly the user's orders, in order. Nothing else changes. |
| OrderFacts.FetchUserOrdersCounts | lib/redux/features/orders/orderSlice.ts:36-39 | The selection holds every copy of each of the user's orders and no order of anyone else. |
| OrderFacts.FetchUserOrdersIdempotent | lib/redux/features/orders/orderSlice.ts:36-39 | Selecting the same user twice gives the same result as selecting once. |
| OrderFacts.AddOrderThenFetch | lib/redux/features/orders/orderSlice.ts:23-39 | After placing an order, the user's selection is the old selection plus that order, if it is the user's. |
| OrderFacts.UpdateOrderStatusIdempotent | lib/redux/features/orders/orderSlice.ts:26-35 | Setting the same status twice gives the same result as setting it once. |
| OrderFacts.StatusUpdateReachesSelectionOnRefetch | lib/redux/features/orders/orderSlice.ts:26-39 | A status update leaves the selection as it was. Selecting the user again gives the old selection with that order's status changed in its place, if the order is the user's, and the old selection unchanged otherwise. |
| OrderFacts.RunKeepsOrders | lib/redux/features/orders/orderSlice.ts:23-39 | No action sequence removes an order or changes an existing order's id, user, items or total. |
| Auth.Login | lib/redux/features/auth/authSlice.ts:20-24 | The user is signed in, and the admin flag is set exactly when the role is `"admin"`. |
| Auth.Logout | lib/redux/features/auth/authSlice.ts:25-29 | The state returns to the initial one. |
| Auth.UpdateUser | lib/redux/features/auth/authSlice.ts:30-34 | With a user signed in, the payload is spread over that user. With nobody signed in, nothing changes. Neither flag is recomputed. |
| AuthFacts.ApplyEmptyPatch | lib/redux/features/auth/authSlice.ts:32 | Spreading an empty payload changes nothing. |
| AuthFacts.ApplyPatchIdempotent | lib/redux/features/auth/authSlice.ts:32 | Spreading the same payload twice gives the same result as spreading it once. |
| AuthFacts.ApplyPatchComposes | lib/redux/features/auth/authSlice.ts:32 | Two updates in a row equal one update with the two payloads spread together. |
| AuthFacts.ApplyPatchChanges | lib/redux/features/auth/authSlice.ts:32 | The spread changes the user exactly when the payload carries some key whose value differs from the current one. |
| AuthFacts.ReachableFlagsConsistent | lib/redux/features/auth/authSlice.ts:10-34 | From the initial state, the authenticated flag holds exactly when there is a user, and the admin flag only when authenticated. |
| AuthFacts.LoginAgrees | lib/redux/features/auth/authSlice.ts:20-24 | Right after sign-in, the admin flag agrees with the user's role. |
| AuthFacts.LogoutResets | lib/redux/features/auth/authSlice.ts:25-29 | Signing out twice gives the same result as signing out once, and it leaves the flags consistent. |
| AuthFacts.UpdateUserAgreement | lib/redux/features/auth/authSlice.ts:30-34 | After an update, the admin flag still agrees with the role exactly when nobody is signed in, the payload leaves the role alone, or the new role is on the same side of `"admin"` as the old one. |
| AuthFacts.UpdateUserCanLeaveAdminStale | lib/redux/features/auth/authSlice.ts:20-34 | A sign-in followed by a role change across `"admin"` leaves the admin flag showing the old role. |
| AuthFacts.RunKeepsAdminAgreement | lib/redux/features/auth/authSlice.ts:20-34 | Action sequences whose updates never carry a role keep the admin flag in agreement with the role. |

## Left out

- Immer drafts and aliasing. The reducers mutate drafts in place; the model returns new values. Immer copies on write, so no aliasing between `products` and `filteredProducts` is visible in the results.
- NaN, fractional and non-numeric quantities, and `parseInt` on the typed field. Quantities are integers.
- Floating-point prices and ratings. They are integers in fixed units, so sums are exact.
- `new Date(...)` parsing. Product `createdAt` is an integer timestamp, and invalid dates are not modelled.
- Unicode case mapping in `toLowerCase`. Only ASCII letters are mapped.
- The seed catalogue and seed orders. The `mockProducts` and `mockOrders` data files are not part of this model; the initial states take the seed as a parameter.
- Loading transitions of the product and order slices. The `status` and `error` fields are in the model, but no reducer changes them, so they are carried unchanged; the async thunk import is unused.
- types/cart.ts is not part of this model. The cart line shape follows the fields the reducers and the cart panel read.
- A `Partial<User>` payload that carries a required field with the value `undefined`. Only absent keys, and present keys with real values, are modelled for the required fields.
- Order status values. The declared type lists five statuses, but the update accepts any string, so the model keeps a string.
- The store wiring, selectors, the user slice and every React component. Only the arithmetic of the badge count and the subtotal, and the quantity guards, are taken from the components.
- Orders.FetchUserOrders: the selection is a snapshot. Later `addOrder` or `updateOrderStatus` actions do not refresh it, which `OrderFacts.StatusUpdateReachesSelectionOnRefetch` states instead of a freshness property.
