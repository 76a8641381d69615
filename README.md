# Storefront cart store and catalogue query, in Dafny

This project models the two pieces of the storefront that hold logic: the
application store and the product service's catalogue query. The rest of the
storefront is rendering.

- **The application store** (`createCartSlice` and `createProductStore`,
  merged into one store). It holds:
  - a table of cart lines keyed by sku, each line a product and an amount;
  - a flag that says whether the cart panel is shown;
  - the sizes the catalogue is filtered by, and its sort keys.

  Its actions add a product, raise, lower or set a line's amount, remove a
  line, clear the cart, show or hide the panel, and replace the sizes or the
  sort keys. Three selectors read the cart: the item count shown on the
  badge, the subtotal, and the largest installment count.
- **The catalogue query** (`ProductService.getProducts`). It copies the
  catalogue and keeps the products that offer one of the requested sizes,
  when any are requested. It then sorts the list in place by each requested
  key in turn.

Modules:

- `Dtos` (`dtos.dfy`): the product record, `Option`, and the sort key.
- `Cart` (`cart.dfy`): a cart line and the table of lines. It also holds:
  - the table's values, listed in ascending sku order;
  - the folds behind the three selectors;
  - lemmas showing that the folds do not depend on that order, and how each
    one moves when a line is put or removed.
- `Store` (`store.dfy`): the class `AppStore`, with one method per action.
  Each method states the whole new state in terms of the old one, and under
  which arguments it keeps every amount at least 1. Each method that changes
  the cart also states what the change does to the badge count and the
  subtotal.
  - Two client methods, `BadgeScenario` and `DecreaseScenario`, replay these
    sequences on a fresh store:
    - add twice;
    - set the amount to 10;
    - check out;
    - decrease a line of 3 (which gives 1, then leaves 1, then gives -1).
- `ProductService` (`product_service.dfy`): the size filter as a function,
  and the sort as a method over an array. The sort's comparator is exactly
  the source's.

The store is a flat table from sku to line. These points of the code shape
the model:

- Decreasing computes `Math.min(1, amount - delta)`. That caps the amount at
  1; it is not a lower bound.
  - When the result is 0, the state is kept.
  - Otherwise the result is stored, and it can be negative (1 − 2 = −1).
- Adding a product already in the cart calls `increase` with 1 and ignores
  `amount`. The line keeps the product record it was first added with.
- Nothing keeps amounts at least 1. `AllPositive` states that invariant, and
  each method's contract says under which arguments the method preserves it
  (always, for the methods that leave the cart alone or empty it).

`src/store/cart.store.ts` repeats `createCartSlice` and the three selectors of
`src/store/store.ts` line for line. The one model covers both files:

| action | `src/store/store.ts` | `src/store/cart.store.ts` |
|---|---|---|
| addProduct | 62-81 | 32-51 |
| changeProductAmount | 82-100 | 52-70 |
| increase | 101-119 | 71-89 |
| decrease | 120-144 | 90-114 |
| removeProdcut | 145-155 | 115-125 |
| clearCart | 156-162 | 126-132 |
| showCart | 163-165 | 133-135 |
| selectors | 168-191 | 138-161 |

Likewise, `src/store/product.store.ts` repeats the filter slice that is
inlined at `src/store/store.ts:15-33`. The source spells the remove action
`removeProdcut`; the model calls it `RemoveProduct`.

## Model

| member | source | states |
|---|---|---|
| Store.AppStore.constructor | src/store/store.ts:55-61 | The store starts with the panel hidden and the cart empty. Its filter fields start with no sizes and the single sort key price-descending. |
| Store.AppStore.AddProduct | src/store/store.ts:62-81 | An absent sku gets exactly one new line `{product, amount}`. A present sku gets exactly one more item, whatever `amount` is, and keeps its old product record. No other line changes, and no key other than the sku is added. The badge count rises by `amount` or by 1 in those two cases, and the subtotal by price × `amount` or by the kept record's price. |
| Store.AppStore.ChangeProductAmount | src/store/store.ts:82-100 | A present line's amount becomes exactly the given value, or 1 when none is given, with no clamping, and its product is kept. An absent sku leaves the whole state unchanged. The count moves by the difference in amount, and the subtotal by price × the new amount minus the old line's value. |
| Store.AppStore.Increase | src/store/store.ts:101-119 | A present line's amount becomes old + delta and its product is kept. No other line changes. The count rises by delta and the subtotal by delta times the price. An absent sku changes nothing. |
| Store.AppStore.Decrease | src/store/store.ts:120-144 | Let n = min(1, old − delta). The state is unchanged when n is 0, or when the sku is absent. Otherwise the line's amount becomes n, so it is at most 1, and the count drops by old − n and the subtotal by price × (old − n). With delta 1, amounts of at least 1 stay at least 1. |
| Store.AppStore.RemoveProduct | src/store/store.ts:145-155 | Exactly the given key is deleted. Removing an absent key changes nothing. The count and the subtotal drop by the removed line's amount and value. |
| Store.AppStore.ClearCart | src/store/store.ts:156-162 | The cart becomes empty, so the count and the subtotal are 0 and there is no maximum. The panel flag and the filter fields are kept. |
| Store.AppStore.ShowCart | src/store/store.ts:163-165 | The panel flag becomes the argument, `true` by default. Everything else is kept. |
| Store.AppStore.ChangeSizes | src/store/product.store.ts:18-22 | `sizes` becomes the argument. `sort` and the cart are kept. |
| Store.AppStore.ChangeSort | src/store/product.store.ts:23-27 | `sort` becomes the argument. `sizes` and the cart are kept. |
| Cart.Values | src/store/store.ts:170 | The list of the table's values has one entry per sku. |
| Cart.ValuesListsLines | src/store/cart.store.ts:140 | Every line of the table is in the list of values, and every listed value is the line of some sku. |
| Cart.SumByCons | src/store/store.ts:170-173 | The left fold from 0 over the first line followed by the rest equals that line's term plus the fold of the rest. |
| Cart.SumOverRemove | src/store/cart.store.ts:138-152 | For any sku in the cart, a fold over the values equals that line's term plus the fold over the other lines. So the folds do not depend on the order of the values. |
| Cart.SumOverPut | src/store/cart.store.ts:146-152 | Putting a line under a sku makes the fold equal to the fold without that sku plus the new line's term. |
| Cart.EmptyCart | src/store/store.ts:168-182 | On an empty cart, the count and the subtotal are 0 and the maximum is absent. |
| Cart.PutLine | src/store/store.ts:176-182 | Putting a line under a sku changes the count by the new amount minus the replaced amount. It changes the subtotal by the new price × amount minus the replaced one. |
| Cart.ChangeAmount | src/store/store.ts:108-118 | Raising one line's amount by delta raises the count by delta and the subtotal by price × delta. |
| Cart.RemoveLine | src/store/cart.store.ts:115-125 | Deleting a sku lowers the count and the subtotal by that line's amount and value. Deleting an absent sku lowers them by 0. |
| Cart.TotalOfPositiveCart | src/store/store.ts:168-174 | When every amount is at least 1, the count is at least the number of lines, so it is 0 exactly when the cart is empty. |
| Cart.TotalProducts | src/store/store.ts:168-174 | The badge count of an empty cart is 0. |
| Cart.Subtotal | src/store/store.ts:176-182 | The subtotal of an empty cart is 0. |
| Cart.MaxOf | src/store/store.ts:186-190 | The maximum of a list is absent exactly when the list is empty. Otherwise it is an element of the list and at least every element. |
| Cart.InstallmentsList | src/store/store.ts:187-189 | The mapped list has one entry per line: that line's installment count, with a missing one counted as 0. |
| Cart.MaxOverLines | src/store/store.ts:184-191 | The maximum over the mapped values of the cart is absent exactly on the empty cart. Otherwise it bounds every line's installment count and is attained by some line. |
| Cart.MaxInstallments | src/store/cart.store.ts:154-161 | On a non-empty cart, the result is at least every line's installment count (a missing count is 0) and equals one of them. On an empty cart it is absent. |
| ProductService.FilterBySizes | src/services/product.service.ts:31-35 | Every kept product offers a requested size. Every catalogue product offering one is kept, as many times as it occurs. The result is an order-preserving subsequence of the catalogue. |
| ProductService.Filtered | src/services/product.service.ts:28-35 | With no size list, or an empty one, the result is the whole catalogue in order. Otherwise it is the size filter. Either way it is a subsequence of the catalogue. |
| ProductService.RequestedSizes | src/services/product.service.ts:30 | The list is non-empty exactly when the query is present and carries a present, non-empty size list, and it is then that list. |
| ProductService.SortKeys | src/services/product.service.ts:38 | An absent request or an absent sort list gives no keys. Otherwise the keys are the request's sort list. |
| ProductService.Compare | src/services/product.service.ts:40-46 | The comparator returns only 1 or -1. It is negative exactly when `a`'s property is below `b`'s for `asc`, or at least `b`'s for `desc`. On equal properties it returns 1 for `asc` and -1 for `desc`, whichever way round the two are passed. |
| ProductService.CompareAgreesWithOrder | src/services/product.service.ts:41-45 | A negative comparator result means the first product may stand before the second in the key's order. Any other result means the second may stand before the first. |
| ProductService.InsertLeft | src/services/product.service.ts:40-46 | One pass of the insertion sort, driven by the comparator, turns a sorted prefix of length i into a sorted prefix of length i + 1. The elements after position i are untouched. The array stays a permutation of what it held. |
| ProductService.SortByKey | src/services/product.service.ts:40-46 | After sorting by one key, the array is non-decreasing in that property for `asc` and non-increasing for `desc`. It is a permutation of what it held before. |
| ProductService.SortByEach | src/services/product.service.ts:38-47 | After sorting by every key in turn, the array is a permutation of what it held, is unchanged with no keys, and is ordered by the last key. |
| ProductService.GetProducts | src/services/product.service.ts:28-48 | The result is a permutation of the filtered list. With no sort keys, it is the filtered list itself. Otherwise it is ordered by the last key, since each key re-sorts the whole list in turn. |

## Left out

- Rendering:
  - React and antd components and the app shell are not modelled; they only
    render.
  - The react-query hook that calls the service is not modelled; it caches
    and retries in a library that is not part of this model.
- The store library's plumbing:
  - Subscriptions are not modelled.
  - Merging partial states is modelled as plain field assignment.
  - The `persist` middleware, which writes the state to local storage under
    `cart-store`, is not modelled.
- The unused `subtotal` state field is not modelled. It starts at 0 and is
  never written.
- Store.AppStore.RemoveProduct: the source deletes the key from the previous
  state's object in place before copying it. That aliasing is not modelled;
  only the resulting table is.
- The cart nested by sku and size is not modelled. The cart and product
  components call the store with that shape, but no store code implements
  it.
- The service's Promise, its `setTimeout` latency and `randomRange` are not
  modelled.
- The catalogue file `products.json` is not part of this model; the
  catalogue is a parameter.
- The record types in `src/dtos` are not part of this model. The product
  record's fields are taken from their uses. Its `id` is left out, because
  only the rendering reads it, as a list key.
- Number semantics:
  - Prices are integer cents, not IEEE doubles, and amounts are integers.
    NaN, fractional amounts and rounding are not modelled.
  - The `toFixed` formatting and the per-installment division are not
    modelled; they belong to the components.
- Skus are modelled as natural numbers. That stands in for the number-to-string
  key coercion of JavaScript objects.
- The model fixes the order of the cart's values as ascending sku.
  JavaScript uses that order only for array-index keys, that is integers below
  2^32 − 1, and lists larger keys in insertion order. That order is not
  modelled. The folds do not depend on the order, as `Cart.SumOverRemove`
  shows.
- Cart.MaxInstallments: `Math.max` of no arguments yields minus infinity. The
  model writes that case as `None`.
- ProductService.SortByKey:
  - The engine's sort algorithm is implementation-defined, so the model uses
    an insertion sort instead. It moves an element left exactly when the
    comparator is negative, and the comparator is the source's.
  - The comparator is not consistent: on equal keys it answers the same both
    ways round. For such a comparator ECMAScript leaves the whole sort order
    implementation-defined, not only the order of ties. The sortedness
    `SortByKey` proves belongs to the model's insertion sort. That sort reads
    only the comparator's sign, which is right for every pair of distinct
    keys. Nothing is said about the order of ties.
- Sort keys may name only the numeric, always-present properties price and
  sku. Comparisons of strings, booleans or missing values under `>=` are not
  modelled.
- The request's `page` and `limit` fields are carried, but the query never
  reads them, in the source as in the model.
