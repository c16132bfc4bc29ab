# JECRC Foods storefront core, in Dafny

A model of the state logic of the JECRC Foods desktop storefront
(`src/JECRC_FoodsApp.java`): the product catalog, the shopping cart (a map
from product id to cart line), the cart's derived totals (item count and
total price), the product grid's search/category filter and price sort, and
the checkout decision. The JavaFX view code around it is not modelled.

Prices are whole cents (`nat`): the catalog's 5.99 is 599, so a line's price
and the cart totals are exact.

Files, one module each:

- `wrappers.dfy` (`Wrappers`): `Option`, standing for a Java reference that may be `null`.
- `catalog.dfy` (`Catalog`): `Product`, `CartLine`, a line's price, the seed catalog.
- `text.dfy` (`Text`): ASCII lower-casing and substring containment, as used by the search.
- `product_filter.dfy` (`ProductFilter`): the text and category tests and the order-keeping filter.
- `price_sort.dfy` (`PriceSort`): the stable insertion sort by price and its specification.
- `cart_totals.dfy` (`CartTotals`): item count and total price as sums over the cart map, and a loop computing both.
- `cart_store.dfy` (`CartStore`): the cart's update rules (add, remove, set quantity) as functions on the map.
- `storefront.dfy` (`Storefront`): the `Storefront` class holding the catalog, the cart map and the two label values, with the mutating methods, checkout and the product-grid pipeline.

The class invariant `Storefront.Valid()` says that catalog ids are unique, that
every cart line sits under its product's id with a quantity between 1 and the
product's stock, and that the count and price labels equal the sums over the
cart. Every mutating method keeps it.

## Model

| member | source | states |
|---|---|---|
| `Catalog.LineTotal` | src/JECRC_FoodsApp.java:58-60 | a line's price is zero exactly when its unit price or its quantity is zero, and is at least the unit price when at least one item is ordered |
| `Catalog.SeedProducts` | src/JECRC_FoodsApp.java:64-75 | the five seed products have distinct ids and at least one item in stock each |
| `Text.Lower` | src/JECRC_FoodsApp.java:254-255 | lower-casing keeps the length, maps each character on its own and leaves no upper-case ASCII letter |
| `Text.ContainsIff` | src/JECRC_FoodsApp.java:254-255 | `Contains(s, sub)` holds exactly when `sub` occurs in `s` at some position; the empty query occurs everywhere |
| `ProductFilter.Filter` | src/JECRC_FoodsApp.java:251-259 | a product is in the filtered list if and only if it is in the catalog, matches the search text (name or description, case ignored; absent or empty text matches all) and matches the category (absent or "All" matches all) |
| `ProductFilter.FilterIsSubsequence` | src/JECRC_FoodsApp.java:251-259 | the filtered list is the catalog's subsequence at exactly the positions whose product passes both tests, so catalog order is kept |
| `ProductFilter.FilterIdempotent` | src/JECRC_FoodsApp.java:251-259 | filtering the filtered list again with the same criteria gives the same list |
| `PriceSort.InsertStable` | src/JECRC_FoodsApp.java:262-265 | inserting into a sorted list keeps it sorted, adds exactly the one product, and puts it after the products of the same price |
| `PriceSort.SortByPrice` | src/JECRC_FoodsApp.java:262-265 | the result is ordered by price (ascending or descending) and is a permutation of the input that keeps equal-priced products in input order |
| `PriceSort.StableSortUnique` | src/JECRC_FoodsApp.java:262-265 | two sorted stable permutations of a list are equal, so the result is the one any stable sort by price returns |
| `CartTotals.SumByRemove` | src/JECRC_FoodsApp.java:357-365 | a sum over the cart map does not depend on the order in which the lines are visited |
| `CartTotals.ComputeTotals` | src/JECRC_FoodsApp.java:357-365 | one pass over the lines yields the sum of quantities and the sum of line prices |
| `CartTotals.ItemCountAtLeastLines` | src/JECRC_FoodsApp.java:358-360 | with every quantity at least 1, the item count is at least the number of lines and is 0 exactly for the empty cart |
| `CartTotals.SingleLineTotals` | src/JECRC_FoodsApp.java:357-365 | a cart of one line counts that line's quantity and costs that line's price |
| `CartStore.CappedQuantity` | src/JECRC_FoodsApp.java:343-351 | the stored quantity is the wanted one unless it exceeds the stock, in which case it is the stock; never above either |
| `CartStore.Added` | src/JECRC_FoodsApp.java:340-355 | adding puts a line under the product's id, leaves every other line unchanged, keeps the stored product of an existing line, stores `min(existing + requested, stock)` (existing 0 for a new line): the whole request when it fits and exactly the stock when it does not, never lowering an in-bound line |
| `CartStore.AddedWellFormed` | src/JECRC_FoodsApp.java:340-355 | adding a positive quantity of an in-stock catalog product keeps every line within 1 and its stock |
| `CartStore.AddedTotals` | src/JECRC_FoodsApp.java:340-354 | adding changes the item count and the total price by exactly the change of the one line touched |
| `CartStore.Removed` | src/JECRC_FoodsApp.java:434 | removal deletes exactly the one key, keeps every other line, and is a no-op for an absent id |
| `CartStore.RemovedTotals` | src/JECRC_FoodsApp.java:434 | removal takes exactly that line's quantity and price off the totals and keeps the lines well formed |
| `CartStore.WithQuantity` | src/JECRC_FoodsApp.java:423-425 | a quantity is stored if and only if the line exists and the quantity is between 1 and the product's stock; only that line changes; otherwise the error says which check failed |
| `CartStore.WithQuantityTotals` | src/JECRC_FoodsApp.java:425-428 | a stored quantity change moves the count by the quantity difference and the price by the unit price times the new quantity minus the old line price |
| `Storefront.Storefront.constructor` | src/JECRC_FoodsApp.java:64-78 | the store starts with the given catalog, an empty cart and zero totals |
| `Storefront.Storefront.UpdateCartCountAndTotal` | src/JECRC_FoodsApp.java:357-368 | afterwards the count label is the sum of quantities and the price label the sum of line prices |
| `Storefront.Storefront.AddToCart` | src/JECRC_FoodsApp.java:340-355 | the cart becomes `Added(old cart, product, quantity)`, the invariant (quantities within stock, totals equal sums) holds, and the count grows by the line's growth |
| `Storefront.Storefront.RemoveItem` | src/JECRC_FoodsApp.java:433-435 | the cart becomes `Removed(old cart, id)`, the invariant holds, and an absent id changes nothing |
| `Storefront.Storefront.SetQuantity` | src/JECRC_FoodsApp.java:423-428 | nothing is refused exactly when `WithQuantity` accepts, and the cart becomes its result; a refusal returns its reason and leaves the cart and totals unchanged |
| `Storefront.Storefront.Clear` | src/JECRC_FoodsApp.java:384-385 | the cart is empty and both totals are 0 |
| `Storefront.Storefront.HandleCheckout` | src/JECRC_FoodsApp.java:370-390 | an empty cart yields the notice and no change; a non-empty cart is emptied (totals 0) if and only if the user confirms, and is untouched otherwise |
| `Storefront.Storefront.UpdateProductGrid` | src/JECRC_FoodsApp.java:246-272 | the shown products are exactly the catalog products passing both tests; "Low to High" sorts ascending and "High to Low" descending by price, stably; any other sort option keeps catalog order |

`Storefront.PizzaScenario` walks the store through adding 3 pizzas (3 items,
1797 cents), then 25 more (capped at the stock: 20 items, 11980 cents), then a
confirmed checkout (empty cart).

## Left out

- The JavaFX view: window, header, filter and cart sidebars, product cards, the cart list cells and their layout and hover styles.
- Image loading and the diagnostic console output for failed images (I/O); the product's image URL field is not kept.
- Alert dialogs: the confirmation dialog's result is the `confirmed` input of `HandleCheckout` (OK pressed, versus cancel or closed); the notices and the total text shown in the dialog are not modelled.
- Floating point: prices are whole cents instead of `double`, so `Double.compare` details (NaN, negative zero) and rounding in the sums do not arise; the display conversion to rupees (times 83) and `String.format` are presentation.
- Listener plumbing: instead of the map and spinner listeners, every mutating method calls `UpdateCartCountAndTotal` itself. The cart list the view rebuilds from the map is not modelled.
- Map iteration order: the cart is a `map`, so the order in which the cart list shows lines is not modelled; the totals are proved independent of it.
- Lower-casing is ASCII only; Java's locale-dependent `toLowerCase` on other letters is not modelled.
- Trimming the search text happens in the text and combo-box listeners before the grid is rebuilt; the model takes the already-trimmed text.
- The sort returns a new sequence instead of sorting the list in place, and uses insertion sort instead of the library's merge sort; `StableSortUnique` shows both give the same list.
- `Storefront.Storefront.AddToCart`: requires a catalog product, a quantity of at least 1 and a stock of at least 1. The view only offers catalog products, through a spinner starting at 1. A product with stock 0 would get a line with quantity 0, which is not modelled.
- `Storefront.Storefront.SetQuantity`: the spinner widget itself keeps its value between 1 and the stock, so the refusal results (`ProductNotFound`, `InvalidQuantity`) stand for inputs the widget never produces; the widget's own behaviour is library code and is not part of this model.
- Storefront.Storefront.AddToCart: quantities and totals are unbounded; Java's 32-bit `int` in `existing + quantity` (src/JECRC_FoodsApp.java:343) and in the count sum (358-360) would wrap to a negative value only for stocks or carts above 2^31-1 items, which the five seed products (stock at most 20) never reach, so the wrap-around is not modelled.
- A cart line's quantity is a shared mutable property object in the source; the model replaces the line value in the map, so aliasing between the map and the view's cells is not modelled.
- `src/ThemeManager.java` (stylesheet switching) and `src/Main.java` (a window with one label) are view code and are not part of this model.
