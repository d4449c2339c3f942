# Storefront core in Dafny

This project models the logic of a small online storefront and proves properties about it. It covers:

- the in-memory store that holds users, products, categories, cart items, orders, order items and daily analytics;
- the API handlers that read and change that store and answer with HTTP statuses;
- the table shapes and their column defaults;
- the pure logic of the browser client: cart totals, product-list filtering and sorting, the product card and details page, the cart page's promo code, and the admin dashboard's figures.

Values are represented as follows:

- Money is integer cents: prices, totals and sales.
- A rating is integer tenths of a star, so 45 is 4.5 stars.
- A date is an integer day number.
- Where the client divides money (the 20% promo discount, growth percentages), the model uses exact rationals (`real`) rather than floating point.

Modules, one per file:

| file | module | models |
|---|---|---|
| `wrappers.dfy` | `Wrappers` | `Option` and `Result` |
| `text.dfy` | `Text` | lower/upper case, `includes`, `trim` |
| `seqs.dfy` | `Seqs` | `filter`, `find`, `reduce`, `slice`, a stable sort by key, `Array.from(new Set(...))` |
| `schema.dfy` | `Schema` | `shared/schema.ts`: rows, insert shapes, column defaults, the login rule |
| `storage.dfy` | `Storage` | `server/storage.ts`: class `MemStorage` |
| `routes.dfy` | `Routes` | `server/routes.ts`: one method per handler |
| `scenarios.dfy` | `Scenarios` | two concrete runs of the handlers |
| `use_cart.dfy` | `UseCart` | `client/src/hooks/use-cart.tsx` |
| `product_page.dfy` | `ProductPage` | `client/src/pages/product-page.tsx` |
| `product_card.dfy` | `ProductCard` | `client/src/components/product-card.tsx` |
| `product_details_page.dfy` | `ProductDetailsPage` | `client/src/pages/product-details-page.tsx` |
| `cart_page.dfy` | `CartPage` | `client/src/pages/cart-page.tsx` |
| `admin_page.dfy` | `AdminPage` | `client/src/pages/admin-page.tsx` |

How the model represents the store:

- `MemStorage` is a class. Its seven tables are `map<int, Row>` fields and it has seven id counters.
- `Valid()` is the invariant. In every table each key is the id of its row, every key is at least 1, and every key is below that table's counter.
- A JavaScript `Map` iterates in insertion order. Ids come from an increasing counter, so that order is ascending id. `Rows(m, next)` lists a table in that order, and every `filter`/`find` over `Map.values()` is a function on that list. So "the first match" is "the match with the smallest id".
- Each handler takes the store and the signed-in user as `Option<User>` (`None` stands for `!req.isAuthenticated()`). It returns the response status and what it sends.
- A storage call that throws is forwarded to the error middleware, which answers 500. This happens when a cart or order line's product is missing, or when validation rejects the body.

Stock handling follows the code as written:

- Adding to a cart row that already exists checks only the newly requested quantity against stock, not the combined quantity. `Scenarios.MergeExceedsStock` shows it: a product with one unit in stock ends up with a cart row of two.
- Checkout never decrements stock. `PlaceOrder`'s frame leaves `products` out, so it cannot change them. `Scenarios.CheckoutKeepsStock` shows that after the only unit is bought, stock still reads 1 and another shopper can add it.

## Model

| member | source | states |
|---|---|---|
| Schema.UserRow | shared/schema.ts:5-13 | a stored user carries the inserted fields and the given id; a missing role becomes "customer" |
| Schema.CategoryRow | shared/schema.ts:15-21 | a stored category carries the inserted fields and the given id |
| Schema.ProductRow | shared/schema.ts:23-40 | rating, review count and stock default to 0 and the three flags to false; all other fields are as inserted |
| Schema.CartItemRow | shared/schema.ts:42-47 | a cart row's quantity defaults to 1 |
| Schema.OrderRow | shared/schema.ts:49-55 | an order's status defaults to "pending"; its creation day is supplied, since the insert shape omits it |
| Schema.OrderItemRow | shared/schema.ts:57-63 | an order item carries the inserted order, product, price and quantity under the given id |
| Schema.AnalyticsRow | shared/schema.ts:65-71 | sales, orders and customers default to 0; the date is supplied, since the insert shape omits it |
| Schema.LoginErrors | shared/schema.ts:132-135 | there are no errors exactly when the username has at least 3 characters and the password at least 6; each message appears exactly when its length test fails |
| Storage.RowsOfTable | server/storage.ts:135-137 | listing a valid table yields every row exactly once, in ascending id order |
| Storage.Select | server/storage.ts:149-153 | a filtered listing holds exactly the table's rows that satisfy the test, each once, by ascending id |
| Storage.First | server/storage.ts:143-147 | a find returns a matching row with the smallest matching id, and nothing exactly when no row matches |
| Storage.JoinProducts | server/storage.ts:215-225 | joining succeeds exactly when every row's product exists; each row is then paired with its product in order; otherwise the failure names a missing product that some row references |
| Storage.Overlay | server/storage.ts:183-190 | overlaying an update never changes the product's id |
| Storage.OverlayEmpty | server/storage.ts:183-190 | an update carrying no field leaves the product unchanged |
| Storage.OverlayIdempotent | server/storage.ts:183-190 | applying an update twice equals applying it once; a carried price or stock is the result, and an absent stock is kept |
| Storage.RecordSale | server/storage.ts:301-308 | one more sale adds the order total to sales and 1 each to orders and customers, keeping the bucket's id and date |
| Storage.MemStorage.constructor | server/storage.ts:89-105 | a new store is valid, all tables are empty and every counter starts at 1 |
| Storage.MemStorage.GetUser | server/storage.ts:117-119 | a user is found exactly when the id is a key, and it is the stored row |
| Storage.MemStorage.GetUserByUsername | server/storage.ts:121-125 | the result's username equals the query ignoring case and has the smallest such id; nothing is returned exactly when no username matches ignoring case |
| Storage.MemStorage.CreateUser | server/storage.ts:127-132 | the new user takes the current counter as a fresh id; the counter goes up by one; only that key is added |
| Storage.MemStorage.GetProducts | server/storage.ts:135-137 | every stored product exactly once, in ascending id order |
| Storage.MemStorage.GetProduct | server/storage.ts:139-141 | a product is found exactly when the id is a key |
| Storage.MemStorage.GetProductBySlug | server/storage.ts:143-147 | the product with that slug and the smallest id, or nothing exactly when no product has the slug |
| Storage.MemStorage.GetProductsByCategory | server/storage.ts:149-153 | exactly the stored products of the category, each once, by ascending id |
| Storage.MemStorage.GetFeaturedProducts | server/storage.ts:155-159 | exactly the stored featured products, each once, by ascending id |
| Storage.MemStorage.GetNewProducts | server/storage.ts:161-165 | exactly the stored new products, each once, by ascending id |
| Storage.MemStorage.SearchProducts | server/storage.ts:167-174 | exactly the stored products whose name, or non-empty description, contains the query ignoring case, each once, by ascending id |
| Storage.MemStorage.CreateProduct | server/storage.ts:176-181 | the new product takes a fresh id from the counter, which then goes up by one; only that key is added |
| Storage.MemStorage.UpdateProduct | server/storage.ts:183-190 | a missing id returns nothing and changes nothing; otherwise only that product is replaced by the overlay, which is returned |
| Storage.MemStorage.GetCategories | server/storage.ts:193-195 | every stored category exactly once, by ascending id |
| Storage.MemStorage.GetCategory | server/storage.ts:197-199 | a category is found exactly when the id is a key |
| Storage.MemStorage.GetCategoryBySlug | server/storage.ts:201-205 | the category with that slug and the smallest id, or nothing exactly when none has it |
| Storage.MemStorage.CreateCategory | server/storage.ts:207-212 | the new category takes a fresh id from the counter, which then goes up by one |
| Storage.MemStorage.CartOf | server/storage.ts:215-218 | exactly the stored cart rows of the user, each once, by ascending id |
| Storage.MemStorage.GetCartItems | server/storage.ts:215-225 | succeeds exactly when every one of the user's rows has its product; each line is then the user's row paired with its current product, by ascending row id; otherwise the failure names a missing product |
| Storage.MemStorage.GetCartItem | server/storage.ts:227-229 | a cart row is found exactly when the id is a key |
| Storage.MemStorage.GetCartItemByUserAndProduct | server/storage.ts:231-235 | the user's row for that product with the smallest id, or nothing exactly when the user has none |
| Storage.MemStorage.CreateCartItem | server/storage.ts:237-242 | the new row takes a fresh id from the counter, which then goes up by one; only that key is added |
| Storage.MemStorage.UpdateCartItem | server/storage.ts:244-251 | a missing id returns nothing and changes nothing; otherwise only that row's quantity changes |
| Storage.MemStorage.DeleteCartItem | server/storage.ts:253-255 | returns true exactly when the id was present; only that key is removed |
| Storage.MemStorage.ClearCart | server/storage.ts:257-267 | always returns true; afterwards a key remains exactly when it was there and belongs to another user, with its row unchanged |
| Storage.MemStorage.GetOrders | server/storage.ts:270-274 | exactly the stored orders of the user, each once, by ascending id |
| Storage.MemStorage.GetOrder | server/storage.ts:276-278 | an order is found exactly when the id is a key |
| Storage.MemStorage.TodayBucket | server/storage.ts:290-298 | the bucket dated today with the smallest id, or nothing exactly when no bucket has today's date |
| Storage.MemStorage.CreateOrder | server/storage.ts:280-321 | the order is stored under a fresh id; today's bucket records the sale, or a new bucket with sales = total, orders = 1, customers = 1 is created under a fresh analytics id |
| Storage.MemStorage.ItemsOf | server/storage.ts:324-327 | exactly the stored items of the order, each once, by ascending id |
| Storage.MemStorage.GetOrderItems | server/storage.ts:324-334 | succeeds exactly when every item's product exists; each line is then the item paired with its product, by ascending item id; otherwise the failure names a missing product |
| Storage.MemStorage.CreateOrderItem | server/storage.ts:336-341 | the new item takes a fresh id from the counter, which then goes up by one |
| Storage.MemStorage.BucketsNewestFirst | server/storage.ts:345-351 | every bucket exactly once, with dates non-increasing |
| Storage.MemStorage.GetDailyAnalytics | server/storage.ts:344-354 | a prefix of the newest-first buckets whose length follows `slice(0, days)`, including a negative `days` |
| Storage.MemStorage.ProductsByReviews | server/storage.ts:357-363 | every product exactly once, with review counts non-increasing |
| Storage.MemStorage.GetBestSellingProducts | server/storage.ts:356-366 | a prefix of the most-reviewed-first list, of length min(limit, number of products) for a non-negative limit |
| Storage.MemStorage.UpdateAnalytics | server/storage.ts:368-377 | a new bucket dated today with defaulted figures is stored under a fresh id |
| Text.Contains | server/storage.ts:170-172 | `includes` is true exactly when the substring occurs at some position |
| Text.EqualsIgnoreCaseEquivalence | server/storage.ts:121-125 | matching ignoring case is reflexive, symmetric and transitive |
| Text.LowerIdempotent | server/storage.ts:168 | lower-casing twice is lower-casing once |
| Text.TrimEmpty | client/src/pages/cart-page.tsx:77 | a string trims to empty exactly when every character is white space |
| Seqs.SortByKey | server/storage.ts:347-350 | the sorted copy is a permutation of the input, ordered by the key, and stable: the elements sharing any one key appear in their input order |
| Seqs.InsertByWithKey | server/storage.ts:347-350 | inserting into a sorted list puts the element before every element with the same key, so among equal keys it comes first |
| Seqs.FilterAppend | client/src/pages/product-page.tsx:70-86 | filtering a concatenation is filtering each part and concatenating, so `filter` keeps the input order |
| Seqs.FilterKeepsIncreasing | server/storage.ts:149-153 | filtering a list with strictly increasing keys leaves it strictly increasing |
| Seqs.SliceTo | server/storage.ts:353 | `slice(0, end)` gives a prefix whose length follows JavaScript's rules for non-negative and negative ends |
| Seqs.Distinct | client/src/pages/product-page.tsx:103-109 | the result has no duplicates and holds exactly the input's elements |
| Seqs.SumByPermutation | client/src/pages/admin-page.tsx:60-73 | reordering a list does not change a `reduce` sum |
| Seqs.SumByAppend | client/src/pages/admin-page.tsx:76-81 | the sum over a concatenation is the sum of the two parts' sums |
| Routes.AnalyticsDays | server/routes.ts:302 | a missing or zero `days` falls back to 7; any other value is used as given |
| Routes.ListCategories | server/routes.ts:13-20 | answers 200 with every stored category, each once, by ascending id |
| Routes.ShowCategory | server/routes.ts:22-32 | answers 404 exactly when no category has the slug, else 200 with a category that has it |
| Routes.ListProducts | server/routes.ts:35-68 | a non-empty search wins, then a category slug (404 exactly when the slug is unknown), then featured=true, then featured=new, else all products |
| Routes.ShowProduct | server/routes.ts:70-80 | answers 404 exactly when no product has the slug, else 200 with a product that has it |
| Routes.ShowCart | server/routes.ts:83-94 | 401 exactly without a user; 500 exactly when a line's product is missing; otherwise 200 with the joined cart |
| Routes.AddToCart | server/routes.ts:96-139 | 401 without a user, 404 for an unknown product and 400 when stock is below the requested quantity, each leaving the cart unchanged; otherwise an existing row of the user for the product grows by the requested quantity (200) or a new row is created (201) |
| Routes.UpdateCartQuantity | server/routes.ts:141-173 | 401 without a user, 500 for a quantity below 1, 404 for an unknown item, 403 for another user's item, 404 when the owner's item has lost its product, 400 when the product's stock is below the quantity; 200 exactly when the owner's item has its product in stock for the quantity, in which case only that row's quantity is set; any other status leaves the cart unchanged |
| Routes.RemoveFromCart | server/routes.ts:175-197 | 401, 404 for a missing item, 403 for another user's item; 204 exactly for the owner, removing only that row |
| Routes.EmptyCart | server/routes.ts:199-210 | 401 exactly without a user; otherwise 204, with exactly the other users' rows left unchanged |
| Routes.ListOrders | server/routes.ts:213-224 | 401 exactly without a user; otherwise 200 with exactly that user's orders, each once, by ascending id |
| Routes.OrderTotal | server/routes.ts:238-242 | the checkout loop's total equals the cart subtotal, the sum of price × quantity that the client also computes |
| Routes.Snapshot | server/routes.ts:253-258 | an order item copies the line's product id and quantity and the product's price at checkout |
| Routes.ItemsRecordedStep | server/routes.ts:252-259 | storing the next line's snapshot under the next id extends the order items by that line |
| Routes.RecordItems | server/routes.ts:252-259 | one order item per cart line, in cart order, under consecutive fresh ids; existing items are kept |
| Routes.Checkout | server/routes.ts:238-264 | stores the order with the cart subtotal, status "pending" and today's date; records one snapshot item per line; records the sale in analytics; empties exactly the user's cart |
| Routes.PlaceOrder | server/routes.ts:226-268 | 401 without a user, 500 when a line's product is missing, 400 exactly for an empty cart, each changing nothing; 201 exactly for a non-empty cart, with the order, items, analytics and cleared cart as in `Checkout`; products (stock) are never touched |
| Routes.ShowOrder | server/routes.ts:270-293 | 401, 404 for an unknown order; 403 exactly when the caller neither owns the order nor has role "admin"; otherwise 200 with the order and its joined items, or 500 for a missing product |
| Routes.ShowAnalytics | server/routes.ts:296-314 | 403 exactly when there is no user or the role is not "admin"; otherwise 200 with the daily buckets for the requested days and the 5 best sellers |
| Scenarios.MergeExceedsStock | server/routes.ts:114-130 | adding one unit twice to a product with one in stock succeeds both times and leaves a row of 2 |
| Scenarios.CheckoutKeepsStock | server/routes.ts:226-268 | after the only unit is ordered its stock is still 1 and another shopper's add succeeds with 201 |
| UseCart.TotalItemsAtLeastLines | client/src/hooks/use-cart.tsx:142 | with every quantity at least 1, the item count is at least the number of lines and is 0 exactly for an empty cart |
| UseCart.SubtotalNonNegative | client/src/hooks/use-cart.tsx:144-147 | with non-negative prices and quantities the subtotal is not negative |
| UseCart.SubtotalSplits | client/src/hooks/use-cart.tsx:142-147 | the subtotal and item count of two carts put together are the sums of the parts |
| UseCart.SubtotalOrderFree | client/src/hooks/use-cart.tsx:142-147 | reordering the lines changes neither the subtotal nor the item count |
| UseCart.Provide | client/src/hooks/use-cart.tsx:31-40 | with no user the cart is empty and both totals are 0; with one the fetched lines are shown; totals are always those of the shown lines |
| UseCart.UseCart | client/src/hooks/use-cart.tsx:169-175 | fails with "useCart must be used within a CartProvider" exactly when there is no provider, else returns its value |
| ProductPage.InitialFilters | client/src/pages/product-page.tsx:30-35 | the price range starts at $0–$2000, nothing is selected and the sort is "popularity" |
| ProductPage.AvailabilityCases | client/src/pages/product-page.tsx:80-83 | both options admit every product; "in-stock" alone admits exactly stock > 0; "out-of-stock" alone admits exactly stock ≤ 0 |
| ProductPage.SortProducts | client/src/pages/product-page.tsx:87-100 | a permutation of the input; prices ascend for "price-low-high" and descend for "price-high-low"; ratings descend for "rating"; review counts descend for any unknown option |
| ProductPage.FilteredProducts | client/src/pages/product-page.tsx:70-100 | a sub-multiset of the fetched products holding exactly those that pass all three tests, so each lies within the price range inclusive; price sorts order it accordingly |
| ProductPage.FlatTags | client/src/pages/product-page.tsx:105-106 | holds exactly the tags that appear on some product |
| ProductPage.AllTags | client/src/pages/product-page.tsx:103-109 | duplicate-free and holding exactly the non-empty tags found on some product |
| ProductPage.Without | client/src/pages/product-page.tsx:128 | removes every occurrence of the value and keeps every other element |
| ProductPage.WithoutAppend | client/src/pages/product-page.tsx:128 | removal from two lists put together is removal from each, in order, so the remaining tags keep their order and multiplicity |
| ProductPage.WithoutSingle | client/src/pages/product-page.tsx:128 | a single tag is dropped exactly when it is the removed value |
| ProductPage.WithoutAbsent | client/src/pages/product-page.tsx:128 | removing an absent value returns the list unchanged |
| ProductPage.WithoutNoDuplicates | client/src/pages/product-page.tsx:128 | removal keeps a duplicate-free list duplicate-free |
| ProductPage.WithoutShrinks | client/src/pages/product-page.tsx:128 | removing a value from a list with that value appended equals removing it from the list |
| ProductPage.Toggle | client/src/pages/product-page.tsx:125-139 | the value is in the result exactly when it was not in the list; other values stay as they were; an absent value is appended at the end; a present value is removed by `Without`, keeping the others in order |
| ProductPage.ToggleKeepsNoDuplicates | client/src/pages/product-page.tsx:125-131 | toggling keeps a duplicate-free list duplicate-free |
| ProductPage.ToggleTwice | client/src/pages/product-page.tsx:125-131 | toggling twice restores the exact list for an absent value; in every case the same values remain and a duplicate-free list stays duplicate-free; a present value ends up at the end, after the other tags in their original order |
| ProductPage.ClearFilters | client/src/pages/product-page.tsx:141-146 | the reset state is the initial one, keeping the current search term |
| ProductPage.ClearedFilterAdmits | client/src/pages/product-page.tsx:141-146 | after a reset exactly the products priced $0–$2000 are listed, most-reviewed first |
| ProductCard.RoundRatio | client/src/components/product-card.tsx:22 | `Math.round` of a ratio: the integer r with r ≤ n/d + 1/2 < r + 1 |
| ProductCard.DiscountPercentage | client/src/components/product-card.tsx:21-23 | 0 when the compare-at price is null or 0; otherwise, for a positive or a negative compare-at price, the rounded percentage by which the price is below it |
| ProductCard.DiscountBounds | client/src/components/product-card.tsx:21-23 | a price between 0 and the compare-at price gives 0–100%, and 0% when the two are equal |
| ProductCard.DiscountBadge | client/src/components/product-card.tsx:129-131 | the "-n%" label appears exactly when the discount is positive, and never without a compare-at price |
| ProductCard.Badges | client/src/components/product-card.tsx:73-82 | "New" exactly for new products and "Best Seller" exactly for best sellers; no badge row when neither applies |
| ProductCard.CardButton | client/src/components/product-card.tsx:93-105 | disabled exactly at stock 0; "Add to Cart" exactly when stock > 0, so negative stock shows "Out of Stock" on an enabled button |
| ProductCard.CardAddToCart | client/src/components/product-card.tsx:25-36 | a visitor is sent to "/auth"; a signed-in user adds exactly one unit of the product |
| ProductCard.RenderStars | client/src/components/product-card.tsx:38-57 | floor(rating) full stars first, then one half star exactly when rating ≥ 0 with fraction ≥ 0.5, padded with empty stars to at least five; exactly five for ratings 0 to 5 |
| ProductDetailsPage.QuantityLimit | client/src/pages/product-details-page.tsx:68 | the stepper's limit is the stock, or 1 with no product or zero stock |
| ProductDetailsPage.QuantityChange | client/src/pages/product-details-page.tsx:66-71 | a step is taken exactly when it lands within [1, limit]; otherwise the quantity is unchanged |
| ProductDetailsPage.StepperStaysInRange | client/src/pages/product-details-page.tsx:66-71 | a quantity within [1, limit] stays within it after any step |
| ProductDetailsPage.Others | client/src/pages/product-details-page.tsx:62-63 | exactly the fetched products other than the current one |
| ProductDetailsPage.OthersAppend | client/src/pages/product-details-page.tsx:62-63 | the others of two lists put together are the others of each, in order, so the fetched order is kept |
| ProductDetailsPage.RelatedProducts | client/src/pages/product-details-page.tsx:62-64 | the first min(4, number of others) of the others in fetched order: never the current product, at most 4, and all the others whenever fewer than 4 are shown |
| ProductDetailsPage.AddToCart | client/src/pages/product-details-page.tsx:73-82 | a visitor is sent to "/auth"; a signed-in user adds the chosen quantity of the loaded product; nothing happens before it loads |
| ProductDetailsPage.Discount | client/src/pages/product-details-page.tsx:105-107 | 0 before the product loads or without a compare-at price; otherwise the card's percentage |
| ProductDetailsPage.ProductImages | client/src/pages/product-details-page.tsx:110-118 | none without a product; otherwise exactly 4: the image URL, then the URL with "?v=2", "?v=3" and "?v=4" |
| ProductDetailsPage.ImagesDistinct | client/src/pages/product-details-page.tsx:110-118 | the four gallery entries are pairwise different |
| CartPage.QuantityChange | client/src/pages/cart-page.tsx:61-66 | an update is issued exactly when the new quantity is at least 1, and carries that quantity |
| CartPage.EnabledSteppersUpdate | client/src/pages/cart-page.tsx:190-208 | an enabled minus button issues quantity − 1; an enabled plus button on a non-negative quantity issues quantity + 1, which stays within stock |
| CartPage.ApplyPromoCode | client/src/pages/cart-page.tsx:76-93 | a blank code after trimming gives "Please enter a promo code"; an untrimmed upper-cased match with "DISCOUNT20" sets the discount to 20% of the subtotal; any other code gives "Invalid promo code"; both error paths clear the success message and keep the discount |
| CartPage.Total | client/src/pages/cart-page.tsx:58-59 | the total plus the discount is the subtotal, since shipping is 0 |
| CartPage.MatchingCodeIsNotBlank | client/src/pages/cart-page.tsx:77-84 | a code matching "DISCOUNT20" ignoring case is never blank |
| CartPage.AppliedCodeTakesOffFifth | client/src/pages/cart-page.tsx:84-88 | after a matching code the total is 80% of the subtotal |
| CartPage.PaddedCodeRejected | client/src/pages/cart-page.tsx:77-92 | " DISCOUNT20" with a leading blank is refused as invalid and the discount is kept |
| AdminPage.SortedDays | client/src/pages/admin-page.tsx:60-62 | a sorted copy: a permutation of the days with dates non-decreasing, and days sharing a date keep their fetched order |
| AdminPage.Midpoint | client/src/pages/admin-page.tsx:76 | the midpoint is floor(n / 2) |
| AdminPage.PreviousPeriod | client/src/pages/admin-page.tsx:78 | the first floor(n/2) sorted days |
| AdminPage.RecentPeriod | client/src/pages/admin-page.tsx:77 | the remaining days; the two periods put back together are the sorted list, and the recent one is as long as or one longer than the previous |
| AdminPage.TotalsSplit | client/src/pages/admin-page.tsx:76-81 | the totals of two lists put together are the sums of their totals |
| AdminPage.TotalsOrderFree | client/src/pages/admin-page.tsx:60-73 | reordering the days changes no total |
| AdminPage.Growth | client/src/pages/admin-page.tsx:82 | 0 when the previous sum is 0; otherwise growth × previous = (recent − previous) × 100, positive exactly when recent exceeds a positive previous |
| AdminPage.Summarize | client/src/pages/admin-page.tsx:60-90 | the totals over the sorted days equal those over the days as fetched, equal the previous period's plus the recent period's, and each growth compares the two halves |

## Left out

- server/database-storage.ts is not part of this model. It is the SQL-backed store and has different semantics: name-only search, the newest 8 products, best sellers by aggregation. `MemStorage` is modelled as the reference semantics.
- The seed data of `initializeData` is left out: it uses random numbers and the clock. The constructor gives an empty store.
- Authentication is left out: sessions, passport, `setupAuth`, password hashing. The signed-in user is an `Option<User>` parameter.
- Express and HTTP plumbing is left out. A handler returns only its status and payload, not message bodies or headers.
- The generic error middleware that turns a thrown error into status 500 is not part of the sources; the model takes 500 for it.
- Zod parsing is not modelled. Request bodies arrive as typed integers; a body with a missing or non-numeric field is not represented.
- `Routes.AddToCart`: the requested quantity is always a number. A body that omits it is not modelled. The insert schema lets such a body through, and the stock comparison against `undefined` then passes.
- `UpdateCartQuantity`: a quantity below 1 is reported as 500. The model assumes that a failed zod parse reaches the error middleware, which is not part of the sources.
- Column defaults are applied by the `Schema.*Row` builders when a row is created from an insert shape. `MemStorage` itself spreads the insert object as given. The insert schemas only make defaulted columns optional and fill in no value. The defaults are SQL column defaults, which the database applies on the SQL-backed path.
- Floating point is left out: `doublePrecision` columns, `toFixed`, currency formatting. Money is integer cents and ratings are integer tenths.
- `ProductCard.RoundRatio` rounds an exact ratio. Floating-point rounding error in `Math.round` is not modelled.
- `CartPage.ApplyPromoCode`: the discount is an exact rational, not a double.
- `AdminPage.Growth`: growth is an exact rational, not a double.
- Calendar arithmetic is left out: `setHours`, `getTime`, `new Date()`. A date is an integer day, and "today" is a parameter of `CreateOrder`, `UpdateAnalytics` and `PlaceOrder`.
- `Storage.MemStorage.BucketsNewestFirst`: the comparator's 0 for a missing date is not modelled, because every bucket has a date here.
- Case mapping covers ASCII letters only, not full Unicode `toLowerCase`/`toUpperCase`. This feeds `GetUserByUsername`, `SearchProducts` and `ApplyPromoCode`.
- String length counts Unicode scalar values rather than UTF-16 code units. This matters for the login rule.
- The "newest" sort option is left unasserted. Its comparator (`a.isNew ? -1 : 1`) is not a consistent ordering, so `ProductPage.SortProducts` keeps the filtered order for it.
- List sorts and `Map` iteration are modelled on sequences, not the in-place `Array.prototype.sort` over a fresh array. The result, a stable sort, is the same.
- Concurrency is left out. There are no transactions, simultaneous checkouts are not modelled, and neither is a failure part-way through checkout. Execution is sequential.
- Other client behaviour is left out: React Query caching and invalidation, toasts, the `apiRequest` network calls, navigation, and the URL search parameter effect. The cart mutations are modelled only as the action values they would send.
- The star rule on the details page (client/src/pages/product-details-page.tsx:84-103) is the same as the card's, apart from the empty-star colour. It is modelled once, by `ProductCard.RenderStars`.
- The details page's own stepper-disable conditions and add-button state are not modelled separately.
- JSX rendering, icons, layout, and the files that hold only rendering or routing are not part of this model. These are the header, footer, category card, home page, cart sidebar, routing and build configuration.
