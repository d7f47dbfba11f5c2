# Storefront ordering model

A Dafny model of the record-keeping and decision logic of a small food
ordering storefront: a flat-file product and order store, the three Express
servers that sit in front of it (plain, session-guarded "cloud", and "local"),
and the customer and admin dashboards' list transforms.

- `JsonStore` (`json_store.dfy`) is the store class of `backend/database.js`.
  Each JSON file is a `seq` field of class `Database`. Every method is tied to
  a pure transition function (`UpdateProductIn`, `SoftDeleteIn`,
  `SetOrderStatusIn`, `NewProduct`, `NewOrder`, `ListAvailable`,
  `ListOrders`). Lemmas state what those transitions promise:
  - ids are max+1 and stay unique;
  - exactly one record changes;
  - a soft delete keeps the record but hides it from the listing, and is
    idempotent;
  - seeding assigns ids 1..n.
- `Api` (`api.dfy`) holds the request logic of the three servers:
  - the category/search filter, the required-field checks and the
    five-value status whitelist, which are the same code in all three;
  - the category de-duplication, which only `backend/server.js` does (the
    other two servers ask their store for the categories);
  - the analytics aggregates, which have one shape in all three servers but
    read the e-mail and amount fields differently (`total`, `total_amount`
    or `totalAmount`; `customer_email` or `customerEmail`), so they take
    those field readers as parameters.
- `BackendServer` (`backend_server.dfy`) holds the route handlers of
  `backend/server.js` over the store. These map store errors to 404/500 and
  build the order record with payment taken as paid.
- `CloudServer` (`cloud_server.dfy`) holds the session flag that login and
  logout set and clear, and the `requireAuth` guard that protects the admin
  product routes but not the order-status route. It also holds the order
  record that leaves status, payment and delivery time to the store.
- `LocalServer` (`local_server.dfy`) holds the camelCase order record and
  analytics over `customerEmail` / `totalAmount`.
- `CustomerPage` (`customer_page.dfy`) holds the category tabs, the product
  filter, add-to-cart, update-quantity and the cart totals.
- `AdminPage` (`admin_page.dfy`) holds the product form's edit and add
  branches, deletion, the order-status selector and the overview figures.
- `Seqs`, `Text` and `Sorting` are the JavaScript library behaviour the rest
  relies on:
  - `||` defaults, `filter`, `[...new Set(xs)]`, `slice` and `reduce`;
  - ASCII `toLowerCase`, `includes` and a lexicographic `localeCompare`;
  - the stable comparator `sort`, as an insertion sort.

Conventions:
- Money is integer cents, and `rating` is in tenths of a star.
- Timestamps are readings of an abstract clock, passed in as `now`.
- Query strings and the create-product and create-order bodies are records of
  optional, already-typed values. A JavaScript-falsy value is `None`, `""`
  or `0`. The update-product body is a record of seven present, typed fields
  (see "Left out").

## Model

| member | source | states |
|---|---|---|
| JsonStore.Database.constructor | backend/database.js:22-39 | a collection file that did not exist is created and seeded; one that exists is used as it is, even when empty |
| JsonStore.Database.SeedProducts | backend/database.js:42-165 | the collection changes only when it is empty, and then becomes the ten sample products; the orders are untouched |
| JsonStore.Database.SeedOrders | backend/database.js:168-221 | the collection changes only when it is empty, and then becomes the two sample orders; the products are untouched |
| JsonStore.SeededSpec | backend/database.js:152-160 | seeded records get ids 1..n in list order, all seeded products are available, the ids are duplicate-free, and the next id after seeding is n+1 |
| JsonStore.MaxId | backend/database.js:248 | `Math.max(...ids, 0)` bounds every id and is either 0 or one of the ids |
| JsonStore.NextId | backend/database.js:248 | the new id is at least 1 and greater than every id on file, unavailable records included |
| JsonStore.SeededProducts | backend/database.js:152-158 | the sample at position i is stored with id i + 1, available, with every one of its own fields (name, description, price, category, image, stock, prep time, rating) and both timestamps set to the seeding time |
| JsonStore.SeededOrders | backend/database.js:208-213 | the sample at position i is stored with id i + 1, with every one of its own fields (customer name, phone, e-mail, address, items, total, status, payment status, delivery time, instructions) and both timestamps set to the seeding time |
| JsonStore.IndexOf | backend/database.js:276 | `findIndex` is absent exactly when no record has the id; otherwise it is the first position holding it |
| JsonStore.Database.FindProductIndex | backend/database.js:276 | the scanning loop returns the same index as `findIndex` |
| JsonStore.FindProduct | backend/database.js:235-238 | `find` returns the first stored record with the id (earlier records hold other ids), or nothing exactly when no record has it |
| JsonStore.Database.GetProductById | backend/database.js:235-242 | returns the record found by id, soft-deleted ones included; absent exactly when no stored record has the id |
| JsonStore.ProductBeforeIsTotalPreorder | backend/database.js:228 | the category-then-name comparator is total and transitive, so the sort is well defined |
| JsonStore.ListAvailableSpec | backend/database.js:224-229 | the listing holds exactly the records whose `available` is set, each as often as on file, sorted by category and then name |
| JsonStore.ListAvailable | backend/database.js:224-229 | the reference listing: no longer than the file, and exactly the available records, each as often as on file |
| JsonStore.Database.GetAllProducts | backend/database.js:224-229 | returns only and all available records, as a permutation of the available ones, in (category, name) order |
| JsonStore.CreateProductSpec | backend/database.js:245-266 | the new id exceeds all earlier ids; duplicate-free ids stay duplicate-free; earlier records are unchanged; reading the new id back gives the supplied fields with image '', stock 0, prep time 15 for falsy values, available, rating 0 |
| JsonStore.NewProduct | backend/database.js:249-262 | the record written under the given id is available, unrated, never has prep time 0, and is stamped with the creation time |
| JsonStore.Database.CreateProduct | backend/database.js:245-271 | appends exactly the new record under the max+1 id and leaves the orders alone |
| JsonStore.UpdateProductIn | backend/database.js:273-280 | fails with "Product not found" exactly when the id is absent |
| JsonStore.UpdatedProduct | backend/database.js:282-292 | the rewritten record keeps its id, availability, rating and creation time, and is stamped with the update time |
| JsonStore.UpdateProductSpec | backend/database.js:282-292 | the record at the first position holding the id gets the seven supplied fields and a new `updated_at`; it keeps id, availability, rating and `created_at`; every other position, later copies of the id included, is unchanged |
| JsonStore.Database.UpdateProduct | backend/database.js:273-298 | an absent id reports "Product not found" and writes nothing; otherwise the collection becomes the updated one |
| JsonStore.SoftDeleteIn | backend/database.js:301-308 | fails with "Product not found" exactly when the id is absent |
| JsonStore.SoftDeleteSpec | backend/database.js:310 | only `available` of the record at the first position holding the id changes; `updated_at` is untouched; the record is still found by id; every other position is unchanged |
| JsonStore.SoftDeleteIdempotent | backend/database.js:301-311 | deleting again succeeds and leaves the same collection |
| JsonStore.SoftDeleteHidesFromListing | backend/database.js:227 | with unique ids, a soft-deleted record is absent from `getAllProducts`, and every other record's presence there is unchanged |
| JsonStore.Database.DeleteProduct | backend/database.js:301-316 | an absent id reports an error and writes nothing; otherwise the collection is the soft-deleted one |
| JsonStore.ListOrdersSpec | backend/database.js:322 | the order listing is a permutation of the file, newest `created_at` first |
| JsonStore.ListOrders | backend/database.js:319-326 | the reference order listing is a permutation of the file |
| JsonStore.Database.GetAllOrders | backend/database.js:319-326 | returns every stored order, newest first |
| JsonStore.FindOrder | backend/database.js:332 | `find` returns the first stored order with the id (earlier orders hold other ids), or nothing exactly when none has it |
| JsonStore.Database.FindOrderIndex | backend/database.js:371 | the scanning loop returns the same index as `findIndex` |
| JsonStore.Database.GetOrderById | backend/database.js:329-336 | returns the order found by id; absent exactly when no stored order has the id |
| JsonStore.CreateOrderSpec | backend/database.js:339-361 | the new id exceeds all earlier ids and keeps ids unique; customer name, phone, e-mail, address, items and total are stored verbatim; a falsy status, payment status, delivery time or instructions become 'pending', 'pending', 30 or '' |
| JsonStore.NewOrder | backend/database.js:343-357 | the order written under the given id keeps the items and total, never has an empty status or payment status or a delivery time of 0, and is stamped with the creation time |
| JsonStore.Database.CreateOrder | backend/database.js:339-366 | appends exactly the new order under the max+1 id and leaves the products alone |
| JsonStore.SetOrderStatusIn | backend/database.js:368-375 | fails with "Order not found" exactly when the id is absent |
| JsonStore.SetOrderStatusSpec | backend/database.js:377-378 | only `status` and `updated_at` of the order at the first position holding the id change; its items and total stay; every other position is unchanged |
| JsonStore.Database.UpdateOrderStatus | backend/database.js:368-384 | an absent id reports "Order not found" with no change; otherwise the collection is the updated one |
| Sorting.SortBySorted | backend/database.js:228 | under a total, transitive comparator the sort's output is sorted (and, by its contract, a permutation of the input) |
| Api.FilterListing | backend/server.js:125-137 | keeps a product exactly when it is listed, matches a truthy non-'All' category, and, for a non-empty search, has the lower-cased term in its lower-cased name or description; every kept product appears as often as in the listing and in the same order; with neither filter it is the listing itself (the same expression at cloud-server.js:186-195 and local-server.js:113-122) |
| Api.FilterListingOfStore | backend/server.js:116-137 | applied to the store listing, the response holds only available products, and all of them when no filter applies |
| Text.ContainsIffOccurs | backend/server.js:133-136 | `includes` holds exactly when the needle is a slice of the text |
| Api.ValidateProduct | backend/server.js:190-205 | 400 exactly when name, description, price or category is falsy (price 0 included); otherwise image, stock and prep time default to '', 0 and 15 (the same check at cloud-server.js:250-265 and local-server.js:164-179) |
| Api.ValidatedProductStored | backend/server.js:196-204 | a product that passes the check is stored available, unrated, with the request's name, description, price and category and the image, stock and prep-time defaults |
| Api.CheckStatus | backend/server.js:374-379 | only 'pending', 'preparing', 'ready', 'delivered' and 'cancelled' pass; anything else, including a missing status, is 400 (the same whitelist at cloud-server.js:390-395 and local-server.js:304-309) |
| Api.CategoriesOf | backend/server.js:416 | duplicate-free, holding exactly the categories present, in first-occurrence order |
| Api.CategoriesOfStore | backend/server.js:407-416 | the categories response names exactly the categories of available products |
| Api.ComputeAnalytics | backend/server.js:454-459 | product and order counts are the lengths; active customers is the number of distinct e-mails and never exceeds the order count; revenue is the amount sum; recent orders are the first min(5, n) (the same aggregates over `total_amount` at cloud-server.js:436-441) |
| Api.RecentAreNewest | backend/server.js:448-459 | over the newest-first orders, no order left out of `recentOrders` is newer than one shown |
| Api.RevenueAppend | backend/server.js:456 | one more order adds exactly its amount to the revenue |
| Api.ActiveCustomersAppend | backend/server.js:457 | an order from a known e-mail leaves the active-customer count unchanged; one from a new e-mail adds one |
| BackendServer.ListProducts | backend/server.js:114-143 | 200 with the filtered store listing, which holds only available products |
| BackendServer.GetProduct | backend/server.js:153-174 | 404 exactly when no record has the id (soft-deleted records still give 200 with the record) |
| BackendServer.PostProduct | backend/server.js:186-220 | 400 with nothing stored exactly when a required field is falsy; otherwise 201 and the store gains exactly the new record under the max+1 id |
| BackendServer.PutProduct | backend/server.js:232-260 | an unknown id is 500 with nothing written; otherwise 200 and the store holds the updated collection |
| BackendServer.DeleteProduct | backend/server.js:271-285 | an unknown id is 500 with nothing written; otherwise 200 and the store holds the soft-deleted collection |
| BackendServer.ListOrders | backend/server.js:297-310 | 200 with every order, newest first |
| BackendServer.OrderData | backend/server.js:326-344 | 400 exactly when the name is falsy, items are missing or empty, or the total is falsy; accepted orders carry status 'pending', payment 'paid' and a delivery time defaulting to 30, with '' for a falsy e-mail, phone, address or instructions |
| BackendServer.PlacedOrderStored | backend/server.js:337-344 | every accepted order is stored pending and paid, with a non-zero delivery time and the request's items and total |
| BackendServer.PostOrder | backend/server.js:322-357 | 400 with nothing stored exactly for missing order information; otherwise 201 and exactly one new order |
| BackendServer.PutOrderStatus | backend/server.js:371-395 | 400 with the store untouched for a status outside the whitelist; 500 with no change for an unknown id; 200 otherwise, with only that order's status changed |
| BackendServer.Categories | backend/server.js:405-421 | 200 with each category of an available product exactly once, in the order the categories first appear in the store listing |
| BackendServer.GetAnalytics | backend/server.js:432-470 | totals over the available products and all orders; recent orders are the newest ones |
| CloudServer.ConfiguredCredentials | cloud-server.js:71-74 | the environment user name and password when set, 'admin' and 'admin123' otherwise |
| CloudServer.Session.constructor | cloud-server.js:63-68 | a new session is not authenticated |
| CloudServer.Session.Login | cloud-server.js:115-131 | 200 and authenticated exactly when both values equal the configured credentials; otherwise 401 and the session unchanged |
| CloudServer.Session.Logout | cloud-server.js:133-139 | destroying the session leaves it unauthenticated and nameless |
| CloudServer.Session.Status | cloud-server.js:141-147 | reports the flag, and the user name or null |
| CloudServer.Session.RequireAuth | cloud-server.js:77-83 | lets a request through exactly when the session is authenticated |
| CloudServer.Admit | cloud-server.js:246-265 | a product route without a session is 401 before any body check; otherwise product creation and status changes are 400 exactly as on the other servers |
| CloudServer.StatusRouteUnguarded | cloud-server.js:387-395 | the order-status route answers the same with or without a session |
| CloudServer.LoggedOutProductRoutesRejected | cloud-server.js:284 | create, update and delete of products are all 401 without a session |
| CloudServer.Dispatch | cloud-server.js:315 | reads the session flag only for guarded routes and answers as `Admit` does |
| CloudServer.OrderData | cloud-server.js:353-368 | 400 under the same missing-information conditions; accepted orders carry no status, payment status or delivery time, and '' for a falsy e-mail, phone, address or instructions |
| CloudServer.OrderStoredWithDefaults | cloud-server.js:360-368 | through the store's defaults such an order is pending, its payment pending (where the backend server says paid) and its delivery time 30 |
| LocalServer.OrderData | local-server.js:267-282 | 400 under the same missing-information conditions; accepted orders are the camelCase record with '' defaults |
| LocalServer.LocalAnalytics | local-server.js:350-355 | counts, distinct `customerEmail` values, the `totalAmount` sum and the first min(5, n) orders |
| LocalServer.RepeatCustomerCountedOnce | local-server.js:353 | a second order from a known e-mail adds an order but not an active customer |
| CustomerPage.Categories | src/app/customer/page.tsx:122 | 'All' first, then each product category exactly once, in first-appearance order |
| CustomerPage.FilteredProducts | src/app/customer/page.tsx:124-129 | keeps a product exactly when its tab matches, its name or description contains the term case-insensitively, and it is in stock; each kept product appears as often as in the catalogue, in the same order |
| CustomerPage.InitialViewShowsStock | src/app/customer/page.tsx:124-129 | with 'All' and an empty search, exactly the in-stock products are shown |
| CustomerPage.FindLine | src/app/customer/page.tsx:133 | `find` returns a cart line for the product exactly when the product is in the cart |
| CustomerPage.AddToCart | src/app/customer/page.tsx:131-143 | a product already in the cart gets exactly one more unit on its line, with length and ids kept; a new one is appended as `{product, 1}`; other lines never change |
| CustomerPage.AddToCartKeepsIdsUnique | src/app/customer/page.tsx:131-143 | product ids in the cart stay unique |
| CustomerPage.AddToCartTotals | src/app/customer/page.tsx:131-143 | with unique ids the item count rises by exactly 1, and the price total by the bumped line's unit price or the new product's price |
| CustomerPage.UpdateCartQuantity | src/app/customer/page.tsx:145-155 | quantity <= 0 removes that product's lines and keeps every other line as often as before and in order; otherwise only that product's quantity is set |
| CustomerPage.UpdateKeepsIdsUnique | src/app/customer/page.tsx:145-155 | product ids in the cart stay unique |
| CustomerPage.UpdateCartQuantityTotals | src/app/customer/page.tsx:145-155 | with unique ids, removing a line takes its units off the item count and its price times quantity off the price total; setting a quantity q on a present line replaces its units by q and its value by q times its unit price |
| CustomerPage.UpdateAbsentIsNoOp | src/app/customer/page.tsx:145-155 | a product not in the cart leaves the cart unchanged, whatever the quantity |
| CustomerPage.IncrementTotals | src/app/customer/page.tsx:157-163 | one more unit on each line for a product adds that many items, and their unit prices, to the totals |
| CustomerPage.SetQuantityTotal | src/app/customer/page.tsx:145-155 | setting quantity q on a product's lines replaces their units by q each and their value by q times their unit prices |
| CustomerPage.RemoveTotal | src/app/customer/page.tsx:145-163 | dropping a product's lines removes exactly its units from `getTotalItems` and exactly their value from `getTotalPrice` |
| CustomerPage.AppendTotals | src/app/customer/page.tsx:157-163 | a new line adds its quantity to the item count and price times quantity to the price total |
| CustomerPage.TotalItemsCountsLines | src/app/customer/page.tsx:161-163 | when every line holds at least one unit, `getTotalItems` is at least the number of lines |
| CustomerPage.TotalPriceNonNegative | src/app/customer/page.tsx:157-159 | with no negative price or quantity, `getTotalPrice` is never negative |
| CustomerPage.UniqueLine | src/app/customer/page.tsx:133-140 | with unique ids a product in the cart has exactly one line, the one `find` returns |
| AdminPage.InitialForm | src/app/admin/page.tsx:98-105 | a new product opens a blank form; an edited one opens on exactly its own values (the `||` defaults never change them) |
| AdminPage.EditSubmit | src/app/admin/page.tsx:110-116 | only products with the edited id change; they take the form's fields, and `inStock` iff inventory > 0; length and ids are unchanged |
| AdminPage.EditSubmitIdempotent | src/app/admin/page.tsx:110-116 | submitting the same form twice equals submitting it once |
| AdminPage.UnchangedFormKeepsProduct | src/app/admin/page.tsx:98-116 | submitting a product's untouched form changes at most its `inStock` flag |
| AdminPage.AddSubmit | src/app/admin/page.tsx:117-125 | exactly one product is appended, under the new id, carrying every form field, in stock iff its inventory is positive; existing products stay |
| AdminPage.DeleteProduct | src/app/admin/page.tsx:239-243 | every product with the id is removed; every other product stays as often as before, in its order |
| AdminPage.DeleteUndoesAdd | src/app/admin/page.tsx:239-243 | deleting a product just added under a fresh id restores the list |
| AdminPage.SetOrderStatus | src/app/admin/page.tsx:459-465 | only the matching orders' status changes; every other field and order stays |
| AdminPage.SetOrderStatusLastWins | src/app/admin/page.tsx:459-465 | the last status chosen is the one that stays |
| AdminPage.OverviewOf | src/app/admin/page.tsx:303-344 | product and order counts, and the first min(5, n) orders of the list |

## Left out

- File I/O is not modelled: `existsSync`, `mkdirSync`, `readFileSync`,
  `writeFileSync`, JSON parse/stringify and logging. Each file is an
  in-memory `seq`, and the JSON round trip is taken as faithful. Read-modify-write
  races between concurrent requests are not modelled.
- The store methods' `catch` branches (an unreadable file) are left out
  with the I/O.
- `cloud-database.js` is not part of this model: its SQL runs inside PostgreSQL.
  - The cloud server's store calls are modelled as the `StoreCall` they
    request.
  - Its order defaults are stated through the flat-file store's defaults.
  - Its `total_amount` column is the `total` field here.
- Express wiring is left out: helmet, CORS, rate limiting, body parsing,
  image upload and file naming, static files and `listen`. Of
  express-session only the `isAuthenticated` flag and the user name are kept.
- JsonStore.UpdateProductIn / BackendServer.PutProduct: the update body's
  `name`, `description`, `category` and `image` are passed on as given
  (backend/server.js:234-244). An absent one is stored as `undefined`, and
  the JSON write then drops that key from the record. The model's update
  fields are all present strings, so this erasure is not modelled.
- The cloud server's `GET /api/categories` asks the PostgreSQL store for the
  categories (cloud-server.js:416); with `cloud-database.js` out, it is not
  modelled.
- Money is integer cents, not floating point. `parseFloat` / `parseInt`
  parsing (and the NaN an absent field gives on update) is not modelled:
  inputs are already-typed optional values.
- URL ids are `nat`. A non-numeric id, which matches nothing under `==`, is
  not modelled.
- Timestamps are an abstract clock passed in; admin ids from `Date.now()`
  are a parameter of `AdminPage.AddSubmit`.
- JsonStore.ListAvailable: `localeCompare` is approximated by code-unit
  lexicographic order (`Text.LexLeq`), and the stability of the sort is not
  stated.
- JsonStore.ListOrdersSpec: orders with the same `created_at` (the two seeded
  orders, for one) keep their file order because the sort is stable
  (backend/database.js:322). The body is the same stable insertion sort, but
  the contract does not state that tie order.
- Text.ToLower: only ASCII letters are folded.
- The seed orders' `items` are stored by the source as a JSON string. Here
  they are a list of line items.
- `local-server.js` calls the callback-style store methods as if they
  returned values (local-server.js:111, and likewise for every store call).
  It also calls a `getCategories` the flat-file store does not have
  (local-server.js:330). These are wiring faults and are not modelled. Its
  filter, checks and analytics are modelled on the values they would receive.
- The admin sample order reads `products[0]` before the products are set
  (src/app/admin/page.tsx:87-88). Sample data is not modelled.
- React rendering, hooks, modals, `confirm()` and the checkout `setTimeout`
  are not modelled, and neither is the static landing page.
