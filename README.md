# Ceramicraft commodity service: cart engine and catalogue, in Dafny

This project models the core of the Ceramicraft commodity micro-service. It
covers:

- **The product catalogue.** Merchants create products, publish and unpublish
  them, and edit stock while a product is off the shelf. Stock can also be
  adjusted by a delta under an optimistic version guard. Customers see only
  published products in a filtered, ordered and paged list.
- **The shopping cart.** A user adds lines (a second add of the same product
  merges into the existing line), updates and deletes them, views the cart
  enriched with live product data, and asks for a price estimate: subtotal,
  9% tax, and shipping that is free above 300.00.
- **The order-created consumer.** When an order is placed, the ordered
  products leave the buyer's cart.

The two database tables, `products` and `shopping_cart_items`, are classes.
Each holds its rows as a sequence in primary-key order, the next
auto-increment id, and the set of table operations the database currently
rejects. Every DAO method is a method on those classes, and the services
change the tables only through them.

- `Valid()` keeps the keys well formed: ids are positive, increasing and below
  the next id.
- For cart lines, `Valid()` also keeps the unique `(user_id, product_id)`
  index.

Each service operation is proved against a specification function of the old
tables, for example `UpdateOutcome`, `StatusChangeOutcome`, `CartLines` or
`Subtotal`. Lemmas then relate those functions to one another. Examples:

- the cart view shows exactly the user's on-shelf lines;
- the view's selected subtotal equals the estimate's;
- publish then unpublish restores every column of the row except its update time;
- clearing a cart twice is clearing it once.

Files:

| file | contents |
|---|---|
| `model.dfy` | records, status constants and store errors |
| `seqs.dfy` | filtering over row sequences |
| `product_dao.dfy` | the product table |
| `cart_item_dao.dfy` | the cart-line table |
| `cart_service.dfy` | the cart engine |
| `product_service.dfy` | the catalogue rules |
| `cart_clear_consumer.dfy` | the order-created consumer |
| `scenarios.dfy` | whole-flow runs over concrete tables, after the repository's tests |

Amounts are integer cents, as in the source.

## Model

| member | source | states |
|---|---|---|
| ProductDao.FindProduct | server/repository/dao/productDao.go:64-72 | the row found has the requested id; none is found exactly when no row holds that id |
| ProductDao.FindProductKeyed | server/repository/dao/productDao.go:64-72 | with unique keys, looking up a row's id returns that very row |
| ProductDao.Assign | server/repository/dao/productDao.go:85-97 | a single-column UPDATE changes that column and refreshes the update time, and nothing else |
| ProductDao.UpdateWhere | server/repository/dao/productDao.go:54-61 | an UPDATE with `id = ? [AND version = ?]` rewrites exactly the rows the WHERE clause selects, keeps ids and versions, and leaves every other row as it was |
| ProductDao.UpdateWhereMissNoop | server/repository/dao/productDao.go:54-61 | an UPDATE whose WHERE clause selects no row (a stale version in the CAS write) leaves the table unchanged |
| ProductDao.UpdateWhereFind | server/repository/dao/productDao.go:85-97 | an UPDATE keeps the keys well formed, and reading the id back gives the assigned row, the same row, or still nothing |
| ProductDao.StockStaysNonNegative | server/repository/dao/productDao.go:85-97 | writing a non-negative stock, or any status, keeps every stock non-negative |
| ProductDao.Contains | server/repository/dao/productDao.go:106-108 | the keyword filter holds exactly when the keyword occurs in the name at some position |
| ProductDao.InsertOrdered | server/repository/dao/productDao.go:119-123 | inserting into an ordered list keeps it ordered by update time and adds exactly one element |
| ProductDao.SortByUpdate | server/repository/dao/productDao.go:119-123 | the result is ordered by update time (newest first for order 0) and is a permutation of its input |
| ProductDao.Window | server/repository/dao/productDao.go:125-142 | OFFSET/LIMIT: a non-positive offset skips nothing; the page is the run of rows starting at the clamped offset, of length min(limit, rows left), or every row left when the limit is negative |
| ProductDao.ProductTable.constructor | server/repository/dao/productDao.go:25-41 | a new table is empty, well keyed and healthy |
| ProductDao.ProductTable.CreateProduct | server/repository/dao/productDao.go:44-51 | on success, appends the row under the next id, stamped with the current time, and returns that id so a lookup finds it; on failure returns 0 and writes nothing |
| ProductDao.ProductTable.UpdateStockWithCAS | server/repository/dao/productDao.go:54-61 | the stock write guarded by `id = ? AND version = ?` succeeds whether or not a row matched; a failure writes nothing |
| ProductDao.ProductTable.GetProductByID | server/repository/dao/productDao.go:64-72 | a missing id is RecordNotFound, never an empty success; a success is the row holding the id |
| ProductDao.ProductTable.GetProductByIDs | server/repository/dao/productDao.go:74-82 | `WHERE id IN ids`: every listed row and nothing else, absent ids skipped; errors only on a database failure |
| ProductDao.ProductTable.UpdateProductStatus | server/repository/dao/productDao.go:146-158 | writes the status of the row with the id; an UPDATE that matches no row is an error and writes nothing |
| ProductDao.ProductTable.UpdateProductStock | server/repository/dao/productDao.go:85-97 | writes the stock of the row with the id; an UPDATE that matches no row is an error and writes nothing |
| ProductDao.ProductTable.ListProduct | server/repository/dao/productDao.go:100-143 | the total counts every matching row; the page is the offset/limit window (limit 0 means 10) of an ordering by update time of exactly the matching rows; every row on the page meets each set filter |
| CartItemDao.FindItem | server/repository/dao/shopping_cart_item.go:79-91 | the row found has the requested id; none is found exactly when no row holds that id |
| CartItemDao.QueryResult | server/repository/dao/shopping_cart_item.go:94-101 | a struct condition returns exactly the rows that match its non-zero fields |
| CartItemDao.ReplaceRow | server/repository/dao/shopping_cart_item.go:104-115 | `Save` replaces the row with the same id and leaves every other row in place |
| CartItemDao.WithoutId | server/repository/dao/shopping_cart_item.go:64-76 | the table after a delete by id holds exactly the rows with another id |
| CartItemDao.WithoutAbsentId | server/repository/dao/shopping_cart_item.go:64-76 | deleting an id that no row holds changes nothing |
| CartItemDao.WithoutProducts | server/repository/dao/shopping_cart_item.go:42-50 | the table after the bulk delete holds exactly the rows that do not belong to the user with a listed product |
| CartItemDao.WithoutProductsIdempotent | server/repository/dao/shopping_cart_item.go:42-50 | repeating the bulk delete removes nothing more |
| CartItemDao.FilterKeepsKeyed | server/repository/model/shopping_cart_item.go:10-13 | deleting rows keeps ids ordered and the (user, product) index unique |
| CartItemDao.OwnKeyNotTaken | server/repository/model/shopping_cart_item.go:10-13 | rewriting a row with its own id, user and product never breaks the unique index |
| CartItemDao.FindItemKeyed | server/repository/dao/shopping_cart_item.go:79-91 | with unique keys, looking up a line's id returns that line |
| CartItemDao.CartItemTable.constructor | server/repository/dao/shopping_cart_item.go:28-39 | a new table is empty, well keyed and healthy |
| CartItemDao.Inserted | server/repository/model/shopping_cart_item.go:10-18 | the inserted row carries the assigned id and the given user, product and selection; a zero quantity becomes the column default 1 |
| CartItemDao.CartItemTable.CreateItem | server/repository/dao/shopping_cart_item.go:53-61 | appends the line under the next id, with a zero quantity stored as 1; a second line for the same (user, product), or a database failure, returns -1 and writes nothing |
| CartItemDao.CartItemTable.UpdateItem | server/repository/dao/shopping_cart_item.go:104-115 | overwrites the line with the same id; a write that would collide on the unique index fails and changes nothing; an absent id is a successful no-op |
| CartItemDao.CartItemTable.DeleteItemById | server/repository/dao/shopping_cart_item.go:64-76 | deletes by primary key alone; id 0 is refused; an absent id succeeds |
| CartItemDao.CartItemTable.DeleteByProductIds | server/repository/dao/shopping_cart_item.go:42-50 | deletes exactly the user's lines for the listed products |
| CartItemDao.CartItemTable.GetItemById | server/repository/dao/shopping_cart_item.go:79-91 | a missing line is "nothing, no error"; otherwise the line with the id |
| CartItemDao.CartItemTable.QueryItems | server/repository/dao/shopping_cart_item.go:94-101 | returns the rows that match the non-zero fields of the condition |
| CartService.TaxPrice | server/service/cart_service.go:311-313 | the tax is 9% of the subtotal, truncated toward zero for either sign |
| CartService.ShipmentPrice | server/service/cart_service.go:315-321 | shipping is free exactly when the subtotal exceeds 30000, otherwise 800 |
| CartService.Estimate | server/service/cart_service.go:300-321 | shipping is 0 above 30000 and 800 otherwise; the tax is 9% of the subtotal truncated toward zero; the total is subtotal + shipping + tax; a zero subtotal still pays shipping: (0, 800, 0, 800) |
| CartService.BuildCartItemDetail | server/service/cart_service.go:178-198 | the line total is price × quantity; the line is out of stock exactly when the quantity exceeds stock; it is selected exactly when its status is 2; id, name, category, price, stock and picture come from the product, description and status stay empty |
| CartService.ProductIdsOf | server/service/cart_service.go:137-142 | the product id list follows the lines one for one |
| CartService.IndexByProduct | server/service/cart_service.go:137-142 | every line's product is a key, and each key maps to a line carrying that product |
| CartService.SortById | server/service/cart_service.go:172-174 | sorts the view in place by line id; the result is a permutation of the input |
| CartService.IndexLines | server/service/cart_service.go:137-142 | the loop builds the id list and the product-to-line index |
| CartService.CollectLines | server/service/cart_service.go:152-165 | the loop collects exactly CartLines, its selected count and price, and the off-shelf ids |
| CartService.GetCartItems | server/service/cart_service.go:123-176 | fails exactly when the query fails, or the user has lines and the product fetch fails; otherwise the view is sorted by id and is a permutation of the on-shelf lines, with their selected count and price; off-shelf ids are handed to clean-up |
| CartService.GetCartSelectedItemCnt | server/service/cart_service.go:201-214 | counts the user's selected lines, whatever their products' state; an error only when the query fails |
| CartService.SumSelected | server/service/cart_service.go:290-299 | the loop adds price × quantity of each fetched on-shelf product's line |
| CartService.EstimatePrice | server/service/cart_service.go:265-304 | no selected line gives all zeros; otherwise the estimate of the on-shelf selected subtotal; errors exactly when a store read fails |
| CartService.ProductCheck | server/service/cart_service.go:247-263 | a failed read is DatabaseError (-3); a missing or off-shelf product is ProductNotExist (-1); an online product with stock below the quantity is InsufficientStock (-2); it accepts exactly when the product is online with enough stock |
| CartService.CheckProductWithItem | server/service/cart_service.go:247-263 | the check's outcome is ProductCheck of the current table |
| CartService.UpdateOutcome | server/service/cart_service.go:217-245 | a failed line read is DatabaseError; a missing or foreign line is CartItemNotExist (-10); for an owned line the product check's error is passed on, and when the check passes the outcome is success unless the save fails |
| CartService.SetLine | server/service/cart_service.go:231-238 | only the named line's quantity and selection change; ids, users, products and every other line stay |
| CartService.SaveFoundIsSetLine | server/service/cart_service.go:231-242 | saving the stored line with a new quantity and selection never collides and amounts to SetLine |
| CartService.KeyedLineIsQueried | server/service/cart_service.go:60-72 | a line holding the (user, product) pair is found by AddItem's lookup |
| CartService.UpdateItem | server/service/cart_service.go:217-245 | returns UpdateOutcome; on success changes only the line's quantity and selection, otherwise nothing |
| CartService.AddItem | server/service/cart_service.go:59-94 | an existing line is merged (quantities summed, selected) and saved as UpdateItem does; otherwise a checked product gets a new selected line (a zero quantity stored as 1) whose id is written back; every failure leaves the table as it was |
| CartService.DeleteItem | server/service/cart_service.go:97-105 | deletes the line by id alone, whatever the user; id 0 is refused; store errors are passed on |
| CartService.DeleteItemByProductIds | server/service/cart_service.go:108-120 | an empty list is a no-op that does not reach the store; otherwise the user's lines for those products go |
| CartService.DeleteStaleItems | server/service/cart_service.go:166-171 | the clean-up removes the user's lines for the listed products; its failure is dropped |
| CartService.StaleIdsMembers | server/service/cart_service.go:152-156 | an id is on the stale list exactly when some fetched product with that id is not online |
| CartService.StaleLinesCleared | server/service/cart_service.go:137-171 | after the clean-up GetCartItems schedules, a line survives exactly when it is not the user's line for a product in the table that is off the shelf |
| CartService.SameKeySameLine | server/repository/model/shopping_cart_item.go:10-13 | the unique index means one line per (user, product) |
| CartService.ProductIdOfMember | server/service/cart_service.go:137-142 | every line's product is in the fetched id list |
| CartService.CartLinesMembers | server/service/cart_service.go:152-165 | the view holds exactly the details of fetched on-shelf products that have a line |
| CartService.CartViewExact | server/service/cart_service.go:123-176 | the cart view contains d exactly when the user has a line for an on-shelf product and d is built from that line and product |
| CartService.ViewPriceIsSubtotal | server/service/cart_service.go:152-165 | over one index, the view's selected price is the estimate's subtotal |
| CartService.SubtotalOverIds | server/service/cart_service.go:279-299 | subtotals over two id lists agree when each product adds the same to both |
| CartService.SubtotalOfLastId | server/service/cart_service.go:290-299 | the subtotal splits off the last fetched product |
| CartService.CartAndEstimateAgree | server/service/cart_service.go:265-304 | the selected price the cart view shows equals the subtotal EstimatePrice charges |
| CartService.SelectedLineInView | server/service/cart_service.go:266-283 | a selected line is also the line the full index holds for its product |
| CartService.UnselectedLineInView | server/service/cart_service.go:201-214 | a user line whose product has no selected line is unselected |
| CartService.SelectedCountIsSelectedRows | server/service/cart_service.go:201-214 | the selected count counts exactly the rows EstimatePrice prices |
| CartService.OffShelfEstimate | server/service/cart_service.go:290-302 | when no selected product is on the shelf, the subtotal is 0 and the estimate is (0, 800, 0, 800) |
| CartService.CartItemBasic.constructor | server/http/data/cart.go:5-11 | the request record holds the given fields |
| ProductService.ToProductInfo | server/service/product_service.go:59-82 | the merchant view loses only the id, version and update time: they rebuild the row |
| ProductService.InfoRoundTrip | server/service/product_service.go:36-56 | building a row from a request and viewing it again gives the request back |
| ProductService.ToSimplified | server/service/product_service.go:205-234 | the list view copies id, name, category, price, description, stock, picture and status |
| ProductService.Create | server/service/product_service.go:36-56 | appends a row built from the request at version 0; reading it back gives the request; -1 on failure |
| ProductService.GetProductByID | server/service/product_service.go:59-82 | never "nothing, no error"; fails exactly when the read fails or the id is missing; otherwise the merchant view of the row |
| ProductService.GetPublishedProductByID | server/service/product_service.go:90-113 | "nothing, no error" exactly when the product exists with status 0; other statuses are returned; a missing id is not-found |
| ProductService.StatusChangeOutcome | server/service/product_service.go:116-167 | succeeds exactly when the product exists, is not already in the target status and the write succeeds; a missing id is not-found; the same status is AlreadyPublished or AlreadyUnpublished |
| ProductService.ChangeStatus | server/service/product_service.go:116-167 | returns StatusChangeOutcome; on success only the row's status and update time change |
| ProductService.PublishProduct | server/service/product_service.go:116-140 | as ChangeStatus with target 1 |
| ProductService.UnpublishProduct | server/service/product_service.go:143-167 | as ChangeStatus with target 0 |
| ProductService.PublishStateMachine | server/service/product_service_test.go:138-224 | an off-shelf product publishes, a second publish is AlreadyPublished, then unpublish succeeds |
| ProductService.PublishUnpublishRoundTrip | server/service/product_service.go:116-167 | publish then unpublish leaves every row as it was, except the row's update time |
| ProductService.StockChangeOutcome | server/service/product_service.go:174-203 | a negative stock is refused first; success exactly when the product exists off the shelf and the write succeeds; a published product is refused |
| ProductService.UpdateProductStock | server/service/product_service.go:174-203 | returns StockChangeOutcome; on success only the stock and update time change; stocks stay non-negative |
| ProductService.UpdateStockWithCAS | server/service/product_service.go:236-256 | a missing product or a stock that would drop below 0 writes nothing; otherwise the new stock is written guarded by the version read; stocks stay non-negative |
| ProductService.GetProductList | server/service/product_service.go:205-234 | the count of matching rows and the list view of one page; every entry meets the keyword, category and published filters; on failure count -1 and an empty list |
| CartClearConsumer.OrderProductIds | server/mq/cart_clear_consumer.go:30-33 | the ids follow the order items one for one, repeats kept |
| CartClearConsumer.CollectProductIds | server/mq/cart_clear_consumer.go:30-33 | the loop collects OrderProductIds |
| CartClearConsumer.ClearCartProcess | server/mq/cart_clear_consumer.go:19-41 | a message that did not decode, names no user or lists no item changes nothing; otherwise the buyer's lines for the ordered products are deleted and a failure is passed on |
| CartClearConsumer.ClearedCart | server/mq/cart_clear_consumer.go:19-41 | after clearing, a line survives exactly when it is not the buyer's line for an ordered product |
| CartClearConsumer.RedeliveryIsHarmless | server/mq/cart_clear_consumer.go:19-41 | handling the same message twice deletes nothing more |
| Scenarios.EstimateIgnoresOffShelf | server/service/cart_service_test.go:678-712 | two selected lines, one product off the shelf: the estimate is (200, 800, 18, 1018) |
| Scenarios.AddTwiceMerges | server/service/cart_service_test.go:66-107 | adding 2 then 3 of a product leaves a single selected line of 5 |
| Scenarios.AddToEmptyCart | server/service/cart_service_test.go:38-65 | adding 2 of an online product to an empty cart creates line 1, selected, with quantity 2 |
| Scenarios.AddToMergedLine | server/service/cart_service_test.go:66-107 | adding 3 more of that product merges into line 1, giving quantity 5 |
| Scenarios.EstimateOf20000 | server/service/cart_service.go:300-321 | a subtotal of 20000 gives shipping 800, tax 1800 and total 22600 |
| Scenarios.PublishTwiceThenUnpublish | server/service/product_service_test.go:138-224 | publish succeeds, publishing again is AlreadyPublished, unpublishing succeeds |

## Left out

- HTTP, gRPC, the image service and S3 are not part of this model.
- Logging is not modelled.
- `time.Now` is a `now` parameter. Cart-line timestamps are not modelled.
- A JSON payload that does not decode reaches the consumer as `None`. Decoding itself is not modelled.
- Go integers are unbounded here. `int`/`int64`/`int32` overflow is not modelled.
- The `LIKE '%keyword%'` filter is a plain substring test. `%` and `_` inside the keyword are read literally.
- Concurrency is not modelled. GetCartItems' background clean-up goroutine is `DeleteStaleItems`, a separate step after the view is built. Two writers interleaving, which the version guard exists for, are not modelled either.
- Database failures are modelled as a set of table operations that fail. A partial or transient failure is not modelled.
- The `product == nil` branches of the services are left out. They are unreachable: the product DAO's `First` turns a missing id into `ErrRecordNotFound`, never into nil with no error.
- The consumer does not panic on a nil element of the order item list. Nil elements cannot be expressed in the model.
- CartItemDao.CartItemTable.UpdateItem: does not model gorm's `Save` upsert fallback. An id with no row is a successful no-op, where gorm would insert the row under that id.
- ProductDao.ProductTable.UpdateProductStatus: does not model MySQL reporting 0 affected rows when the new values equal the old ones. The update-time refresh makes every matched row change.
- ProductDao.ProductTable.CreateProduct: an explicit primary key in the inserted struct is not modelled. The table always assigns the next id.
- ProductDao.ProductTable.ListProduct: the order among rows with equal update time is unspecified. The contract names one admissible ordering (`ordered`) rather than the database's.
- ProductService.GetProductList: the page comes from an admissible ordering, as for ListProduct.
- ProductService.UpdateStockWithCAS: the version column is never incremented by any write in the source, and new rows start at version 0. The guard is therefore modelled as written, and a stale version is a silent success (see `UpdateWhereMissNoop`).
- CartService.CartViewExact: proved for a user id other than 0, over a table with unique (user, product) keys. With user id 0 the struct query does not filter by user.
- CartService.CartAndEstimateAgree: same preconditions as CartViewExact.

The model follows the code as written, in these places in particular:

- A missing product id is an error from `GetPublishedProductByID`, not an empty answer.
- The consumer passes repeated product ids to the delete without de-duplicating them.
- `DeleteItem` is not restricted to the requesting user.
- `UpdateItem` validates the product named in the request, not the one stored on the line.
- A stale version in the stock adjustment is not reported as a conflict.
- The product record in `server/repository/model/product.go` declares no version column, but the DAO and service read and filter on one. The model's `Product` carries `version`.
