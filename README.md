# easybuy-backend core, modelled in Dafny

This project models the bookkeeping core of the easybuy e-commerce backend,
an Express and MongoDB service written in TypeScript. Database reads become
inputs. The process-wide NodeCache becomes a class over a
`map<string, string>`. The order and product collections that the handlers
change become a `Database` class over two maps. The model covers:

- `invalidateCache` (`DbCache`): turns the three flags and the optional ids
  into a key list and deletes those keys. Proved: exactly which keys go, that
  nothing else changes, that flags combine as a union, and that a second call
  changes nothing.
- `reduceOrderQuantity` (`DbStock`): the stock-decrement loop. It stops at
  the first missing product and keeps the earlier decrements.
- `getChartData`, `calculatePercentage` and the rounding in `getInventories`
  (`DbCharts`). `getChartData` is a method filling an array. It is proved
  equal to a month-bucketing function, and what the buckets add up to, slot
  by slot and in total, is proved about that function.
- The `age` virtual of a user (`UserModel`).
- The order handlers (`OrderController`): read-through caching, the status
  machine, order placement, and which keys each mutation deletes.
- The product handlers (`ProductController`): read-through getters,
  pagination and filter building, the required-field check, the partial
  update, and the invalidations.
- The dashboards (`StatsController`): the sums, partitions and chart series
  of the four admin dashboards, each behind its cache key.

Two behaviours are kept as the code has them, although the declared types or
the field names suggest otherwise:

- A product form field is a `NumericText`: the text that the handler's
  truthiness test reads, plus the number that the database's cast makes of
  it. A multipart request carries text. For `newProduct` and `updateProduct`
  that request goes through the upload middleware
  (src/routes/products.route.ts:18-27). There a typed `"0"` is a non-empty,
  truthy string, so it passes the required-field check
  (`ProductController.ZeroStockTextAccepted`, multipart input only). A JSON
  body is parsed for every route (src/app.ts:24), and the upload middleware
  passes it through unchanged. So `updateProduct` also accepts JSON. There a
  number 0 is falsy: it is `NumericText("", Some(0))` here, and the update
  keeps the old value (`ProductController.JsonZeroStockIgnored`). Only
  `newProduct` is in effect multipart-only, because it first requires an
  uploaded image.
- The line charts are kept as written: the series stored under `users` is
  built from the Product query (`StatsController.LinesTotals`).

The `Database` class keeps one invariant, `Valid()`: every order and every
product is stored under its own `_id`. The constructor establishes it, and
every handler that changes a collection preserves it.

## Model

| member | source | states |
|---|---|---|
| Common.InterpCollision | src/utils/db.ts:50-51 | a template literal renders two optional ids alike exactly when they are equal, except that a missing id renders like the text `undefined` |
| Common.FloorDiv | src/utils/db.ts:76 | `Math.floor(a / b)` is the integer q with q·b ≤ a < q·b + b (mirrored for a negative divisor) |
| Common.CeilDiv | src/controllers/product.ts:218 | `Math.ceil(a / b)` is the integer q with q·b − b < a ≤ q·b (mirrored for a negative divisor) |
| Common.RoundDiv | src/utils/db.ts:96 | `Math.round(n / d)` is the nearest integer, a tie going up: 2qd − d ≤ 2n < 2qd + d |
| Common.CountWhere | src/controllers/stats.ts:301-305 | `filter(p).length` never exceeds the length of the sequence |
| Common.CountComplement | src/controllers/stats.ts:182-185 | two complementary filters count every element exactly once |
| Common.CountPartition3 | src/controllers/stats.ts:301-305 | three filters of which exactly one holds per element count every element exactly once |
| Common.ToLower | src/controllers/product.ts:108 | `toLowerCase` keeps the length and maps each upper-case ASCII letter to its lower-case letter, keeping every other character |
| Common.ToLowerIdempotent | src/controllers/product.ts:108 | lowered text has no upper-case letter, text without one is unchanged, and lowering twice equals lowering once |
| Common.Trim | src/models/products.model.ts:27-31 | the schema's `trim` yields the slice that is left when the white space at both ends is removed: everything cut is white space, the result neither starts nor ends with white space, and it is empty only when the input is all white space |
| Common.TrimIdempotent | src/models/products.model.ts:30 | text that neither starts nor ends with white space is its own trim, so trimming twice equals trimming once |
| Common.LowerTrimNormal | src/controllers/product.ts:104-110 | a category that is lowered and then trimmed is left unchanged by lowering or trimming it again |
| Caching.NodeCache.constructor | src/app.ts:29 | a new cache is empty |
| Caching.NodeCache.Has | src/controllers/product.ts:73 | `has` is true exactly when `get` finds a value, whatever that value is |
| Caching.NodeCache.GetIsTruthy | src/controllers/order.ts:50 | a truthy `get` needs the key present with a non-empty value, so a cached empty string is a miss |
| Caching.HitTests | src/controllers/order.ts:50-51 | the two hit tests differ exactly on a key cached with the empty string, and every truthy hit is a `has` hit |
| Caching.NodeCache.Set | src/controllers/order.ts:19 | `set` stores the value under the key and changes no other key; `get` then returns the value |
| Caching.NodeCache.Del | src/utils/db.ts:45 | `del(keys)` removes exactly the listed keys and nothing else |
| Documents.Database.constructor | src/controllers/product.ts:131 | a collection whose documents are each stored under their own `_id` satisfies `Valid()` |
| DbCache.ProductKey | src/utils/db.ts:36-42 | `product-<id>` is the prefix followed by the id, so the id can be read back from the key |
| DbCache.MyOrdersKey | src/utils/db.ts:50 | `myOrders-<user>` is the prefix followed by the rendered user |
| DbCache.SingleOrderKey | src/utils/db.ts:51 | `singleOrder-<id>` is the prefix followed by the rendered id |
| DbCache.ProductKeyInjective | src/utils/db.ts:36-42 | two `product-<id>` keys are equal exactly when their ids are |
| DbCache.OrderKeysCollide | src/utils/db.ts:47-55 | two `myOrders-` (or `singleOrder-`) keys are equal exactly when the ids are, except that a missing id shares the key of the id `undefined` |
| DbCache.ProductKeyList | src/utils/db.ts:30-43 | the key list holds the three fixed product keys first, then `product-<id>` for the single id or for every id of a list, and no other key |
| DbCache.InvalidateCache | src/utils/db.ts:21-60 | after the call the cache is the old cache minus exactly the keys the flags and ids select |
| DbCache.InvalidatedFrame | src/utils/db.ts:21-60 | a key survives exactly when it was present and not selected, and every surviving key keeps its value |
| DbCache.InvalidationKeysExact | src/utils/db.ts:29-59 | a key is selected iff the product flag names it (the three fixed keys or a named id), or the order flag names it (`allOrders`, `myOrders-<userId>`, `singleOrder-<orderId>`), or the admin flag names it (the four dashboard keys) |
| DbCache.NoFlagsNoChange | src/utils/db.ts:29-59 | with all three flags false the cache is unchanged |
| DbCache.InvalidateIdempotent | src/utils/db.ts:21-60 | a second call with the same request changes nothing |
| DbCache.AbsentKeysIgnored | src/utils/db.ts:45-58 | when no selected key is present, the cache is unchanged |
| DbCache.FlagsCombine | src/utils/db.ts:29-59 | one call with several flags equals one call per flag, shown for two orders of the three calls |
| DbCache.InvalidationsCommute | src/utils/db.ts:21-60 | two calls commute and together delete the union of their keys, so the per-flag calls may run in any order |
| DbCache.ProductKeysSurvive | src/utils/db.ts:29-46 | without the product flag, every product-family key keeps its value |
| DbCache.ProductExample | src/utils/db.ts:29-46 | the product flag with id `p1` deletes `product-p1` and the three lists and keeps `stats` |
| DbCache.AdminOnlyExact | src/utils/db.ts:57-59 | the admin flag alone removes exactly the four dashboard keys, whatever ids are passed |
| DbStock.Reduce | src/utils/db.ts:62-72 | the loop keeps the same set of product ids |
| DbStock.FirstMissing | src/utils/db.ts:63-68 | the index of the first item whose product is missing: every earlier product exists, that one does not |
| DbStock.QuantityFor | src/utils/db.ts:63-70 | the quantity ordered of a product is 0 when no item names it, and never negative when no item's quantity is |
| DbStock.ReduceEffect | src/utils/db.ts:62-72 | the loop keeps the same products, lowers each stock by what the items before the first missing product ordered of it, changes nothing else of a product, and fails exactly when some product is missing |
| DbStock.FirstMissingSameKeys | src/utils/db.ts:65-69 | the first item with a missing product depends only on which product ids exist, so a decrement does not move it |
| DbStock.AllPresentFullDecrement | src/utils/db.ts:62-72 | when every product exists there is no error and each stock drops by the full quantity ordered of it |
| DbStock.ReduceOrderQuantity | src/utils/db.ts:62-72 | the loop computes the reduction above: same product ids kept, each product still under its own id, and no error exactly when every item's product exists |
| DbCharts.MonthDiff | src/utils/db.ts:125 | the month difference lies in [0, 12), adding it to the record's month gives today's month modulo 12, and it is 0 exactly for today's month number |
| DbCharts.BucketIndex | src/utils/db.ts:127-128 | the index `length - monthDiff - 1` of a record in the window lies in [0, length) |
| DbCharts.Bucketize | src/utils/db.ts:121-131 | the bucket sequence has exactly `length` slots |
| DbCharts.GetChartData | src/utils/db.ts:115-134 | the array is new, has `length` slots and equals the month bucketing of the records |
| DbCharts.BucketizeSlot | src/utils/db.ts:121-131 | slot j holds exactly what the records landing in j contribute, so every slot starts at 0 |
| DbCharts.BucketizeSum | src/utils/db.ts:123-131 | the buckets sum to what all in-window records contribute |
| DbCharts.CountModeTotal | src/utils/db.ts:129 | without a property each in-window record contributes one |
| DbCharts.CountBucketsSum | src/utils/db.ts:123-131 | in count mode the buckets sum to the number of in-window records |
| DbCharts.YearWindowKeepsAll | src/utils/db.ts:125-127 | with a window of twelve or more months no record is dropped |
| DbCharts.EmptyAllZero | src/utils/db.ts:121 | with no records every slot is 0 |
| DbCharts.CalculatePercentage | src/utils/db.ts:74-77 | with last month 0 the result is this month × 100; otherwise it is ⌊100·this / last⌋, a ratio and not a change |
| DbCharts.EqualMonthsGiveHundred | src/utils/db.ts:76 | equal non-zero months give 100 |
| DbCharts.PercentageExample | src/utils/db.ts:74-77 | (150, 100) gives 150, (29, 100) gives 29, (7, 0) gives 700, (1, 3) gives 33 |
| DbCharts.ShareOf | src/utils/db.ts:96 | with no products there is no share; otherwise the share is the nearest integer to 100·count / productsCount |
| DbCharts.ShareBounds | src/utils/db.ts:96 | a share of at most all products lies in [0, 100] |
| DbCharts.InventoriesBounded | src/utils/db.ts:79-101 | with products present and no category count above their number, each category, in order, gets a share in [0, 100] |
| UserModel.Age | src/models/user.model.ts:56-69 | the age is the number of birthdays up to today: the birthday in year dob + age has come, the next one has not |
| UserModel.AgeCases | src/models/user.model.ts:59-66 | the age is the year difference, or one less exactly when today's (month, day) is before the birth (month, day) |
| UserModel.BirthdayCounts | src/models/user.model.ts:62-63 | on the birthday itself the full year difference counts |
| UserModel.AgeNonNegative | src/models/user.model.ts:56-69 | a date of birth not after today gives an age of at least 0 |
| OrderController.NextStatus | src/controllers/order.ts:117-128 | the next status is never `Processing`, so an order cannot go back, and each call on an undelivered order is one step towards `Delivered` |
| OrderController.StatusProgress | src/controllers/order.ts:117-128 | `Delivered` is the only fixed point; every other status moves one step closer, and two steps reach `Delivered` from anywhere |
| OrderController.CreatedOrder | src/controllers/order.ts:65-87 | a new order is stored under its new id, in `Processing` (two steps from `Delivered`), with the body's user, shipping information, subtotal, tax, shipping charges, discount and total, and the body's items, or no items when the body has none |
| OrderController.FieldCheckScope | src/controllers/order.ts:89 | a zero or missing tax, subtotal or total, or an empty user, fails the field check; discount and shipping charges are never checked; an empty item list passes |
| OrderController.MyOrders | src/controllers/order.ts:9-23 | a truthy cached `myOrders-<user>` is answered unchanged; otherwise the fetched list is stored under that key and answered |
| OrderController.AllOrders | src/controllers/order.ts:25-42 | answers the cached or fetched list, then runs the all-flags invalidation, so `allOrders` is absent afterwards |
| OrderController.GetSingleOrder | src/controllers/order.ts:44-63 | a truthy cached order is answered; a missing order answers 404 and writes nothing; a found one is stored under `singleOrder-<id>` |
| OrderController.NewOrder | src/controllers/order.ts:65-106 | the order is stored first, under its own id; a failed field check answers 400 with stock and cache untouched; otherwise stock is reduced as the loop does, and on success the user's, items' and shared keys are invalidated |
| OrderController.ProcessOrder | src/controllers/order.ts:108-143 | a missing order answers 404; otherwise the status advances, the order and dashboard keys of that order are invalidated, and `singleOrder-<id>` is gone; every document stays under its own id |
| OrderController.DeleteOrder | src/controllers/order.ts:145-167 | a missing order answers 404; otherwise the order is removed and invalidated like `processOrder`, and `singleOrder-<id>` is gone |
| OrderController.OrderChangeKeys | src/controllers/order.ts:132-138 | changing an order deletes its `myOrders-<user>` and `singleOrder-<id>` keys and keeps every product key |
| OrderController.NewOrderKeys | src/controllers/order.ts:94-100 | placing an order deletes `product-<id>` for every item, `myOrders-<user>`, the lists, `allOrders` and the dashboards |
| OrderController.ZeroTaxRejected | src/controllers/order.ts:89 | a zero tax is falsy and fails the field check |
| ProductController.ReadThrough | src/controllers/product.ts:18-26 | `has(key)` answers the cached text, otherwise the fetched text is stored; a falsy value answers 404 |
| ProductController.GetLatestProducts | src/controllers/product.ts:15-31 | read-through on `latestProducts` |
| ProductController.GetAllProductsCategory | src/controllers/product.ts:33-50 | read-through on `categories` |
| ProductController.GetAdminsProducts | src/controllers/product.ts:52-68 | read-through on `allProducts` |
| ProductController.GetSingleProduct | src/controllers/product.ts:70-87 | read-through on `product-<id>`; a product not found is cached as `null` and answers 404 |
| ProductController.Page | src/controllers/product.ts:188 | the page is never 0 |
| ProductController.Limit | src/controllers/product.ts:189 | the page size is never 0 |
| ProductController.FilterSemantics | src/controllers/product.ts:192-206 | a product passes the built filter exactly when it passes the name, price and category tests whose parameters are truthy; with none truthy every product passes |
| ProductController.SortIsCaseSensitive | src/controllers/product.ts:209 | only the exact text `asc` sorts ascending; `ASC` and `desc` sort descending, and an empty or missing `sort` does not sort |
| ProductController.TotalPages | src/controllers/product.ts:218 | the pages are the least number of pages of `limit` products holding all matches |
| ProductController.GetAllProducts | src/controllers/product.ts:185-226 | the listing uses the built query and sort, `skip = (page - 1) · limit`, and a page count covering exactly all matches |
| ProductController.DefaultPageStartsAtZero | src/controllers/product.ts:188-190 | without a usable page the listing starts at 0; without a page-size setting the size is 8 |
| ProductController.PageWithinCountStartsOnAMatch | src/controllers/product.ts:188-218 | a page from 1 up to the page count skips fewer products than match, so it starts on a matching product |
| ProductController.PagesCoverProducts | src/controllers/product.ts:218 | no matches gives no pages, and every match lies on a page below the page count |
| ProductController.CreatedCategoryNormal | src/controllers/product.ts:104-110 | a created product's category is stored lower-cased and trimmed: lowering or trimming it again changes nothing |
| ProductController.UpdatedProduct | src/controllers/product.ts:135-147 | each field is overwritten exactly when its new value is truthy, the category trimmed but not lower-cased, and every other field is kept |
| ProductController.EmptyUpdateNoChange | src/controllers/product.ts:135-145 | an empty form without an image changes nothing |
| ProductController.ZeroStockTextAccepted | src/controllers/product.ts:97 | in a multipart form, a stock typed as `"0"` passes the field check |
| ProductController.JsonZeroStockIgnored | src/controllers/product.ts:144 | a JSON stock of 0 is falsy: it fails the creation check, and an update keeps the old stock |
| ProductController.CategoryCaseDiffers | src/controllers/product.ts:104-145 | a category given without surrounding white space is stored lower-cased on creation and as given on update; the two agree exactly when it has no upper-case letter (`Books` becomes `books` and `Books`) |
| ProductController.NewProduct | src/controllers/product.ts:89-123 | a missing image answers 400, then any falsy field answers 400, with nothing changed; otherwise the product is stored under its new id and the product and admin keys are invalidated |
| ProductController.UpdateProduct | src/controllers/product.ts:125-159 | a missing id answers 400 and an unknown product 404; otherwise the product is updated in place, and its own `product-<id>` key, the lists and the dashboards are invalidated |
| ProductController.DeleteProduct | src/controllers/product.ts:161-183 | an unknown product answers 404; otherwise it is removed and invalidated like an update, so `product-<id>` is gone |
| ProductController.ProductChangeKeys | src/controllers/product.ts:149-177 | changing a product deletes its own key, the lists and the dashboards, and keeps the order keys and the other products' keys |
| ProductController.NewProductKeepsSingles | src/controllers/product.ts:116 | creating a product deletes the lists and dashboards and keeps every cached single product |
| ProductController.NonProductKeysSurvive | src/utils/db.ts:29-59 | without the order flag the order keys survive, and a product key survives unless its id is named |
| StatsController.SumOfRecorded | src/controllers/stats.ts:118-121 | `reduce` with `\|\| 0` adds exactly the values the orders record; an order without the field adds nothing |
| StatsController.SumOfMissing | src/controllers/stats.ts:119 | orders without the field add nothing |
| StatsController.YearRevenue | src/controllers/stats.ts:413-418 | over twelve months the total-mode records contribute the orders' revenue |
| StatsController.YearDiscount | src/controllers/stats.ts:407-412 | over twelve months the discount-mode records contribute the orders' discounts |
| StatsController.ReadThrough | src/controllers/stats.ts:220-327 | `has(key)` answers the cached text, otherwise the computed text is stored and answered |
| StatsController.CategoryCount | src/controllers/stats.ts:177-180 | a category never counts more products than there are |
| StatsController.LatestTransactions | src/controllers/stats.ts:187-193 | the first four orders, or all when there are fewer, in order, each with its item count as quantity |
| StatsController.Dashboard | src/controllers/stats.ts:117-206 | one share per category, two six-month charts, at most four transactions, counts of all orders, products and users, and a female count between 0 and the number of users |
| StatsController.DashboardCharts | src/controllers/stats.ts:154-164 | six slots each; the order chart sums to the orders in the window, at most all of them, and the revenue chart to their totals |
| StatsController.GenderSplit | src/controllers/stats.ts:182-185 | men and women add up to all users, and the women are those with gender female |
| StatsController.RevenueOfRecordedTotals | src/controllers/stats.ts:139-147 | the dashboard revenue is the sum of the totals that orders record |
| StatsController.CategorySharesArePercentages | src/controllers/stats.ts:177-265 | with at least one product, every category share on the dashboard and on the pie chart lies in [0, 100] |
| StatsController.GetDashboardStats | src/controllers/stats.ts:12-214 | read-through on `stats`; a miss stores the computed summary, its charts taken from `getChartData` |
| StatsController.Distribution | src/controllers/stats.ts:271-299 | the five parts add up to the gross income, and the marketing cost is a fifth of it, rounded |
| StatsController.Pie | src/controllers/stats.ts:243-316 | one share per category, and an in-stock count between 0 and the number of products |
| StatsController.FulfillmentCoversOrders | src/controllers/stats.ts:243-259 | every order is counted under exactly one status |
| StatsController.StockSplit | src/controllers/stats.ts:247-269 | in-stock and out-of-stock add up to all products, and in-stock means a stock other than 0 |
| StatsController.DistributionSplitsIncome | src/controllers/stats.ts:271-299 | the five parts of the pie chart's revenue distribution add up to the totals the orders record, and discount, production cost and burnt are the recorded discounts, shipping charges and taxes, a missing field adding nothing |
| StatsController.AgeGroupsCoverUsers | src/controllers/stats.ts:301-311 | every user is in exactly one age group |
| StatsController.RolesCoverUsers | src/controllers/stats.ts:251-316 | admins and customers add up to all users |
| StatsController.GetPieChart | src/controllers/stats.ts:216-334 | read-through on `pie-charts`; a miss stores the computed charts |
| StatsController.Bars | src/controllers/stats.ts:359-373 | six slots for users and products, twelve for orders |
| StatsController.BarsLabels | src/controllers/stats.ts:359-373 | the two name swaps cancel, so `users` counts users and `products` counts products over six months; `orders` has twelve slots counting every order |
| StatsController.GetBarCharts | src/controllers/stats.ts:336-382 | read-through on `bar-charts`; a miss stores the bar charts computed by `getChartData` |
| StatsController.Lines | src/controllers/stats.ts:399-425 | four series of twelve slots each |
| StatsController.LinesTotals | src/controllers/stats.ts:399-425 | as written, `users` sums to the number of products and `products` to the number of users; the discount and revenue series sum to the orders' sums |
| StatsController.GetLineCharts | src/controllers/stats.ts:384-434 | read-through on `line-charts`; a miss stores the line charts computed by `getChartData` |

## Left out

- Database access: every `find`, `findById`, `countDocuments`, `distinct`, `save` and `deleteOne` becomes an input or a map update. The date-range filters of the dashboard queries are inputs, not computed from dates.
- src/models/order.model.ts is not part of this model. `Order.create` is modelled as always succeeding, with a new order in `Processing`.
- Only the `age` getter of the user schema is modelled. The other fields are plain data, kept in `UserModel.User`.
- Express routing, the `TryCatch` wrapper and the error middleware are left out. A handler's answer is a `Reply`: a success, an `ErrorHandler` error, or a thrown exception.
- Authentication, payments, coupons, the multipart upload itself and `fs.rm` are left out: they are I/O or foreign libraries.
- `Promise.all` and every await interleaving are left out. Each handler is one sequential step, so concurrent requests racing on the cache are not modelled.
- `JSON.stringify` and `JSON.parse` are left out: a cached value is opaque text, and the dashboards take the serializer as a parameter.
- Floating point is not modelled: quotients are rounded exactly over integers. JavaScript can differ (`Math.floor(29 / 100 * 100)` is 28, while the model gives 29).
- JavaScript `Date` is not modelled: a record is its month number, a date of birth is (year, month, day), and today is an input.
- Commented-out code in the controllers is not modelled.
- Caching.NodeCache.Del: the order in which NodeCache removes the keys is not modelled, only the resulting map.
- DbCharts.GetChartData: requires every record to carry the summed field. The source's `i[property]!` would add `undefined` and give `NaN`.
- StatsController.Dashboard: requires every order of the last six months to carry a total, because its revenue chart is a `GetChartData` call with that obligation.
- StatsController.GetDashboardStats: requires every order of the last six months to carry a total on a cache miss, the same obligation as above.
- StatsController.GetLineCharts: requires every order to carry a discount and a total on a cache miss, for the same reason.
- StatsController.Lines: requires every order to carry a discount and a total, the obligation `GetLineCharts` passes on.
- DbCharts.ShareOf: a category share over zero products, which is `NaN` or `Infinity` in JavaScript, is modelled as no value.
- ProductController.CreatedProduct: numeric form fields are integers. A decimal text such as `19.99`, which the database casts to 19.99, has no `NumericText` and is not represented. A value of `None` stands for a text whose `Number(...)` is `NaN`. The model does not say which texts convert, only what follows when one does not.
- ProductController.Page: the page number is an integer. `?page=2.5`, which the source takes as page 2.5, is not represented.
- Common.ToLower: covers ASCII letters only; other characters are kept.
- Document ids: the model looks documents up by the exact request id, and it stores and invalidates under that same id. The source looks up with the raw `req.params.id` (src/controllers/product.ts:72, src/controllers/order.ts:46). It invalidates with `_id.toString()` (src/controllers/product.ts:151, src/controllers/order.ts:137). `findById` can match an id spelled differently, for example in upper-case hex. That id's `product-<id>` or `singleOrder-<id>` key then survives an update. The exact-key model cannot express this.
- Common.Trim: removes ASCII space, tab, newline and carriage return only, not all Unicode white space.
- ProductController.FilterSemantics: the price bound is an integer, so `?price=99.5` is not represented. The name pattern is kept as text, and its case-insensitive regular-expression match is a parameter. A price bound that is not a number is taken to match no product; the database's cast refusing such a query is not modelled.
