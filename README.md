# E-commerce store backend: cart, checkout, catalog and sales analytics in Dafny

This project models the request handlers of an Express/MongoDB e-commerce store
backend. Each stored collection (a user's `cartItems`, the products, the coupons,
the orders) is a Dafny sequence. The database, cache, image host and payment
gateway calls become operations on those sequences, or parameters that stand for
their answers.

- `common.dfy` (`Common`) holds `Option`, `Result`, JavaScript truthiness of an
  optional request field (`Present`), the day length, and `FindFirst` and `Filter`.
  These are the shapes of `find`/`findOne`/`findById` and of `filter`/`find(query)`.
- `products.dfy` (`Products`) covers `product.controller.js`. The `Catalog` class
  holds the product collection, and its methods toggle `isFeatured`, create and
  delete products. Pure functions cover the image choice, the image host's public
  id and the featured and category queries.
- `cart.dfy` (`Cart`) covers `cart.controller.js`. The `User` class holds
  `cartItems`, which `AddToCart`, `RemoveAllFromCart` and `UpdateQuantity` change
  in place. Each method is proved against a function of the old cart (`Added`,
  `RemovedAll`, `Updated`). Lemmas state what each operation does to the units of
  every product and that one entry per product is preserved.
  `GetCartProducts` is the join with the catalog.
- `payment.dfy` (`Payment`) covers `payment.controller.js`:
  - the integer-cent pricing loop (`PriceLines`, proved against `LineItems` and
    `Subtotal`);
  - the half-up rounded coupon discount;
  - the 20000-cent gift-coupon threshold;
  - the metadata snapshot and the order rebuilt from it;
  - the "paid" gate of `checkoutSuccess`.

  The `Store` class holds the coupon and order collections.
- `analytics.dfy` (`Analytics`) covers `analytic.controller.js`:
  - the overall totals with their empty default;
  - the `getDatesInRange` loop;
  - the `$match`/`$group`/`$sort` pipeline over a sequence of orders;
  - the map that gives every day of the range a record.

Conventions:
- Money is integer cents.
- Timestamps are integer milliseconds. A day is 86 400 000 ms.
- The "YYYY-MM-DD" key of an instant is its UTC day number, `t / DayMs`.
- `Math.round(x * p / 100)` on non-negative amounts is `(x * p + 50) / 100`.

Where the code has a defect, the model keeps an as-written member that shows what
the code does. It also keeps a corrected member that the rest of the model uses
(see "## Findings").

## Model

| member | source | states |
|---|---|---|
| Common.FindFirst | backend/controllers/cart.controller.js:25 | The index picked is the first element that matches. None means no element matches. |
| Common.Filter | backend/controllers/cart.controller.js:47 | The result holds exactly the elements of the input that pass the test, and is no longer than the input. |
| Common.FilterConcat | backend/controllers/cart.controller.js:47 | Filtering a concatenation is the concatenation of the filtered parts, so kept elements keep their relative order. |
| Common.FilterKeepsAll | backend/controllers/cart.controller.js:47 | A filter that rejects nothing returns its input unchanged. |
| Common.FilterCounts | backend/controllers/product.controller.js:14 | A filter keeps every copy of each element it accepts. |
| Products.FindById | backend/controllers/product.controller.js:118 | `findById` answers with the first product carrying the id. None means no product has it. |
| Products.Toggled | backend/controllers/product.controller.js:118-121 | Same length. Each product differs from the original at most in `isFeatured`, and that flag changes exactly at the product found by id. |
| Products.ToggleTwice | backend/controllers/product.controller.js:118-121 | Toggling the same id twice restores the catalog. |
| Products.Catalog.ToggleFeaturedProduct | backend/controllers/product.controller.js:116-131 | The new catalog is `Toggled` of the old one. The answer is NotFound exactly when the id is missing. Otherwise it is the found product with `isFeatured` negated. |
| Products.Removed | backend/controllers/product.controller.js:73 | A missing id leaves the catalog unchanged. Otherwise exactly the found product is removed: the length drops by one and the multiset drops by that product. |
| Products.DeleteLeavesNoTrace | backend/controllers/product.controller.js:73 | With unique ids, no product with the id remains after deletion, and ids stay unique. |
| Products.DeleteKeepsOthersInOrder | backend/controllers/product.controller.js:73 | With unique ids, deletion equals filtering out that id: every other product stays, in store order. |
| Products.ChooseImage | backend/controllers/product.controller.js:38-46 | The stored image is non-empty exactly when an image was sent and the upload answered with a non-empty `secure_url`. It is then that URL, and otherwise "". |
| Products.Catalog.CreateProduct | backend/controllers/product.controller.js:32-55 | Exactly one product is appended, with the given fields, the chosen image and `isFeatured` false. |
| Products.CreateProductAsWritten | backend/controllers/product.controller.js:38-39 | As written, a request with an image fails and stores nothing. Without an image, a product with image "" is appended. |
| Products.LastSegment | backend/controllers/product.controller.js:65 | `split("/").pop()` is a suffix of the URL with no '/', and is either the whole URL or preceded by '/'. |
| Products.BeforeFirstDot | backend/controllers/product.controller.js:65 | `split(".")[0]` is a prefix with no '.', and is either the whole string or followed by '.'. |
| Products.PublicId | backend/controllers/product.controller.js:65 | The public id contains neither '/' nor '.', and is a prefix of the last segment. |
| Products.PublicIdOfPlainSegment | backend/controllers/product.controller.js:65 | A last segment without '.' is the whole public id. |
| Products.DestroyTarget | backend/controllers/product.controller.js:67 | The destroy target is "products/" followed by the public id. |
| Products.Featured | backend/controllers/product.controller.js:14 | Exactly the featured products, with every copy kept. |
| Products.GetFeaturedProducts | backend/controllers/product.controller.js:14-19 | The answer is exactly the featured products, even when there are none (the five-product fallback is overwritten). It equals `Featured`, so store order and every copy are kept. |
| Products.GetFeaturedProductsAsWritten | backend/controllers/product.controller.js:25 | As written, every call ends in the error handler. |
| Products.InCategory | backend/controllers/product.controller.js:105-109 | Exactly the products of the requested category, with every copy kept. |
| Products.DeleteProductAsWritten | backend/controllers/product.controller.js:57-79 | As written, no deletion succeeds and the catalog is unchanged. A found product makes the handler fail at `product.findByIdAndDelete`. |
| Products.Catalog.DeleteProduct | backend/controllers/product.controller.js:57-79 | The new catalog is `Removed` of the old one. The answer is NotFound exactly when the id is missing. Otherwise it names `DestroyTarget(image)` when the product had an image, and nothing when it did not. |
| Cart.Lookup | backend/controllers/cart.controller.js:25 | The entry `cartItems.find` picks is the first with the product id. None means the product is not in the cart. |
| Cart.Added | backend/controllers/cart.controller.js:25-30 | For a product in the cart, only its first entry changes, by one unit. Otherwise one entry of quantity 1 is appended after the unchanged entries. |
| Cart.AddCountsOneUnit | backend/controllers/cart.controller.js:25-30 | Adding raises the product's units by exactly one and leaves every other product's units unchanged. |
| Cart.AddKeepsUnique | backend/controllers/cart.controller.js:25-30 | Adding keeps one entry per product. |
| Cart.Without | backend/controllers/cart.controller.js:47 | No entry of the product remains, and every other entry is kept. |
| Cart.UnitsOfWithout | backend/controllers/cart.controller.js:47 | After removal the product has no units, and every other product keeps its units. |
| Cart.WithoutKeepsUnique | backend/controllers/cart.controller.js:47 | Removal keeps one entry per product. |
| Cart.RemoveKeepsOrder | backend/controllers/cart.controller.js:47 | Removal distributes over concatenation, so the remaining entries keep their order. |
| Cart.RemovedAll | backend/controllers/cart.controller.js:44-48 | With no product id (missing or "") the cart is empty. Otherwise no entry of that product remains and the cart does not grow. |
| Cart.RemoveAllCounts | backend/controllers/cart.controller.js:44-48 | With no id, nothing has units. With an id, that product has no units and every other product keeps its units. |
| Cart.Updated | backend/controllers/cart.controller.js:61-74 | A product not in the cart changes nothing. Quantity 0 drops all of its entries and keeps all others. Any other quantity sets the first entry's quantity to that value and leaves length and other entries unchanged. |
| Cart.UpdateSetsUnits | backend/controllers/cart.controller.js:61-69 | With one entry per product, the product's units become exactly the requested quantity, and other products keep their units. |
| Cart.UpdateKeepsUnique | backend/controllers/cart.controller.js:61-69 | Setting a quantity keeps one entry per product. |
| Cart.OperationsKeepUnique | backend/controllers/cart.controller.js:25-69 | Add, remove-all and update all preserve one entry per product. |
| Cart.GetCartProducts | backend/controllers/cart.controller.js:5-10 | Every displayed product is in the catalog and in the cart, and carries the quantity of its first cart entry. |
| Cart.CartProductsComplete | backend/controllers/cart.controller.js:5-10 | Every catalog product with a cart entry is displayed with that entry's quantity. |
| Cart.CartProductsShowUnits | backend/controllers/cart.controller.js:7-9 | With one entry per product, each displayed quantity is all the product's units in the cart. |
| Cart.AddToCartAsWritten | backend/controllers/cart.controller.js:25-29 | As written, when no stored item record has the product id, exactly one bare id is pushed at the end. Otherwise only the first such record gains one unit and every other entry is unchanged. |
| Cart.AddTwiceAsWritten | backend/controllers/cart.controller.js:29 | Adding a product twice to an empty cart stores two bare ids as written, but one entry of quantity 2 when corrected. |
| Cart.User.AddToCart | backend/controllers/cart.controller.js:19-38 | The cart becomes `Added` of the old cart. The product gains exactly one unit, and one entry per product is preserved. |
| Cart.User.RemoveAllFromCart | backend/controllers/cart.controller.js:40-54 | The cart becomes `RemovedAll` of the old cart, and one entry per product is preserved. |
| Cart.User.UpdateQuantity | backend/controllers/cart.controller.js:56-74 | The cart becomes `Updated` of the old cart. The outcome says which branch ran (not in cart, removed, updated), and one entry per product is preserved. |
| Payment.LineItems | backend/controllers/payment.controller.js:15-29 | One line item per product, in order. Each is in "usd", with the product's name, its image as the only image, and its unit price in cents. |
| Payment.SubtotalConcat | backend/controllers/payment.controller.js:17 | The accumulated total is additive over concatenated carts. |
| Payment.SubtotalNonNegative | backend/controllers/payment.controller.js:17 | A cart of non-negative prices and quantities has a non-negative total. |
| Payment.PriceLines | backend/controllers/payment.controller.js:13-29 | The pricing loop returns exactly `LineItems` of the cart, and the sum of unit price times quantity. |
| Payment.Discount | backend/controllers/payment.controller.js:35 | The discount is the percentage of the total rounded half up: `100*r <= total*p + 50 < 100*r + 100`. For a non-negative total and p in [0, 100] it lies in [0, total]. |
| Payment.DiscountBounds | backend/controllers/payment.controller.js:34-36 | For a percentage in [0, 100], the discount lies between 0 and the total. |
| Payment.DiscountRoundsHalfUp | backend/controllers/payment.controller.js:35 | 10% of 1000 cents is 100, and 10% of 1005 cents is 101. |
| Payment.FindActiveCoupon | backend/controllers/payment.controller.js:33 | A found coupon is stored, active, with the code and the user. None means no such coupon exists. |
| Payment.LookupCoupon | backend/controllers/payment.controller.js:31-37 | No code (missing or "") means no coupon. A found coupon is an active one of the user with that code. None with a code means there is no such coupon. |
| Payment.LookupCouponAsWritten | backend/controllers/payment.controller.js:31-33 | As written, the handler fails exactly when a code is given. |
| Payment.CheckoutTotal | backend/controllers/payment.controller.js:34-36 | Without a coupon the charged total is the subtotal. With a coupon of percentage p, the amount taken off is the subtotal times p / 100 rounded half up: `100*(s - r) <= s*p + 50 < 100*(s - r) + 100`. For p in [0, 100] on a non-negative subtotal the total lies in [0, subtotal]. |
| Payment.CheckoutTotalExample | backend/controllers/payment.controller.js:35 | A 1005-cent cart with a 10% coupon is charged 904 cents. |
| Payment.CheckoutTotalBounds | backend/controllers/payment.controller.js:31-36 | The charged total lies in [0, subtotal], and equals the subtotal when no coupon is found. |
| Payment.GiftCoupon | backend/controllers/payment.controller.js:124-130 | The code starts with "GIFT", the discount is 10%, the expiry is exactly 30 days after creation, and the coupon is the user's and active. |
| Payment.GiftCouponRedeemable | backend/controllers/payment.controller.js:65-67 | A stored gift coupon is found by a later lookup with its code. It is the coupon found when no older coupon of the user has that code. |
| Payment.CreateNewCouponAsWritten | backend/controllers/payment.controller.js:124-133 | As written, the coupon is built (for the user, 10%) but the collection is unchanged. |
| Payment.Deactivated | backend/controllers/payment.controller.js:82-87 | With no coupon of that code and owner, nothing changes. Otherwise the first such coupon, active or not, becomes inactive with no other field changed, and every other coupon is unchanged. |
| Payment.RedemptionIsFinal | backend/controllers/payment.controller.js:82-87 | With codes unique per user, a redeemed coupon is never found again, and every other (code, user) lookup is unaffected. |
| Payment.DeactivationIdempotent | backend/controllers/payment.controller.js:82-87 | Redeeming twice is the same as redeeming once. |
| Payment.SnapshotOf | backend/controllers/payment.controller.js:55-61 | One snapshot line per product, in cart order. Each line holds that product's id, quantity and unit price. |
| Payment.MetadataOf | backend/controllers/payment.controller.js:52-62 | The metadata carries the user's id and the product snapshot (`SnapshotOf`). Its coupon code is non-empty exactly when a code was given, and is then that code. |
| Payment.OrderLines | backend/controllers/payment.controller.js:92-96 | One order line per snapshot line, in order. Each copies its snapshot line's id, quantity and price. |
| Payment.SnapshotRoundTrip | backend/controllers/payment.controller.js:55-96 | The order lines rebuilt from the snapshot are the products' (id, quantity, price), element for element, in order. It follows from the two halves, `SnapshotOf` and `OrderLines`. |
| Payment.CheckoutOutcome | backend/controllers/payment.controller.js:5-73 | An empty cart is rejected. A gateway failure is a server error. Success carries the gateway's session id, exactly `LineItems` of the cart, exactly `MetadataOf` the user, code and cart, the charged total `CheckoutTotal(cart, LookupCoupon(...))`, and a gateway discount exactly when a coupon was found. |
| Payment.CreateCheckoutSessionAsWritten | backend/controllers/payment.controller.js:13-17 | As written, every non-empty cart fails on the undeclared `totalAmount`. |
| Payment.OrderFrom | backend/controllers/payment.controller.js:90-99 | The recorded order belongs to the metadata's user, carries the session id as payment intent, the paid amount and the creation time. Its lines are `OrderLines` of the retrieved snapshot, so they copy that snapshot element for element. |
| Payment.CheckoutThenOrder | backend/controllers/payment.controller.js:52-98 | A successful checkout that is paid yields an order for the same user and session, whose lines are the checked-out products in order. The stored code is non-empty exactly when a code was given, and the confirmation then targets the code and owner of the coupon applied at checkout. |
| Payment.CheckoutSuccessAsWritten | backend/controllers/payment.controller.js:80-99 | As written, a paid session with a coupon code fails and records no order. Without a code the order is recorded. No coupon is ever changed. |
| Payment.Store.CreateCheckoutSession | backend/controllers/payment.controller.js:5-73 | The answer is `CheckoutOutcome` and orders are unchanged. Exactly one coupon, the gift coupon, is stored exactly when the checkout succeeds with a charged total of at least 20000 cents. |
| Payment.Store.CheckoutSuccess | backend/controllers/payment.controller.js:75-113 | An unpaid session changes nothing. A paid session appends the order built from its metadata (user, lines, amount, session id), and deactivates the named coupon exactly when the metadata code is non-empty. |
| Analytics.DayKey | backend/controllers/analytic.controller.js:74 | The day key of an instant is the number of the day that contains it: `key * DayMs <= t < key * DayMs + DayMs`. Its shift and monotonicity are `DayKeyShift` and `DayKeyMonotonic`. |
| Analytics.DayKeyShift | backend/controllers/analytic.controller.js:74-75 | Moving an instant by n days moves its day key by n. |
| Analytics.DayKeyMonotonic | backend/controllers/analytic.controller.js:42 | Later instants never have an earlier day key. |
| Analytics.OverallGroups | backend/controllers/analytic.controller.js:9-17 | The `_id: null` group is absent exactly when there are no orders. |
| Analytics.GetAnalytics | backend/controllers/analytic.controller.js:5-27 | Users and products are passed through. With no orders, sales and revenue are 0. Always, sales is the number of orders and revenue is their summed total. |
| Analytics.AnalyticsAsWritten | backend/controllers/analytic.controller.js:9 | As written, the analytics handlers fail because `Order` is never imported. |
| Analytics.GetDatesInRange | backend/controllers/analytic.controller.js:69-79 | The list is empty when start > end. Its length is the number of one-day steps from start that do not pass end. Each generated instant is ≤ end. Element i is the day key of start + i days, which is start's day + i, so the list is strictly increasing. |
| Analytics.StepsToEnd | backend/controllers/analytic.controller.js:73-75 | When n one-day steps from start stay within end and n + 1 steps do not, the range has exactly n days. |
| Analytics.Matched | backend/controllers/analytic.controller.js:33-38 | Exactly the orders created within [start, end], both ends included. |
| Analytics.OnDay | backend/controllers/analytic.controller.js:42 | Exactly the orders whose day key is the given day. |
| Analytics.GroupOf | backend/controllers/analytic.controller.js:41-45 | A day's group is keyed by that day. |
| Analytics.GroupsFrom | backend/controllers/analytic.controller.js:40-49 | The groups lie within the day span, in strictly ascending key order. |
| Analytics.GroupsFromMembers | backend/controllers/analytic.controller.js:40-49 | The groups are exactly the days of the span that have orders, each with its own count and revenue. |
| Analytics.MatchedDaysInSpan | backend/controllers/analytic.controller.js:33-42 | Every day with an order in range lies between start's day and end's day. |
| Analytics.DailyGroups | backend/controllers/analytic.controller.js:31-50 | The pipeline's groups are sorted ascending by key. A group exists exactly for each day with an order in range, and carries that day's count and revenue. |
| Analytics.FindGroup | backend/controllers/analytic.controller.js:56 | The group found has the date as key. None means no group has that key. |
| Analytics.DailyRecord | backend/controllers/analytic.controller.js:56-62 | The record of a date carries that date. With a group of that key it carries the group's `totalSales` and `totalRevenue`, and otherwise zeros. |
| Analytics.FillDays | backend/controllers/analytic.controller.js:55-63 | One record per date, in the same order. A date with a group gets that group's sales and revenue, and a date without one gets zeros. |
| Analytics.FillDaysAsWritten | backend/controllers/analytic.controller.js:55-63 | As written, every record has sales 0 and carries the group's revenue (or 0). |
| Analytics.DailyRecordExact | backend/controllers/analytic.controller.js:31-61 | A day's record is the number and revenue of that day's orders in range, and zeros when it has none. |
| Analytics.SalesLostAsWritten | backend/controllers/analytic.controller.js:60 | An order in range counts as 1 sale in the corrected record, but 0 as written. |
| Analytics.GetDailySalesData | backend/controllers/analytic.controller.js:29-67 | One record per day of the range, in order, starting at start's day. Each carries the number and revenue of that day's orders in range. |

## Left out

- Database, cache, image-host and payment-gateway calls (`find`, `aggregate`, `save`, `create`, `countDocuments`, Redis `set`, Cloudinary `upload`/`destroy`, Stripe `sessions.create`/`retrieve`, `coupons.create`) are foreign calls. Collections are sequences. A call's answer is a parameter (`secureUrl`, `gatewaySession`, the retrieved session, the user and product counts). A call's effect is the sequence update.
- Failing foreign calls are not modelled, except the gateway's session creation (`gatewaySession` None). In the source, a failing Cloudinary `upload` (product.controller.js:39), `user.save` (cart.controller.js:32, 49, 65, 70), `Product.create` (product.controller.js:42), `product.save` (product.controller.js:121), `Coupon.findOne` (payment.controller.js:33) or `Order.create` (payment.controller.js:90) ends the handler in its 500 branch. For example, `Catalog.CreateProduct` cannot express a failed upload, after which the source stores nothing. The model's methods always complete their update.
- HTTP shaping is not modelled: status codes, response bodies and the logging. The second save and response after the branches of `updateQuantity` (cart.controller.js:75-76) are left out too; `UpdateQuantity` reports which branch ran instead.
- Prices are taken as integer cents. Float conversions are left out: `Math.round(price * 100)` at payment.controller.js:16, and `/ 100` at payment.controller.js:68 and 97.
- `JSON.stringify`/`JSON.parse` of the snapshot are not modelled. The snapshot is kept as a sequence of records, and the model proves the projection and its inverse.
- Randomness is a parameter: the gift code suffix (`giftSuffix`). `getRecommendedProducts` (`$sample`) is random and only projects fields, so it is not modelled.
- `getAllProducts` returns the whole collection, so there is nothing to state about it.
- Dates are modelled as UTC instants with a fixed day length. JavaScript `Date` and timezone details (`setDate` across daylight-saving changes, `toISOString`) are left out. A day key is shown as its day number, not as "YYYY-MM-DD" text.
- The range filter and the day list take the range ends as instants. The route that builds them is not part of this model (backend/routes/analytic.route.js, which also reads `endDate` before declaring it). The same goes for backend/server.js and the frontend stores.
- `!Array.isArray(products)` is covered by the type: `products` is always a sequence.
- The coupon query filters on `usedId` (payment.controller.js:33 and 84), a field the gift coupon never sets; it sets `userId` (line 129). The model matches on the coupon's owner, as evidently intended.
- The coupon's `expirationDate` is not checked when a coupon is looked up, and the model follows the code in this.
- A new coupon is assumed to be active, and a new product not featured. The schemas that set these defaults are not part of this model.
- The gateway line items carry no quantity (payment.controller.js:19-28), so the gateway's own charge is not modelled. The model states the handler's `totalAmount`.
- `getCartProducts` queries `_id: { $in: req.user.cartItems }` with the cart entries. The model takes the intended meaning: the products whose ids have a cart entry.
- No idempotency or concurrency guard for `checkoutSuccess` is modelled, because the code has none. Confirming one session twice records two orders.
- Cart.GetCartProducts: the displayed entries are not shown to be distinct when the catalog holds duplicate product records. Their order is store order by construction, which the contract does not state.

## Findings

| source | as written | input that shows it | evidently intended | confidence | as-written member | corrected member |
|---|---|---|---|---|---|---|
| backend/controllers/payment.controller.js:13-17 | the accumulator is declared as `totalPrice` but `totalAmount` is added to | any non-empty cart: ReferenceError before any session is created | accumulate `totalAmount` from 0 | high, not executed | Payment.CreateCheckoutSessionAsWritten | Payment.Store.CreateCheckoutSession |
| backend/controllers/payment.controller.js:31-33 | `findOne` is called on the local `coupon`, which is still `null` | a request with a non-empty cart and a non-empty `couponCode`, once the line-17 defect is fixed (as written, that defect masks this one) | `Coupon.findOne` on the coupon model | high, not executed | Payment.LookupCouponAsWritten | Payment.LookupCoupon |
| backend/controllers/payment.controller.js:80-82 | `coupon.findOneAndUpdate` names an undeclared `coupon` | a paid session whose metadata `couponCode` is "SAVE10": no order is recorded | `Coupon.findOneAndUpdate`, then record the order | high, not executed | Payment.CheckoutSuccessAsWritten | Payment.Store.CheckoutSuccess |
| backend/controllers/payment.controller.js:124-133 | the gift coupon document is built but never saved | a checkout totalling 20000 cents, once the line-17 defect is fixed (as written, that defect masks this one): the coupon collection is unchanged | save the coupon for the user | high, not executed | Payment.CreateNewCouponAsWritten | Payment.GiftCoupon |
| backend/controllers/cart.controller.js:28-29 | a new product is pushed as its bare id, with no `productId` or `quantity` | adding product "p" twice to an empty cart stores two bare ids | push `{ productId, quantity: 1 }` | high, not executed | Cart.AddTwiceAsWritten | Cart.User.AddToCart |
| backend/controllers/product.controller.js:25 | the cache is written through `redit`, an undeclared identifier | any request, even with no featured products | `redis.set` | high, not executed | Products.GetFeaturedProductsAsWritten | Products.GetFeaturedProducts |
| backend/controllers/product.controller.js:73 | `findByIdAndDelete` is called on the product document | deleting any existing product: the handler fails and the product stays | `Product.findByIdAndDelete(id)` | high, not executed | Products.DeleteProductAsWritten | Products.Catalog.DeleteProduct |
| backend/controllers/product.controller.js:38-39 | `cloudinary` is never imported. The upload at line 39 throws into the 500 branch. The destroy at line 67 throws too, but its inner catch (lines 69-71) swallows the error, so no image is ever destroyed and the handler goes on to line 73 | creating a product with a non-empty `image`. For line 67: deleting a product with an image, which destroys nothing | import the image-host client | high, not executed | Products.CreateProductAsWritten | Products.Catalog.CreateProduct |
| backend/controllers/analytic.controller.js:9 | `Order` is never imported (lines 9 and 31) | any call of `getAnalytics` or `getDailySalesData` | import the order model | high, not executed | Analytics.AnalyticsAsWritten | Analytics.GetAnalytics |
| backend/controllers/analytic.controller.js:60 | the record reads `foundData?.sales`, but the groups carry `totalSales` | one order created at instant 0, range [0, 0], once `Order` is imported (as written, the missing import masks this defect): sales 0 instead of 1 | `foundData?.totalSales` | high, not executed | Analytics.SalesLostAsWritten | Analytics.GetDailySalesData |
