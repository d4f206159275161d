# vm_ecommerce_backend: a model of the request handlers' business rules

This project models the business-rule layer of an e-commerce backend.
The backend sells products with translations, audio content and subscription plans, and takes payments through Webpay.
Each request handler is an operation on an in-memory store: the class `Store.Db` has one map field per table.
The tables are users, profiles, addresses, products, translations, carts, cart items, orders, invoices, subscriptions, audio content, access keys, reviews and wishlist entries.
A handler either succeeds or fails with an HTTP status and an error code such as `EMPTY_CART`.
A handler that writes is a `method` whose `modifies` clause names exactly the tables it may change.
Its `ensures` clauses list every error case in the order the code checks them, and state the new store for every case.
The pure rules live in functions with lemmas about them. These cover the plan table and the proration, the shipping rule, the `ORD-`/`INV-` numbering, the audio access predicates, the stock labels, the RUT check digit, the Bearer header parser, the CORS predicate and the upload filter.

Modules follow the source files:

- `Common`: options, responses, string helpers, zero padding, `split`/`join`, sorting, sums and pagination.
- `Store`: the row types and the `Db` class.
- `Webpay`: the commit response of the payment gateway and its approval predicate.
- `Subscriptions`, `Orders`, `ShoppingCart`, `Payments`, `Invoices`, `Audio`, `Inventory`, `Profiles`, `Reviews`, `Wishlist`, `Users`, `Products`, `Auth`: the controllers.
- `Validation`, `Jwt`, `AuthMiddleware`: the utilities and the authentication middleware.
- `App`: the CORS callback and the error responses of `src/index.js`.
- `Upload`: the product-image upload route.

Some inputs come from outside the handler, and each is a parameter:

- the current time;
- new row ids;
- the gateway's create and commit responses;
- the password hash and the password comparison;
- token verification;
- the email check;
- the random parts of access-key codes;
- the unique prefix of an uploaded file's name;
- whether the invoice PDF was written or exists;
- the environment (production or not, the configured CORS origin).

Behaviours of the source that the proofs bring out:

- A paused subscription can be resumed to ACTIVE without ever having been paid (`Subscriptions.PauseResumeActivatesUnpaid`).
- `updateSubscription` switches the plan and the renewal date with no payment (`Subscriptions.UpdateSwitchesPlanWithoutPayment`).
- A subscription id containing '|' makes the upgrade callback read the wrong plan (`Subscriptions.SessionPlanMisreadsSeparatorInId`).
- A renewal whose new date is still in the past expires in the same sweep (`Subscriptions.StaleRenewalExpiresInSameSweep`).
- An order total is not monotone in the subtotal: 49 + 5 > 50 + 0 (`Orders.TotalNotMonotone`).
- The library and the stream disagree on plan tags other than the three plans (`Audio.QuarterlyDisagreesOnOtherTags`).
- A negative low-stock threshold makes a product with no stock count both as out of stock and as in stock (`Inventory.NegativeThresholdCountsTwice`).
- The two customer views divide total spend by different order counts (`Users.AveragesDisagreeWithUnpaidOrders`).
- The upload filter compares the mimetype case-sensitively, and its match is unanchored (`Upload.UpperCaseMimetypeRejected`, `Upload.UnanchoredExtension`).

## Model

| member | source | states |
|---|---|---|
| Common.AddMonths | src/controllers/subscriptionController.js:384-395 | adding 0 months is the identity; adding a positive number of months moves the date strictly later, a negative number strictly earlier |
| Common.AddMonthsMonotone | src/controllers/subscriptionController.js:1297-1306 | a longer period never ends earlier |
| Common.PaddedNumberRoundTrip | src/controllers/orderController.js:136 | a zero-padded decimal number is all digits and reads back as the number, whatever the width |
| Common.PaddedNumberInjective | src/controllers/invoiceController.js:97 | two different counts never give the same padded string |
| Common.SplitJoin | src/utils/validation.js:74-77 | joining parts that contain no separator and splitting again gives back the parts |
| Common.JoinSplit | src/utils/jwt.js:89 | splitting a string and joining the parts with the same separator gives back the string |
| Common.SplitAtFirst | src/controllers/subscriptionController.js:1203 | splitting `a + sep + b` with no separator in `a` gives `a` as the first part and the parts of `b` after it |
| Common.Split | src/controllers/subscriptionController.js:1203 | `split` gives at least one part, and no part contains the separator |
| Common.ParseNatToString | src/controllers/orderController.js:136 | `String(n)` is a decimal numeral that reads back as n |
| Common.Filter | src/controllers/userController.js:135-144 | `filter` keeps exactly the elements that pass, in at most as many places, taken from the input |
| Common.SortBy | src/controllers/userController.js:347 | the result is a permutation of the input and is ordered by the comparator |
| Common.EnumerateSorted | src/controllers/inventoryController.js:136-153 | a query ordered by a key lists every row exactly once, in ascending key order |
| Common.EnumerateOrdered | src/controllers/profileController.js:128-131 | a query with an ORDER BY lists every row exactly once, ordered by the comparator |
| Common.SumByPermutation | src/controllers/cartController.js:73-74 | a sum over rows does not depend on the order in which the rows are listed |
| Common.PaginateHasMore | src/controllers/productController.js:82-94 | for a positive limit, hasMore holds exactly when some row lies beyond the requested page, and totalPages pages of `limit` rows cover the total while one page fewer does not; a limit of 0 makes totalPages Infinity, so every page reports more whenever a row matches; a negative limit gives totalPages ≤ 0 and flips the comparison |
| Common.PositiveLimitPages | src/controllers/productController.js:82-94 | for a positive limit, `Math.ceil(total / limit)` pages cover the rows, one fewer does not, and the page is below that count exactly when rows remain beyond it |
| Common.NegativeLimitPages | src/controllers/productController.js:82-94 | for a negative limit, the page is below `Math.ceil(total / limit)` exactly when page × limit exceeds the total |
| Store.OwnedAddress | src/controllers/orderController.js:29-62 | an address is found for a user exactly when it belongs to that user's profile |
| Webpay.TransactionId | src/controllers/paymentController.js:179 | the transaction id is the gateway's transaction date, or null when it has none |
| Webpay.ReturnToken | src/controllers/paymentController.js:122-123 | the callback token is the body's token, else the query's; it is empty only when both are |
| Webpay.Prefix | src/controllers/subscriptionController.js:280 | `substring(0, n)` is a prefix of at most n characters, and the whole string when it is short enough |
| Subscriptions.ParsePlan | src/controllers/subscriptionController.js:8-12 | exactly the names MONTHLY, QUARTERLY and ANNUAL are plans, and each parses to the plan of that name |
| Subscriptions.PlanOrdersAgree | src/controllers/subscriptionController.js:972-975 | the plan hierarchy, the price table and the period length order the plans the same way, and the rank identifies the plan |
| Subscriptions.Activated | src/controllers/subscriptionController.js:381-410 | an approved payment makes the subscription ACTIVE and PAID, starts it now and sets expiry = next renewal = now + the plan's period, keeping plan, amount and owner |
| Subscriptions.PauseResumeActivatesUnpaid | src/controllers/subscriptionController.js:686-692 | pausing and then resuming a freshly created, unpaid subscription leaves it ACTIVE with payment PENDING and no expiry date |
| Subscriptions.CancelPendingOf | src/controllers/subscriptionController.js:184-193 | afterwards the user has no subscription with payment PENDING; only the user's pending rows change, and only in status and payment status |
| Subscriptions.CreateSubscription | src/controllers/subscriptionController.js:149-232 | INVALID_PLAN, then SUBSCRIPTION_EXISTS for a user with an ACTIVE subscription, neither writing; otherwise the user's pending rows are cancelled and one new row is added at the plan's price; afterwards the new row is the user's only pending one |
| Subscriptions.AmountDue | src/controllers/subscriptionController.js:277 | the amount charged is the stored amount, or the plan's price (positive) when the stored amount is zero |
| Subscriptions.InitSubscriptionPayment | src/controllers/subscriptionController.js:233-334 | MISSING_SUBSCRIPTION_ID, SUBSCRIPTION_NOT_FOUND for a row the user does not own, INVALID_PAYMENT_STATUS unless PENDING, a 500 when the gateway fails; otherwise only the token is stored and the buy order is `SUB-` and the first 20 characters of the id |
| Subscriptions.HandleSubscriptionReturn | src/controllers/subscriptionController.js:335-446 | a missing token, a failed commit or an unknown token redirects with an error and writes nothing; approval activates the row holding the token; rejection changes only its payment status (FAILED) and transaction id |
| Subscriptions.Updated | src/controllers/subscriptionController.js:544-575 | autoRenew changes only when supplied; a valid new plan replaces the plan and resets the next renewal to now + its period; nothing else changes |
| Subscriptions.UpdateSwitchesPlanWithoutPayment | src/controllers/subscriptionController.js:553-572 | a MONTHLY subscription moved to ANNUAL keeps its payment status and amount: no payment is asked |
| Subscriptions.UpdateSubscription | src/controllers/subscriptionController.js:511-597 | 404 for an unknown id, then 403 for another user's row, neither writing; otherwise the row is replaced by its update |
| Subscriptions.CancelSubscription | src/controllers/subscriptionController.js:598-656 | 404, then 403; otherwise the row becomes CANCELLED with autoRenew off, from any status |
| Subscriptions.PauseSubscription | src/controllers/subscriptionController.js:657-712 | 404, then 403; otherwise the row becomes PAUSED with autoRenew off, from any status |
| Subscriptions.ResumeSubscription | src/controllers/subscriptionController.js:713-778 | 404, then 403, then INVALID_STATUS unless PAUSED; otherwise ACTIVE with autoRenew on |
| Subscriptions.RoundDiv | src/controllers/subscriptionController.js:997 | `Math.round(n / d)` over the rationals: the nearest integer, with halves rounded up |
| Subscriptions.RoundDivBounds | src/controllers/subscriptionController.js:993-997 | the credit for an unused part of the period lies between 0 and the current price |
| Subscriptions.UpgradeChargeBounds | src/controllers/subscriptionController.js:985-1001 | when the period has started and has positive length, the upgrade charge is defined and lies between newPrice − currentPrice and newPrice |
| Subscriptions.UpgradeChargeUndefinedOnEmptyPeriod | src/controllers/subscriptionController.js:993-997 | a period of length zero that has ended gives no defined charge (0/0) |
| Subscriptions.UpgradeChargeHalfway | src/controllers/subscriptionController.js:985-1001 | MONTHLY to ANNUAL halfway through a two-month period costs 89990 − 4995 = 84995 |
| Subscriptions.Quote | src/controllers/subscriptionController.js:972-1006 | an upgrade is exactly a move to a higher rank and takes effect at once; a downgrade costs 0 and needs no payment; payment is required exactly for an upgrade with a positive charge |
| Subscriptions.AfterQuote | src/controllers/subscriptionController.js:1009-1017 | an upgrade keeps the plan and sets payment PENDING; a downgrade switches the plan and sets PAID; nothing else changes |
| Subscriptions.UpgradeSubscription | src/controllers/subscriptionController.js:906-1052 | INVALID_PLAN, 404, 403, INVALID_STATUS unless ACTIVE, SAME_PLAN, none of them writing; otherwise the quote is returned and the row updated as the quote says |
| Subscriptions.SessionPlanRoundTrip | src/controllers/subscriptionController.js:1089 | the plan encoded in `subscriptionId|newPlanId` is decoded back when neither part contains '|' (with lines 1203-1204 of the same file) |
| Subscriptions.SessionPlanMisreadsSeparatorInId | src/controllers/subscriptionController.js:1089 | when the subscription id contains '|', the callback reads the text after it as the plan (with lines 1203-1204 of the same file) |
| Subscriptions.SessionPlanDefault | src/controllers/subscriptionController.js:1204 | a missing session id, or one without '|', decodes to ANNUAL |
| Subscriptions.InitUpgradePayment | src/controllers/subscriptionController.js:1053-1153 | MISSING_PARAMS, then 404 for a row the user does not own, then a 500 when the gateway fails; otherwise only the token is stored, with buy order `UPG-` plus the id prefix and the session id `subscriptionId|newPlanId` |
| Subscriptions.Upgraded | src/controllers/subscriptionController.js:1206-1234 | an approved upgrade sets the new plan at its price, ACTIVE and PAID, and a fresh period from now |
| Subscriptions.HandleUpgradeReturn | src/controllers/subscriptionController.js:1154-1273 | missing token, failed commit or unknown token: error redirect, no write; an approved commit whose session names no plan writes nothing; approval applies the upgrade; rejection sets PAID and clears the token, keeping the plan |
| Subscriptions.Renewed | src/controllers/subscriptionController.js:1296-1320 | a renewed row's expiry and next renewal both move one period past the old next renewal; nothing else but the last payment date changes |
| Subscriptions.AfterRenewals | src/controllers/subscriptionController.js:1279-1337 | the renewal loop keeps the set of subscriptions; a due row whose renewal succeeds is renewed (expiry moved one period past the old next renewal, last payment now), a due row whose renewal fails becomes EXPIRED with autoRenew off and nothing else changed, and a row that is not due is untouched |
| Subscriptions.ExpireLapsed | src/controllers/subscriptionController.js:1339-1350 | after the bulk expiry no row is ACTIVE with an expiry in the past; lapsed rows become EXPIRED with autoRenew off and all others are unchanged |
| Subscriptions.ProcessSubscriptionRenewals | src/controllers/subscriptionController.js:1274-1356 | the sweep's result is the renewal loop followed by the bulk expiry; no row is added or removed, and no ACTIVE row is left lapsed |
| Subscriptions.StaleRenewalExpiresInSameSweep | src/controllers/subscriptionController.js:1279-1350 | a row whose renewal date is more than one period overdue is renewed and then expired in the same sweep |
| Orders.ShippingCost | src/controllers/orderController.js:131 | shipping is free exactly from a subtotal of 50, and 5 below it |
| Orders.TotalBounds | src/controllers/orderController.js:131-132 | the total lies between the subtotal and the subtotal + 5, and equals the subtotal from 50 on |
| Orders.TotalNotMonotone | src/controllers/orderController.js:131-132 | a subtotal of 49 costs more in total than a subtotal of 50 |
| Orders.OrderNumberReadsBack | src/controllers/orderController.js:135-136 | the order id is `ORD-` followed by at least three digits that read back as count + 1 |
| Orders.OrderNumberInjective | src/controllers/orderController.js:135-136 | different order counts give different order ids |
| Orders.SeventhOrderNumber | src/controllers/orderController.js:136 | with 6 orders stored the next id is ORD-007 |
| Orders.PricedItems | src/controllers/orderController.js:103-111 | one priced item per cart item, in order, with the product's current price and the cart item's quantity |
| Orders.PriceCart | src/controllers/orderController.js:87-112 | the loop fails exactly when some product is out of stock; otherwise it returns Σ price × quantity and the priced items |
| Orders.FirstWithProduct | src/controllers/orderController.js:139-201 | the first cart item with the given product, and no earlier one has it |
| Orders.FindGivesTheItem | src/controllers/cartController.js:158-186 | with one line per product, looking an item up by its product finds that same item |
| Orders.PlacedOrderContents | src/controllers/orderController.js:131-201 | the new order is PENDING and unpaid, with subtotal Σ price × quantity, the shipping rule, total = subtotal + shipping, snapshots of both addresses, and one item per cart item carrying its name, image, quantity and current price |
| Orders.PlaceOrder | src/controllers/orderController.js:65-201 | with both addresses resolved: EMPTY_CART, OUT_OF_STOCK and an id collision (500) write nothing; otherwise the order built from the cart as it was is added under the next padded number, and exactly that cart's items are deleted |
| Orders.BillingId | src/controllers/orderController.js:44-45 | billing is the given address whenever one is given (the same id as the shipping one names the same address), and the shipping address when none is given |
| Orders.Checkout | src/controllers/orderController.js:11-257 | MISSING_ADDRESS, ADDRESS_NOT_FOUND, EMPTY_CART, OUT_OF_STOCK and an id collision (500) write nothing; otherwise, in one step, the order is added under the padded id and exactly that cart's items are deleted |
| Orders.CartListing | src/controllers/orderController.js:65-85 | the cart's items are listed each once; the listing is empty exactly when the user has no cart or an empty one |
| Orders.OutOfStockInListing | src/controllers/orderController.js:87-101 | the loop meets an out-of-stock product exactly when the cart holds one |
| Orders.CartTotalIsCheckoutSubtotal | src/controllers/cartController.js:73-74 | the cart's displayed total equals the subtotal checkout charges for it |
| Orders.CancelOrder | src/controllers/orderController.js:461-532 | 404 unless the order is the user's, INVALID_ORDER_STATUS unless PENDING, neither writing; otherwise only the status becomes CANCELLED |
| Orders.ParseOrderStatus | src/controllers/orderController.js:634-635 | exactly the five status names are accepted, each as the status of that name |
| Orders.StatusNameRoundTrip | src/controllers/orderController.js:634-635 | every status is accepted under its own name |
| Orders.UpdateOrderStatus | src/controllers/orderController.js:629-692 | INVALID_STATUS, then 404, neither writing; otherwise any transition is allowed and only the status changes |
| Orders.Tracked | src/controllers/orderController.js:712-721 | supplied fields replace the stored ones; a non-empty tracking number on an unshipped order stamps shippedAt and sets SHIPPED; nothing else changes |
| Orders.TrackingIdempotent | src/controllers/orderController.js:712-721 | repeating the same tracking update changes nothing more, whatever the time |
| Orders.ShippedAtStampedOnce | src/controllers/orderController.js:718-720 | an order already shipped keeps its shippedAt and status |
| Orders.UpdateOrderTracking | src/controllers/orderController.js:693-763 | 404 for an unknown order; otherwise the order is replaced by its tracked version |
| Orders.DefaultOrdersPageHasMore | src/controllers/orderController.js:261-273 | with the default page 1 and limit 10, skip is 0 and hasMore holds exactly when the user has more than 10 orders (with line 344 of the same file) |
| Orders.UserOrdersPage | src/controllers/orderController.js:261-274 | a status that upper-cases to no order status is answered with 500 ORDERS_FETCH_ERROR, and only then; otherwise, over the user's orders with the requested status and for any page and limit: skip is (page − 1) × limit; hasMore holds for a positive limit exactly when orders lie beyond the page, for a limit of 0 exactly when some order matches, and for a negative limit when page × limit exceeds the count (with lines 333-356 of the same file) |
| Orders.StatusFilterNeedsKnownStatus | src/controllers/orderController.js:265-267 | a lower-case status name such as `shipped` is served, and a text such as `foo` gets the 500 |
| ShoppingCart.FindLine | src/controllers/cartController.js:159-166 | the line found is a line of that cart for that product; none is found only when no such line exists |
| ShoppingCart.NewLine | src/controllers/cartController.js:199-207 | a new line records the ES name (or 'Untranslated'), the current price, the image or '' and the quantity |
| ShoppingCart.AddLineKeepsUnique | src/controllers/cartController.js:158-186 | adding to a cart keeps at most one line per (cart, product) |
| ShoppingCart.AddLineAccumulates | src/controllers/cartController.js:167-175 | adding q of a product raises that cart's quantity of it by exactly q |
| ShoppingCart.TouchedKeepsDistinct | src/controllers/cartController.js:147-156 | finding or creating the user's cart under a fresh id keeps one cart per id |
| ShoppingCart.MergeLine | src/controllers/cartController.js:158-207 | the item table afterwards is the one-line-per-product merge of the quantity into this cart, and the returned item is the stored line of this product in this cart, carrying its new quantity |
| ShoppingCart.AddTwoThenOne | src/controllers/cartController.js:158-186 | adding 2 and then 1 of a product gives a single line with quantity 3 |
| ShoppingCart.WithoutCart | src/controllers/orderController.js:196-198 | exactly the items of the given cart are removed, and the others are kept unchanged |
| ShoppingCart.Touched | src/controllers/cartController.js:147-156 | the user's cart is created when missing and its update time is set; other carts are unchanged |
| ShoppingCart.AddToCart | src/controllers/cartController.js:106-257 | INVALID_INPUT, PRODUCT_NOT_FOUND, OUT_OF_STOCK write nothing; otherwise the quantity is merged into the existing line or a new line is added, and one line per product is kept; the returned item is the stored line with the cart's new quantity of the product |
| ShoppingCart.UpdateCartItem | src/controllers/cartController.js:258-356 | INVALID_QUANTITY, the same 404 for a missing or foreign item, OUT_OF_STOCK; otherwise the quantity is set to exactly the given value |
| ShoppingCart.RemoveFromCart | src/controllers/cartController.js:357-412 | 404 for a missing or foreign item; otherwise only that item is deleted |
| ShoppingCart.ClearCart | src/controllers/cartController.js:413-461 | CART_NOT_FOUND without a cart; otherwise exactly that cart's items are deleted and none of its items remain |
| ShoppingCart.TotalsPermutationInvariant | src/controllers/cartController.js:73-74 | the item count and the amount do not depend on the order of the lines |
| ShoppingCart.GetCart | src/controllers/cartController.js:10-105 | a missing cart is created empty; the view lists each item of the cart once, with its current price, and totals = Σ quantity and Σ price × quantity |
| ShoppingCart.CartLines | src/controllers/cartController.js:24-70 | the lines are exactly the cart's items, each once, each shown with its product's current price and the translation of the requested language |
| Payments.InitWebpayPayment | src/controllers/paymentController.js:12-116 | MISSING_ORDER_ID, ORDER_NOT_FOUND, INVALID_PAYMENT_STATUS, a 500 when the gateway fails; otherwise only the token is stored and the payment stays PENDING |
| Payments.Settled | src/controllers/paymentController.js:171-181 | approval gives PAID and PROCESSING; rejection gives FAILED and keeps the status; only the payment status, the status and the transaction id change |
| Payments.ResultUrlReportsOutcome | src/controllers/paymentController.js:198 | the redirect ends in `success` exactly when the payment was approved |
| Payments.InitThenCommit | src/controllers/paymentController.js:57-84 | the token stored at initiation survives the callback, and items and total are untouched (with lines 171-181 of the same file) |
| Payments.HandleWebpayReturn | src/controllers/paymentController.js:117-216 | a missing token, a failed commit or an unknown token redirects to the error page without writing; otherwise the order holding the token is settled and the redirect reports the outcome |
| Invoices.InvoiceNumberReadsBack | src/controllers/invoiceController.js:96-97 | the invoice number is `INV-` followed by at least six digits that read back as count + 1 |
| Invoices.InvoiceNumberInjective | src/controllers/invoiceController.js:96-97 | different counts give different invoice numbers |
| Invoices.FirstInvoiceNumber | src/controllers/invoiceController.js:97 | the first invoice is INV-000001 |
| Invoices.InvoiceLines | src/controllers/invoiceController.js:112-117 | one invoice line per order item |
| Invoices.InvoiceLinesMatchItems | src/controllers/invoiceController.js:112-117 | each line carries its item's name, quantity and price with total = unit price × quantity, and the line totals add up to the items' charges |
| Invoices.IssuedContents | src/controllers/invoiceController.js:100-122 | BUSINESS exactly for a non-empty tax id; amounts copied from the order; tax 0; status ISSUED |
| Invoices.PlacedOrderInvoiceAddsUp | src/controllers/invoiceController.js:112-118 | for an order placed by checkout, the invoice's line totals add up to the order's subtotal |
| Invoices.GenerateInvoice | src/controllers/invoiceController.js:23-172 | MISSING_ORDER_ID, ORDER_NOT_FOUND, ORDER_NOT_PAID write nothing; an existing invoice is returned without a second one; otherwise one invoice is created under the next number; at most one invoice per order is kept |
| Invoices.SecondGenerationFindsTheFirst | src/controllers/invoiceController.js:75-93 | with one invoice per order, any invoice found for an order is the first one |
| Invoices.GetInvoicePdf | src/controllers/invoiceController.js:289-358 | 404 for an unknown invoice before access is checked; the file is served exactly to an admin or the order's owner when the PDF exists |
| Invoices.GetInvoiceByOrderId | src/controllers/invoiceController.js:359-422 | ORDER_NOT_FOUND for an order the user does not own, INVOICE_NOT_FOUND without an invoice; otherwise the order's invoice |
| Audio.Entitle | src/controllers/audioController.js:118-139 | access exists exactly with a live ACTIVE subscription or a live redeemed key, and the plan prefers the subscription's over the key's |
| Audio.EntitlementMonotoneInPlan | src/controllers/audioController.js:147-153 | whatever a lower plan may access, in the library or the stream, a higher plan may too (with lines 265-269 of the same file) |
| Audio.StreamAgreesWithLibraryOnPlanTags | src/controllers/audioController.js:147-153 | for content tagged with one of the three plans, the stream grants exactly what the library shows (with lines 265-269 of the same file) |
| Audio.QuarterlyDisagreesOnOtherTags | src/controllers/audioController.js:152 | for any other tag, QUARTERLY sees the content in the library but is refused the stream (with line 269 of the same file) |
| Audio.Entry | src/controllers/audioController.js:147-159 | canAccess follows the library rule, and the file URL is hidden exactly when access is denied |
| Audio.Entries | src/controllers/audioController.js:146-160 | one entry per audio item, in the listing's order |
| Audio.EntriesInSortOrder | src/controllers/audioController.js:143 | the entries follow ascending sortOrder |
| Audio.EntriesCoverListing | src/controllers/audioController.js:141-160 | every listed item has an entry and no other entries appear |
| Audio.GetMyAudioLibrary | src/controllers/audioController.js:113-188 | the entitlement is described correctly; every audio item appears once, in sortOrder, with access decided by the library rule |
| Audio.LibraryEntries | src/controllers/audioController.js:141-160 | one entry per audio item, in sortOrder, each carrying the access decision of the library rule and the URL only when access is granted |
| Audio.StreamAudio | src/controllers/audioController.js:189-305 | 404, preview served to anyone, 401 AUTH_REQUIRED, 403 SUBSCRIPTION_REQUIRED, 403 PLAN_UPGRADE_REQUIRED in that order; a file is served only for a known item |
| Audio.RedeemingGrantsAccess | src/controllers/audioController.js:346-357 | a redeemed key with a positive duration is live for the redeeming user and marked redeemed |
| Audio.RedeemAccessKey | src/controllers/audioController.js:306-389 | KEY_REQUIRED, KEY_NOT_FOUND after uppercasing and trimming, KEY_ALREADY_REDEEMED; otherwise only that key is redeemed, so a key is redeemed at most once |
| Audio.KeyCount | src/controllers/audioController.js:539-552 | the number of keys is min(count, 100), 1 when count is absent and 0 when it is not positive |
| Audio.KeyCode | src/controllers/audioController.js:555 | every code starts with `VM-` |
| Audio.Codes | src/controllers/audioController.js:552-565 | one code per generated key, in order |
| Audio.GenerateAccessKeys | src/controllers/audioController.js:537-588 | MISSING_FIELDS without plan or duration; on success exactly the capped number of fresh keys is added; a code collision stops with a 500 after the keys before it were created |
| Audio.CreateKeys | src/controllers/audioController.js:552-565 | when every code is new the key table grows by exactly one key per code; otherwise the keys before the first colliding code are created, all fresh, and the loop stops there |
| Audio.AddKeyRow | src/controllers/audioController.js:558-564 | creating one more key adds exactly that code's row to the table |
| Inventory.StockStatusOf | src/controllers/inventoryController.js:78-83 | out-of-stock exactly at stock 0, low-stock exactly for a non-zero stock up to the threshold, in-stock above it |
| Inventory.CountedConditionsPartition | src/controllers/inventoryController.js:314-339 | for a tracked product with non-negative stock one counted condition holds; with a non-negative threshold exactly one holds, and it matches the label |
| Inventory.NegativeThresholdCountsTwice | src/controllers/inventoryController.js:315-339 | with a negative threshold, a product with no stock is counted both as out of stock and as in stock |
| Inventory.StatsAddUp | src/controllers/inventoryController.js:304-339 | with non-negative stocks and thresholds, out + low + in = tracked ≤ total |
| Inventory.LowStockProducts | src/controllers/inventoryController.js:133-190 | exactly the tracked products with 0 < stock ≤ threshold, each once, by ascending stock, all labelled low-stock |
| Inventory.AdjustedChangesOnlySupplied | src/controllers/inventoryController.js:233-245 | supplied fields replace the stored ones and inStock becomes stock > 0 when stock is supplied; nothing else changes |
| Inventory.AdjustedStockAgreesWithLabel | src/controllers/inventoryController.js:236-271 | after a stock update, inStock holds exactly when the label is not out-of-stock |
| Inventory.AdjustedIdempotent | src/controllers/inventoryController.js:233-245 | repeating the same inventory update changes nothing more |
| Inventory.UpdateProductInventory | src/controllers/inventoryController.js:191-303 | 404, then INVALID_STOCK, then INVALID_THRESHOLD, none writing; otherwise the adjusted product and its label |
| Inventory.UpdateKeepsNonNegativeStock | src/controllers/inventoryController.js:206-231 | the validated update keeps every stock and threshold non-negative |
| Profiles.ClearDefaults | src/controllers/profileController.js:172-183 | clearing defaults keeps the same addresses |
| Profiles.ClearDefaultsEffect | src/controllers/profileController.js:172-183 | exactly the profile's defaults of that type lose their flag, except the excluded one; nothing else changes |
| Profiles.CreateKeepsOneDefault | src/controllers/profileController.js:172-196 | creating an address keeps at most one default per (profile, type) |
| Profiles.UpdateKeepsOneDefault | src/controllers/profileController.js:255-280 | updating an address keeps at most one default per (profile, type) |
| Profiles.CreatedDefaultIsTheDefault | src/controllers/profileController.js:172-196 | a new default address is the only default of its type for its profile |
| Profiles.EditedDefaultIsTheDefault | src/controllers/profileController.js:255-280 | an address made default is the only default of its type for its profile |
| Profiles.GetProfile | src/controllers/profileController.js:10-73 | USER_NOT_FOUND, then PROFILE_NOT_FOUND; otherwise the user and the profile |
| Profiles.Pick | src/controllers/profileController.js:80-95 | a supplied field replaces the stored value; an absent one keeps it |
| Profiles.PatchedProfileIdempotent | src/controllers/profileController.js:74-111 | a profile update keeps the id, repeating it changes nothing more, and an empty one changes nothing |
| Profiles.UpdateProfile | src/controllers/profileController.js:74-111 | without a profile the update fails with 500; otherwise the profile is patched |
| Profiles.CreateAddress | src/controllers/profileController.js:153-219 | PROFILE_NOT_FOUND; otherwise the address is created after clearing defaults, and at most one default per type is kept |
| Profiles.UpdateAddress | src/controllers/profileController.js:220-303 | PROFILE_NOT_FOUND, then the same ADDRESS_NOT_FOUND for a missing or foreign address; otherwise the address is edited and one default per type is kept |
| Profiles.DeleteAddress | src/controllers/profileController.js:304-359 | PROFILE_NOT_FOUND, ADDRESS_NOT_FOUND; otherwise only that address is removed |
| Profiles.DefaultThenNewestIsTotalPreorder | src/controllers/profileController.js:130 | the ordering defaults first, then newest first is a valid sort order |
| Profiles.GetAddresses | src/controllers/profileController.js:112-152 | PROFILE_NOT_FOUND; otherwise exactly the user's addresses, each once, defaults first and then newest first |
| Profiles.DefaultsLeadTheListing | src/controllers/profileController.js:130 | in the listing no non-default address precedes a default one |
| Reviews.StoredComment | src/controllers/reviewController.js:79 | an empty comment is stored as null; any other is stored as given |
| Reviews.NewReview | src/controllers/reviewController.js:63-80 | verified exactly when the user has a paid order containing the product |
| Reviews.NewReviewKeepsUnique | src/controllers/reviewController.js:45-60 | adding a review for a (product, user) pair not yet reviewed keeps one review per pair |
| Reviews.CreateReview | src/controllers/reviewController.js:10-129 | INVALID_RATING before any lookup, PRODUCT_NOT_FOUND, REVIEW_EXISTS, none writing; otherwise one review is added and one review per (product, user) is kept |
| Reviews.SecondReviewRefused | src/controllers/reviewController.js:45-60 | once a review is added, the same user's second review of the product is refused |
| Reviews.RevisedKeepsIdentity | src/controllers/reviewController.js:352-362 | an update keeps the product, the author and the verified mark; a valid rating stays in 1..5; an update with nothing supplied changes nothing; a supplied comment is stored as createReview stores it |
| Reviews.UpdateReview | src/controllers/reviewController.js:313-409 | INVALID_RATING for a truthy out-of-range rating, 404, 403 for anyone but the author; otherwise only rating and comment change |
| Reviews.AdminDeletesButCannotEdit | src/controllers/reviewController.js:342-350 | an administrator may delete another user's review, a regular user may not, and not even an administrator may edit another user's review, since the edit checks authorship only (with lines 430-443 of the same file) |
| Reviews.DeleteReview | src/controllers/reviewController.js:410-463 | 404, then 403 unless author or ADMIN; otherwise only that review is removed |
| Reviews.ReviewerNameFromEmail | src/controllers/reviewController.js:102-104 | without a profile the reviewer is shown by the part of the email before '@' |
| Wishlist.AddToWishlist | src/controllers/wishlistController.js:71-159 | PRODUCT_NOT_FOUND, ALREADY_IN_WISHLIST; otherwise exactly one (user, product) entry is added |
| Wishlist.RemoveFromWishlist | src/controllers/wishlistController.js:160-214 | WISHLIST_ITEM_NOT_FOUND; otherwise only that entry is removed and it is no longer present |
| Wishlist.CheckWishlistStatus | src/controllers/wishlistController.js:215-245 | true exactly when the (user, product) entry exists |
| Wishlist.AddThenRemoveRestores | src/controllers/wishlistController.js:71-214 | adding and then removing an entry restores the wishlist, and other pairs are unaffected by the add |
| Wishlist.GetWishlist | src/controllers/wishlistController.js:10-70 | exactly the user's wished products, each once, newest first, with count = their number |
| Products.TextIn | src/controllers/productController.js:55-79 | the product's texts in the requested language; with no translation the name is 'Untranslated' and the other texts are empty; the name shown is never empty |
| Products.FilterFlagIsExactText | src/controllers/productController.js:30-36 | a featured or inStock filter compares with the exact text 'true', so 'TRUE' and '1' select the rows where the flag is false |
| Products.DefaultPageHasMore | src/controllers/productController.js:39-40 | with the default page 1 and limit 20, skip is 0 and hasMore holds exactly when more than 20 products match the filters (with lines 82-93 of the same file) |
| Products.ProductsPage | src/controllers/productController.js:39-40 | over the matching products, for any page and limit: skip is (page − 1) × limit; hasMore holds for a positive limit exactly when rows lie beyond the page, for a limit of 0 exactly when some product matches, and for a negative limit when page × limit exceeds the count (with lines 82-94 of the same file) |
| Products.NewProduct | src/controllers/productController.js:224-259 | an absent field takes its default: no images, in stock, stock 0, threshold 10, tracked, not featured, sort order 0; a new product has no audio |
| Products.LanguageMap | src/controllers/productController.js:256-258 | the nested translations keyed by language, holding exactly the languages given, each with its own texts |
| Products.NestedRows | src/controllers/productController.js:256-258 | the translation rows created with the product: one per language given, all under the new product's id |
| Products.CreateProduct | src/controllers/productController.js:222-298 | a taken id or two translations in one language gives 400 PRODUCT_EXISTS with no write; otherwise the product and its translations are added in one step |
| Products.Patched | src/controllers/productController.js:313-330 | an update with no field supplied leaves the product unchanged, and an update never touches the audio fields |
| Products.UpdateProduct | src/controllers/productController.js:299-370 | 404 for an unknown product with no write; otherwise only that product is replaced by its patched version |
| Products.DeleteProduct | src/controllers/productController.js:371-413 | 404 for an unknown product; 500 DELETE_PRODUCT_FAILED with no change while a translation, cart line, order line, review or wishlist entry still refers to it; otherwise exactly that product is removed |
| Products.DeleteKeepsReferencesResolved | src/controllers/productController.js:375-377 | a delete the store lets through leaves every reference to a product resolving to a stored one, and the deleted id has no texts left for a later product to inherit |
| Products.Upserted | src/controllers/productController.js:435-456 | the upsert is keyed by (product, uppercased language): it writes that one row and keeps every other row, and it writes nothing exactly when a new row would lack a text |
| Products.UpsertedRow | src/controllers/productController.js:442-454 | an update sets the texts the body supplies and keeps the stored ones it leaves out; features are always written, [] by default; a create without one of the three texts writes no row |
| Products.FullInputIgnoresStoredRow | src/controllers/productController.js:442-454 | with all three texts supplied, update and create write the same row |
| Products.NameOnlyUpdate | src/controllers/productController.js:417-447 | a body with only a name renames an existing row and keeps both descriptions, but clears its features |
| Products.CreateNeedsAllTexts | src/controllers/productController.js:448-454 | a new row is written exactly when the body carries all three texts |
| Products.UpsertIdempotent | src/controllers/productController.js:435-456 | repeating a successful upsert changes nothing more |
| Products.UpsertThenText | src/controllers/productController.js:55 | after an upsert with a name, the catalogue shows that name in that language, whatever letter case the request uses (with lines 435-456 of the same file) |
| Products.UpsertProductTranslation | src/controllers/productController.js:414-483 | 404 for an unknown product with no write; a failed insert gives UPDATE_TRANSLATION_FAILED (500) with no write; otherwise the translation table is the upserted one and the written row is returned |
| Products.WithAudio | src/controllers/productController.js:515-522 | the audio URL is set; an empty title is stored as null; the duration is null exactly when absent or 0; no other field changes |
| Products.RemoveAudioUndoesSet | src/controllers/productController.js:515-522 | removing the audio undoes any earlier setting of it (with lines 575-580 of the same file) |
| Products.UpdateProductAudio | src/controllers/productController.js:484-553 | 404, then INVALID_AUDIO_DATA without a URL, neither writing; otherwise only that product gets the audio |
| Products.RemoveProductAudio | src/controllers/productController.js:554-605 | 404 for an unknown product; otherwise the product's three audio fields are null and nothing else changes |
| Users.ParseRole | src/controllers/userController.js:477-488 | exactly USER and ADMIN are roles |
| Users.ParseCustomerType | src/controllers/userController.js:575-588 | exactly INDIVIDUAL and BUSINESS are customer types |
| Users.NotTaken | src/controllers/userController.js:560-570 | an untaken email belongs to no stored user |
| Users.FreshEmailKeepsUnique | src/controllers/userController.js:560-593 | adding a user with an untaken email keeps emails unique |
| Users.ChangedEmailKeepsUnique | src/controllers/userController.js:653-682 | changing a user's email to their own or an untaken one keeps emails unique |
| Users.UpdateUserRole | src/controllers/userController.js:472-543 | INVALID_ROLE, then CANNOT_DEMOTE_SELF before the lookup, then 404; otherwise only the role changes |
| Users.RequesterStaysAdmin | src/controllers/userController.js:488-497 | an admin's accepted role change never demotes that admin |
| Users.DeleteUser | src/controllers/userController.js:720-786 | CANNOT_DELETE_SELF, then 404; otherwise the user and the profile are removed and the requester remains |
| Users.CreateUserDefaults | src/controllers/userController.js:575-588 | without role and customer type, the user is created as USER and INDIVIDUAL |
| Users.LowerCaseRoleAccepted | src/controllers/userController.js:575-588 | the role and customer type are uppercased, so `admin` and `business` are accepted |
| Users.CreateUser | src/controllers/userController.js:544-631 | MISSING_FIELDS, USER_EXISTS, a 500 for an unknown role or type, none writing; otherwise the user and profile are created, emails stay unique, and every valid request succeeds |
| Users.UpdateUser | src/controllers/userController.js:632-719 | 404, then EMAIL_EXISTS for another user's email, a 500 without a profile or with an unknown customer type; otherwise only the supplied fields change and emails stay unique |
| Users.TotalSpentIsPaidSum | src/controllers/userController.js:133-142 | total spend is the sum of the paid orders' totals |
| Users.AveragesDisagreeWithUnpaidOrders | src/controllers/userController.js:144 | with an unpaid order and some spend, the list view divides by more orders and shows a strictly lower average than the detail view (with lines 238-239 of the same file) |
| Users.AveragesAgreeWhenAllPaid | src/controllers/userController.js:144 | when all orders are paid both views show the same average (with lines 238-239 of the same file) |
| Users.AccountStatus | src/controllers/userController.js:159 | ADMIN exactly for administrators, ACTIVE exactly for users |
| Users.BySpendDescIsTotalPreorder | src/controllers/userController.js:347 | descending spend is a valid sort order |
| Users.Ranked | src/controllers/userController.js:346-347 | the ranked list is a permutation of the customers with spend > 0, in descending spend |
| Users.TopCustomers | src/controllers/userController.js:346-348 | at most 5 customers, in descending spend |
| Users.TopCustomersSpent | src/controllers/userController.js:346-348 | every top customer is a customer with positive spend |
| Users.TopCustomersCount | src/controllers/userController.js:346-348 | the list holds min(5, number with positive spend) customers |
| Users.TopCustomersNoneHigherLeftOut | src/controllers/userController.js:346-348 | no customer left out spent more than one listed |
| Users.FilterCountMonotone | src/controllers/userController.js:367-370 | a stricter filter keeps no more elements |
| Users.RetentionAtMostAll | src/controllers/userController.js:367-370 | repeat customers ≤ customers with orders ≤ all customers |
| Users.RegularUsersAreNonAdmins | src/controllers/userController.js:815 | totalUsers − adminCount counts exactly the users with role USER |
| Jwt.ClaimsOf | src/controllers/authController.js:66-70 | the claims are exactly the user's id, email and role |
| Jwt.ExtractToken | src/utils/jwt.js:84-97 | no token from a missing or empty header; a token never contains a space |
| Jwt.ExtractRoundTrip | src/utils/jwt.js:89-96 | `Bearer ` followed by a token without spaces yields that token |
| Jwt.ExtractOnlyBearer | src/utils/jwt.js:89-96 | a header yields a token only when it is exactly `Bearer ` followed by that token |
| Jwt.ExtractRejectsVariants | src/utils/jwt.js:89-94 | `bearer x`, `Bearer  x` and `Bearer x y` yield no token |
| Jwt.IsTokenExpired | src/utils/jwt.js:104-116 | expired without a payload or exp; otherwise exactly when exp is earlier than the current second |
| Jwt.ExpiryIsMonotone | src/utils/jwt.js:104-116 | an expired token stays expired later, and exp equal to the current second is not expired |
| Auth.Nullable | src/controllers/authController.js:53-55 | an empty or missing optional text is stored as null |
| Auth.RegisteredProfile | src/controllers/authController.js:48-58 | the profile records the registered names, type and language, with null for an empty phone or tax id |
| Auth.Register | src/controllers/authController.js:12-107 | USER_EXISTS writes nothing; otherwise a USER and the profile are created, emails stay unique, and the claims of the new user are returned |
| Auth.Login | src/controllers/authController.js:108-185 | the same 401 INVALID_CREDENTIALS for an unknown email and a wrong password; success returns the claims of the user with that email whose password matches |
| Auth.GetMe | src/controllers/authController.js:186-247 | USER_NOT_FOUND; otherwise the user, with a null profile exactly when none exists |
| AuthMiddleware.StoredUser | src/middleware/auth.js:35-62 | the request user is built from the stored user and profile, and exists exactly when the user does |
| AuthMiddleware.EmptyBearerIsNoToken | src/utils/jwt.js:89-96 | `Bearer ` with nothing after it yields an empty token, which counts as no token |
| AuthMiddleware.Authentication | src/middleware/auth.js:14-62 | NO_TOKEN, INVALID_TOKEN with the verifier's message, USER_NOT_FOUND in that order; success carries the stored user |
| AuthMiddleware.Authenticate | src/middleware/auth.js:11-76 | `next()` exactly when authentication succeeds, and only then is `req.user` set |
| AuthMiddleware.StaleClaimsIgnored | src/middleware/auth.js:41-62 | two tokens for the same user authenticate alike, with the stored role, whatever their claims say |
| AuthMiddleware.OptionalAgreesWithAuthenticate | src/middleware/auth.js:112-141 | optionalAuth sets exactly the user that authenticate would accept |
| AuthMiddleware.OptionalAuth | src/middleware/auth.js:112-141 | always `next()`, setting `req.user` only for a verified token of an existing user |
| AuthMiddleware.RequireAdmin | src/middleware/auth.js:82-106 | 401 NOT_AUTHENTICATED without a user, 403 FORBIDDEN for a non-admin; `next()` exactly for an admin |
| AuthMiddleware.AdminRoutesNeedStoredAdmin | src/middleware/auth.js:11-106 | authenticate then requireAdmin passes exactly when the token names an existing user whose stored role is ADMIN |
| Validation.Clean | src/utils/validation.js:106 | the cleaned RUT holds exactly the characters other than '.' and '-' |
| Validation.CleanAppend | src/utils/validation.js:106 | cleaning distributes over concatenation |
| Validation.CleanKeepsPlain | src/utils/validation.js:106 | a RUT without separators is unchanged by cleaning |
| Validation.WeightNext | src/utils/validation.js:124-127 | the weights cycle 2, 3, 4, 5, 6, 7 and back to 2 |
| Validation.CheckDigit | src/utils/validation.js:129-134 | the check digit is a decimal digit or K |
| Validation.ValidateRut | src/utils/validation.js:102-138 | the loop's answer is exactly the modulo-11 validity of the cleaned RUT |
| Validation.OneVerifierPerBody | src/utils/validation.js:117-137 | for a digit body, a verifier character is accepted exactly when it is the check digit, in any letter case |
| Validation.SeparatorsIgnored | src/utils/validation.js:106 | inserting a '.' or '-' anywhere does not change validity |
| Validation.RutExamples | src/utils/validation.js:117-137 | 12345678-5 is valid and 12345678-9 is not |
| Validation.ExampleCheckDigit | src/utils/validation.js:117-137 | the modulo-11 check digit of 12345678 is 5 |
| Validation.RutRejections | src/utils/validation.js:103-115 | a single character, a RUT made of separators and a body with a non-digit are rejected |
| Validation.StrongPasswordExtends | src/utils/validation.js:8-14 | a password that meets the rules still meets them with text added around it |
| Validation.PasswordExamples | src/utils/validation.js:8-14 | `Passw0rd!` is accepted; without an uppercase letter or with fewer than 8 characters it is not |
| Validation.PhoneForms | src/utils/validation.js:17 | a number is valid with a leading '+' exactly when it is valid without it |
| Validation.PhoneExamples | src/utils/validation.js:17 | a Chilean mobile number is valid; a leading 0, a single digit and 16 digits are not |
| Validation.ParseRegistration | src/utils/validation.js:6-21 | a registration is accepted exactly when every field meets its rule; every field is carried over as given, customer type defaults to INDIVIDUAL and language to ES |
| Validation.ParseAddress | src/utils/validation.js:46-54 | an address is accepted exactly when type and fields meet their rules; country defaults to Chile and isDefault to false |
| Validation.ValidateRequest | src/utils/validation.js:61-85 | success passes the parsed data on; failure is 400 VALIDATION_ERROR with one detail per issue carrying its message, `unknown` for an issue without a path |
| Validation.DetailFieldNamesPath | src/utils/validation.js:70-73 | a detail's field is the issue's path joined by '.', and splitting it gives the path back |
| App.AllowedOrigin | src/index.js:61 | the configured origin, or `http://localhost:5173` when it is unset or empty |
| App.DevelopmentAllowsLocalPorts | src/index.js:53-58 | outside production every localhost port is allowed |
| App.ProductionAllowsOnlyConfigured | src/index.js:61-67 | in production an origin is allowed exactly when it is the configured one, so another localhost port is refused |
| App.ProductionIsStricter | src/index.js:45-67 | whatever production allows, development allows too |
| App.DefaultOriginIsLocal | src/index.js:54-61 | the default origin is itself a localhost origin |
| App.HandleError | src/index.js:152-165 | the error's status or 500, its code or SERVER_ERROR; production hides the message and the stack |
| App.ProductionHidesDetails | src/index.js:152-165 | in production two errors with the same status and code give the same response |
| Upload.MatchSurvivesContext | src/routes/upload.js:27-29 | the unanchored test still matches when text surrounds the match |
| Upload.LastDot | src/routes/upload.js:21 | the position of the last '.', or none when the name has no '.' |
| Upload.ExtName | src/routes/upload.js:21-28 | the extension is empty or starts with its only '.', and is a proper suffix of the name |
| Upload.ExtNameExamples | src/routes/upload.js:21 | `photo.PNG` gives `.PNG`, `archive.tar.gz` gives `.gz`, and `.png` and `noext` give nothing |
| Upload.StoredName | src/routes/upload.js:18-22 | the stored name ends with the original extension |
| Upload.StoredPath | src/routes/upload.js:63 | the returned path is `/uploads/products/` followed by the stored name |
| Upload.FirstLetterMissing | src/routes/upload.js:27-29 | a word whose first letter does not occur in a text is not found in it |
| Upload.UpperCaseExtensionAccepted | src/routes/upload.js:28 | the extension is lowercased before the test, so `.PNG` passes |
| Upload.UpperCaseMimetypeRejected | src/routes/upload.js:29 | the mimetype is not lowercased, so `image/PNG` fails |
| Upload.UnanchoredExtension | src/routes/upload.js:27-28 | the match is unanchored, so `.pngx` passes |
| Upload.UploadImage | src/routes/upload.js:26-105 | no file gives 400 'No file uploaded'; a refused file gives 400 with the filter's message, an oversized one 400 with the size message; success exactly for an accepted file up to 5 MB, stored under its path |
| Upload.UploadedFilesAreImages | src/routes/upload.js:26-63 | every stored file lies in the product upload directory and ends with an image extension |

## Left out

- Floating point: `parseFloat`, `toFixed(2)` and the retention percentage. Money is integral, averages are kept as a sum and a count, and retention as two counts.
- `Math.round` in the proration is modelled over exact rationals (`Subscriptions.RoundDiv`), not on doubles.
- Calendar arithmetic: `setMonth` is `Common.AddMonths`, a fixed 30-day month. Month overflow and time zones are not modelled.
- Concurrency: races on the `count() + 1` numbering and the non-transactional callbacks. Each handler is one atomic step. A numbering collision is modelled as the 500 that the failed insert gives.
- Randomness: access-key characters and upload name prefixes are parameters.
- I/O: PDF drawing (`generateInvoicePDF`), file streams, multer's disk storage and static files. Whether a PDF was written or exists is a boolean parameter.
- The Transbank SDK: the gateway's create and commit are inputs. A thrown create or commit is the `None` case.
- bcrypt, jsonwebtoken sign/verify/decode and zod's email check are parameters: `matches`, `verify` and `isEmail`.
- zod's issue messages: `Validation.ParseRegistration` and `Validation.ParseAddress` model acceptance and defaults, not the message texts.
- Case mapping is ASCII-only. This is exact for the RUT verifier, product languages and role names.
- Text length counts characters, where JavaScript counts UTF-16 units.
- `Upload.ExtName`: models `path.extname` for names without '/'. Original names are bare file names.
- Upload errors other than the filter and the size limit are not modelled. These are other multer errors and the route's 500 catch.
- Database enum enforcement is modelled only where a handler passes unchecked text to an enum column. In those cases the write fails with the handler's 500.
- Cascading deletes beyond a user's profile are not modelled. These are carts, orders and reviews of a deleted user.
- Products.DeleteProduct: the database schema is not part of this model. The product's relations are taken to use the default Restrict action, so a product that any row still refers to cannot be deleted; a Cascade schema would instead remove those rows.
- Catch-all 500 responses of database failures are not modelled, e.g. AUTH_ERROR, REGISTRATION_FAILED and LOGIN_FAILED.
- `logout` is not modelled. It only returns a message.
- Read-only listings not named above are not modelled. These are getAllInventory, getProductById, getProductTranslations, product and user review listings, getAllUsers, getUserById, getAllOrders, getOrderById, getAllSubscriptions, getAllInvoices, getAllAccessKeys, getPaymentStatus, getAllPayments and the audio content CRUD.
- Grouped statistics are not modelled. These are usersByType, newUsersThisMonth, totalStockValue, byCategory, the subscription analytics (MRR/ARR) and the analytics controller.
- `loginSchema` and `updateProfileSchema` are not modelled as separate predicates. Their rules are the same field rules as registration: email, non-empty text, phone and enums.
- Orders.Checkout: the PROFILE_NOT_FOUND branch is not modelled as a reachable case. Owning an address already requires a profile, so the address check fails first.
- Orders.Checkout: requires that every cart item's product exists. The database's foreign key guarantees this.
- Audio.GenerateAccessKeys: requires enough random code parts for the capped count. Randomness is a parameter.
- Subscriptions.UpgradeSubscription: the charge for a period whose end equals its start is `None`. JavaScript computes NaN there, or Infinity credit and a charge of 0 when time remains.
- Users.DeleteUser: removes only the user and profile rows, not the rows that depend on them.
- Products.DefaultPageHasMore: the page's rows are not modelled, only its pagination fields. The client-chosen sort field decides which rows a page holds.
- Products.UpsertProductTranslation: the database schema is not part of this model. All three texts are treated as required columns, so a new row from a body that leaves one out fails with UPDATE_TRANSLATION_FAILED (500).
- Common.PaginateHasMore: page and limit are whole numbers. A text that `parseInt` reads as NaN is not modelled. Whether the store accepts a negative skip or a negative take, and which rows it then returns, is not modelled either; the pagination fields are.
- Common.IsSpace: covers ASCII whitespace, the no-break space and the byte-order mark. JavaScript `trim()` also strips the other Unicode space separators and U+2028/U+2029; such characters around an access-key code are kept by the model.
- Reviews.CreateReview and Reviews.UpdateReview take the rating as a whole number. A fractional rating between 1 and 5, which passes the range check and is stored truncated by `parseInt`, is not modelled. Neither is a non-numeric text, which passes the check and then fails the insert.
- Orders.UpdateOrderTracking and Users.UpdateUser: a JSON `null` that clears a field is not expressible. An absent field keeps the stored value, and a present one sets it.
- The product fields `burnTime` and `size` are not modelled. They are copied through without any rule.
