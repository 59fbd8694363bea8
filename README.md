# Velmont checkout and cart, modelled in Dafny

This project models the checkout-and-cart pipeline of the Velmont leather-goods
shop. It covers the following parts:

- **The Next.js API routes.** These are the cart routes (`GET /api/cart`,
  `POST /api/cart/add`, `PATCH /api/cart/update` and
  `DELETE /api/cart/remove`), order creation (`POST /api/orders/create`),
  payment settlement (`POST /api/orders/verify`) and the address book
  (`/api/user/addresses`). They are methods of one sequential in-memory
  `Store` class (`store.dfy`). Its fields are the tables: products, variants,
  coupons, carts, cart lines, orders with their item snapshot, and addresses.
  New row ids come from a counter.
- **Session-token extraction** (`auth.dfy`) and **the admin gate of the
  middleware** (`middleware.dfy`).
- **The arithmetic of the pricing** (`pricing.dfy`), **the stock decrement**
  (`stock.dfy`) and **the signed callback message** (`signature.dfy`). These
  are pure functions with lemmas.
- **The client-side pricing and list helpers.** These are on the checkout page
  (`checkout_page.dfy`) and the cart page (`cart_page.dfy`). They are checked
  against the server formulas.
- **Multi-request scenarios** (`scenarios.dfy`). These follow what a client
  sees when it repeats a request. They are proved from the handlers'
  contracts alone.

Money is in integer paise. The order's discount and total are `real`: a
percentage coupon divides by 100 without rounding, so the amount stored and sent
to the gateway can be fractional.

The Store keeps an invariant, `Valid`, and every handler preserves it:

- ids are unique and lie below the counter;
- there is one cart per user;
- every cart line's product and variant exist;
- every order item's product exists;
- the key (cart, product, variant) is unique across cart lines.

External pieces are parameters:

- **The payment gateway's `orders.create`** is a function from the request
  (amount, currency "INR", user id, cart id) to an optional gateway order id.
  `None` stands for a thrown error.
- **HMAC-SHA256 with the shared secret** is a function from message to digest.
- **`jwtVerify`** is a function from token to claims or rejection.
- **The current time and the generated order number** are plain arguments.
- **Authentication.** Each handler receives the result of
  `authenticateRequest`: the claims, or nothing. With nothing it answers 401.

The model follows the code as written. It proves these behaviours:

- **Settlement does not look at the order's current status.** A replayed
  callback settles the order again and decrements stock again
  (`Scenarios.ReplaySettlement`, `Stock.ReplayDecrementsTwice`).
- **Settlement does not compare the callback's gateway order id with the one
  stored on the order** (`Scenarios.SettleWithOtherGatewayOrder`).
- **The stock decrement has no floor** (`Stock.StockCanGoNegative`).
- **A fixed-amount coupon is not capped, and `minAmount` is never read.** A
  total is non-negative exactly when the discount is at most subtotal plus
  shipping (`Pricing.Quote`, `Pricing.MinAmountIgnored`,
  `Pricing.FixedDiscountCanMakeTotalNegative`).
- **The cart page's free-shipping rule uses `>`, where the server uses `>=`**
  (`CartPage.ShippingDiffersOnlyAtThreshold`). The cart page also adds 18%
  GST, which the server never charges (`CartPage.PageTotalExceedsQuote`).
- **The checkout page compares a subtotal in rupees with a threshold in
  paise.** It therefore charges shipping on orders the server ships free
  (`CheckoutPage.ThresholdUnitMismatch`).
- **`quantity` in `POST /api/cart/add` defaults to 1 and is compared only
  with the stock.** A zero or negative quantity passes every guard whenever it
  is within the product's stock (`Shop.NonPositiveQuantityAccepted`).
- **`PATCH /api/cart/update` without a quantity** passes the `quantity < 1`
  test and succeeds without changing the line.

The cart-line insert is assumed to fail with 500 when the variant id names no
variant: the database's foreign key rejects it. The cart created earlier in
that request stays.

## Model

| member | source | states |
|---|---|---|
| Pricing.Snapshot | src/app/api/orders/create/route.ts:68-84 | The item for a cart line has the line's product, variant and quantity. Its name and SKU come from the product. Its unit price is the selling price, plus the variant's adjustment when there is a variant. `totalPrice = unitPrice * quantity` |
| Pricing.Snapshots | src/app/api/orders/create/route.ts:66-85 | One order item per cart line, in cart order, each the snapshot of its line |
| Pricing.BuildOrderItems | src/app/api/orders/create/route.ts:65-85 | The loop yields exactly the snapshots of the lines, and `subtotal` is the sum of their `totalPrice` |
| Pricing.SumTotals | src/app/api/orders/create/route.ts:65-74 | The running subtotal of items with non-negative totals is non-negative, and of all-zero totals is 0 |
| Pricing.SumTotalsAppend | src/app/api/orders/create/route.ts:65-74 | The subtotal of two item lists one after the other is the sum of their subtotals |
| Pricing.ShippingFor | src/app/api/orders/create/route.ts:88 | Shipping is 0 iff the subtotal is at least 299900. Otherwise it is 5000 |
| Pricing.ApplicableCoupon | src/app/api/orders/create/route.ts:91-97 | A coupon applies iff a non-empty code was given, the code exists, and the coupon is active and either has no expiry or expires after now. Nothing else, `minAmount` included, is consulted |
| Pricing.CouponDiscount | src/app/api/orders/create/route.ts:98-105 | A fixed coupon gives its value, uncapped. A percentage coupon gives min(subtotal*value/100, cap), where an absent or zero cap means no cap |
| Pricing.Quote | src/app/api/orders/create/route.ts:87-109 | Tax is 0, shipping follows the threshold, and the discount is 0 unless a coupon applies. `total = subtotal + tax + shipping - discount`, and `total >= 0` iff `discount <= subtotal + shipping` |
| Pricing.PercentageKeepsTotalNonNegative | src/app/api/orders/create/route.ts:98-109 | A percentage coupon of at most 100% never makes a non-negative subtotal's total negative |
| Pricing.ExpiredCouponGivesNoDiscount | src/app/api/orders/create/route.ts:97 | An expired coupon gives discount 0, and the total is subtotal plus shipping |
| Pricing.Welcome10Example | prisma/seed.ts:238-251 | Subtotal 349900 with WELCOME10 before its expiry gives shipping 0, discount 34990 and total 314910 |
| Pricing.NoCouponExample | src/app/api/orders/create/route.ts:87-109 | Subtotal 150000 without a coupon gives shipping 5000 and total 155000 |
| Pricing.MinAmountIgnored | src/app/api/orders/create/route.ts:97-105 | WELCOME10 (minAmount 200000) still discounts 15000 off a 150000 subtotal |
| Pricing.FixedDiscountCanMakeTotalNegative | src/app/api/orders/create/route.ts:103-109 | SAVE500 on a 10000 subtotal gives total -35000 |
| Stock.ApplyDecrements | src/app/api/orders/verify/route.ts:67-76 | Decrementing stock keeps every product row: the key set is unchanged |
| Stock.Decrement | src/app/api/orders/verify/route.ts:68-75 | One `decrement` lowers that product's stock by the quantity. Its other fields and every other product are unchanged, and no row is added or removed |
| Stock.ApplyDecrementsEffect | src/app/api/orders/verify/route.ts:67-76 | Each product's stock drops by exactly the summed quantity of the order's items for it, with no lower bound, and no other field changes |
| Stock.UntouchedProduct | src/app/api/orders/verify/route.ts:67-76 | A product that no item mentions keeps its row unchanged |
| Stock.SumQtyAbsent | src/app/api/orders/verify/route.ts:67-76 | Items that do not mention a product sum to quantity 0 for it |
| Stock.ReplayDecrementsTwice | src/app/api/orders/verify/route.ts:39-76 | Applying an order's items twice lowers each product's stock by twice their summed quantity |
| Stock.StockCanGoNegative | src/app/api/orders/verify/route.ts:67-76 | Stock 1 and an item of quantity 2 leave stock -1 |
| Signature.SignedMessage | src/app/api/orders/verify/route.ts:25 | The message is the gateway order id, then '\|', then the payment id, in that layout and length |
| Signature.SignatureMatches | src/app/api/orders/verify/route.ts:25-31 | The callback is accepted iff the HMAC of order id + "\|" + payment id equals the supplied signature; this is the test on which `Shop.Store.VerifyPayment`'s 400 and success cases turn |
| Signature.SignedMessageInjective | src/app/api/orders/verify/route.ts:25 | When the order ids contain no '\|', equal messages mean equal id pairs |
| Signature.SignedMessageAmbiguous | src/app/api/orders/verify/route.ts:25 | Without that restriction, ("a\|", "b") and ("a", "\|b") sign the same message |
| Auth.VerifyToken | src/lib/auth.ts:12-20 | Returns the claims of a verified token and null for any rejection; it never fails otherwise |
| Auth.GetTokenFromRequest | src/lib/auth.ts:22-37 | A non-empty cookie wins whatever the header says. Without one, the token is what follows the case-sensitive "Bearer " prefix of the header, and such a header always yields a token. Otherwise there is no token |
| Auth.BearerHeaderYieldsToken | src/lib/auth.ts:31-34 | With no cookie, the header "Bearer " + t yields exactly t |
| Auth.LowercaseBearerRejected | src/lib/auth.ts:32-36 | A "bearer " header yields no token |
| Auth.AuthenticateRequest | src/lib/auth.ts:39-47 | No token, or an empty one, gives null. Otherwise the result is `verifyToken` of the token |
| Auth.NoTokenSkipsVerification | src/lib/auth.ts:39-44 | Without a token the verifier is not consulted: any two verifiers give the same null |
| Auth.BareBearerNotAuthenticated | src/lib/auth.ts:31-44 | The header "Bearer " alone yields an empty token, which fails authentication |
| Middleware.Gate | src/middleware.ts:5-26 | Paths outside /admin pass. An /admin path passes iff the token cookie is non-empty and verifies to claims with `isAdmin`. Every other /admin request is redirected to /auth/login |
| Middleware.AdminNeedsCookie | src/middleware.ts:7-12 | An /admin path with an absent or empty cookie redirects, whatever the verifier would say |
| AddressBook.NewAddress | src/app/api/user/addresses/route.ts:46-91 | The new row has the caller as owner, the required fields as given, and `company`, `address2` and `phone` as given or absent. Country defaults to "India" and `isDefault` defaults to false |
| AddressBook.DemoteDefaults | src/app/api/user/addresses/route.ts:69-74 | The owner's rows lose their default flag. No other row changes |
| AddressBook.InsertAddress | src/app/api/user/addresses/route.ts:69-91 | Exactly one row is appended. Other users' rows are unchanged. A non-default insert leaves every existing row unchanged. A default insert changes the owner's earlier rows only by clearing their default flag, so the new row is the owner's only default |
| AddressBook.DefaultInsertIsOnlyDefault | src/app/api/user/addresses/route.ts:69-91 | Every default row of the owner after a default insert is the new row |
| AddressBook.OwnedBy | src/app/api/user/addresses/route.ts:16-17 | Exactly the rows owned by the user, each as many times as in the table |
| AddressBook.InsertPermutes | src/app/api/user/addresses/route.ts:18-21 | Inserting into the listing adds exactly that row (multiset) |
| AddressBook.InsertSorted | src/app/api/user/addresses/route.ts:18-21 | Inserting into a listing in GET's order keeps it in that order |
| AddressBook.ListedBeforeTransitive | src/app/api/user/addresses/route.ts:18-21 | GET's order (defaults first, then newer first) is transitive |
| AddressBook.SortAddresses | src/app/api/user/addresses/route.ts:18-21 | The result is in GET's order and is a permutation of the input |
| AddressBook.ListAddresses | src/app/api/user/addresses/route.ts:16-22 | Exactly the caller's rows, each as many times as in the table, defaults first, then newest first |
| CheckoutPage.RupeeView | src/app/api/cart/route.ts:68-82 | The returned lines keep their ids, products, variants and quantities. Only prices change: times 100 they give back the paise |
| CheckoutPage.LineAmount | src/app/checkout/page.tsx:75-78 | A line with quantity 0 adds nothing. A line with non-negative prices and quantity adds a non-negative amount |
| CheckoutPage.Reduce | src/app/checkout/page.tsx:74-79 | The fold of non-negative line amounts is non-negative, and of zero-quantity lines is 0 |
| CheckoutPage.CalculateSubtotal | src/app/checkout/page.tsx:72-80 | 0 without a cart and for an empty cart |
| CheckoutPage.CheckoutShipping | src/app/checkout/page.tsx:217 | 0 iff the page's subtotal is at least 299900. Otherwise 5000 |
| CheckoutPage.CheckoutTotal | src/app/checkout/page.tsx:218 | The total exceeds the subtotal by exactly the shipping. There is no tax and no discount |
| CheckoutPage.HandlePaymentGuard | src/app/checkout/page.tsx:83-86 | Payment is requested iff there is a cart with at least one line |
| CheckoutPage.ShippingRuleMatchesServer | src/app/checkout/page.tsx:217 | On the same integer subtotal, the page's shipping rule is the server's |
| CheckoutPage.LineAmountInRupees | src/app/checkout/page.tsx:74-79 | A line's amount on the page is the server's `totalPrice` for it, divided by 100 |
| CheckoutPage.SubtotalMatchesServer | src/app/checkout/page.tsx:72-80 | The page's subtotal of what GET /api/cart returns is the server's order subtotal of the same lines, in rupees |
| CheckoutPage.ThresholdUnitMismatch | src/app/checkout/page.tsx:216-218 | For every server subtotal from 299900 up to but excluding 29990000, the server ships free while the page charges 5000 |
| CheckoutPage.PageFreeShippingBound | src/app/checkout/page.tsx:217 | The page ships free exactly when the server subtotal is at least 100 times the threshold |
| CartPage.WithoutId | src/app/cart/page.tsx:39 | Exactly the items whose id differs |
| CartPage.WithoutIdAppend | src/app/cart/page.tsx:39 | The filter distributes over concatenation |
| CartPage.WithoutIdAbsent | src/app/cart/page.tsx:39 | Filtering an id that no item has changes nothing |
| CartPage.UpdateQuantity | src/app/cart/page.tsx:37-47 | Quantity 0 removes every item with that id and keeps the rest. Any other quantity keeps the length and sets the quantity on matching items only |
| CartPage.MinusAtOneRemoves | src/app/cart/page.tsx:102 | Pressing minus on an item with quantity 1 removes it |
| CartPage.UpdateIdempotent | src/app/cart/page.tsx:37-47 | Applying the same update twice equals applying it once |
| CartPage.PageSubtotal | src/app/cart/page.tsx:49 | Non-negative prices and quantities give a non-negative subtotal. An empty list gives 0 |
| CartPage.PageSubtotalConcat | src/app/cart/page.tsx:49 | The subtotal of two lists is the sum of their subtotals |
| CartPage.RemoveLowersSubtotal | src/app/cart/page.tsx:38-49 | Removing an item leaves the other items in order and lowers the subtotal by its price times quantity |
| CartPage.PageShipping | src/app/cart/page.tsx:50 | 0 iff the subtotal is strictly above 299900. Otherwise 5000 |
| CartPage.ShippingDiffersOnlyAtThreshold | src/app/cart/page.tsx:50 | The page and the server disagree on shipping exactly at a subtotal of 299900 |
| CartPage.PageTax | src/app/cart/page.tsx:51 | The GST is 18% of the subtotal, rounded to the nearest paisa with halves rounded up |
| CartPage.PageTotal | src/app/cart/page.tsx:49-52 | The total is the subtotal plus the GST, plus exactly the 5000 fee when the subtotal is at most 299900 (299900 included) and no fee above it |
| CartPage.PageTotalExceedsQuote | src/app/cart/page.tsx:49-52 | Away from the threshold, the page's total exceeds the server's coupon-free total by exactly the GST |
| Tables.IndexOfLine | src/app/api/cart/update/route.ts:26-32 | Finds a line with the id. There is none iff no line has it |
| Tables.IndexOfKey | src/app/api/cart/add/route.ts:58-66 | Finds a line with the (cart, product, variant) key. There is none iff no line has it |
| Tables.LinesOfCart | src/app/api/cart/route.ts:16-37 | Exactly the lines of the cart |
| Tables.WithoutCart | src/app/api/orders/verify/route.ts:53-59 | Exactly the lines not in the cart |
| Tables.RemoveAt | src/app/api/cart/remove/route.ts:41-43 | Deleting one row keeps the others in order |
| Tables.RemovedIdGone | src/app/api/cart/remove/route.ts:41-43 | With unique ids, the deleted id is no longer found |
| Tables.RemoveAtKeepsUnique | src/app/api/cart/remove/route.ts:41-43 | Deleting keeps ids and (cart, product, variant) keys unique |
| Tables.WithoutCartKeepsUnique | src/app/api/orders/verify/route.ts:53-59 | Clearing a cart keeps ids and keys unique |
| Tables.ClearedCartIsEmpty | src/app/api/orders/verify/route.ts:53-59 | After clearing, the cart has no lines |
| Tables.NoLinesOfCart | src/app/api/cart/route.ts:39-62 | A cart that no line names has no lines |
| Tables.ClearLeavesOtherCarts | src/app/api/orders/verify/route.ts:53-59 | Clearing one cart leaves every other cart's lines unchanged |
| Tables.LinesOfCartAppend | src/app/api/cart/add/route.ts:84-93 | A cart's lines in two tables appended are its lines in each, appended |
| Shop.FindAddress | src/app/api/orders/create/route.ts:53-55 | The row with that id, or none iff no row has it |
| Shop.AddRejection | src/app/api/cart/add/route.ts:7-44 | The status is 401 without a session, 400 without a product id, 404 for an absent or inactive product, and 400 for a quantity above the stock. The request passes iff the product is active and the quantity is within its stock |
| Shop.NonPositiveQuantityAccepted | src/app/api/cart/add/route.ts:16-44 | A zero or negative quantity within stock passes every guard of the add route |
| Shop.UpdateRejection | src/app/api/cart/update/route.ts:7-47 | The status is 401 without a session, 400 for a missing item id or a quantity below 1, 404 for a line that is absent or in another user's cart, and 400 for a quantity above the stock. The request passes iff the line exists, is in the caller's cart, and a given quantity is within stock |
| Shop.RemoveRejection | src/app/api/cart/remove/route.ts:7-38 | The status is 401 without a session and 400 without an item id. The request passes iff the line exists and is in the caller's cart. Otherwise 404 |
| Shop.CheckoutRejection | src/app/api/orders/create/route.ts:14-62 | The status is 401 without a session. With one, the request passes iff there is an address id, the caller's cart has lines, and the address exists and is the caller's. Otherwise 400 |
| Shop.PendingOrder | src/app/api/orders/create/route.ts:122-145 | The order is PENDING/PENDING, carries the gateway's id and no payment id or signature, and has the given order number, the quoted amounts, the item snapshot, the owner, the address and the coupon code as sent |
| Shop.Settled | src/app/api/orders/verify/route.ts:39-50 | The order becomes CONFIRMED/COMPLETED with the payment id and signature stored, whatever its prior status. Nothing else changes |
| Shop.ClearUserCart | src/app/api/orders/verify/route.ts:53-59 | Exactly the lines not in the user's cart remain |
| Shop.CartCreated | src/app/api/cart/add/route.ts:51-55 | Creating a cart for a user without one keeps one cart per user with fresh ids |
| Shop.LineInserted | src/app/api/cart/add/route.ts:84-93 | Inserting a line whose key is not yet present keeps ids and (cart, product, variant) keys unique |
| Shop.LineQuantitySet | src/app/api/cart/add/route.ts:79-82 | Changing a line's quantity keeps the line table valid |
| Shop.LinesRemoved | src/app/api/cart/remove/route.ts:41-43 | Deleting a line keeps the line table valid |
| Shop.LinesCleared | src/app/api/orders/verify/route.ts:53-59 | Clearing a cart keeps the line table valid |
| Shop.ProductKeysKept | src/app/api/orders/verify/route.ts:67-76 | After the stock update, every cart line and order item still names an existing product |
| Shop.LinesOfCartResolve | src/app/api/orders/create/route.ts:33-43 | Every line of the caller's cart has its product, and its variant if any |
| Shop.OrderInserted | src/app/api/orders/create/route.ts:123-145 | Writing an order whose items resolve keeps the order table valid |
| Shop.SettledOrderValid | src/app/api/orders/verify/route.ts:39-50 | Settling an order keeps its items, so the order table stays valid |
| Shop.AddressInserted | src/app/api/user/addresses/route.ts:69-91 | Inserting an address with a fresh id keeps ids unique |
| Shop.Store.GetCart | src/app/api/cart/route.ts:5-93 | 401 without a session, changing nothing. With a session, 200 and the lines of the caller's cart. A cart that exists is left as is. When there is none, exactly one empty cart is created for the caller. No line, order or product changes |
| Shop.Store.GetOrCreateCart | src/app/api/cart/add/route.ts:46-55 | The caller's existing cart, or a new one, and then the only change is that one cart row |
| Shop.Store.AddToCart | src/app/api/cart/add/route.ts:5-106 | Quantity defaults to 1. A rejection changes nothing. Otherwise the cart is created if missing. An existing (product, variant) line grows by the quantity when the sum is within stock, or the request is 400 with the lines unchanged. A new line is appended, or the request is 500 for an unknown variant. The id counter moves only for a created cart and a created line. Products, orders and addresses are untouched, and the store stays valid |
| Shop.Store.UpdateCartItem | src/app/api/cart/update/route.ts:5-66 | A rejection changes nothing. Otherwise only that line's quantity is set to the request, and a missing quantity leaves it. On success the quantity lies in [1, stock]. Nothing else changes |
| Shop.Store.RemoveCartItem | src/app/api/cart/remove/route.ts:5-56 | A rejection changes nothing. Otherwise exactly that line is deleted, the others stay in order, and the id is no longer found |
| Shop.Store.CreateOrder | src/app/api/orders/create/route.ts:12-163 | A rejection makes no gateway request and writes nothing. Otherwise the gateway is asked for the quoted total in INR for the caller's cart. If it fails, 500 and no order. If it succeeds, one PENDING order is written, with the gateway's id, the quoted amounts and the item snapshot of the cart's lines. The stored total equals the amount sent and the subtotal equals the sum of the items. The cart is untouched |
| Shop.Store.VerifyPayment | src/app/api/orders/verify/route.ts:6-92 | 401 without a session and 400 on a signature mismatch; both change nothing. A missing or foreign order gives 500 and changes nothing. Otherwise the order is settled whatever its status, the caller's cart is emptied, and each product's stock drops by its items' quantities |
| Shop.Store.DecrementStock | src/app/api/orders/verify/route.ts:61-76 | The loop leaves the product table equal to the sequential decrement of every item |
| Shop.Store.AddAddress | src/app/api/user/addresses/route.ts:35-105 | 401 without a session and 400 when a required field is missing; both change nothing. Otherwise 200, and the new row with its defaults is inserted as `InsertAddress` states |
| Shop.Store.GetAddresses | src/app/api/user/addresses/route.ts:5-33 | 401 without a session. Otherwise exactly the caller's addresses, defaults first, then newest first |
| Scenarios.AddTwoThenTwo | src/app/api/cart/add/route.ts:68-82 | With stock 3 and no existing line, adding 2 succeeds and adding 2 more is refused with 400 |
| Scenarios.ReplaySettlement | src/app/api/orders/verify/route.ts:39-76 | A replayed, correctly signed callback answers 200 both times and takes twice the order's quantities off the stock |
| Scenarios.SettleWithOtherGatewayOrder | src/app/api/orders/verify/route.ts:17-50 | A valid signature for a different gateway order still confirms the order, and its stored gateway id is unchanged |
| Scenarios.GetCartTwice | src/app/api/cart/route.ts:16-62 | Two GETs leave the caller with exactly one cart (at most one row created) and return the same lines |
| Scenarios.UpdateTwice | src/app/api/cart/update/route.ts:50-53 | A successful update repeated succeeds again and leaves the cart as one update does |
| Scenarios.RemoveTwice | src/app/api/cart/remove/route.ts:26-43 | A successful remove repeated answers 404 |
| Scenarios.IndexOfLineSeesOnlyIds | src/app/api/cart/update/route.ts:26-32 | Lookup by id depends only on the lines' ids, so changing quantities does not move it |

## Left out

- Rendering and browser plumbing: the React components, the admin pages, the
  order-success page, Razorpay script loading and the fetch sequence of the
  checkout page's `handlePayment`. Only its empty-cart guard is modelled. All
  of this is UI and I/O.
- The Razorpay SDK and the network call. Order creation takes the gateway as
  a function parameter. The `receipt_${Date.now()}` string and the public key
  in the response are not modelled.
- HMAC-SHA256 and its hex digest, and the JWT verification of `jose`. These
  are foreign cryptography, passed in as functions.
- Prisma, transactions and concurrency. The store is sequential: every
  request runs to completion before the next, so cart races and the
  non-atomic stock update are not represented.
- Response bodies beyond what the model returns: the status, the cart's lines,
  the new order's id and the gateway request, and the created or listed
  addresses. The product images and categories of `GET /api/cart` are not
  modelled.
- Row ids are numbers from a counter here. The routes rely only on their
  uniqueness and freshness.
- Floating point. Amounts are exact. The rupee conversion of
  `GET /api/cart` divides exactly, and the GST of the cart page rounds the
  exact 18%. The binary rounding of `/ 100` and `* 0.18` and JavaScript's
  precision limit above 2^53 are not modelled.
- CartPage.PageTax: models `Math.round(subtotal * 0.18)` on the exact
  product, not on the binary value of 0.18.
- `generateOrderNumber` and `formatPrice` are not part of this model. The
  order number is a parameter.
- `src/app/api/products/route.ts`, `src/app/api/admin/dashboard/route.ts` and
  the admin toggle route: read-only or admin queries outside the checkout
  pipeline.
- The seed script: only its two coupons are used, as constants.
- The `config.matcher` of the middleware. The gate is modelled for any path
  and passes paths outside /admin.
- Errors the handlers catch only generically, such as a malformed JSON body,
  a database outage or a product whose row vanishes between reads. These
  fall into the routes' 500 answer and are not modelled. The 500 of the
  settlement for a missing or foreign order and the gateway failure of order
  creation are modelled.
- Shop.Store.AddToCart: `variantId || null` makes any falsy variant id mean
  "no variant". The model takes the variant as already normalised to an
  `Option`.
