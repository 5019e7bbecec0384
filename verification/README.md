# Storefront cart and order flow, modelled in Dafny

This project models two small sequential parts of a storefront, a React client with an Express/Mongoose server that takes payments through Stripe.

* **The client cart** (`AppContext.jsx`). The cart maps product ids to quantities. `addToCard`, `updateCardItem` and `removeFromCard` each build a modified copy of the map. `getCardCount` and `getCardAmount` fold over it. The model uses an immutable `map<ProductId, int>` and pure functions. The two folds are methods that walk the keys as the `for…in` loops do. Each is proved equal to a single order-independent sum (`MapSums.MapSum`).
* **Order pricing and the order lifecycle** (`orderController.js`).
  * Cash-on-delivery placement stores a COD order. Its amount is the subtotal plus a 2% tax rounded down.
  * Online placement skips items whose product cannot be found. It stores an unpaid `Online` order and builds the checkout request sent to the gateway: one line per kept item, a tax line, and `{orderId, userId}` metadata.
  * The webhook marks an order paid and empties the buyer's saved cart. On a failure event it deletes the order. Any other event changes nothing.
  * The two listings show only COD or paid orders, newest first.

  Every handler is a pure transition over a `Store`: the orders by id, every user's saved cart, and the next unused order id.

Modules, one file each: `Wrappers` (Option), `Catalog` (products, `products.find`), `MapSums` (the sum of a map), `CartStore` (the client cart), `Pricing` (tax, subtotals, checkout lines), `Orders` (store, placement, webhook), `Listing` (the order queries).

Modelling choices:
* Prices are whole numbers of the currency unit (`offerPrice: nat`). The tax `Math.floor(amount * 0.02)` becomes `(amount * 2) / 100`. Dafny's division is Euclidean, so this equals the floor for every integer. Gateway unit amounts are hundredths of the unit (`price * 100`, `tax * 100`).
* JavaScript truthiness of `cardData[itemId]` is modelled as "present and not 0" (`CartStore.Holds`). A present negative quantity is truthy, so `addToCard` and `removeFromCard` step it by one like any other. A present 0 is falsy.
* The TypeErrors the source relies on are modelled as error results:
  * `product.offerPrice` on a null product in the COD reduce. The model treats the reduce as a sequential fold, so the request fails with that error's message and stores nothing (see `Orders.PlaceOrderCOD` under "## Left out" for the concurrent lookups).
  * `itemInfo.offerPrice` on a missing product in `getCardAmount`. The method then returns `None`.
* Environment inputs are parameters. `now` stands for `createdAt`. `verified` is the outcome of the signature check. `gateway` is the gateway's answer to the session request. The webhook `Event` already carries the session metadata that the source fetches with `sessions.list`. Fresh order ids come from the store's counter.

Quirks of the code that the model keeps as written:
* With no address or no items, `placeOrderCOD` answers `success: true` with "Invalid Data" (`Orders.PlaceOrderCOD`). `placeOrderStripe` answers `success: false` in the same case.
* A missing product in the COD path is not checked explicitly. No order is stored; in the model the request fails through the TypeError's message.
* The online path silently skips missing products (`Pricing.MissingItemSkipped`). The stored order still lists every requested item, but its amount covers only the found ones.
* `updateCardItem` stores any quantity, including 0 and negative ones (`CartStore.UpdateCartItem`). Storing a quantity that is not positive breaks the positive-quantity invariant.
* On a bad signature the source answers 400 and does not return. It then throws on `event.type`, so no state changes. The model returns `Rejected` with the store untouched.
* The order is stored before the gateway is asked for a session. A gateway error therefore leaves an unpaid online order behind, which no listing shows.

## Model

| member | source | states |
|---|---|---|
| Catalog.FindProduct | client/src/context/AppContext.jsx:112 | the lookup finds nothing exactly when no listed product has the id; a found product is in the list and has that id |
| Catalog.FindProductFirst | client/src/context/AppContext.jsx:112 | the product found is the first entry carrying the id |
| MapSums.MapSumRemove | client/src/context/AppContext.jsx:100-106 | the sum of a map splits off any key, so the total does not depend on the order the keys are visited in |
| CartStore.AddToCart | client/src/context/AppContext.jsx:66-74 | an absent or zero entry becomes 1, a truthy entry goes up by 1, no other key changes, and an all-positive cart stays all-positive |
| CartStore.UpdateCartItem | client/src/context/AppContext.jsx:79-84 | the entry becomes exactly the given quantity with no guard; other keys are kept; an all-positive cart stays all-positive iff the quantity is positive |
| CartStore.RemoveFromCart | client/src/context/AppContext.jsx:87-97 | a missing or zero entry leaves the cart unchanged; an entry of 1 is deleted; any other truthy entry goes down by 1; other keys are kept; positivity is preserved |
| CartStore.AddThenRemove | client/src/context/AppContext.jsx:66-97 | remove after add gives back the cart iff the entry was absent or neither 0 nor -1 |
| CartStore.AddThenRemovePositive | client/src/context/AppContext.jsx:66-97 | on an all-positive cart, remove after add is the identity |
| CartStore.RemoveThenAdd | client/src/context/AppContext.jsx:66-97 | add after remove gives back the cart iff the entry was truthy |
| CartStore.AddCountDelta | client/src/context/AppContext.jsx:66-106 | adding raises the item count by exactly 1, from any cart |
| CartStore.RemoveCountDelta | client/src/context/AppContext.jsx:87-106 | removing lowers the count by 1 on a truthy entry and leaves it unchanged otherwise |
| CartStore.UpdateCountDelta | client/src/context/AppContext.jsx:79-106 | updating moves the count by the new quantity minus the old one |
| CartStore.GetCartCount | client/src/context/AppContext.jsx:100-106 | the loop returns the sum of all quantities, at least the number of entries when all are positive |
| CartStore.LineAmount | client/src/context/AppContext.jsx:113-115 | a cart line never contributes a negative amount |
| CartStore.GetCartAmount | client/src/context/AppContext.jsx:109-118 | the loop fails exactly when a positive entry has no listed product; otherwise it returns the untaxed sum of price times quantity over positive entries, which is non-negative |
| CartStore.AddAmountDelta | client/src/context/AppContext.jsx:66-118 | adding a listed product to a cart with no negative entry for it raises the amount by exactly that product's price |
| Pricing.Tax | server/controllers/orderController.js:21 | the tax is 2% of the subtotal rounded down; for a non-negative subtotal it is non-negative and at most 2% of it |
| Pricing.TwoPercentFloorUnique | server/controllers/orderController.js:65 | only one value is 2% of a subtotal rounded down |
| Pricing.CodSubtotal | server/controllers/orderController.js:15-18 | the reduce fails exactly when some item's product is missing, and otherwise equals the sum of offerPrice times quantity |
| Pricing.FoundItems | server/controllers/orderController.js:50-52 | every kept item's product exists, and no more items are kept than were requested |
| Pricing.FoundItemsMembers | server/controllers/orderController.js:50-52 | the kept items are exactly the requested items whose product exists |
| Pricing.FoundItemsAllFound | server/controllers/orderController.js:50-52 | when every product exists, nothing is skipped |
| Pricing.MissingItemSkipped | server/controllers/orderController.js:50-62 | an item with a missing product can be dropped from the request without changing the kept items |
| Pricing.ProductLinesTotal | server/controllers/orderController.js:82-89 | the product lines charge exactly 100 times the subtotal of the kept items |
| Pricing.PriceFoundItems | server/controllers/orderController.js:47-62 | the loop's amount is the subtotal of the kept items; it collects one line per kept item, and those lines charge 100 times the amount |
| Orders.AddOrder | server/controllers/orderController.js:69-76 | a new order is stored under an unused id, every other order and every cart are kept |
| Orders.PlaceOrderCOD | server/controllers/orderController.js:7-35 | invalid input stores nothing and answers success with "Invalid Data"; a missing product stores nothing and fails; otherwise exactly one COD order is added with the request's user, items and address and amount = subtotal + floor(2% of subtotal), and nothing else changes |
| Orders.PlaceOrderStripe | server/controllers/orderController.js:38-117 | invalid input stores nothing and fails; otherwise one unpaid Online order with amount = kept subtotal + tax is added; the request has one line per kept item and then one tax line of quantity 1 and unit amount tax × 100, carries the order's metadata, and charges 100 times the order amount; the reply follows the gateway; the order stays stored on a gateway error |
| Orders.PlacementsAgreeWhenAllFound | server/controllers/orderController.js:15-66 | when every product exists, the COD and online paths charge the same amount |
| Orders.StripeExample | server/controllers/orderController.js:64-99 | two units at price 100 give an order amount of 204, a product line of 10000 × 2, a tax line of 400 × 1, and a charge of 20400 hundredths |
| Orders.HandleWebhook | server/controllers/orderController.js:120-176 | an unverified payload is rejected with no change; success marks exactly that order paid and empties exactly that user's cart; failure deletes exactly that order; other events change nothing; verified events are acknowledged |
| Orders.WebhookIdempotent | server/controllers/orderController.js:139-168 | delivering the same verified event twice leaves the same store as delivering it once |
| Listing.InsertNewest | server/controllers/orderController.js:187 | inserting into a newest-first list keeps it newest-first, adds exactly the new id, and keeps ids distinct |
| Listing.ListOrders | server/controllers/orderController.js:182-187 | the result holds every stored order matching the filter exactly once, and nothing else, sorted by creation time descending |
| Listing.GetUserOrders | server/controllers/orderController.js:179-192 | the user's listing holds exactly that user's COD or paid orders, each once, newest first |
| Listing.GetAllOrders | server/controllers/orderController.js:195-206 | the seller's listing holds exactly the COD or paid orders, each once, newest first, and never an unpaid online order |
| Listing.PaymentRevealsOrder | server/controllers/orderController.js:139-187 | a newly placed online order is hidden until its success event arrives and is listed for its buyer afterwards, and that event empties the buyer's saved cart |
| Listing.FailureDiscardsOrder | server/controllers/orderController.js:157-168 | after the failure event the online order is gone and the store holds exactly the orders it held before the placement |

## Left out

- React state hooks, the `useEffect` that pushes the cart to the server, axios fetches, toasts and navigation: UI and I/O with eventual-consistency semantics.
- server/controllers/cardController.js and server/routes/cardRoute.js: a single database write of the client's cart, and route wiring with the authentication middleware.
- Stripe SDK calls. `checkout.sessions.create` becomes the `gateway` parameter. `sessions.list` becomes the metadata carried by `Event`. `webhooks.constructEvent` (HMAC signature verification) becomes the `verified` flag. A session lookup that returns no session is not modelled.
- The success and cancel URLs built from the request's `origin`, the currency "inr" and the session mode: constants of the gateway request with no logic.
- Mongoose persistence, validation and connection failures; only the find-and-update semantics on a missing order or user (no change) are kept.
- A request body whose `items` is missing (the `items.length` TypeError); `items` is always a sequence here.
- Non-integer cart values (strings, NaN): quantities are integers.
- Floating point. `Math.floor(totalAmount * 100) / 100` is the identity on whole units. `Math.round(item.price * 100)` equals `price * 100` for whole prices. The rounding error of `amount * 0.02` in binary floating point is not modelled.
- Listing.GetUserOrders: returns the ids of the listed orders in order, not the orders with their items and address expanded by `populate`.
- Listing.GetAllOrders: returns ids as above; the order among orders created at the same instant is left open, as the database leaves it.
- Orders.HandleWebhook: the console logging of unhandled event types is not modelled, and neither is the unhandled rejection after the 400 answer.
- Orders.PlaceOrderCOD: the `items.reduce(async …)` at orderController.js:15-18 is modelled as a sequential left fold. In the source every callback starts its product lookup at once. A callback whose product is missing rejects its promise before the next callback awaits it, and that rejection may surface as an unhandled rejection rather than reach the catch at lines 32-33; only a missing last item is sure to reach it. The concurrent lookups and that unhandled rejection are not modelled; the model promises only that no order is stored and the request fails.
- Orders.PlaceOrderCOD: the COD order's `isPaid` is stored as false, the database schema's default. That schema file is not part of this model.
