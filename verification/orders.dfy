/** The order store and its handlers: cash-on-delivery and online placement,
    and the payment gateway's webhook that settles or discards online orders. */
module Orders {

  import opened Wrappers
  import opened Catalog
  import opened CartStore
  import opened Pricing

  type UserId = string
  type AddressId = string
  /** Order ids are handed out by a counter; the database's fresh object ids play that role. */
  type OrderId = nat

  datatype PaymentType = COD | Online

  /** A stored order. `items` is the request's list as sent, found or not. */
  datatype Order = Order(
    userId: UserId,
    items: seq<Item>,
    amount: int,
    address: AddressId,
    paymentType: PaymentType,
    isPaid: bool,
    createdAt: int)

  /** What the handlers read and write: the orders, every user's saved cart, and
      the next unused order id. */
  datatype Store = Store(orders: map<OrderId, Order>, carts: map<UserId, Cart>, nextId: OrderId)

  /** Every stored id was handed out before `nextId`. */
  predicate FreshIds(st: Store)
  {
    forall id :: id in st.orders ==> id < st.nextId
  }

  /** The JSON answer: `{success, message}` or, for a created session, `{success: true, url}`. */
  datatype Reply = Message(success: bool, message: string) | Redirect(url: string)

  /** The `metadata` attached to a checkout session. */
  datatype Metadata = Metadata(orderId: OrderId, userId: UserId)

  /** What placeOrderStripe asks the gateway for. */
  datatype CheckoutRequest = CheckoutRequest(lineItems: seq<LineItem>, metadata: Metadata)

  /** The gateway's answer to a session request. */
  datatype GatewayAnswer = SessionCreated(url: string) | GatewayError(message: string)

  /** The outcome of a placement: the new store, the reply, and the checkout
      request sent to the gateway, if any. */
  datatype Placement = Placement(store: Store, reply: Reply, checkout: Option<CheckoutRequest>)

  const InvalidData: string := "Invalid Data"
  const OrderPlaced: string := "Order Placed Successfully"
  /** The message of the TypeError raised by `product.offerPrice` on a null product. */
  const NullProductError: string := "Cannot read properties of null (reading 'offerPrice')"

  /** `!address || items.length === 0`: no address, an empty address, or no items. */
  predicate InvalidRequest(items: seq<Item>, address: Option<AddressId>)
  {
    address.None? || address.value == "" || |items| == 0
  }

  /** Persist `o` under the next id. */
  function AddOrder(st: Store, o: Order): (r: Store)
    ensures r.orders.Keys == st.orders.Keys + {st.nextId}
    ensures r.orders[st.nextId] == o
    ensures forall id :: id in st.orders && id != st.nextId ==> r.orders[id] == st.orders[id]
    ensures r.carts == st.carts
    ensures FreshIds(st) ==> st.nextId !in st.orders && FreshIds(r)
  {
    st.(orders := st.orders[st.nextId := o], nextId := st.nextId + 1)
  }

  /** placeOrderCOD. Invalid input answers success:true with "Invalid Data" and
      stores nothing; a missing product fails the whole request; otherwise one
      COD order is stored whose amount is the subtotal plus 2% tax rounded down. */
  function PlaceOrderCOD(st: Store, catalog: ProductTable, userId: UserId, items: seq<Item>,
                         address: Option<AddressId>, now: int): (r: Placement)
    ensures r.checkout.None?
    ensures r.store.carts == st.carts
    ensures FreshIds(st) ==> FreshIds(r.store)
    ensures InvalidRequest(items, address) ==> r.store == st && r.reply == Message(true, InvalidData)
    ensures !InvalidRequest(items, address) && !AllFound(catalog, items) ==>
              r.store == st && r.reply == Message(false, NullProductError)
    ensures !InvalidRequest(items, address) && AllFound(catalog, items) ==>
              && r.reply == Message(true, OrderPlaced)
              && r.store.nextId == st.nextId + 1
              && r.store.orders.Keys == st.orders.Keys + {st.nextId}
              && (forall id :: id in st.orders && id != st.nextId ==> r.store.orders[id] == st.orders[id])
              && var o := r.store.orders[st.nextId];
                 && o.userId == userId && o.items == items && o.address == address.value
                 && o.paymentType == COD && !o.isPaid && o.createdAt == now
                 && IsTwoPercentFloor(o.amount - Subtotal(catalog, items), Subtotal(catalog, items))
  {
    if InvalidRequest(items, address) then
      Placement(st, Message(true, InvalidData), None)
    else
      match CodSubtotal(catalog, items)
      case None => Placement(st, Message(false, NullProductError), None)
      case Some(subtotal) =>
        var o := Order(userId, items, subtotal + Tax(subtotal), address.value, COD, false, now);
        Placement(AddOrder(st, o), Message(true, OrderPlaced), None)
  }

  /** placeOrderStripe. Invalid input answers success:false and stores nothing.
      Otherwise missing products are skipped, an unpaid Online order is stored
      with the remaining items' subtotal plus tax, and a checkout request with one
      line per kept item, a tax line and the order's metadata goes to the gateway.
      The order stays stored whatever the gateway answers. */
  function PlaceOrderStripe(st: Store, catalog: ProductTable, userId: UserId, items: seq<Item>,
                            address: Option<AddressId>, now: int, gateway: GatewayAnswer): (r: Placement)
    ensures r.store.carts == st.carts
    ensures FreshIds(st) ==> FreshIds(r.store)
    ensures InvalidRequest(items, address) ==>
              r.store == st && r.reply == Message(false, InvalidData) && r.checkout.None?
    ensures !InvalidRequest(items, address) ==>
              var found := FoundItems(catalog, items);
              var subtotal := Subtotal(catalog, found);
              && r.store.nextId == st.nextId + 1
              && r.store.orders.Keys == st.orders.Keys + {st.nextId}
              && (forall id :: id in st.orders && id != st.nextId ==> r.store.orders[id] == st.orders[id])
              && var o := r.store.orders[st.nextId];
                 && o.userId == userId && o.items == items && o.address == address.value
                 && o.paymentType == Online && !o.isPaid && o.createdAt == now
                 && IsTwoPercentFloor(o.amount - subtotal, subtotal)
                 && r.checkout.Some?
                 && r.checkout.value.metadata == Metadata(st.nextId, userId)
                 && |r.checkout.value.lineItems| == |found| + 1
                 && (forall i :: 0 <= i < |found| ==>
                       r.checkout.value.lineItems[i] == ProductLine(catalog, found[i]))
                 && r.checkout.value.lineItems[|found|] == LineItem(TaxLabel, 100 * (o.amount - subtotal), 1)
                 && LinesTotal(r.checkout.value.lineItems) == 100 * o.amount
                 && (gateway.SessionCreated? ==> r.reply == Redirect(gateway.url))
                 && (gateway.GatewayError? ==> r.reply == Message(false, gateway.message))
  {
    if InvalidRequest(items, address) then
      Placement(st, Message(false, InvalidData), None)
    else
      var found := FoundItems(catalog, items);
      var subtotal := Subtotal(catalog, found);
      var tax := Tax(subtotal);
      var o := Order(userId, items, subtotal + tax, address.value, Online, false, now);
      var lines := ProductLines(catalog, found) + [TaxLine(tax)];
      ProductLinesTotal(catalog, found);
      LinesTotalAppend(ProductLines(catalog, found), [TaxLine(tax)]);
      var reply := match gateway
        case SessionCreated(url) => Redirect(url)
        case GatewayError(msg) => Message(false, msg);
      Placement(AddOrder(st, o), reply, Some(CheckoutRequest(lines, Metadata(st.nextId, userId))))
  }

  /** When every product exists the two paths charge the same amount for the same items. */
  lemma PlacementsAgreeWhenAllFound(st: Store, catalog: ProductTable, userId: UserId, items: seq<Item>,
                                    address: Option<AddressId>, now: int, gateway: GatewayAnswer)
    requires !InvalidRequest(items, address) && AllFound(catalog, items)
    ensures PlaceOrderCOD(st, catalog, userId, items, address, now).store.orders[st.nextId].amount
            == PlaceOrderStripe(st, catalog, userId, items, address, now, gateway).store.orders[st.nextId].amount
  {
    FoundItemsAllFound(catalog, items);
  }

  /** Two units of a product priced 100: subtotal 200, tax 4, order amount 204,
      and the gateway is asked for 20400 hundredths. */
  lemma StripeExample()
    ensures var catalog := map["p" := Product("p", "Tea", 100)];
            var r := PlaceOrderStripe(Store(map[], map[], 0), catalog, "u", [Item("p", 2)], Some("a"), 0,
                                      SessionCreated("url"));
            && r.store.orders[0].amount == 204
            && r.checkout.value.lineItems == [LineItem("Tea", 10000, 2), LineItem(TaxLabel, 400, 1)]
            && LinesTotal(r.checkout.value.lineItems) == 20400
  {
  }

  /** Webhook events after the session lookup: the metadata of the session that
      paid, or failed, or any other event type. */
  datatype Event = Succeeded(orderId: OrderId, userId: UserId) | Failed(orderId: OrderId) | Other(kind: string)

  /** `{recieved: true}` (the key is misspelt so in the reply) or the 400 answer to a payload whose signature does not verify. */
  datatype WebhookReply = Received | Rejected

  datatype WebhookResult = WebhookResult(store: Store, reply: WebhookReply)

  /** stripeWebhooks: an unverified payload changes nothing; success marks the
      order paid and empties the user's saved cart; failure deletes the order;
      anything else is acknowledged and ignored. Updates of a missing order or
      user do nothing, as the database's find-and-update does. */
  function HandleWebhook(st: Store, verified: bool, ev: Event): (r: WebhookResult)
    ensures !verified ==> r.store == st && r.reply == Rejected
    ensures verified ==> r.reply == Received && r.store.nextId == st.nextId
    ensures verified && ev.Succeeded? ==>
              && r.store.orders.Keys == st.orders.Keys
              && (ev.orderId in st.orders ==>
                    r.store.orders[ev.orderId] == st.orders[ev.orderId].(isPaid := true))
              && (forall id :: id in st.orders && id != ev.orderId ==> r.store.orders[id] == st.orders[id])
              && r.store.carts.Keys == st.carts.Keys
              && (ev.userId in st.carts ==> r.store.carts[ev.userId] == map[])
              && (forall u :: u in st.carts && u != ev.userId ==> r.store.carts[u] == st.carts[u])
    ensures verified && ev.Failed? ==>
              && r.store.orders.Keys == st.orders.Keys - {ev.orderId}
              && (forall id :: id in r.store.orders ==> r.store.orders[id] == st.orders[id])
              && r.store.carts == st.carts
    ensures verified && ev.Other? ==> r.store == st
    ensures FreshIds(st) ==> FreshIds(r.store)
  {
    if !verified then WebhookResult(st, Rejected)
    else
      match ev
      case Succeeded(orderId, userId) =>
        var orders := if orderId in st.orders
                      then st.orders[orderId := st.orders[orderId].(isPaid := true)]
                      else st.orders;
        var carts := if userId in st.carts then st.carts[userId := map[]] else st.carts;
        WebhookResult(st.(orders := orders, carts := carts), Received)
      case Failed(orderId) =>
        WebhookResult(st.(orders := st.orders - {orderId}), Received)
      case Other(_) =>
        WebhookResult(st, Received)
  }

  /** Redelivering a verified event leaves the store as the first delivery did. */
  lemma WebhookIdempotent(st: Store, ev: Event)
    ensures HandleWebhook(HandleWebhook(st, true, ev).store, true, ev) == HandleWebhook(st, true, ev)
  {
  }
}
