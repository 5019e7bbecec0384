/** getUserOrders and getAllOrders: the orders a buyer or the seller gets to
    see, newest first. */
module Listing {

  import opened Wrappers
  import opened Orders

  /** `$or: [{paymentType: "COD"}, {isPaid: true}]`. */
  predicate Visible(o: Order)
  {
    o.paymentType == COD || o.isPaid
  }

  /** The query filter: visible, and owned by `owner` when one is given. */
  predicate Selected(o: Order, owner: Option<UserId>)
  {
    Visible(o) && (owner.None? || o.userId == owner.value)
  }

  predicate Distinct(ids: seq<OrderId>)
  {
    forall i, j :: 0 <= i < j < |ids| ==> ids[i] != ids[j]
  }

  /** `.sort({createdAt: -1})`: every listed id is stored, and creation times never increase. */
  predicate NewestFirst(orders: map<OrderId, Order>, ids: seq<OrderId>)
  {
    && (forall i :: 0 <= i < |ids| ==> ids[i] in orders)
    && (forall i, j :: 0 <= i < j < |ids| ==> orders[ids[i]].createdAt >= orders[ids[j]].createdAt)
  }

  /** The head of a newest-first list is at least as new as every entry. */
  lemma HeadIsNewest(orders: map<OrderId, Order>, ids: seq<OrderId>)
    requires NewestFirst(orders, ids)
    ensures |ids| > 0 ==> forall x :: x in ids ==> orders[x].createdAt <= orders[ids[0]].createdAt
  {
  }

  /** An order at least as new as every entry of a newest-first list can go in front. */
  lemma ConsNewest(orders: map<OrderId, Order>, head: OrderId, rest: seq<OrderId>)
    requires head in orders && NewestFirst(orders, rest)
    requires forall x :: x in rest ==> orders[x].createdAt <= orders[head].createdAt
    ensures NewestFirst(orders, [head] + rest)
  {
  }

  /** A new id in front of a list without repeats leaves no repeats. */
  lemma ConsDistinct(head: OrderId, rest: seq<OrderId>)
    ensures Distinct(rest) && head !in rest ==> Distinct([head] + rest)
  {
  }

  /** In a list without repeats the head does not occur again in the tail. */
  lemma TailLacksHead(ids: seq<OrderId>)
    requires |ids| > 0
    ensures Distinct(ids) ==> ids[0] !in ids[1..]
  {
  }

  /** Insert `id` in front of the first listed order that is not newer than it. */
  function InsertNewest(orders: map<OrderId, Order>, ids: seq<OrderId>, id: OrderId): (r: seq<OrderId>)
    requires id in orders && NewestFirst(orders, ids)
    ensures NewestFirst(orders, r)
    ensures |r| == |ids| + 1
    ensures forall x :: x in r <==> x in ids || x == id
    ensures Distinct(ids) && id !in ids ==> Distinct(r)
    decreases |ids|
  {
    HeadIsNewest(orders, ids);
    if |ids| == 0 || orders[id].createdAt >= orders[ids[0]].createdAt then
      ConsNewest(orders, id, ids);
      ConsDistinct(id, ids);
      [id] + ids
    else
      var rest := InsertNewest(orders, ids[1..], id);
      assert ids == [ids[0]] + ids[1..];
      TailLacksHead(ids);
      ConsNewest(orders, ids[0], rest);
      ConsDistinct(ids[0], rest);
      [ids[0]] + rest
  }

  /** The query: every selected stored order exactly once, newest first. */
  method ListOrders(orders: map<OrderId, Order>, owner: Option<UserId>) returns (ids: seq<OrderId>)
    ensures forall id :: id in ids <==> id in orders && Selected(orders[id], owner)
    ensures Distinct(ids)
    ensures NewestFirst(orders, ids)
  {
    ids := [];
    var rest := orders.Keys;
    while rest != {}
      invariant rest <= orders.Keys
      invariant forall id :: id in ids <==> id in orders && id !in rest && Selected(orders[id], owner)
      invariant Distinct(ids)
      invariant NewestFirst(orders, ids)
      decreases rest
    {
      var id :| id in rest;
      rest := rest - {id};
      if Selected(orders[id], owner) {
        ids := InsertNewest(orders, ids, id);
      }
    }
  }

  /** getUserOrders: the user's orders that are COD or paid, newest first. */
  method GetUserOrders(st: Store, userId: UserId) returns (ids: seq<OrderId>)
    ensures forall id :: id in ids <==>
              id in st.orders && st.orders[id].userId == userId
              && (st.orders[id].paymentType == COD || st.orders[id].isPaid)
    ensures Distinct(ids) && NewestFirst(st.orders, ids)
  {
    ids := ListOrders(st.orders, Some(userId));
  }

  /** getAllOrders: every order that is COD or paid, newest first; an unpaid
      online order is never listed. */
  method GetAllOrders(st: Store) returns (ids: seq<OrderId>)
    ensures forall id :: id in ids <==> id in st.orders && Visible(st.orders[id])
    ensures forall id :: id in ids ==> !(st.orders[id].paymentType == Online && !st.orders[id].isPaid)
    ensures Distinct(ids) && NewestFirst(st.orders, ids)
  {
    ids := ListOrders(st.orders, None);
  }

  /** An online order is hidden from both listings until its payment succeeds,
      and listed from then on; the success also empties the buyer's saved cart. */
  lemma PaymentRevealsOrder(st: Store, catalog: Catalog.ProductTable, userId: UserId, items: seq<Pricing.Item>,
                            address: Option<AddressId>, now: int, gateway: GatewayAnswer)
    requires !InvalidRequest(items, address)
    ensures var placed := PlaceOrderStripe(st, catalog, userId, items, address, now, gateway).store;
            var paid := HandleWebhook(placed, true, Succeeded(st.nextId, userId)).store;
            && st.nextId in placed.orders && !Visible(placed.orders[st.nextId])
            && st.nextId in paid.orders && Selected(paid.orders[st.nextId], Some(userId))
            && (userId in st.carts ==> paid.carts[userId] == map[])
  {
  }

  /** A failed payment removes the online order for good: it is not stored, so no listing shows it. */
  lemma FailureDiscardsOrder(st: Store, catalog: Catalog.ProductTable, userId: UserId, items: seq<Pricing.Item>,
                             address: Option<AddressId>, now: int, gateway: GatewayAnswer)
    requires FreshIds(st) && !InvalidRequest(items, address)
    ensures var placed := PlaceOrderStripe(st, catalog, userId, items, address, now, gateway).store;
            var failed := HandleWebhook(placed, true, Failed(st.nextId)).store;
            st.nextId !in failed.orders && failed.orders == st.orders
  {
  }
}
