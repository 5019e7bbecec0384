/** Order pricing on the server: subtotal from the catalog, the flat 2% tax, and
    the line items handed to the payment gateway. */
module Pricing {

  import opened Wrappers
  import opened Catalog

  /** One requested order line: `{product, quantity}` as the client sends it. */
  datatype Item = Item(product: ProductId, quantity: int)

  /** A checkout line: name, unit amount in hundredths of the currency unit, quantity. */
  datatype LineItem = LineItem(name: string, unitAmount: int, quantity: int)

  const TaxLabel: string := "Tax (2%)"

  /** `t` is 2% of `subtotal` rounded down to a whole unit. */
  predicate IsTwoPercentFloor(t: int, subtotal: int)
  {
    100 * t <= 2 * subtotal < 100 * t + 100
  }

  /** `Math.floor(amount * 0.02)` over whole units. */
  function Tax(subtotal: int): (t: int)
    ensures IsTwoPercentFloor(t, subtotal)
    ensures subtotal >= 0 ==> 0 <= t && 50 * t <= subtotal
  {
    (subtotal * 2) / 100
  }

  /** The floor characterisation pins the tax down: there is only one such value. */
  lemma TwoPercentFloorUnique(t1: int, t2: int, subtotal: int)
    requires IsTwoPercentFloor(t1, subtotal) && IsTwoPercentFloor(t2, subtotal)
    ensures t1 == t2
  {
  }

  predicate AllFound(catalog: ProductTable, items: seq<Item>)
  {
    forall i :: 0 <= i < |items| ==> items[i].product in catalog
  }

  function LineTotal(catalog: ProductTable, it: Item): int
    requires it.product in catalog
  {
    catalog[it.product].offerPrice * it.quantity
  }

  /** Reference definition: the sum of offerPrice × quantity over the items. */
  function Subtotal(catalog: ProductTable, items: seq<Item>): int
    requires AllFound(catalog, items)
    decreases |items|
  {
    if |items| == 0 then 0 else LineTotal(catalog, items[0]) + Subtotal(catalog, items[1..])
  }

  lemma {:induction false} SubtotalAppend(catalog: ProductTable, a: seq<Item>, b: seq<Item>)
    requires AllFound(catalog, a) && AllFound(catalog, b)
    ensures AllFound(catalog, a + b)
    ensures Subtotal(catalog, a + b) == Subtotal(catalog, a) + Subtotal(catalog, b)
    decreases |a|
  {
    if |a| != 0 {
      assert (a + b)[1..] == a[1..] + b;
      SubtotalAppend(catalog, a[1..], b);
    } else {
      assert a + b == b;
    }
  }

  /** The `items.reduce` of placeOrderCOD, a left fold; `None` is the TypeError
      raised by `product.offerPrice` when a lookup came back null. */
  function CodSubtotal(catalog: ProductTable, items: seq<Item>): (r: Option<int>)
    ensures r.Some? <==> AllFound(catalog, items)
    ensures r.Some? ==> r.value == Subtotal(catalog, items)
    decreases |items|
  {
    if |items| == 0 then Some(0)
    else
      var init, last := items[..|items| - 1], items[|items| - 1];
      assert items == init + [last];
      match CodSubtotal(catalog, init)
      case None => None
      case Some(acc) =>
        if last.product in catalog then
          SubtotalAppend(catalog, init, [last]);
          Some(acc + LineTotal(catalog, last))
        else None
  }

  /** The Stripe path's `if (!product) continue`: the items whose product exists, in order. */
  function FoundItems(catalog: ProductTable, items: seq<Item>): (r: seq<Item>)
    ensures AllFound(catalog, r)
    ensures |r| <= |items|
    decreases |items|
  {
    if |items| == 0 then []
    else (if items[0].product in catalog then [items[0]] else []) + FoundItems(catalog, items[1..])
  }

  /** The kept items are exactly the requested items whose product exists. */
  lemma {:induction false} FoundItemsMembers(catalog: ProductTable, items: seq<Item>)
    ensures forall x :: x in FoundItems(catalog, items) <==> x in items && x.product in catalog
    decreases |items|
  {
    if |items| != 0 {
      FoundItemsMembers(catalog, items[1..]);
      assert forall x :: x in items <==> x == items[0] || x in items[1..];
    }
  }

  /** When every product exists nothing is skipped. */
  lemma {:induction false} FoundItemsAllFound(catalog: ProductTable, items: seq<Item>)
    requires AllFound(catalog, items)
    ensures FoundItems(catalog, items) == items
    decreases |items|
  {
    if |items| != 0 {
      assert AllFound(catalog, items[1..]);
      FoundItemsAllFound(catalog, items[1..]);
      assert [items[0]] + items[1..] == items;
    }
  }

  lemma {:induction false} FoundItemsAppend(catalog: ProductTable, a: seq<Item>, b: seq<Item>)
    ensures FoundItems(catalog, a + b) == FoundItems(catalog, a) + FoundItems(catalog, b)
    decreases |a|
  {
    if |a| != 0 {
      assert (a + b)[1..] == a[1..] + b;
      FoundItemsAppend(catalog, a[1..], b);
    } else {
      assert a + b == b;
    }
  }

  /** An item whose product is missing contributes nothing: dropping it leaves
      the found items, and so the amount and the line items, as they were. */
  lemma MissingItemSkipped(catalog: ProductTable, items: seq<Item>, i: nat)
    requires i < |items| && items[i].product !in catalog
    ensures FoundItems(catalog, items) == FoundItems(catalog, items[..i] + items[i + 1..])
  {
    assert items == items[..i] + ([items[i]] + items[i + 1..]);
    FoundItemsAppend(catalog, items[..i], [items[i]] + items[i + 1..]);
    FoundItemsAppend(catalog, [items[i]], items[i + 1..]);
    FoundItemsAppend(catalog, items[..i], items[i + 1..]);
  }

  /** The checkout line of one found item: its name, unit price in hundredths, quantity. */
  function ProductLine(catalog: ProductTable, it: Item): LineItem
    requires it.product in catalog
  {
    LineItem(catalog[it.product].name, catalog[it.product].offerPrice * 100, it.quantity)
  }

  function ProductLines(catalog: ProductTable, found: seq<Item>): seq<LineItem>
    requires AllFound(catalog, found)
  {
    seq(|found|, i requires 0 <= i < |found| => ProductLine(catalog, found[i]))
  }

  /** The separate tax line: one unit of the tax, in hundredths. */
  function TaxLine(tax: int): LineItem
  {
    LineItem(TaxLabel, tax * 100, 1)
  }

  /** What the gateway charges for a list of lines: Σ unitAmount × quantity. */
  function LinesTotal(lines: seq<LineItem>): int
    decreases |lines|
  {
    if |lines| == 0 then 0 else lines[0].unitAmount * lines[0].quantity + LinesTotal(lines[1..])
  }

  lemma {:induction false} LinesTotalAppend(a: seq<LineItem>, b: seq<LineItem>)
    ensures LinesTotal(a + b) == LinesTotal(a) + LinesTotal(b)
    decreases |a|
  {
    if |a| != 0 {
      assert (a + b)[1..] == a[1..] + b;
      LinesTotalAppend(a[1..], b);
    } else {
      assert a + b == b;
    }
  }

  /** The product lines charge exactly 100 times the subtotal of the found items. */
  lemma {:induction false} ProductLinesTotal(catalog: ProductTable, found: seq<Item>)
    requires AllFound(catalog, found)
    ensures LinesTotal(ProductLines(catalog, found)) == 100 * Subtotal(catalog, found)
    decreases |found|
  {
    if |found| != 0 {
      var p := catalog[found[0].product].offerPrice;
      assert ProductLines(catalog, found)[1..] == ProductLines(catalog, found[1..]);
      ProductLinesTotal(catalog, found[1..]);
      assert p * 100 * found[0].quantity == 100 * (p * found[0].quantity);
    }
  }

  /** One more item either extends the found items by itself or leaves them alone. */
  lemma FoundItemsSnoc(catalog: ProductTable, items: seq<Item>, i: nat)
    requires i < |items|
    ensures FoundItems(catalog, items[..i + 1])
            == FoundItems(catalog, items[..i]) + (if items[i].product in catalog then [items[i]] else [])
  {
    assert items[..i + 1] == items[..i] + [items[i]];
    FoundItemsAppend(catalog, items[..i], [items[i]]);
    assert FoundItems(catalog, [items[i]][1..]) == [];
  }

  /** Appending a found item adds its line total and its checkout line. */
  lemma PricedSnoc(catalog: ProductTable, found: seq<Item>, item: Item)
    requires AllFound(catalog, found) && item.product in catalog
    ensures AllFound(catalog, found + [item])
    ensures Subtotal(catalog, found + [item]) == Subtotal(catalog, found) + LineTotal(catalog, item)
    ensures ProductLines(catalog, found + [item]) == ProductLines(catalog, found) + [ProductLine(catalog, item)]
  {
    SubtotalAppend(catalog, found, [item]);
  }

  /** The `for…of` loop of placeOrderStripe: it skips missing products, adds
      up the rest and collects one line per product it kept. */
  method PriceFoundItems(catalog: ProductTable, items: seq<Item>)
    returns (amount: int, productLines: seq<LineItem>)
    ensures amount == Subtotal(catalog, FoundItems(catalog, items))
    ensures productLines == ProductLines(catalog, FoundItems(catalog, items))
    ensures |productLines| <= |items|
    ensures LinesTotal(productLines) == 100 * amount
  {
    amount := 0;
    productLines := [];
    for i := 0 to |items|
      invariant amount == Subtotal(catalog, FoundItems(catalog, items[..i]))
      invariant productLines == ProductLines(catalog, FoundItems(catalog, items[..i]))
    {
      FoundItemsSnoc(catalog, items, i);
      var item := items[i];
      if item.product in catalog {
        PricedSnoc(catalog, FoundItems(catalog, items[..i]), item);
        amount := amount + LineTotal(catalog, item);
        productLines := productLines + [ProductLine(catalog, item)];
      } else {
        assert FoundItems(catalog, items[..i + 1]) == FoundItems(catalog, items[..i]);
      }
    }
    assert items[..|items|] == items;
    ProductLinesTotal(catalog, FoundItems(catalog, items));
  }
}
