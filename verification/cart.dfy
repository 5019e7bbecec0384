/** The client-side cart of `AppContext`: a map from product id to quantity,
    replaced by a modified copy on every change. */
module CartStore {

  import opened Wrappers
  import opened Catalog
  import opened MapSums

  type Cart = map<ProductId, int>

  /** JavaScript truthiness of `cardData[itemId]`: the key is present and its
      quantity is not 0 (a negative quantity is truthy too). */
  predicate Holds(c: Cart, k: ProductId)
  {
    k in c && c[k] != 0
  }

  /** The invariant the cart is meant to keep: every stored quantity is positive. */
  predicate AllPositive(c: Cart)
  {
    forall k :: k in c ==> c[k] > 0
  }

  /** `addToCard`: a truthy entry goes up by one, otherwise the entry becomes 1. */
  function AddToCart(c: Cart, k: ProductId): (r: Cart)
    ensures r.Keys == c.Keys + {k}
    ensures k !in c ==> r[k] == 1
    ensures k in c && c[k] == 0 ==> r[k] == 1
    ensures k in c && c[k] != 0 ==> r[k] == c[k] + 1
    ensures forall j :: j in c && j != k ==> r[j] == c[j]
    ensures AllPositive(c) ==> AllPositive(r)
  {
    if Holds(c, k) then c[k := c[k] + 1] else c[k := 1]
  }

  /** `updateCardItem`: the entry is set to exactly `quantity`, whatever its sign. */
  function UpdateCartItem(c: Cart, k: ProductId, quantity: int): (r: Cart)
    ensures r.Keys == c.Keys + {k}
    ensures r[k] == quantity
    ensures forall j :: j in c && j != k ==> r[j] == c[j]
    ensures AllPositive(c) ==> (AllPositive(r) <==> quantity > 0)
  {
    c[k := quantity]
  }

  /** `removeFromCard`: a truthy entry goes down by one and is deleted when it
      reaches 0; a missing or zero entry leaves the cart as it was. */
  function RemoveFromCart(c: Cart, k: ProductId): (r: Cart)
    ensures !Holds(c, k) ==> r == c
    ensures Holds(c, k) && c[k] == 1 ==> r.Keys == c.Keys - {k}
    ensures Holds(c, k) && c[k] != 1 ==> r.Keys == c.Keys && r[k] == c[k] - 1
    ensures forall j :: j in c && j != k ==> j in r && r[j] == c[j]
    ensures AllPositive(c) ==> AllPositive(r)
  {
    if Holds(c, k) then
      if c[k] - 1 == 0 then c - {k} else c[k := c[k] - 1]
    else c
  }

  /** Removing what was just added restores the cart exactly when the entry was
      absent or neither 0 nor -1 (0 is falsy, and -1 + 1 lands on 0). */
  lemma AddThenRemove(c: Cart, k: ProductId)
    ensures RemoveFromCart(AddToCart(c, k), k) == c <==> (k !in c || (c[k] != 0 && c[k] != -1))
  {
  }

  /** On a cart that keeps the invariant, add then remove is the identity. */
  lemma AddThenRemovePositive(c: Cart, k: ProductId)
    requires AllPositive(c)
    ensures RemoveFromCart(AddToCart(c, k), k) == c
  {
  }

  /** Adding back what was just removed restores the cart exactly when the entry was truthy. */
  lemma RemoveThenAdd(c: Cart, k: ProductId)
    ensures AddToCart(RemoveFromCart(c, k), k) == c <==> Holds(c, k)
  {
  }

  /** What `getCardCount` is meant to compute: the sum of all quantities. */
  ghost function CartCount(c: Cart): int
  {
    MapSum(c)
  }

  /** `addToCard` raises the count by exactly one, from any cart. */
  lemma AddCountDelta(c: Cart, k: ProductId)
    ensures CartCount(AddToCart(c, k)) == CartCount(c) + 1
  {
    MapSumUpdate(c, k, if Holds(c, k) then c[k] + 1 else 1);
  }

  /** `removeFromCard` lowers the count by one on a truthy entry and keeps it otherwise. */
  lemma RemoveCountDelta(c: Cart, k: ProductId)
    ensures CartCount(RemoveFromCart(c, k)) == CartCount(c) - (if Holds(c, k) then 1 else 0)
  {
    if Holds(c, k) {
      if c[k] == 1 {
        MapSumDelete(c, k);
      } else {
        MapSumUpdate(c, k, c[k] - 1);
      }
    }
  }

  /** `updateCardItem` moves the count by the difference between the new and old quantity. */
  lemma UpdateCountDelta(c: Cart, k: ProductId, quantity: int)
    ensures CartCount(UpdateCartItem(c, k, quantity))
            == CartCount(c) - (if k in c then c[k] else 0) + quantity
  {
    MapSumUpdate(c, k, quantity);
  }

  /** `getCardCount`: the `for…in` loop adding up every quantity. */
  method GetCartCount(c: Cart) returns (total: int)
    ensures total == CartCount(c)
    ensures AllPositive(c) ==> total >= |c|
  {
    total := 0;
    var rest := c;
    while rest != map[]
      invariant forall j :: j in rest ==> j in c && rest[j] == c[j]
      invariant total + MapSum(rest) == MapSum(c)
      invariant AllPositive(c) ==> total >= |c| - |rest|
      decreases |rest|
    {
      var k :| k in rest;
      RemoveShrinks(rest, k);
      MapSumRemove(rest, k);
      total := total + rest[k];
      rest := rest - {k};
    }
  }

  /** One cart line's contribution to `getCardAmount`: price times quantity for a
      positive quantity, nothing otherwise (an unknown product is reported by `Priced`). */
  function LineAmount(products: seq<Product>, k: ProductId, quantity: int): (r: int)
    ensures r >= 0
  {
    if quantity > 0 then
      match FindProduct(products, k)
      case Some(p) => p.offerPrice * quantity
      case None => 0
    else 0
  }

  /** Every positive entry names a product in the list; otherwise `itemInfo.offerPrice` throws. */
  predicate Priced(c: Cart, products: seq<Product>)
  {
    forall k :: k in c && c[k] > 0 ==> FindProduct(products, k).Some?
  }

  ghost function AmountTerms(c: Cart, products: seq<Product>): map<ProductId, int>
  {
    map k | k in c :: LineAmount(products, k, c[k])
  }

  /** What `getCardAmount` is meant to compute: the sum of the line amounts, with no tax. */
  ghost function CartAmount(c: Cart, products: seq<Product>): int
  {
    MapSum(AmountTerms(c, products))
  }

  /** Taking one entry out of the cart takes its line amount out of the total. */
  lemma AmountTermsRemove(c: Cart, products: seq<Product>, k: ProductId)
    requires k in c
    ensures |c - {k}| < |c|
    ensures CartAmount(c, products) == LineAmount(products, k, c[k]) + CartAmount(c - {k}, products)
  {
    RemoveShrinks(c, k);
    MapSumRemove(AmountTerms(c, products), k);
    assert AmountTerms(c, products) - {k} == AmountTerms(c - {k}, products);
  }

  /** `getCardAmount`: the loop over the cart; `None` stands for the TypeError
      thrown when a positive entry has no product in the list. */
  method GetCartAmount(c: Cart, products: seq<Product>) returns (r: Option<int>)
    ensures r.Some? <==> Priced(c, products)
    ensures r.Some? ==> r.value == CartAmount(c, products)
    ensures r.Some? ==> r.value >= 0
  {
    var total := 0;
    var rest := c;
    while rest != map[]
      invariant forall j :: j in rest ==> j in c && rest[j] == c[j]
      invariant forall j :: j in c && j !in rest ==> (c[j] > 0 ==> FindProduct(products, j).Some?)
      invariant total + CartAmount(rest, products) == CartAmount(c, products)
      invariant total >= 0
      decreases |rest|
    {
      var k :| k in rest;
      var info := FindProduct(products, k);
      if rest[k] > 0 {
        if info.None? {
          return None;
        }
        total := total + LineAmount(products, k, rest[k]);
      }
      AmountTermsRemove(rest, products, k);
      rest := rest - {k};
    }
    return Some(total);
  }

  /** Adding a listed product to a cart without a negative entry for it raises
      the amount by exactly that product's price. */
  lemma AddAmountDelta(c: Cart, products: seq<Product>, k: ProductId)
    requires Priced(c, products)
    requires FindProduct(products, k).Some?
    requires k !in c || c[k] >= 0
    ensures Priced(AddToCart(c, k), products)
    ensures CartAmount(AddToCart(c, k), products)
            == CartAmount(c, products) + FindProduct(products, k).value.offerPrice
  {
    var added := AddToCart(c, k);
    assert Priced(added, products) by {
      forall j | j in added && added[j] > 0
        ensures FindProduct(products, j).Some?
      {
        if j != k {
          assert c[j] == added[j];
        }
      }
    }
    AddAmountStep(c, products, k);
    AddAmountTerms(c, products, k);
    MapSumUpdate(AmountTerms(c, products), k, LineAmount(products, k, added[k]));
  }

  /** The new line amount exceeds the old one by the product's price. */
  lemma AddAmountStep(c: Cart, products: seq<Product>, k: ProductId)
    requires FindProduct(products, k).Some?
    requires k !in c || c[k] >= 0
    ensures LineAmount(products, k, AddToCart(c, k)[k])
            == (if k in c then LineAmount(products, k, c[k]) else 0) + FindProduct(products, k).value.offerPrice
  {
  }

  /** Adding to the cart changes the line amounts at the added key only. */
  lemma AddAmountTerms(c: Cart, products: seq<Product>, k: ProductId)
    ensures AmountTerms(AddToCart(c, k), products)
            == AmountTerms(c, products)[k := LineAmount(products, k, AddToCart(c, k)[k])]
  {
  }
}
