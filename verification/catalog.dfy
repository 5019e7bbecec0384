/** Products as both sides of the storefront see them: the client keeps a list
    fetched from the server, the server looks products up by id. */
module Catalog {

  import opened Wrappers

  type ProductId = string

  /** A product record. `offerPrice` is an integer count of the currency's unit. */
  datatype Product = Product(id: ProductId, name: string, offerPrice: nat)

  /** The server-side catalog: `Product.findById` answers from this map. */
  type ProductTable = map<ProductId, Product>

  /** `products.find(p => p._id === id)`: the first product in the list with that id. */
  function FindProduct(products: seq<Product>, id: ProductId): (r: Option<Product>)
    ensures r.None? <==> forall i :: 0 <= i < |products| ==> products[i].id != id
    ensures r.Some? ==> r.value in products && r.value.id == id
    decreases |products|
  {
    if |products| == 0 then None
    else if products[0].id == id then Some(products[0])
    else FindProduct(products[1..], id)
  }

  /** The product found is the first one carrying the id: no earlier entry has it. */
  lemma {:induction false} FindProductFirst(products: seq<Product>, id: ProductId, i: nat)
    requires i < |products| && products[i].id == id
    ensures FindProduct(products, id).Some?
    ensures (forall j :: 0 <= j < i ==> products[j].id != id) ==> FindProduct(products, id) == Some(products[i])
    decreases i
  {
    if i > 0 && products[0].id != id {
      FindProductFirst(products[1..], id, i - 1);
      assert forall j :: 0 <= j < i - 1 ==> products[1..][j] == products[j + 1];
    }
  }
}
