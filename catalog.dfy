/**
 * The part of a product record that the cart and order logic reads and writes:
 * its price (a two-place decimal, held here as integer cents) and its stock counter
 * (products/models.py:21-22). Names, categories and images play no part in the core.
 */
module Catalog {

  type ProductId = nat

  datatype Product = Product(price: int, stock: nat)

  /** The product table, keyed by primary key. */
  type Inventory = map<ProductId, Product>

  /** The price list of an inventory: what every cart and order total is computed from. */
  function Prices(inv: Inventory): (prices: map<ProductId, int>)
    ensures prices.Keys == inv.Keys
    ensures forall p :: p in inv ==> prices[p] == inv[p].price
  {
    map p | p in inv :: inv[p].price
  }

  /** Two product tables with the same keys and the same price for every product. */
  predicate SamePrices(a: Inventory, b: Inventory) {
    a.Keys == b.Keys && forall q :: q in a ==> a[q].price == b[q].price
  }

  /** Tables that agree on prices have the same price list. */
  lemma SamePriceList(a: Inventory, b: Inventory)
    requires SamePrices(a, b)
    ensures Prices(a) == Prices(b)
  {
  }

  /** `product.stock = n; product.save()`: only that product's stock changes. */
  function WithStock(inv: Inventory, p: ProductId, stock: nat): (r: Inventory)
    requires p in inv
    ensures SamePrices(r, inv)
    ensures r[p].stock == stock
    ensures forall q :: q in inv && q != p ==> r[q] == inv[q]
  {
    inv[p := inv[p].(stock := stock)]
  }
}
