/**
 * The test catalog: two dictionaries keyed by product name, one holding the
 * registered product and one its unit price.
 */
module Catalog {
  import opened SupermarketReceipt

  class FakeCatalog {
    var prices: map<string, real>
    var products: map<string, Product>

    /** Both dictionaries have the same names, and each product is filed under its own name. */
    ghost predicate Valid()
      reads this
    {
      && prices.Keys == products.Keys
      && forall name :: name in products ==> products[name].name == name
    }

    constructor ()
      ensures Valid() && prices == map[] && products == map[]
    {
      prices := map[];
      products := map[];
    }

    /**
     * Registers a product and its price. `Dictionary.Add` throws on a name
     * that is already present; that is reported as `added == false`, and
     * because the products dictionary is written first, nothing changes.
     */
    method AddProduct(product: Product, price: real) returns (added: bool)
      requires Valid()
      modifies this
      ensures Valid()
      ensures added <==> product.name !in old(products)
      ensures added ==> (products == old(products)[product.name := product]
                         && prices == old(prices)[product.name := price])
      ensures !added ==> products == old(products) && prices == old(prices)
      ensures added ==> forall q: Product :: q.name == product.name ==> GetUnitPrice(q) == Some(price)
      ensures forall q: Product :: q.name != product.name ==> GetUnitPrice(q) == old(GetUnitPrice(q))
    {
      if product.name in products {
        return false;
      }
      products := products[product.name := product];
      // The second Add cannot throw: Valid keeps the two key sets equal.
      prices := prices[product.name := price];
      return true;
    }

    /** The unit price registered under the product's name, whatever its unit; `None` where C# throws. */
    function GetUnitPrice(p: Product): (r: Option<real>)
      reads this
      ensures r.Some? <==> p.name in prices
      ensures r.Some? ==> r.value == prices[p.name]
    {
      if p.name in prices then Some(prices[p.name]) else None
    }

    /** Lookup is by name only: two products that differ only in unit share one price. */
    lemma PriceIgnoresUnit(p: Product, q: Product)
      requires p.name == q.name
      ensures GetUnitPrice(p) == GetUnitPrice(q)
    {
    }
  }
}
