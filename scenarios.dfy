/**
 * Two checkouts from the repository's test suite, replayed against the
 * contracts of the catalog, the cart and the teller: what each test
 * asserts about the receipt follows from those contracts alone.
 */
module Scenarios {
  import opened SupermarketReceipt
  import opened Strategies
  import opened Catalog
  import opened Cart
  import opened Checkout

  /** A cart with a single product is visited in the only possible order. */
  lemma OnlyProductIsVisited(order: seq<Product>, p: Product)
    requires Distinct(order) && p in order
    requires forall q :: q in order ==> q == p
    ensures order == [p]
  {
    assert (set q | q in order) == {p};
    DistinctCardinality(order);
    assert order[0] in order;
  }

  /** A sequence without repetitions has as many members as elements. */
  lemma {:induction false} DistinctCardinality(s: seq<Product>)
    requires Distinct(s)
    ensures |set q | q in s| == |s|
  {
    if s != [] {
      var init, last := s[..|s| - 1], s[|s| - 1];
      assert Distinct(init);
      DistinctCardinality(init);
      assert (set q | q in s) == (set q | q in init) + {last};
      assert last !in init;
    }
  }

  /**
   * A cart holding one product, all of whose lines price: the pass visits
   * just that product, once, and does not fail.
   */
  lemma SingleProductPass(lines: seq<ProductQuantity>, ctx: OfferContext, p: Product, order: seq<Product>, st: OfferState)
    requires Accumulates(lines, ctx.quantities) && ctx.quantities.Keys == {p} && PriceLines(lines, ctx.prices).Success?
    requires ctx.Valid() && ctx.table.Keys == AllOfferTypes && st.arguments.Keys == ctx.table.Keys && st.error.None?
    requires Distinct(order) && InCart(ctx, order)
    requires RunOffers(ctx, order, st).error.None? ==> p in order
    ensures order == [p] && RunOffers(ctx, order, st) == OfferStep(ctx, p, st)
  {
    PricedCartPassesOffers(lines, ctx, order, st);
    forall q | q in order ensures q == p {
      var i :| 0 <= i < |order| && order[i] == q;
    }
    OnlyProductIsVisited(order, p);
    assert order[..0] == [];
  }

  /** The catalog, cart and teller of the repository's ten-percent test. */
  method TenPercentSetup() returns (catalog: FakeCatalog, cart: ShoppingCart, teller: Teller)
    ensures fresh(cart) && fresh(cart.strategies.Values) && cart.Valid() && cart.strategies.Keys == AllOfferTypes
    ensures cart.items == [ProductQuantity(Product("apples", Kilo), 2.5)]
    ensures cart.productQuantities == map[Product("apples", Kilo) := 2.5]
    ensures catalog.prices == map["toothbrush" := 0.99, "apples" := 1.99]
    ensures teller.catalog == catalog
    ensures teller.offers == map[Product("toothbrush", Each) := Offer(PercentageDiscount, Product("toothbrush", Each), 10.0)]
  {
    catalog := new FakeCatalog();
    var toothbrush := Product("toothbrush", Each);
    var apples := Product("apples", Kilo);
    var _ := catalog.AddProduct(toothbrush, 0.99);
    var _ := catalog.AddProduct(apples, 1.99);

    cart := new ShoppingCart();
    cart.AddItemQuantity(apples, 2.5);

    teller := new Teller(catalog);
    teller.AddSpecialOffer(PercentageDiscount, toothbrush, 10.0);
  }

  /** 2.5 kg of apples at 1.99 with a 10% offer on toothbrushes only: 4.975, and no discount. */
  method TenPercentDiscountScenario()
  {
    var catalog, cart, teller := TenPercentSetup();
    var apples := Product("apples", Kilo);
    var lines := cart.items;
    assert AllPriced(lines, catalog.prices);
    assert PriceLines(lines, catalog.prices).value[0] == ReceiptItem(apples, 2.5, 1.99, 2.5 * 1.99);

    ghost var stored := cart.Arguments();
    var result, order := teller.ChecksOutArticlesFrom(cart);

    ghost var ctx := cart.Context(teller.offers, catalog.prices);
    SingleProductPass(lines, ctx, apples, order, OfferState([], stored, None));
    assert result.Success?;
    var receipt := result.value;
    assert receipt.items == [ReceiptItem(apples, 2.5, 1.99, 2.5 * 1.99)];
    assert receipt.discounts == [];
    assert SumTotals(receipt.items) == 2.5 * 1.99 by {
      assert receipt.items[..0] == [];
    }
    assert receipt.TotalPrice() == 4.975;
  }

  /** The catalog, cart and teller of the special-offer test row: three of an item at 10, three for two. */
  method ThreeForTwoSetup() returns (catalog: FakeCatalog, cart: ShoppingCart, teller: Teller)
    ensures fresh(cart) && fresh(cart.strategies.Values) && cart.Valid() && cart.strategies.Keys == AllOfferTypes
    ensures cart.items == [ProductQuantity(Product("item", Each), 3.0)]
    ensures cart.productQuantities == map[Product("item", Each) := 3.0]
    ensures catalog.prices == map["item" := 10.0]
    ensures teller.catalog == catalog
    ensures teller.offers == map[Product("item", Each) := Offer(ThreeForTwo, Product("item", Each), 0.0)]
  {
    catalog := new FakeCatalog();
    var item := Product("item", Each);
    var _ := catalog.AddProduct(item, 10.0);

    cart := new ShoppingCart();
    cart.AddItemQuantity(item, 3.0);

    teller := new Teller(catalog);
    teller.AddSpecialOffer(ThreeForTwo, item, 0.0);
  }

  /** Three items at 10 under three-for-two: one receipt line of 30, a discount of -10, and 20 to pay. */
  method ThreeForTwoScenario()
  {
    var catalog, cart, teller := ThreeForTwoSetup();
    var item := Product("item", Each);
    var lines := cart.items;
    assert AllPriced(lines, catalog.prices);
    assert PriceLines(lines, catalog.prices).value[0] == ReceiptItem(item, 3.0, 10.0, 30.0);

    ghost var stored := cart.Arguments();
    var result, order := teller.ChecksOutArticlesFrom(cart);

    ghost var ctx := cart.Context(teller.offers, catalog.prices);
    ghost var st := OfferState([], stored, None);
    SingleProductPass(lines, ctx, item, order, st);
    ThreeForTwoExamples(item);
    assert ctx.table[ThreeForTwo] == QuantityStrategy(3, 2);
    assert OfferStep(ctx, item, st).discounts == [QuantityDiscount(3, 2, item, 3.0, 10.0).value];
    assert result.Success?;
    var receipt := result.value;
    assert receipt.items == [ReceiptItem(item, 3.0, 10.0, 30.0)];
    assert receipt.discounts == [Discount(item, PiecesForPieces(3, 2), -10.0)];
    assert SumTotals(receipt.items) == 30.0 by {
      assert receipt.items[..0] == [];
    }
    assert SumDiscounts(receipt.discounts) == -10.0 by {
      assert receipt.discounts[..0] == [];
    }
    assert receipt.TotalPrice() == 20.0;
  }
}
