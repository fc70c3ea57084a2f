/**
 * The teller: the offers the shop runs, and checkout, which prices every
 * cart line from the catalog and then lets the cart apply the offers.
 */
module Checkout {
  import opened SupermarketReceipt
  import opened Strategies
  import opened Catalog
  import opened Cart

  /** The receipt line for one cart line at unit price `price`. */
  function PricedItem(line: ProductQuantity, price: real): (item: ReceiptItem)
    ensures item.product == line.product && item.quantity == line.quantity && item.price == price
    ensures line.quantity == 0.0 || price == 0.0 <==> item.totalPrice == 0.0
    ensures 0.0 <= line.quantity && 0.0 <= price ==> 0.0 <= item.totalPrice
  {
    ReceiptItem(line.product, line.quantity, price, line.quantity * price)
  }

  ghost predicate AllPriced(lines: seq<ProductQuantity>, prices: map<string, real>)
  {
    forall i :: 0 <= i < |lines| ==> lines[i].product.name in prices
  }

  /** Line `i` is the first line whose product has no price. */
  ghost predicate FirstUnpriced(lines: seq<ProductQuantity>, prices: map<string, real>, i: int)
  {
    && 0 <= i < |lines|
    && lines[i].product.name !in prices
    && forall j :: 0 <= j < i ==> lines[j].product.name in prices
  }

  /**
   * The receipt lines checkout produces for `lines`, one per line and in
   * line order, or the failure for the first line whose product the
   * catalog does not price.
   */
  function PriceLines(lines: seq<ProductQuantity>, prices: map<string, real>): (r: Result<seq<ReceiptItem>, CheckoutError>)
    ensures r.Success? <==> AllPriced(lines, prices)
    ensures r.Success? ==> (|r.value| == |lines|
      && forall i :: 0 <= i < |lines| ==> r.value[i] == PricedItem(lines[i], prices[lines[i].product.name]))
    ensures r.Failure? ==> exists i :: FirstUnpriced(lines, prices, i) && r.error == UnknownProduct(lines[i].product.name)
  {
    if lines == [] then Success([])
    else
      var init := lines[..|lines| - 1];
      var last := lines[|lines| - 1];
      assert forall j :: 0 <= j < |init| ==> lines[j] == init[j];
      match PriceLines(init, prices)
      case Failure(e) =>
        assert forall i :: FirstUnpriced(init, prices, i) ==> FirstUnpriced(lines, prices, i);
        Failure(e)
      case Success(items) =>
        if last.product.name in prices then
          var items' := items + [PricedItem(last, prices[last.product.name])];
          assert forall i :: 0 <= i < |init| ==> items'[i] == items[i];
          Success(items')
        else
          assert FirstUnpriced(lines, prices, |lines| - 1);
          Failure(UnknownProduct(last.product.name))
  }

  /** Pricing one more line extends the priced prefix, or fails on that line's name. */
  lemma PriceLinesStep(lines: seq<ProductQuantity>, i: int, prices: map<string, real>, items: seq<ReceiptItem>)
    requires 0 <= i < |lines| && PriceLines(lines[..i], prices) == Success(items)
    ensures lines[i].product.name in prices ==>
      PriceLines(lines[..i + 1], prices) == Success(items + [PricedItem(lines[i], prices[lines[i].product.name])])
    ensures lines[i].product.name !in prices ==>
      PriceLines(lines[..i + 1], prices) == Failure(UnknownProduct(lines[i].product.name))
  {
    assert lines[..i + 1][..i] == lines[..i];
  }

  /** Once a prefix of the lines fails to price, the whole list fails the same way. */
  lemma {:induction false} PriceLinesFailureSticks(lines: seq<ProductQuantity>, k: int, prices: map<string, real>)
    requires 0 <= k <= |lines| && PriceLines(lines[..k], prices).Failure?
    ensures PriceLines(lines, prices) == PriceLines(lines[..k], prices)
    decreases |lines| - k
  {
    if k < |lines| {
      assert lines[..k + 1][..k] == lines[..k];
      PriceLinesFailureSticks(lines, k + 1, prices);
    } else {
      assert lines[..k] == lines;
    }
  }

  /** The line total of a priced cart is the sum, over its lines, of quantity times unit price. */
  function LineTotal(lines: seq<ProductQuantity>, prices: map<string, real>): real
    requires AllPriced(lines, prices)
  {
    if lines == [] then 0.0
    else LineTotal(lines[..|lines| - 1], prices) + lines[|lines| - 1].quantity * prices[lines[|lines| - 1].product.name]
  }

  lemma {:induction false} PricedTotal(lines: seq<ProductQuantity>, prices: map<string, real>)
    requires PriceLines(lines, prices).Success?
    ensures SumTotals(PriceLines(lines, prices).value) == LineTotal(lines, prices)
  {
    if lines != [] {
      var init := lines[..|lines| - 1];
      assert forall j :: 0 <= j < |init| ==> init[j] == lines[j];
      PricedTotal(init, prices);
      var items := PriceLines(lines, prices).value;
      assert items[..|items| - 1] == PriceLines(init, prices).value;
    }
  }

  /** Without any offer, the offer pass adds nothing and changes no stored argument. */
  lemma {:induction false} NoOffersNoDiscounts(ctx: OfferContext, order: seq<Product>, st: OfferState)
    requires ctx.Valid() && InCart(ctx, order) && st.arguments.Keys == ctx.table.Keys
    requires ctx.offers == map[]
    ensures RunOffers(ctx, order, st) == st
  {
    if order != [] {
      NoOffersNoDiscounts(ctx, order[..|order| - 1], st);
    }
  }

  /**
   * With the cart's full strategy table, a cart whose lines all price
   * cannot fail in the offer pass: every product it visits has a line.
   */
  lemma PricedCartPassesOffers(lines: seq<ProductQuantity>, ctx: OfferContext, order: seq<Product>, st: OfferState)
    requires Accumulates(lines, ctx.quantities) && PriceLines(lines, ctx.prices).Success?
    requires ctx.Valid() && InCart(ctx, order) && st.arguments.Keys == ctx.table.Keys
    requires ctx.table.Keys == AllOfferTypes && st.error.None?
    ensures RunOffers(ctx, order, st).error.None?
  {
    forall p | p in ctx.quantities
      ensures p.name in ctx.prices
    {
      var k :| 0 <= k < |lines| && lines[k].product == p;
    }
    FullTableFailsOnlyOnUnknownProduct(ctx, order, st);
  }

  class Teller {
    const catalog: FakeCatalog
    var offers: map<Product, Offer>

    constructor (catalog: FakeCatalog)
      ensures this.catalog == catalog && offers == map[]
    {
      this.catalog := catalog;
      offers := map[];
    }

    /** Sets the product's offer, replacing any earlier one for the same product. */
    method AddSpecialOffer(offerType: SpecialOfferType, product: Product, argument: real)
      modifies this
      ensures offers == old(offers)[product := Offer(offerType, product, argument)]
    {
      offers := offers[product := Offer(offerType, product, argument)];
    }

    /**
     * Prices every line of the cart, in line order, onto a new receipt, then
     * runs the cart's offer pass against it. An unpriced line fails before
     * any offer is looked at; otherwise the result is the offer pass's.
     */
    method ChecksOutArticlesFrom(cart: ShoppingCart) returns (result: Result<Receipt, CheckoutError>, ghost order: seq<Product>)
      requires cart.Valid()
      modifies cart.strategies.Values
      ensures var priced := PriceLines(cart.items, catalog.prices);
        && (priced.Failure? ==> result == Failure(priced.error) && cart.Arguments() == old(cart.Arguments()))
        && (priced.Success? ==>
              var ctx := cart.Context(offers, catalog.prices);
              && Distinct(order) && InCart(ctx, order)
              && var st := RunOffers(ctx, order, OfferState([], old(cart.Arguments()), None));
              && cart.Arguments() == st.arguments
              && (st.error.Some? ==> result == Failure(st.error.value))
              && (st.error.None? ==>
                    && result.Success? && fresh(result.value)
                    && result.value.items == priced.value
                    && result.value.discounts == st.discounts
                    && forall p :: p in cart.productQuantities ==> p in order))
    {
      var lines := cart.GetItems();
      var receipt, error := PriceCartLines(lines);
      if error.Some? {
        return Failure(error.value), [];
      }
      error, order := cart.HandleOffers(receipt, offers, catalog);
      if error.Some? {
        return Failure(error.value), order;
      }
      return Success(receipt), order;
    }

    /**
     * The first loop of ChecksOutArticlesFrom: a new receipt with one priced
     * line per cart line, stopping at the first line the catalog cannot price.
     */
    method PriceCartLines(lines: seq<ProductQuantity>) returns (receipt: Receipt, error: Option<CheckoutError>)
      ensures fresh(receipt) && receipt.discounts == []
      ensures var priced := PriceLines(lines, catalog.prices);
        && (priced.Success? ==> error.None? && receipt.items == priced.value)
        && (priced.Failure? ==> error == Some(priced.error))
    {
      receipt := new Receipt();
      var i := 0;
      while i < |lines|
        invariant 0 <= i <= |lines|
        invariant PriceLines(lines[..i], catalog.prices) == Success(receipt.items)
        invariant receipt.discounts == []
      {
        var line := lines[i];
        var unitPrice := catalog.GetUnitPrice(line.product);
        PriceLinesStep(lines, i, catalog.prices, receipt.items);
        if unitPrice.None? {
          PriceLinesFailureSticks(lines, i + 1, catalog.prices);
          return receipt, Some(UnknownProduct(line.product.name));
        }
        var price := line.quantity * unitPrice.value;
        ghost var before := receipt.items;
        receipt.AddProduct(line.product, line.quantity, unitPrice.value, price);
        assert PricedItem(line, unitPrice.value) == ReceiptItem(line.product, line.quantity, unitPrice.value, price);
        assert receipt.items == before + [PricedItem(line, unitPrice.value)];
        i := i + 1;
      }
      assert lines[..i] == lines;
      return receipt, None;
    }
  }
}
