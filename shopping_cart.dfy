/**
 * The shopping cart: an append-only list of lines, the accumulated quantity
 * per product, and the table of strategy objects that HandleOffers drives.
 */
module Cart {
  import opened SupermarketReceipt
  import opened Strategies
  import opened Catalog

  // ---------------------------------------------------------------------
  // Lines and accumulated quantities
  // ---------------------------------------------------------------------

  /** The sum of the quantities of `p`'s lines, added in line order. */
  function QuantityOf(lines: seq<ProductQuantity>, p: Product): real
  {
    if lines == [] then 0.0
    else QuantityOf(lines[..|lines| - 1], p) + (if lines[|lines| - 1].product == p then lines[|lines| - 1].quantity else 0.0)
  }

  function ProductsOf(lines: seq<ProductQuantity>): set<Product>
  {
    set i | 0 <= i < |lines| :: lines[i].product
  }

  /** The dictionary holds, for exactly the products that have lines, the sum of their lines. */
  ghost predicate Accumulates(lines: seq<ProductQuantity>, quantities: map<Product, real>)
  {
    && quantities.Keys == ProductsOf(lines)
    && forall p :: p in quantities ==> quantities[p] == QuantityOf(lines, p)
  }

  /** A product without lines accumulates nothing. */
  lemma {:induction false} QuantityOfAbsent(lines: seq<ProductQuantity>, p: Product)
    requires p !in ProductsOf(lines)
    ensures QuantityOf(lines, p) == 0.0
  {
    if lines != [] {
      var init := lines[..|lines| - 1];
      assert ProductsOf(init) <= ProductsOf(lines) by {
        forall q | q in ProductsOf(init) ensures q in ProductsOf(lines) {
          var i :| 0 <= i < |init| && init[i].product == q;
          assert lines[i].product == q;
        }
      }
      QuantityOfAbsent(init, p);
      assert lines[|lines| - 1].product in ProductsOf(lines);
    }
  }

  /** The quantity of a product over two runs of lines is the sum over each. */
  lemma {:induction false} QuantityOfConcat(a: seq<ProductQuantity>, b: seq<ProductQuantity>, p: Product)
    ensures QuantityOf(a + b, p) == QuantityOf(a, p) + QuantityOf(b, p)
  {
    if b == [] {
      assert a + b == a;
    } else {
      var bInit := b[..|b| - 1];
      assert (a + b)[..|a + b| - 1] == a + bInit;
      QuantityOfConcat(a, bInit, p);
    }
  }

  /** Adding `x` then `y` of a product counts, for its total, the same as adding `x + y` at once. */
  lemma SplitLinesAccumulateAlike(lines: seq<ProductQuantity>, p: Product, x: real, y: real)
    ensures QuantityOf(lines + [ProductQuantity(p, x), ProductQuantity(p, y)], p)
         == QuantityOf(lines + [ProductQuantity(p, x + y)], p)
  {
    QuantityOfConcat(lines, [ProductQuantity(p, x), ProductQuantity(p, y)], p);
    QuantityOfConcat(lines, [ProductQuantity(p, x + y)], p);
    assert [ProductQuantity(p, x), ProductQuantity(p, y)][..1] == [ProductQuantity(p, x)];
  }

  /** The update AddItemQuantity makes keeps the dictionary equal to the sums of the lines. */
  lemma AccumulateLine(lines: seq<ProductQuantity>, quantities: map<Product, real>, product: Product, quantity: real)
    requires Accumulates(lines, quantities)
    ensures Accumulates(lines + [ProductQuantity(product, quantity)],
                        quantities[product := if product in quantities then quantities[product] + quantity else quantity])
  {
    var lines' := lines + [ProductQuantity(product, quantity)];
    assert lines'[..|lines'| - 1] == lines;
    assert ProductsOf(lines') == ProductsOf(lines) + {product} by {
      forall q | q in ProductsOf(lines') ensures q in ProductsOf(lines) + {product} {
        var i :| 0 <= i < |lines'| && lines'[i].product == q;
        if i < |lines| { assert lines[i].product == q; }
      }
      forall q | q in ProductsOf(lines) ensures q in ProductsOf(lines') {
        var i :| 0 <= i < |lines| && lines[i].product == q;
        assert lines'[i].product == q;
      }
      assert lines'[|lines|].product == product;
    }
    if product !in quantities {
      QuantityOfAbsent(lines, product);
    }
  }

  // ---------------------------------------------------------------------
  // The offer pass, as a fold over the order in which products are visited
  // ---------------------------------------------------------------------

  /** What the offer pass reads: accumulated quantities, offers, catalog prices, strategy classes. */
  datatype OfferContext = OfferContext(
    quantities: map<Product, real>,
    offers: map<Product, Offer>,
    prices: map<string, real>,
    table: map<SpecialOfferType, StrategyKind>)
  {
    predicate Valid() {
      forall t :: t in table ==> table[t].Valid()
    }
  }

  /** What the offer pass changes: discounts added so far, the strategies' stored arguments, a failure. */
  datatype OfferState = OfferState(discounts: seq<Discount>, arguments: map<SpecialOfferType, real>, error: Option<CheckoutError>)

  function AsSeq(d: Option<Discount>): seq<Discount>
  {
    if d.Some? then [d.value] else []
  }

  /**
   * One iteration of HandleOffers for product `p`: skip it without an offer;
   * fail on a missing price or a missing strategy; otherwise store the offer's
   * argument only if it is positive, and add the strategy's result, if any.
   */
  function OfferStep(ctx: OfferContext, p: Product, st: OfferState): (st': OfferState)
    requires ctx.Valid() && p in ctx.quantities && st.arguments.Keys == ctx.table.Keys
    ensures st'.arguments.Keys == ctx.table.Keys
    ensures st.error.Some? || p !in ctx.offers ==> st' == st
    ensures |st.discounts| <= |st'.discounts| <= |st.discounts| + 1
    ensures st'.discounts[..|st.discounts|] == st.discounts
    ensures |st'.discounts| > |st.discounts| ==> st'.discounts[|st.discounts|].product == p && p in ctx.offers
  {
    if st.error.Some? || p !in ctx.offers then st
    else
      var offer := ctx.offers[p];
      var quantity := ctx.quantities[p];
      if p.name !in ctx.prices then st.(error := Some(UnknownProduct(p.name)))
      else if offer.offerType !in ctx.table then st.(error := Some(InvalidOfferType(offer.offerType)))
      else
        var t := offer.offerType;
        var arguments := if offer.argument > 0.0 then st.arguments[t := offer.argument] else st.arguments;
        var discount := Compute(ctx.table[t], arguments[t], p, quantity, ctx.prices[p.name]);
        st.(discounts := st.discounts + AsSeq(discount), arguments := arguments)
  }

  /** A step does not look at the discounts already collected: it only appends to them. */
  lemma OfferStepIgnoresEarlierDiscounts(ctx: OfferContext, p: Product, st: OfferState)
    requires ctx.Valid() && p in ctx.quantities && st.arguments.Keys == ctx.table.Keys && st.error.None?
    ensures var alone := OfferStep(ctx, p, OfferState([], st.arguments, None));
      OfferStep(ctx, p, st) == OfferState(st.discounts + alone.discounts, alone.arguments, alone.error)
  {
  }

  /** Visiting one more product that was not visited yet. */
  lemma ExtendOrder(ctx: OfferContext, order: seq<Product>, p: Product, st: OfferState)
    requires ctx.Valid() && InCart(ctx, order) && st.arguments.Keys == ctx.table.Keys
    requires Distinct(order) && p !in order && p in ctx.quantities
    ensures InCart(ctx, order + [p]) && Distinct(order + [p])
    ensures RunOffers(ctx, order + [p], st) == OfferStep(ctx, p, RunOffers(ctx, order, st))
  {
    assert (order + [p])[..|order|] == order;
  }

  /** `order` lists, without repetition, exactly the keys that are no longer `remaining`. */
  ghost predicate Partitioned(order: seq<Product>, remaining: set<Product>, keys: set<Product>)
  {
    && remaining <= keys
    && Distinct(order)
    && (forall p :: p in order ==> p in keys && p !in remaining)
    && (forall p :: p in keys ==> p in remaining || p in order)
  }

  lemma VisitNext(order: seq<Product>, remaining: set<Product>, keys: set<Product>, p: Product)
    requires Partitioned(order, remaining, keys) && p in remaining
    ensures Partitioned(order + [p], remaining - {p}, keys)
    ensures p !in order && p in keys
  {
    assert forall i :: 0 <= i < |order| ==> (order + [p])[i] == order[i];
  }

  /** The pass over one more product appends that product's own step to the discounts so far. */
  lemma RunOneMore(ctx: OfferContext, order: seq<Product>, p: Product, st: OfferState)
    requires ctx.Valid() && InCart(ctx, order) && st.arguments.Keys == ctx.table.Keys
    requires Distinct(order) && p !in order && p in ctx.quantities
    requires RunOffers(ctx, order, st).error.None?
    ensures InCart(ctx, order + [p]) && Distinct(order + [p])
    ensures var before := RunOffers(ctx, order, st);
      var step := OfferStep(ctx, p, OfferState([], before.arguments, None));
      RunOffers(ctx, order + [p], st) == OfferState(before.discounts + step.discounts, step.arguments, step.error)
  {
    ExtendOrder(ctx, order, p, st);
    OfferStepIgnoresEarlierDiscounts(ctx, p, RunOffers(ctx, order, st));
  }

  lemma AppendAssociates(a: seq<Discount>, b: seq<Discount>, c: seq<Discount>)
    ensures (a + b) + c == a + (b + c)
  {
  }

  ghost predicate InCart(ctx: OfferContext, order: seq<Product>)
  {
    forall i :: 0 <= i < |order| ==> order[i] in ctx.quantities
  }

  /** The offer pass over the products in `order`, one OfferStep each. */
  function RunOffers(ctx: OfferContext, order: seq<Product>, st: OfferState): (st': OfferState)
    requires ctx.Valid() && InCart(ctx, order) && st.arguments.Keys == ctx.table.Keys
    ensures st'.arguments.Keys == ctx.table.Keys
    decreases |order|
  {
    if order == [] then st
    else OfferStep(ctx, order[|order| - 1], RunOffers(ctx, order[..|order| - 1], st))
  }

  predicate Distinct(order: seq<Product>)
  {
    forall i, j :: 0 <= i < j < |order| ==> order[i] != order[j]
  }

  /**
   * Whatever the order, the pass adds at most one discount per distinct
   * product, and only for products it visited that have an offer.
   */
  lemma {:induction false} RunAddsAtMostOnePerProduct(ctx: OfferContext, order: seq<Product>, st: OfferState)
    requires ctx.Valid() && InCart(ctx, order) && st.arguments.Keys == ctx.table.Keys
    requires st.discounts == [] && Distinct(order)
    ensures var r := RunOffers(ctx, order, st);
      && (forall k :: 0 <= k < |r.discounts| ==> r.discounts[k].product in order && r.discounts[k].product in ctx.offers)
      && (forall k1, k2 :: 0 <= k1 < k2 < |r.discounts| ==> r.discounts[k1].product != r.discounts[k2].product)
  {
    if order != [] {
      var init := order[..|order| - 1];
      var p := order[|order| - 1];
      RunAddsAtMostOnePerProduct(ctx, init, st);
      var before := RunOffers(ctx, init, st);
      assert var r0 := RunOffers(ctx, init, st);
        && (forall k :: 0 <= k < |r0.discounts| ==> r0.discounts[k].product in init && r0.discounts[k].product in ctx.offers)
        && (forall k1, k2 :: 0 <= k1 < k2 < |r0.discounts| ==> r0.discounts[k1].product != r0.discounts[k2].product);
      var r := RunOffers(ctx, order, st);
      assert r == OfferStep(ctx, p, before);
      forall k | 0 <= k < |r.discounts|
        ensures r.discounts[k].product in order && r.discounts[k].product in ctx.offers
      {
        if k < |before.discounts| {
          assert r.discounts[k] == before.discounts[k];
          assert 0 <= k < |before.discounts|;
          assert before.discounts[k].product in init;
          var i :| 0 <= i < |init| && init[i] == before.discounts[k].product;
          assert order[i] == init[i];
        } else {
          assert order[|order| - 1] == p;
        }
      }
      forall k1, k2 | 0 <= k1 < k2 < |r.discounts|
        ensures r.discounts[k1].product != r.discounts[k2].product
      {
        assert r.discounts[k1] == before.discounts[k1];
        if k2 < |before.discounts| {
          assert r.discounts[k2] == before.discounts[k2];
        } else {
          assert r.discounts[k2].product == p;
          var i :| 0 <= i < |init| && init[i] == before.discounts[k1].product;
          assert order[i] == init[i] && i < |order| - 1;
          assert order[i] != order[|order| - 1];
        }
      }
    }
  }

  /** The discount a product gets when its own offer argument is the one in effect. */
  function DiscountFor(ctx: OfferContext, p: Product): Option<Discount>
    requires ctx.Valid()
  {
    if p in ctx.offers && p in ctx.quantities && p.name in ctx.prices && ctx.offers[p].offerType in ctx.table
    then Compute(ctx.table[ctx.offers[p].offerType], ctx.offers[p].argument, p, ctx.quantities[p], ctx.prices[p.name])
    else None
  }

  /** Each visited product's own discount, in visiting order. */
  function Collect(ctx: OfferContext, order: seq<Product>): seq<Discount>
    requires ctx.Valid()
  {
    if order == [] then [] else Collect(ctx, order[..|order| - 1]) + AsSeq(DiscountFor(ctx, order[|order| - 1]))
  }

  /**
   * Every offered product in `order` is priced and has a strategy, and that
   * strategy computes with the offer's own argument: the argument is
   * positive (so it is stored before use), or the strategy is a quantity
   * strategy, which never reads it.
   */
  ghost predicate SelfContainedOffers(ctx: OfferContext, order: seq<Product>)
  {
    forall i :: 0 <= i < |order| && order[i] in ctx.offers ==>
      && order[i].name in ctx.prices
      && ctx.offers[order[i]].offerType in ctx.table
      && (ctx.offers[order[i]].argument > 0.0 || ctx.table[ctx.offers[order[i]].offerType].QuantityStrategy?)
  }

  /**
   * When every offer computes with its own argument, the pass never fails
   * and each product gets exactly its own strategy result.
   */
  lemma {:induction false} RunWithSelfContainedOffers(ctx: OfferContext, order: seq<Product>, st: OfferState)
    requires ctx.Valid() && InCart(ctx, order) && st.arguments.Keys == ctx.table.Keys
    requires st.error.None? && SelfContainedOffers(ctx, order)
    ensures var r := RunOffers(ctx, order, st);
      r.error.None? && r.discounts == st.discounts + Collect(ctx, order)
  {
    if order != [] {
      var init := order[..|order| - 1];
      assert SelfContainedOffers(ctx, init) by {
        forall i | 0 <= i < |init| ensures init[i] == order[i] { }
      }
      RunWithSelfContainedOffers(ctx, init, st);
      var p := order[|order| - 1];
      var before := RunOffers(ctx, init, st);
      assert RunOffers(ctx, order, st) == OfferStep(ctx, p, before);
      assert 0 <= |order| - 1 < |order|;
      SelfContainedStep(ctx, p, before);
      AppendAssociates(st.discounts, Collect(ctx, init), AsSeq(DiscountFor(ctx, p)));
    }
  }

  /** A step for a product whose offer computes with its own argument adds exactly that product's own discount. */
  lemma SelfContainedStep(ctx: OfferContext, p: Product, st: OfferState)
    requires ctx.Valid() && p in ctx.quantities && st.arguments.Keys == ctx.table.Keys && st.error.None?
    requires SelfContainedOffers(ctx, [p])
    ensures OfferStep(ctx, p, st).error.None?
    ensures OfferStep(ctx, p, st).discounts == st.discounts + AsSeq(DiscountFor(ctx, p))
  {
    assert [p][0] == p;
  }

  lemma {:induction false} CollectConcat(ctx: OfferContext, a: seq<Product>, b: seq<Product>)
    requires ctx.Valid()
    ensures Collect(ctx, a + b) == Collect(ctx, a) + Collect(ctx, b)
  {
    if b == [] {
      assert a + b == a;
    } else {
      var bInit := b[..|b| - 1];
      assert (a + b)[..|a + b| - 1] == a + bInit;
      CollectConcat(ctx, a, bInit);
    }
  }

  /** Dropping the element at `j` keeps the sequence distinct and loses exactly that element. */
  lemma RemoveAt(s: seq<Product>, j: int)
    requires Distinct(s) && 0 <= j < |s|
    ensures Distinct(s[..j] + s[j + 1..])
    ensures forall p :: p in s[..j] + s[j + 1..] <==> p in s && p != s[j]
  {
    var rest := s[..j] + s[j + 1..];
    assert forall a :: 0 <= a < |rest| ==> rest[a] == s[if a < j then a else a + 1];
    forall p | p in s && p != s[j] ensures p in rest {
      var k :| 0 <= k < |s| && s[k] == p;
      assert rest[if k < j then k else k - 1] == p;
    }
  }

  lemma EmptyOrFirstMember(s: seq<Product>)
    ensures s == [] || s[0] in s
  {
  }

  /** Collecting around position `j` is collecting without it, plus that product's own discount. */
  lemma CollectRemoveAt(ctx: OfferContext, o: seq<Product>, j: int)
    requires ctx.Valid() && 0 <= j < |o|
    ensures multiset(Collect(ctx, o))
         == multiset(Collect(ctx, o[..j] + o[j + 1..])) + multiset(AsSeq(DiscountFor(ctx, o[j])))
  {
    var x := o[j];
    var front, dx, back := Collect(ctx, o[..j]), AsSeq(DiscountFor(ctx, x)), Collect(ctx, o[j + 1..]);
    assert Collect(ctx, o) == (front + dx) + back by {
      assert o == (o[..j] + [x]) + o[j + 1..];
      CollectConcat(ctx, o[..j], [x]);
      CollectConcat(ctx, o[..j] + [x], o[j + 1..]);
      assert Collect(ctx, [x]) == dx by {
        assert [x][..0] == [];
      }
    }
    assert Collect(ctx, o[..j] + o[j + 1..]) == front + back by {
      CollectConcat(ctx, o[..j], o[j + 1..]);
    }
    MultisetWithoutMiddle(front, dx, back);
  }

  lemma MultisetWithoutMiddle(a: seq<Discount>, b: seq<Discount>, c: seq<Discount>)
    ensures multiset((a + b) + c) == multiset(a + c) + multiset(b)
  {
    calc {
      multiset((a + b) + c);
      multiset(a) + multiset(b) + multiset(c);
      multiset(a) + multiset(c) + multiset(b);
      multiset(a + c) + multiset(b);
    }
  }

  /** Two visiting orders of the same products collect the same discounts, as a multiset. */
  lemma {:induction false} CollectIsOrderIndependent(ctx: OfferContext, o1: seq<Product>, o2: seq<Product>)
    requires ctx.Valid() && Distinct(o1) && Distinct(o2)
    requires forall p :: p in o1 <==> p in o2
    ensures multiset(Collect(ctx, o1)) == multiset(Collect(ctx, o2))
    decreases |o1|
  {
    if o1 == [] {
      EmptyOrFirstMember(o2);
    } else {
      var n := |o1|;
      var x := o1[n - 1];
      var init1 := o1[..n - 1];
      assert init1 == o1[..n - 1] + o1[n..];
      RemoveAt(o1, n - 1);
      assert x in o2;
      var j :| 0 <= j < |o2| && o2[j] == x;
      var rest2 := o2[..j] + o2[j + 1..];
      RemoveAt(o2, j);
      assert forall p :: p in init1 <==> p in o1 && p != x;
      assert forall p :: p in rest2 <==> p in o2 && p != x;
      CollectIsOrderIndependent(ctx, init1, rest2);
      CollectRemoveAt(ctx, o2, j);
      assert Collect(ctx, o1) == Collect(ctx, init1) + AsSeq(DiscountFor(ctx, x));
    }
  }

  /**
   * When every offer computes with its own argument, the discounts the pass
   * adds do not depend on the (unspecified) order in which it visits products.
   */
  lemma HandleOffersOrderIndependent(ctx: OfferContext, o1: seq<Product>, o2: seq<Product>, st: OfferState)
    requires ctx.Valid() && InCart(ctx, o1) && InCart(ctx, o2) && st.arguments.Keys == ctx.table.Keys
    requires st.error.None? && SelfContainedOffers(ctx, o1) && SelfContainedOffers(ctx, o2)
    requires Distinct(o1) && Distinct(o2) && (forall p :: p in o1 <==> p in o2)
    ensures RunOffers(ctx, o1, st).error.None? && RunOffers(ctx, o2, st).error.None?
    ensures multiset(RunOffers(ctx, o1, st).discounts) == multiset(RunOffers(ctx, o2, st).discounts)
  {
    RunWithSelfContainedOffers(ctx, o1, st);
    RunWithSelfContainedOffers(ctx, o2, st);
    CollectIsOrderIndependent(ctx, o1, o2);
  }

  /**
   * With the cart's full strategy table the pass can only fail on a product
   * the catalog does not price, and then names that product.
   */
  lemma {:induction false} FullTableFailsOnlyOnUnknownProduct(ctx: OfferContext, order: seq<Product>, st: OfferState)
    requires ctx.Valid() && InCart(ctx, order) && st.arguments.Keys == ctx.table.Keys
    requires ctx.table.Keys == AllOfferTypes && st.error.None?
    ensures var r := RunOffers(ctx, order, st);
      r.error.Some? ==> exists i :: 0 <= i < |order| && order[i].name !in ctx.prices && r.error == Some(UnknownProduct(order[i].name))
  {
    if order != [] {
      var init := order[..|order| - 1];
      FullTableFailsOnlyOnUnknownProduct(ctx, init, st);
      var before := RunOffers(ctx, init, st);
      if before.error.Some? {
        var i :| 0 <= i < |init| && init[i].name !in ctx.prices && before.error == Some(UnknownProduct(init[i].name));
        assert order[i] == init[i];
      } else {
        var p := order[|order| - 1];
        if p in ctx.offers {
          OfferTypeInTable(ctx.offers[p].offerType);
        }
      }
    }
  }

  lemma OfferTypeInTable(t: SpecialOfferType)
    ensures t in AllOfferTypes
  {
    match t
    case ThreeForTwo =>
    case PercentageDiscount =>
    case TwoForAmount =>
    case FiveForAmount =>
  }

  /**
   * A step for a product with a percentage offer adds that product's
   * percentage discount, computed with the offer's own argument when it is
   * positive and with the argument already stored otherwise.
   */
  lemma PercentageStep(ctx: OfferContext, p: Product, st: OfferState) returns (st': OfferState)
    requires ctx.Valid() && p in ctx.quantities && st.arguments.Keys == ctx.table.Keys && st.error.None?
    requires p in ctx.offers && ctx.offers[p].offerType == PercentageDiscount && p.name in ctx.prices
    requires PercentageDiscount in ctx.table && ctx.table[PercentageDiscount] == PercentageStrategy
    ensures st' == OfferStep(ctx, p, st)
    ensures var argument := ctx.offers[p].argument;
      var used := if argument > 0.0 then argument else st.arguments[PercentageDiscount];
      && st'.error.None?
      && st'.arguments == st.arguments[PercentageDiscount := used]
      && st'.discounts == st.discounts + [Strategies.PercentageDiscount(used, p, ctx.quantities[p], ctx.prices[p.name])]
  {
    st' := OfferStep(ctx, p, st);
  }

  /** A pass over two products is two steps. */
  lemma RunOfTwo(ctx: OfferContext, x: Product, y: Product, st: OfferState)
    requires ctx.Valid() && x in ctx.quantities && y in ctx.quantities && st.arguments.Keys == ctx.table.Keys
    ensures InCart(ctx, [x, y])
    ensures RunOffers(ctx, [x, y], st) == OfferStep(ctx, y, OfferStep(ctx, x, st))
  {
    assert [x, y][..1] == [x] && [x][..0] == [];
    assert RunOffers(ctx, [], st) == st;
    assert RunOffers(ctx, [x], st) == OfferStep(ctx, x, st);
  }

  /** The cart's strategy table, as built by its constructor. */
  function KindFor(t: SpecialOfferType): (k: StrategyKind)
    ensures k.Valid()
  {
    match t
    case ThreeForTwo => QuantityStrategy(THREE_REQUIRED_QUANTITY, TWO_DISCOUNTED_QUANTITY)
    case PercentageDiscount => PercentageStrategy
    case TwoForAmount => VolumeStrategy(TWO_REQUIRED_QUANTITY)
    case FiveForAmount => VolumeStrategy(FIVE_REQUIRED_QUANTITY)
  }

  /**
   * The argument a strategy keeps is shared by every product with that offer
   * type and is only overwritten by a positive argument. A percentage offer
   * of 0 on `b` therefore takes whatever percentage is stored when `b` is
   * visited: `a`'s `x` when `a` came first, otherwise the value left over
   * from before the pass.
   */
  lemma StaleArgumentDependsOnOrder(ctx: OfferContext, a: Product, b: Product, x: real, st: OfferState)
    requires ctx.Valid() && a in ctx.quantities && b in ctx.quantities && a.name in ctx.prices && b.name in ctx.prices
    requires PercentageDiscount in ctx.table && ctx.table[PercentageDiscount] == PercentageStrategy
    requires a in ctx.offers && ctx.offers[a] == Offer(PercentageDiscount, a, x) && x > 0.0
    requires b in ctx.offers && ctx.offers[b] == Offer(PercentageDiscount, b, 0.0)
    requires st == OfferState([], st.arguments, None) && st.arguments.Keys == ctx.table.Keys
    ensures var qa, qb, pa, pb := ctx.quantities[a], ctx.quantities[b], ctx.prices[a.name], ctx.prices[b.name];
      && RunOffers(ctx, [a, b], st).discounts
         == [Strategies.PercentageDiscount(x, a, qa, pa), Strategies.PercentageDiscount(x, b, qb, pb)]
      && RunOffers(ctx, [b, a], st).discounts
         == [Strategies.PercentageDiscount(st.arguments[PercentageDiscount], b, qb, pb), Strategies.PercentageDiscount(x, a, qa, pa)]
  {
    RunOfTwo(ctx, a, b, st);
    RunOfTwo(ctx, b, a, st);
    var afterA := PercentageStep(ctx, a, st);
    var afterB := PercentageStep(ctx, b, st);
    var _ := PercentageStep(ctx, b, afterA);
    var _ := PercentageStep(ctx, a, afterB);
  }

  // ---------------------------------------------------------------------
  // The cart object
  // ---------------------------------------------------------------------

  class ShoppingCart {
    var items: seq<ProductQuantity>
    var productQuantities: map<Product, real>
    const strategies: map<SpecialOfferType, DiscountStrategy>

    /** The quantity invariant, and a table of distinct strategy objects of the right classes. */
    ghost predicate Valid()
      reads this
    {
      && Accumulates(items, productQuantities)
      && (forall t :: t in strategies ==> strategies[t].kind == KindFor(t))
      && (forall t1, t2 :: t1 in strategies && t2 in strategies && t1 != t2 ==> strategies[t1] != strategies[t2])
    }

    /** The class of each strategy in the table. */
    function Kinds(): (table: map<SpecialOfferType, StrategyKind>)
      reads this
      requires Valid()
      ensures table.Keys == strategies.Keys
      ensures forall t :: t in table ==> table[t] == KindFor(t)
    {
      map t | t in strategies :: strategies[t].kind
    }

    /** The argument each strategy currently stores. */
    function Arguments(): (args: map<SpecialOfferType, real>)
      reads strategies.Values
      ensures args.Keys == strategies.Keys
    {
      map t | t in strategies :: strategies[t].argument
    }

    /** What HandleOffers reads, given the offers and the catalog's prices. */
    function Context(offers: map<Product, Offer>, prices: map<string, real>): (ctx: OfferContext)
      reads this
      requires Valid()
      ensures ctx.Valid()
    {
      OfferContext(productQuantities, offers, prices, Kinds())
    }

    constructor ()
      ensures Valid() && items == [] && productQuantities == map[]
      ensures strategies.Keys == AllOfferTypes && fresh(strategies.Values)
      ensures forall t :: t in AllOfferTypes ==> Arguments()[t] == 0.0
    {
      var threeForTwo := new DiscountStrategy(QuantityStrategy(THREE_REQUIRED_QUANTITY, TWO_DISCOUNTED_QUANTITY));
      var percentage := new DiscountStrategy(PercentageStrategy);
      var twoForAmount := new DiscountStrategy(VolumeStrategy(TWO_REQUIRED_QUANTITY));
      var fiveForAmount := new DiscountStrategy(VolumeStrategy(FIVE_REQUIRED_QUANTITY));
      strategies := map[ThreeForTwo := threeForTwo, PercentageDiscount := percentage,
                        TwoForAmount := twoForAmount, FiveForAmount := fiveForAmount];
      items := [];
      productQuantities := map[];
    }

    /** A copy of the lines; a Dafny sequence is a value, so nothing done to it reaches the cart. */
    method GetItems() returns (lines: seq<ProductQuantity>)
      ensures lines == items
    {
      lines := items;
    }

    /** Appends one line and adds its quantity to the product's running total. */
    method AddItemQuantity(product: Product, quantity: real)
      requires Valid()
      modifies this
      ensures Valid()
      ensures items == old(items) + [ProductQuantity(product, quantity)]
      ensures productQuantities == old(productQuantities)[product :=
                if product in old(productQuantities) then old(productQuantities)[product] + quantity else quantity]
      ensures productQuantities[product] == QuantityOf(items, product)
      ensures Arguments() == old(Arguments())
    {
      AccumulateLine(items, productQuantities, product, quantity);
      items := items + [ProductQuantity(product, quantity)];
      if product in productQuantities {
        var newAmount := productQuantities[product] + quantity;
        productQuantities := productQuantities[product := newAmount];
      } else {
        productQuantities := productQuantities[product := quantity];
      }
    }

    /**
     * Visits every product with an accumulated quantity, in an unspecified
     * order (reported as `order`), and adds the discounts of those with an
     * offer to the receipt. A failure stops the pass where it happens.
     */
    method HandleOffers(receipt: Receipt, offers: map<Product, Offer>, catalog: FakeCatalog)
      returns (error: Option<CheckoutError>, ghost order: seq<Product>)
      requires Valid()
      modifies receipt, strategies.Values
      ensures Valid() && items == old(items) && productQuantities == old(productQuantities)
      ensures receipt.items == old(receipt.items)
      ensures Distinct(order) && forall p :: p in order ==> p in productQuantities
      ensures error.None? ==> forall p :: p in productQuantities ==> p in order
      ensures InCart(Context(offers, catalog.prices), order)
      ensures var st := RunOffers(Context(offers, catalog.prices), order, OfferState([], old(Arguments()), None));
        && receipt.discounts == old(receipt.discounts) + st.discounts
        && Arguments() == st.arguments
        && error == st.error
    {
      ghost var ctx := Context(offers, catalog.prices);
      ghost var init := OfferState([], Arguments(), None);
      ghost var base := receipt.discounts;
      var remaining := productQuantities.Keys;
      order := [];
      error := None;
      while remaining != {} && error.None?
        invariant Valid() && ctx == Context(offers, catalog.prices)
        invariant Partitioned(order, remaining, productQuantities.Keys)
        invariant receipt.items == old(receipt.items)
        invariant Tracks(receipt, base, ctx, init, order, error)
        decreases remaining
      {
        var product :| product in remaining;
        VisitNext(order, remaining, productQuantities.Keys, product);
        error := VisitProduct(receipt, offers, catalog, product, ctx, init, base, order);
        order := order + [product];
        remaining := remaining - {product};
      }
    }

    /**
     * The discounts and arguments the pass has produced so far are those of
     * RunOffers over the products visited, on top of the receipt's earlier discounts.
     */
    ghost predicate Tracks(receipt: Receipt, base: seq<Discount>, ctx: OfferContext, init: OfferState,
                           order: seq<Product>, error: Option<CheckoutError>)
      reads this, receipt, strategies.Values
    {
      && ctx.Valid() && InCart(ctx, order) && init.arguments.Keys == ctx.table.Keys
      && var st := RunOffers(ctx, order, init);
      && receipt.discounts == base + st.discounts
      && Arguments() == st.arguments
      && error == st.error
    }

    /** The body of HandleOffers' loop: visit `product`, which has not been visited yet. */
    method VisitProduct(receipt: Receipt, offers: map<Product, Offer>, catalog: FakeCatalog, product: Product,
                        ghost ctx: OfferContext, ghost init: OfferState, ghost base: seq<Discount>,
                        ghost order: seq<Product>)
      returns (error: Option<CheckoutError>)
      requires Valid() && ctx == Context(offers, catalog.prices)
      requires Distinct(order) && product !in order && product in productQuantities
      requires Tracks(receipt, base, ctx, init, order, None)
      modifies receipt, strategies.Values
      ensures receipt.items == old(receipt.items)
      ensures Tracks(receipt, base, ctx, init, order + [product], error)
    {
      ghost var before := RunOffers(ctx, order, init);
      ghost var step := OfferStep(ctx, product, OfferState([], before.arguments, None));
      RunOneMore(ctx, order, product, init);
      error := ApplyOffer(receipt, offers, catalog, product, ctx, before.arguments);
      AppendAssociates(base, before.discounts, step.discounts);
    }

    /** One iteration of HandleOffers: OfferStep for `product`, applied to the receipt and the strategies. */
    method ApplyOffer(receipt: Receipt, offers: map<Product, Offer>, catalog: FakeCatalog, product: Product,
                      ghost ctx: OfferContext, ghost args: map<SpecialOfferType, real>)
      returns (error: Option<CheckoutError>)
      requires Valid() && product in productQuantities && ctx == Context(offers, catalog.prices)
      requires args == Arguments()
      modifies receipt, strategies.Values
      ensures receipt.items == old(receipt.items)
      ensures var st := OfferStep(ctx, product, OfferState([], args, None));
        && receipt.discounts == old(receipt.discounts) + st.discounts
        && Arguments() == st.arguments
        && error == st.error
    {
      ghost var step := OfferStep(ctx, product, OfferState([], args, None));
      error := None;
      if product !in offers {
        assert step == OfferState([], args, None);
        return;
      }
      var offer := offers[product];
      var quantity := productQuantities[product];
      var unitPrice := catalog.GetUnitPrice(product);
      if unitPrice.None? {
        error := Some(UnknownProduct(product.name));
        assert step == OfferState([], args, error);
        return;
      }
      if offer.offerType !in strategies {
        error := Some(InvalidOfferType(offer.offerType));
        assert step == OfferState([], args, error);
        return;
      }
      var strategy := strategies[offer.offerType];
      ghost var newArgs := if offer.argument > 0.0 then args[offer.offerType := offer.argument] else args;
      SetArgument(strategy, offer.offerType, offer.argument);
      assert Arguments() == newArgs;
      assert strategy.kind == ctx.table[offer.offerType] && strategy.argument == newArgs[offer.offerType];
      var discount := Compute(strategy.kind, strategy.argument, product, quantity, unitPrice.value);
      assert step == OfferState(AsSeq(discount), newArgs, None);
      if discount.Some? {
        receipt.AddDiscount(discount.value);
      }
    }

    /** Stores a positive offer argument in the strategy for type `t`; the other strategies keep theirs. */
    method SetArgument(strategy: DiscountStrategy, t: SpecialOfferType, argument: real)
      requires Valid() && t in strategies && strategy == strategies[t]
      modifies strategy
      ensures Arguments() == if argument > 0.0 then old(Arguments())[t := argument] else old(Arguments())
    {
      ghost var args := Arguments();
      if argument > 0.0 {
        strategy.argument := argument;
        forall u | u in strategies
          ensures strategies[u].argument == args[t := argument][u]
        {
          if u != t {
            assert strategies[u] != strategy;
          }
        }
      }
    }
  }
}
