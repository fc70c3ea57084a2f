# Supermarket receipt: a Dafny model of the pricing core

This project models the pricing core of the C# SupermarketReceipt kata:

- **Catalog** (`FakeCatalog`): the unit price of each product, filed by name.
- **Teller**: the offers the shop runs. `ChecksOutArticlesFrom` prices every cart line onto a new receipt and then hands the receipt to the cart.
- **Shopping cart**: an append-only list of lines and the accumulated quantity per product. It owns one strategy object per special-offer type. `HandleOffers` visits every product in the cart and adds the discount, if any, of each product that has an offer.
- **Discount strategies**:
  - percentage off;
  - "N for D" (three for two);
  - "N for an amount" (two for an amount, five for an amount).

  Each strategy maps a quantity and a unit price to a discount, or to none. The percentage and "N for an amount" strategies also read a stored argument (the percentage or the bundle price) that the cart overwrites; the "N for D" strategy never reads it.

Modules:

| file | module | contents |
|---|---|---|
| `supermarket.dfy` | `SupermarketReceipt` | value types: product, offer, cart line, discount, receipt item; the strategy constants; the `Receipt` class |
| `discount_strategy.dfy` | `Strategies` | the C# numeric operators spelled out over `real`/`int`; the three `Compute` methods as functions; the strategy class |
| `catalog.dfy` | `Catalog` | the `FakeCatalog` class |
| `shopping_cart.dfy` | `Cart` | line accumulation; the offer pass as a fold (`RunOffers`) and its properties; the `ShoppingCart` class |
| `teller.dfy` | `Checkout` | line pricing (`PriceLines`); the `Teller` class |
| `scenarios.dfy` | `Scenarios` | two checkouts from the repository's test suite, derived from the contracts above |

Arithmetic:

- Prices and quantities are `real`, so the model computes exactly. The C# code uses IEEE doubles.
- `(int)` on a double truncates toward zero (`TruncateToInt`).
- `/` on ints truncates toward zero (`ComputeQualifiedSet`).
- `%` on doubles keeps the sign of the dividend (`FloatRemainder`).

C# exceptions become error values of type `CheckoutError`:

- `UnknownProduct(name)` replaces the `KeyNotFoundException` of a catalog lookup.
- `InvalidOfferType(t)` replaces the exception thrown for an offer type without a strategy.

`HandleOffers` iterates over the keys of a `Dictionary`, in an order C# does not specify. The method picks the next product with `:|` and reports the order it used as a ghost out-parameter. Its contract ties the receipt and the stored arguments to `RunOffers` over that order.

The grouped strategies charge the part of the quantity outside whole bundles at the full unit price:

- Taking that remainder from ⌊q⌋ would leave a residual discount for fractional quantities.
- The code (`DiscountStrategy.cs:58` and `:77`) takes the floating `%` of the raw quantity, so the fraction is charged in full and cancels out.
- The discount is therefore exactly "bundles × saving per bundle" (`GroupingSplitsQuantity`, `FractionalQuantityExample`).

## Model

| member | source | states |
|---|---|---|
| Strategies.TruncateToInt | csharp/SupermarketReceipt/Strategies/DiscountStrategy.cs:57 | the cast `(int)quantity` lies within 1 of its argument, on the side of zero |
| Strategies.FloatRemainder | csharp/SupermarketReceipt/Strategies/DiscountStrategy.cs:58 | the double `%` of a non-negative dividend by a positive divisor lies in [0, divisor) |
| Strategies.ComputeQualifiedSet | csharp/SupermarketReceipt/Strategies/DiscountStrategy.cs:17-20 | the truncating int quotient: r·d ≤ q < (r+1)·d for q ≥ 0, and the mirrored bounds for q < 0 |
| Strategies.GroupingSplitsQuantity | csharp/SupermarketReceipt/Strategies/DiscountStrategy.cs:56-58 | for a non-negative quantity, `ComputeQualifiedSet((int)q, n)` is ⌊q⌋ div n (the bundles); bundles·n plus the double remainder gives back q exactly; the remainder lies in [0, n) |
| Strategies.ComputeNormalPrice | csharp/SupermarketReceipt/Strategies/DiscountStrategy.cs:12-15 | the undiscounted line price: zero when the quantity or the price is zero, and never negative for a non-negative price and quantity |
| Strategies.PercentageDiscount | csharp/SupermarketReceipt/Strategies/DiscountStrategy.cs:31-38 | always a discount for the product, described as "percentage % off"; the line price plus the discount is the line price times (100 − percentage)/100; 0 % gives 0 and 100 % makes the line free |
| Strategies.QuantityDiscount | csharp/SupermarketReceipt/Strategies/DiscountStrategy.cs:51-60 | no discount exactly when the quantity is below N; otherwise a discount for the product, described as "N for D", of −(bundles·(N−D))·unit price |
| Strategies.VolumeDiscount | csharp/SupermarketReceipt/Strategies/DiscountStrategy.cs:68-79 | no discount exactly when the quantity is below N; otherwise a discount for the product, described as "N for amount", of −bundles·(N·unit price − amount) |
| Strategies.Compute | csharp/SupermarketReceipt/Strategies/DiscountStrategy.cs:10 | the virtual dispatch: the percentage strategy always gives a discount; a grouped strategy gives none exactly below its N; a discount is always for the product asked about |
| Strategies.DiscountStrategy.constructor | csharp/SupermarketReceipt/Strategies/DiscountStrategy.cs:6-8 | a strategy object has a fixed class and starts with stored argument 0 |
| Strategies.PercentageKeepsLineInRange | csharp/SupermarketReceipt/Strategies/DiscountStrategy.cs:31-38 | with 0 ≤ percentage ≤ 100 and a non-negative line, the discount is not positive and the discounted line lies in [0, line price] |
| Strategies.QuantityDiscountNeverPositive | csharp/SupermarketReceipt/Strategies/DiscountStrategy.cs:51-60 | when D ≤ N and the unit price is non-negative, an "N for D" discount never raises the price |
| Strategies.VolumeDiscountNeverPositive | csharp/SupermarketReceipt/Strategies/DiscountStrategy.cs:68-79 | when the bundle amount is at most N unit prices, an "N for amount" discount never raises the price |
| Strategies.ThreeForTwoBelowThreshold | csharp/SupermarketReceipt.Test/SupermarketXUnitTest.cs:348-354 | three for two at unit price 10: no discount for 1 or 2 units |
| Strategies.ThreeForTwoExamples | csharp/SupermarketReceipt.Test/SupermarketXUnitTest.cs:108-126 | three for two at unit price 10: 3, 4, 6 and 8 units cost 20, 30, 40 and 60 |
| Strategies.VolumeBelowThreshold | csharp/SupermarketReceipt.Test/SupermarketXUnitTest.cs:392-424 | below N there is no discount: five for 40 at 10 with 4 units (line 392), two for 10 at 10 with 1 unit (line 424) |
| Strategies.VolumeExamples | csharp/SupermarketReceipt.Test/SupermarketXUnitTest.cs:208-264 | five for 40 at 10: 5 and 8 units cost 40 and 70. Two for 150 at 100: 2 and 3 units cost 150 and 250 |
| Strategies.FractionalQuantityExample | csharp/SupermarketReceipt/Strategies/DiscountStrategy.cs:56-58 | 3.5 units under three for two at 10 cost 25: the fraction is charged in full, with no residual discount |
| Catalog.FakeCatalog.constructor | csharp/SupermarketReceipt/FakeCatalog.cs:7-8 | a new catalog has no products and no prices |
| Catalog.FakeCatalog.AddProduct | csharp/SupermarketReceipt/FakeCatalog.cs:10-14 | a new name files the product and its price, and afterwards every product of that name is priced at it; a name already present is refused (where `Dictionary.Add` throws) and nothing changes; other names keep their prices |
| Catalog.FakeCatalog.GetUnitPrice | csharp/SupermarketReceipt/FakeCatalog.cs:16-19 | a price exactly when the name is registered, and then the registered one |
| Catalog.FakeCatalog.PriceIgnoresUnit | csharp/SupermarketReceipt/FakeCatalog.cs:16-19 | lookup is by name only: two products differing only in unit get the same price |
| Cart.SplitLinesAccumulateAlike | csharp/SupermarketReceipt/ShoppingCart.cs:31-43 | adding x then y of a product gives it the same accumulated quantity as adding x + y at once |
| Cart.AccumulateLine | csharp/SupermarketReceipt/ShoppingCart.cs:31-43 | the dictionary update in `AddItemQuantity` keeps, for exactly the products with lines, the sum of their lines |
| Cart.OfferStep | csharp/SupermarketReceipt/ShoppingCart.cs:49-69 | one loop iteration: nothing changes for a product without an offer or after a failure; at most one discount is appended, always for the visited product and only if it has an offer; the earlier discounts are kept |
| Cart.OfferStepIgnoresEarlierDiscounts | csharp/SupermarketReceipt/ShoppingCart.cs:49-69 | an iteration does not read the discounts already on the receipt: it only appends to them |
| Cart.RunOffers | csharp/SupermarketReceipt/ShoppingCart.cs:47-70 | the whole loop over a given visiting order; the offer types with a stored argument stay those of the table |
| Cart.RunAddsAtMostOnePerProduct | csharp/SupermarketReceipt/ShoppingCart.cs:47-70 | in any visiting order without repetitions, every discount is for a visited product with an offer, and no product gets two |
| Cart.RunWithSelfContainedOffers | csharp/SupermarketReceipt/ShoppingCart.cs:63-66 | when every offer visited is priced, has a strategy, and either has a positive argument or is a quantity (three-for-two) offer, whose strategy never reads the argument, the pass does not fail and each product gets exactly its own offer's discount, in visiting order |
| Cart.SelfContainedStep | csharp/SupermarketReceipt/ShoppingCart.cs:63-69 | under the same condition, one iteration does not fail and appends exactly the product's own offer's discount |
| Cart.CollectIsOrderIndependent | csharp/SupermarketReceipt/ShoppingCart.cs:47 | two visiting orders of the same products collect the same multiset of per-product discounts |
| Cart.HandleOffersOrderIndependent | csharp/SupermarketReceipt/ShoppingCart.cs:47-70 | when every offer has a positive argument or is a three-for-two offer, the unspecified dictionary order does not change which discounts are added (as a multiset), and no order fails |
| Cart.FullTableFailsOnlyOnUnknownProduct | csharp/SupermarketReceipt/ShoppingCart.cs:56-61 | with the constructor's full strategy table, the pass fails only on a visited product the catalog does not price, and names that product |
| Cart.PercentageStep | csharp/SupermarketReceipt/ShoppingCart.cs:63-66 | a percentage offer stores its argument only if it is positive, and the discount uses the argument then stored |
| Cart.StaleArgumentDependsOnOrder | csharp/SupermarketReceipt/ShoppingCart.cs:63-66 | a percentage offer of 0 on b takes a's x % when a is visited first, and the percentage left from before the pass when b is first: the receipt depends on dictionary order |
| Cart.KindFor | csharp/SupermarketReceipt/ShoppingCart.cs:17-23 | every strategy in the cart's table has valid constants (N > 0) |
| Cart.ShoppingCart.Kinds | csharp/SupermarketReceipt/ShoppingCart.cs:17-23 | the table maps each offer type to the strategy class the constructor builds for it |
| Cart.ShoppingCart.constructor | csharp/SupermarketReceipt/ShoppingCart.cs:15-24 | an empty cart with one fresh strategy per offer type, each of the right class, each storing 0 |
| Cart.ShoppingCart.GetItems | csharp/SupermarketReceipt/ShoppingCart.cs:26-29 | the lines, in the order they were added |
| Cart.ShoppingCart.AddItemQuantity | csharp/SupermarketReceipt/ShoppingCart.cs:31-43 | appends the line; adds the quantity to the product's total, or starts it; the total equals the sum of the product's lines; no stored argument changes |
| Cart.ShoppingCart.HandleOffers | csharp/SupermarketReceipt/ShoppingCart.cs:45-71 | visits each product at most once, in some order; on success it visits all of them; leaves lines and receipt items alone; the receipt gains exactly `RunOffers`' discounts, the strategies store its arguments, and the error is its error |
| Cart.ShoppingCart.VisitProduct | csharp/SupermarketReceipt/ShoppingCart.cs:47-70 | one pass of the loop keeps the receipt's discounts and the stored arguments equal to `RunOffers` over the products visited so far |
| Cart.ShoppingCart.ApplyOffer | csharp/SupermarketReceipt/ShoppingCart.cs:49-69 | the loop body, on the receipt and the strategy objects, does exactly what `OfferStep` says |
| Cart.ShoppingCart.SetArgument | csharp/SupermarketReceipt/ShoppingCart.cs:63-64 | a positive argument overwrites the offer type's stored argument, and no other strategy's; a non-positive one changes nothing |
| Checkout.PricedItem | csharp/SupermarketReceipt/Teller.cs:26-30 | a receipt line keeps the product, quantity and unit price; the line price is zero exactly when the quantity or the price is, and is non-negative for non-negative inputs |
| Checkout.PriceLines | csharp/SupermarketReceipt/Teller.cs:22-31 | succeeds exactly when every line's product is priced, giving one priced receipt line per cart line in order; otherwise fails naming the first unpriced line |
| Checkout.PriceLinesFailureSticks | csharp/SupermarketReceipt/Teller.cs:24-31 | once a prefix of the lines fails to price, the whole list fails with the same error |
| Checkout.PricedTotal | csharp/SupermarketReceipt/Teller.cs:24-31 | the receipt lines add up to the sum of quantity × unit price over the cart lines |
| Checkout.NoOffersNoDiscounts | csharp/SupermarketReceipt/ShoppingCart.cs:50-51 | without any offer, the offer pass adds no discount and changes no stored argument |
| Checkout.PricedCartPassesOffers | csharp/SupermarketReceipt/Teller.cs:20-33 | once every cart line is priced, the offer pass of a cart built by its constructor cannot fail |
| Checkout.Teller.constructor | csharp/SupermarketReceipt/Teller.cs:10-13 | a teller keeps the catalog it is given and has no offers |
| Checkout.Teller.AddSpecialOffer | csharp/SupermarketReceipt/Teller.cs:15-18 | the product's offer is set, replacing any earlier one; the offers of other products are unchanged |
| Checkout.Teller.ChecksOutArticlesFrom | csharp/SupermarketReceipt/Teller.cs:20-36 | an unpriced line fails before any offer is looked at, and no stored argument changes; otherwise the result is `RunOffers` over the visiting order: its failure, or a new receipt holding the priced lines and the pass's discounts, after all products were visited |
| Checkout.Teller.PriceCartLines | csharp/SupermarketReceipt/Teller.cs:22-31 | the pricing loop builds a new receipt whose lines are `PriceLines`' result, or stops with its error |
| Scenarios.SingleProductPass | csharp/SupermarketReceipt/ShoppingCart.cs:47 | a cart with one priced product is visited in the only possible order, and the pass is that product's single step |
| Scenarios.TenPercentSetup | csharp/SupermarketReceipt.Test/SupermarketXUnitTest.cs:12-22 | the catalog, cart and offers of the ten-percent test, as the constructors and adders leave them |
| Scenarios.ThreeForTwoSetup | csharp/SupermarketReceipt.Test/SupermarketXUnitTest.cs:322-331 | the catalog, cart and offer of a three-for-two test row (3 at 10), as the constructors and adders leave them |

`Scenarios.TenPercentDiscountScenario` and `Scenarios.ThreeForTwoScenario` repeat the assertions of the tests at `SupermarketXUnitTest.cs:9-36` and `:108`:

- The ten-percent test gets a total of 4.975 with no discount.
- The three-for-two row gets one line of 30, a discount of −10, and a total of 20.

Both scenarios derive these assertions from the contracts above.

## Left out

- IEEE double arithmetic and its rounding are not modelled: prices and quantities are exact `real`s. The same holds for overflow of the `(int)` cast on huge quantities.
- Description text is not modelled. `string.Format`, `Format.cs` and the culture-specific `PrintPrice` are kept only as structured `Description` values. `Format.cs` is not part of this model.
- Exception types and messages are not modelled. A thrown exception becomes a value instead:
  - during checkout, a `CheckoutError`;
  - the `Dictionary.Add` exception of `FakeCatalog.AddProduct` on a duplicate name (`FakeCatalog.cs:12`), the result `added == false`;
  - a direct `FakeCatalog.GetUnitPrice` miss (`FakeCatalog.cs:18`), the result `None`.
- `ISupermarketCatalog` is not part of this model: the cart and the teller call `FakeCatalog` directly.
- `Receipt.cs` is not part of this model. `Receipt` here has only the members checkout uses: the lines, the discounts, their total, and the two adders.
- `Product`, `Offer`, `ProductQuantity`, `Discount`, `ReceiptItem`, `SpecialOfferType` and the `Default` constants come from files that are not part of this model. They are written as plain values. Two products are equal exactly when their name and unit match.
- Dictionary iteration order is not modelled. `HandleOffers` takes an arbitrary unvisited product at each step and reports the order it used.
- `Strategies.FloatRemainder`: its contract bounds the result only for a non-negative dividend. The grouped strategies never reach the remainder with a quantity below N > 0.
- `Cart.ShoppingCart.HandleOffers` and `Checkout.Teller.ChecksOutArticlesFrom` keep the structure of the C# loops, but parts of them sit in helper methods (`VisitProduct`, `ApplyOffer`, `SetArgument`, `PriceCartLines`).
- Out-of-range `SpecialOfferType` values (an int cast to the enum) are not modelled: the type has exactly its four named values, and a cart's constructor files a strategy for each. Through `ShoppingCart`, the `InvalidOfferType` error of `ShoppingCart.cs:60-61` therefore never arises (`FullTableFailsOnlyOnUnknownProduct`). It arises only in `RunOffers` over a strategy table that lacks a type.
