/**
 * The discount rule set: one strategy per offer kind, each mapping
 * (quantity, unit price, stored argument) to a discount or to no discount.
 *
 * The C# code mixes doubles and ints; the numeric operators it uses are
 * spelled out here over `real` and `int`:
 *   - `(int)x` on a double truncates toward zero            (TruncateToInt)
 *   - `/` on two ints truncates toward zero                 (ComputeQualifiedSet)
 *   - `%` on doubles keeps the sign of the dividend         (FloatRemainder)
 */
module Strategies {
  import opened SupermarketReceipt

  /** C#'s `(int)` cast of a double. */
  function TruncateToInt(x: real): (r: int)
    ensures 0.0 <= x ==> r as real <= x < r as real + 1.0
    ensures x < 0.0 ==> r as real - 1.0 < x <= r as real
  {
    if x >= 0.0 then x.Floor else -((-x).Floor)
  }

  /** C#'s `%` on doubles: what is left of `x` after removing a whole number of `y`s, toward zero. */
  function FloatRemainder(x: real, y: real): (r: real)
    requires y != 0.0
    ensures 0.0 <= x && 0.0 < y ==> 0.0 <= r < y
  {
    var t := TruncateToInt(x / y);
    if 0.0 <= x && 0.0 < y then
      QuotientOfNonNegative(x, y);
      RemainderBounds(x, y, t as real);
      x - y * t as real
    else
      x - y * t as real
  }

  lemma ScaleLe(a: real, b: real, y: real)
    requires 0.0 < y && a <= b
    ensures a * y <= b * y
  {
  }

  lemma ScaleLt(a: real, b: real, y: real)
    requires 0.0 < y && a < b
    ensures a * y < b * y
  {
  }

  lemma QuotientOfNonNegative(x: real, y: real)
    requires 0.0 <= x && 0.0 < y
    ensures 0.0 <= x / y
  {
    var q := x / y;
    assert q * y == x;
    if q < 0.0 {
      ScaleLt(q, 0.0, y);
    }
  }

  /** If `tr` is the whole part of x / y, then x - y * tr lies in [0, y). */
  lemma RemainderBounds(x: real, y: real, tr: real)
    requires 0.0 < y && tr <= x / y < tr + 1.0
    ensures 0.0 <= x - y * tr < y
  {
    var q := x / y;
    assert q * y == x;
    ScaleLe(tr, q, y);
    ScaleLt(q, tr + 1.0, y);
    var a := tr * y;
    assert a <= x;
    assert x < (tr + 1.0) * y;
    assert (tr + 1.0) * y == a + y;
    assert x < a + y;
    assert y * tr == a;
  }

  /** Conversely, lo * y <= x < (lo + 1) * y places x / y in [lo, lo + 1). */
  lemma QuotientBounds(x: real, y: real, lo: real)
    requires 0.0 < y && lo * y <= x < (lo + 1.0) * y
    ensures lo <= x / y < lo + 1.0
  {
    var q := x / y;
    assert q * y == x;
    if q < lo {
      ScaleLt(q, lo, y);
    }
    if lo + 1.0 <= q {
      ScaleLe(lo + 1.0, q, y);
    }
  }

  /** The undiscounted line price: nothing for no quantity, never negative for a non-negative price and quantity. */
  function ComputeNormalPrice(price: real, quantity: real): (r: real)
    ensures quantity == 0.0 || price == 0.0 ==> r == 0.0
    ensures 0.0 <= price && 0.0 <= quantity ==> 0.0 <= r
  {
    price * quantity
  }

  /** The number of whole groups of `discountedQty` in `quantity`, by C#'s truncating `/`. */
  function ComputeQualifiedSet(quantity: int, discountedQty: int): (r: int)
    requires discountedQty != 0
    ensures 0 <= quantity && 0 < discountedQty ==> r * discountedQty <= quantity < (r + 1) * discountedQty
    ensures quantity < 0 && 0 < discountedQty ==> (r - 1) * discountedQty < quantity <= r * discountedQty
  {
    var q := (if quantity < 0 then -quantity else quantity) / (if discountedQty < 0 then -discountedQty else discountedQty);
    if (quantity < 0) == (discountedQty < 0) then q else -q
  }

  /** The independent reading of "how many bundles of n": floor of the quantity, divided by n. */
  function Bundles(quantity: real, n: int): int
    requires 0 < n
  {
    quantity.Floor / n
  }

  /**
   * For a non-negative quantity the C# grouping arithmetic agrees with the
   * bundles reading, and bundles plus the floating remainder give back the
   * quantity exactly.
   */
  lemma GroupingSplitsQuantity(quantity: real, n: int)
    requires 0.0 <= quantity && 0 < n
    ensures ComputeQualifiedSet(TruncateToInt(quantity), n) == Bundles(quantity, n)
    ensures (Bundles(quantity, n) * n) as real + FloatRemainder(quantity, n as real) == quantity
    ensures 0.0 <= FloatRemainder(quantity, n as real) < n as real
  {
    var f := quantity.Floor;
    var k := f / n;
    var nr := n as real;
    assert TruncateToInt(quantity) == f;
    assert ComputeQualifiedSet(f, n) == k;
    assert k * n <= f < k * n + n by {
      assert f == k * n + f % n;
    }
    assert (k * n) as real == k as real * nr;
    assert (k * n + n) as real == (k as real + 1.0) * nr;
    QuotientBounds(quantity, nr, k as real);
    assert TruncateToInt(quantity / nr) == k;
    assert FloatRemainder(quantity, nr) == quantity - nr * k as real;
    assert (k * n) as real + FloatRemainder(quantity, nr) == quantity;
  }

  /** PercentageDiscountStrategy.Compute: always a discount, of `percentage` percent of the line. */
  function PercentageDiscount(percentage: real, product: Product, quantity: real, price: real): (d: Discount)
    ensures d.product == product && d.description == PercentOff(percentage)
    ensures price * quantity + d.discountAmount == price * quantity * (100.0 - percentage) / 100.0
    ensures percentage == 0.0 ==> d.discountAmount == 0.0
    ensures percentage == 100.0 ==> price * quantity + d.discountAmount == 0.0
  {
    var normalPrice := ComputeNormalPrice(price, quantity);
    var percentageDiscount := percentage / 100.0;
    var totalDiscount := normalPrice * percentageDiscount;
    Discount(product, PercentOff(percentage), -totalDiscount)
  }

  /**
   * QuantityDiscountStrategy.Compute ("N for D"): nothing below N; otherwise
   * every whole bundle of N units is charged as D units.
   */
  function QuantityDiscount(requiredQuantity: int, discountedQuantity: int, product: Product, quantity: real, price: real): (r: Option<Discount>)
    requires 0 < requiredQuantity
    ensures r.None? <==> quantity < requiredQuantity as real
    ensures r.Some? ==> r.value.product == product
    ensures r.Some? ==> r.value.description == PiecesForPieces(requiredQuantity, discountedQuantity)
    ensures r.Some? ==> r.value.discountAmount
                        == -(Bundles(quantity, requiredQuantity) * (requiredQuantity - discountedQuantity)) as real * price
  {
    if quantity < requiredQuantity as real then None
    else
      var normalPrice := ComputeNormalPrice(price, quantity);
      var qualifiedSet := ComputeQualifiedSet(TruncateToInt(quantity), requiredQuantity);
      var remainder := FloatRemainder(quantity, requiredQuantity as real);
      var totalDiscount := normalPrice - ((qualifiedSet * discountedQuantity) as real * price + remainder * price);
      GroupingSplitsQuantity(quantity, requiredQuantity);
      var b := Bundles(quantity, requiredQuantity);
      assert quantity == (b * requiredQuantity) as real + remainder;
      assert totalDiscount == ((b * requiredQuantity) as real - (b * discountedQuantity) as real) * price;
      Some(Discount(product, PiecesForPieces(requiredQuantity, discountedQuantity), -totalDiscount))
  }

  /**
   * VolumeDiscount.Compute ("N for an amount"): nothing below N; otherwise
   * every whole bundle of N units is charged `amount` instead of N unit prices.
   */
  function VolumeDiscount(requiredQuantity: int, amount: real, product: Product, quantity: real, price: real): (r: Option<Discount>)
    requires 0 < requiredQuantity
    ensures r.None? <==> quantity < requiredQuantity as real
    ensures r.Some? ==> r.value.product == product
    ensures r.Some? ==> r.value.description == PiecesForAmount(requiredQuantity, amount)
    ensures r.Some? ==> r.value.discountAmount
                        == -(Bundles(quantity, requiredQuantity) as real * (requiredQuantity as real * price - amount))
  {
    if quantity < requiredQuantity as real then None
    else
      var discountedAmount := amount;
      var normalPrice := ComputeNormalPrice(price, quantity);
      var qualifiedSet := ComputeQualifiedSet(TruncateToInt(quantity), requiredQuantity);
      var remainder := FloatRemainder(quantity, requiredQuantity as real);
      var totalDiscount := normalPrice - (discountedAmount * qualifiedSet as real + remainder * price);
      GroupingSplitsQuantity(quantity, requiredQuantity);
      var b := Bundles(quantity, requiredQuantity);
      assert quantity == (b * requiredQuantity) as real + remainder;
      assert totalDiscount == b as real * (requiredQuantity as real * price - amount);
      Some(Discount(product, PiecesForAmount(requiredQuantity, amount), -totalDiscount))
  }

  /** The three concrete strategy classes; the grouped ones carry their constructor constants. */
  datatype StrategyKind =
    | PercentageStrategy
    | QuantityStrategy(requiredQuantity: int, discountedQuantity: int)
    | VolumeStrategy(requiredQuantity: int)
  {
    predicate Valid() {
      !PercentageStrategy? ==> 0 < requiredQuantity
    }
  }

  /**
   * The virtual `Compute`: dispatch on the strategy's class, reading the
   * strategy's stored argument (a percentage or a bundle price; unused by
   * the quantity strategy).
   */
  function Compute(kind: StrategyKind, argument: real, product: Product, quantity: real, price: real): (r: Option<Discount>)
    requires kind.Valid()
    ensures kind.PercentageStrategy? ==> r.Some?
    ensures !kind.PercentageStrategy? ==> (r.None? <==> quantity < kind.requiredQuantity as real)
    ensures r.Some? ==> r.value.product == product
  {
    match kind
    case PercentageStrategy => Some(PercentageDiscount(argument, product, quantity, price))
    case QuantityStrategy(n, d) => QuantityDiscount(n, d, product, quantity, price)
    case VolumeStrategy(n) => VolumeDiscount(n, argument, product, quantity, price)
  }

  /** A strategy object: its class is fixed, its public `argument` field is written by the cart. */
  class DiscountStrategy {
    const kind: StrategyKind
    var argument: real

    constructor (kind: StrategyKind)
      ensures this.kind == kind && argument == 0.0
    {
      this.kind := kind;
      argument := 0.0;
    }
  }

  /** With 0 <= percentage <= 100 and a non-negative line, the discounted line lies in [0, normal price]. */
  lemma PercentageKeepsLineInRange(percentage: real, product: Product, quantity: real, price: real)
    requires 0.0 <= percentage <= 100.0 && 0.0 <= price && 0.0 <= quantity
    ensures var d := PercentageDiscount(percentage, product, quantity, price);
      0.0 <= price * quantity + d.discountAmount <= price * quantity && d.discountAmount <= 0.0
  {
    var normal := price * quantity;
    assert 0.0 <= normal;
    var d := PercentageDiscount(percentage, product, quantity, price);
    var f := (100.0 - percentage) / 100.0;
    assert 0.0 <= f <= 1.0;
    assert normal + d.discountAmount == normal * f;
    assert 0.0 <= normal * f;
    assert normal * f <= normal by {
      assert normal * f + normal * (1.0 - f) == normal;
      assert 0.0 <= normal * (1.0 - f);
    }
  }

  /** A quantity offer that charges D <= N units per bundle never raises the price. */
  lemma QuantityDiscountNeverPositive(n: int, d: int, product: Product, quantity: real, price: real)
    requires 0 < n && d <= n && 0.0 <= price
    ensures var r := QuantityDiscount(n, d, product, quantity, price);
      r.Some? ==> r.value.discountAmount <= 0.0
  {
    if n as real <= quantity {
      var b := Bundles(quantity, n);
      assert 0 <= b * (n - d);
      assert 0.0 <= (b * (n - d)) as real * price;
    }
  }

  /** A volume offer whose bundle price is at most N unit prices never raises the price. */
  lemma VolumeDiscountNeverPositive(n: int, amount: real, product: Product, quantity: real, price: real)
    requires 0 < n && amount <= n as real * price
    ensures var r := VolumeDiscount(n, amount, product, quantity, price);
      r.Some? ==> r.value.discountAmount <= 0.0
  {
    if n as real <= quantity {
      var b := Bundles(quantity, n);
      assert 0 <= b;
      assert 0.0 <= b as real * (n as real * price - amount);
    }
  }

  /** Three-for-two at unit price 10: no discount for 1 or 2 units. */
  lemma ThreeForTwoBelowThreshold(product: Product)
    ensures QuantityDiscount(3, 2, product, 1.0, 10.0).None?
    ensures QuantityDiscount(3, 2, product, 2.0, 10.0).None?
  {
  }

  /** Three-for-two at unit price 10: totals 20, 30, 40, 60 for 3, 4, 6, 8. */
  lemma ThreeForTwoExamples(product: Product)
    ensures 30.0 + QuantityDiscount(3, 2, product, 3.0, 10.0).value.discountAmount == 20.0
    ensures 40.0 + QuantityDiscount(3, 2, product, 4.0, 10.0).value.discountAmount == 30.0
    ensures 60.0 + QuantityDiscount(3, 2, product, 6.0, 10.0).value.discountAmount == 40.0
    ensures 80.0 + QuantityDiscount(3, 2, product, 8.0, 10.0).value.discountAmount == 60.0
  {
  }

  /** Five-for-40 at unit price 10: no discount for 4; two-for-10 at unit price 10: no discount for 1. */
  lemma VolumeBelowThreshold(product: Product)
    ensures VolumeDiscount(5, 40.0, product, 4.0, 10.0).None?
    ensures VolumeDiscount(2, 10.0, product, 1.0, 10.0).None?
  {
  }

  /** Five-for-40 at unit price 10 gives 40 for 5 and 70 for 8; two-for-150 at 100 gives 150 for 2 and 250 for 3. */
  lemma VolumeExamples(product: Product)
    ensures 50.0 + VolumeDiscount(5, 40.0, product, 5.0, 10.0).value.discountAmount == 40.0
    ensures 80.0 + VolumeDiscount(5, 40.0, product, 8.0, 10.0).value.discountAmount == 70.0
    ensures 200.0 + VolumeDiscount(2, 150.0, product, 2.0, 100.0).value.discountAmount == 150.0
    ensures 300.0 + VolumeDiscount(2, 150.0, product, 3.0, 100.0).value.discountAmount == 250.0
  {
  }

  /**
   * The grouping also applies to fractional quantities: 3.5 units under
   * three-for-two is charged 2.5 units, with no residue from the fraction.
   */
  lemma FractionalQuantityExample(product: Product)
    ensures 35.0 + QuantityDiscount(3, 2, product, 3.5, 10.0).value.discountAmount == 25.0
  {
  }
}
