/**
 * The value types shared by the pricing engine: products, offers, cart lines,
 * discounts and receipt items, the constants the cart's strategy table is
 * built from, and the receipt that checkout fills in.
 */
module SupermarketReceipt {

  datatype Option<+T> = None | Some(value: T)

  datatype Result<+R, +E> = Success(value: R) | Failure(error: E)

  /** Why a checkout (or an offer pass over a cart) stops. */
  datatype CheckoutError =
    | UnknownProduct(name: string)                // the catalog has no price under this name
    | InvalidOfferType(offerType: SpecialOfferType) // the cart has no strategy for this offer type

  datatype ProductUnit = Each | Kilo

  /** Products compare structurally, on name and unit. */
  datatype Product = Product(name: string, unit: ProductUnit)

  datatype SpecialOfferType = ThreeForTwo | PercentageDiscount | TwoForAmount | FiveForAmount

  const AllOfferTypes: set<SpecialOfferType> := {ThreeForTwo, PercentageDiscount, TwoForAmount, FiveForAmount}

  /** The offer's argument is a percentage or a bundle price, depending on its type. */
  datatype Offer = Offer(offerType: SpecialOfferType, product: Product, argument: real)

  /** One line of the cart: a product and the quantity added in one call. */
  datatype ProductQuantity = ProductQuantity(product: Product, quantity: real)

  /**
   * The parameters of a discount's description. The text itself is produced
   * by .NET number formatting and is not rendered here.
   */
  datatype Description =
    | PercentOff(percentage: real)                             // "{0}% off"
    | PiecesForPieces(requiredQuantity: int, discountedQuantity: int) // "{0}pc(s) for {1}pc(s)"
    | PiecesForAmount(requiredQuantity: int, amount: real)     // "{0}pc(s) for ${1}"

  /** A discount line; its amount is added to the receipt total. */
  datatype Discount = Discount(product: Product, description: Description, discountAmount: real)

  /** A priced line of the receipt: `price` is the unit price, `totalPrice` the line price. */
  datatype ReceiptItem = ReceiptItem(product: Product, quantity: real, price: real, totalPrice: real)

  // The constants the cart's strategy table is built from.
  const THREE_REQUIRED_QUANTITY: int := 3
  const TWO_DISCOUNTED_QUANTITY: int := 2
  const TWO_REQUIRED_QUANTITY: int := 2
  const FIVE_REQUIRED_QUANTITY: int := 5

  function SumTotals(items: seq<ReceiptItem>): real
  {
    if items == [] then 0.0 else SumTotals(items[..|items| - 1]) + items[|items| - 1].totalPrice
  }

  function SumDiscounts(discounts: seq<Discount>): real
  {
    if discounts == [] then 0.0 else SumDiscounts(discounts[..|discounts| - 1]) + discounts[|discounts| - 1].discountAmount
  }

  /** A receipt: the priced lines, then the discounts, in the order they were added. */
  class Receipt {
    var items: seq<ReceiptItem>
    var discounts: seq<Discount>

    constructor ()
      ensures items == [] && discounts == []
    {
      items := [];
      discounts := [];
    }

    /** The total: every line price plus every (negative) discount amount. */
    function TotalPrice(): real
      reads this
    {
      SumTotals(items) + SumDiscounts(discounts)
    }

    /** Appends a priced line; the total grows by the line price. */
    method AddProduct(product: Product, quantity: real, price: real, totalPrice: real)
      modifies this
      ensures items == old(items) + [ReceiptItem(product, quantity, price, totalPrice)]
      ensures discounts == old(discounts)
      ensures TotalPrice() == old(TotalPrice()) + totalPrice
    {
      items := items + [ReceiptItem(product, quantity, price, totalPrice)];
    }

    /** Appends a discount; the total changes by its amount. */
    method AddDiscount(discount: Discount)
      modifies this
      ensures discounts == old(discounts) + [discount]
      ensures items == old(items)
      ensures TotalPrice() == old(TotalPrice()) + discount.discountAmount
    {
      discounts := discounts + [discount];
    }
  }
}
