/** The price helpers of the public menu (frontend/src/utils/formatters.js). Prices are
    whole CLP amounts; JavaScript's null and undefined are both `None`. */
module Formatters {
  import opened Wrappers
  import Rounding
  import Entities

  /** JavaScript truthiness of a price: absent and 0 are falsy. */
  predicate Truthy(x: Option<int>) {
    x.Some? && x.value != 0
  }

  /** `Math.round(n / d)` for any non-zero denominator, on the exact quotient. */
  function RoundQuotient(n: int, d: int): (r: int)
    requires d != 0
    ensures d > 0 ==> -d <= 2 * (n - r * d) < d
  {
    if d > 0 then Rounding.MathRound(n, d) else Rounding.MathRound(-n, -d)
  }

  /** `formatPrice` and `formatPriceNumber`: the empty string for null or undefined, the
      number formatter's text otherwise (0 included). The formatter is `Intl.NumberFormat`,
      a parameter here. */
  function FormatOrEmpty(price: Option<int>, format: int -> string): (r: string)
    ensures price.None? ==> r == ""
    ensures price.Some? ==> r == format(price.value)
  {
    if price.None? then "" else format(price.value)
  }

  /** `calculateDiscount`: 0 when either price is falsy or there is no reduction, else the
      reduction in whole percent of the original price, rounded as `Math.round` does. */
  function CalculateDiscount(original: Option<int>, current: Option<int>): (r: int)
    ensures !Truthy(original) || !Truthy(current) || original.value <= current.value ==> r == 0
    ensures Truthy(original) && Truthy(current) && original.value > current.value && original.value > 0 ==>
      var o := original.value;
      -o <= 2 * (100 * (o - current.value) - r * o) < o
  {
    if !Truthy(original) || !Truthy(current) || original.value <= current.value then 0
    else RoundQuotient(100 * (original.value - current.value), original.value)
  }

  /** Half price is a 50 percent discount. */
  lemma HalfPriceIsFifty()
    ensures CalculateDiscount(Some(10000), Some(5000)) == 50
  {
    Rounding.MathRoundUnique(500000, 10000, 50);
  }

  /** For positive prices the discount is a percentage between 0 and 100. */
  lemma DiscountInPercentRange(original: int, current: int)
    requires original > 0 && current > 0
    ensures 0 <= CalculateDiscount(Some(original), Some(current)) <= 100
  {
    if original > current {
      var r := CalculateDiscount(Some(original), Some(current));
      Rounding.MulLe(r, -1, original);
      Rounding.SuccMul(100, original);
      Rounding.MulLe(101, r, original);
    }
  }

  /** For a fixed original price, a higher current price never gives a larger discount. */
  lemma DiscountNonIncreasing(original: int, c1: int, c2: int)
    requires original > 0 && 0 < c1 <= c2
    ensures CalculateDiscount(Some(original), Some(c2)) <= CalculateDiscount(Some(original), Some(c1))
  {
    DiscountInPercentRange(original, c1);
    if c2 < original {
      Rounding.MathRoundMonotone(100 * (original - c2), 100 * (original - c1), original);
    }
  }

  /** The card's discount badge and the backend's `getDiscountPercentage` agree on every
      discounted option with a positive price: rounding the ratio to two decimals HALF_UP
      and multiplying by 100 is rounding 100 times the ratio, and for a non-negative ratio
      HALF_UP and `Math.round` break ties the same way. */
  lemma DiscountAgreesWithBackend(row: Entities.OptionRow)
    requires row.price > 0 && row.HasDiscount()
    ensures row.DiscountPercentage() == Success(CalculateDiscount(row.originalPrice, Some(row.price)))
  {
    var o := row.originalPrice.value;
    Rounding.HalfUpAgreesWithMathRound(100 * (o - row.price), o);
  }

  /** On a free option with an original price the two disagree: the backend reports a
      100 percent discount, the frontend, which treats a price of 0 as missing, none. */
  lemma FreeOptionDiscountDiffers(row: Entities.OptionRow)
    requires row.price == 0 && row.HasDiscount()
    ensures row.DiscountPercentage() == Success(100)
    ensures CalculateDiscount(row.originalPrice, Some(row.price)) == 0
  {
    Entities.DiscountWithinPercentRange(row);
  }
}
