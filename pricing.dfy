/** The price and stock helpers of lib/api.ts. */
module Pricing {
  import opened Wrappers
  import opened Catalog

  /** `Math.round` on a finite number: the nearest integer, halves rounded up. */
  function RoundHalfUp(x: real): (r: int)
    ensures r as real - 0.5 <= x < r as real + 0.5
  {
    (x + 0.5).Floor
  }

  /** Rounding is monotone. */
  lemma RoundHalfUpMonotone(x: real, y: real)
    requires x <= y
    ensures RoundHalfUp(x) <= RoundHalfUp(y)
  {
  }

  /** `!compareAtPrice` is false: the value is present and not zero. */
  predicate IsTruthy(compareAtPrice: Option<real>) {
    compareAtPrice.Some? && compareAtPrice.value != 0.0
  }

  /** `getDiscountPercentage(price, compareAtPrice)`. */
  function DiscountPercentage(price: real, compareAtPrice: Option<real>): (pct: int)
    ensures !IsTruthy(compareAtPrice) || compareAtPrice.value <= price ==> pct == 0
  {
    if !IsTruthy(compareAtPrice) || compareAtPrice.value <= price then 0
    else
      var c := compareAtPrice.value;
      RoundHalfUp((c - price) / c * 100.0)
  }

  /** The exact saving, as a percentage of the list price. */
  function ExactSaving(price: real, compareAt: real): real
    requires compareAt != 0.0
  {
    (compareAt - price) / compareAt * 100.0
  }

  /** With a list price above the sale price, the result is the exact saving rounded to the
      nearest whole percent (halves up). */
  lemma DiscountIsRoundedSaving(price: real, compareAt: real)
    requires compareAt != 0.0 && price < compareAt
    ensures var pct := DiscountPercentage(price, Some(compareAt));
      pct as real - 0.5 <= ExactSaving(price, compareAt) < pct as real + 0.5
  {
  }

  /** For a non-negative price the exact saving is in (0, 100] whenever a discount is shown. */
  lemma ExactSavingBounds(price: real, compareAt: real)
    requires 0.0 <= price < compareAt
    ensures 0.0 < ExactSaving(price, compareAt) <= 100.0
  {
    var q := (compareAt - price) / compareAt;
    assert q * compareAt == compareAt - price;
    assert 0.0 < q <= 1.0;
  }

  /** For a non-negative price the percentage is always between 0 and 100. */
  lemma DiscountBounds(price: real, compareAtPrice: Option<real>)
    requires price >= 0.0
    ensures 0 <= DiscountPercentage(price, compareAtPrice) <= 100
  {
    if IsTruthy(compareAtPrice) && compareAtPrice.value > price {
      ExactSavingBounds(price, compareAtPrice.value);
    }
  }

  /** A positive percentage is shown only when the list price is present, non-zero and above the
      sale price. */
  lemma PositiveDiscountMeansHigherListPrice(price: real, compareAtPrice: Option<real>)
    requires DiscountPercentage(price, compareAtPrice) > 0
    ensures IsTruthy(compareAtPrice) && compareAtPrice.value > price
  {
  }

  /** Against a fixed positive list price, a lower sale price never shows a smaller discount. */
  lemma DiscountAntitoneInPrice(p1: real, p2: real, compareAt: real)
    requires 0.0 <= p1 <= p2 && compareAt > 0.0
    ensures DiscountPercentage(p1, Some(compareAt)) >= DiscountPercentage(p2, Some(compareAt))
  {
    if p2 < compareAt {
      var q1 := (compareAt - p1) / compareAt;
      var q2 := (compareAt - p2) / compareAt;
      assert q1 * compareAt == compareAt - p1;
      assert q2 * compareAt == compareAt - p2;
      assert q2 <= q1;
      RoundHalfUpMonotone(q2 * 100.0, q1 * 100.0);
    } else {
      DiscountBounds(p1, Some(compareAt));
    }
  }

  /** `isInStock(product)`. */
  predicate IsInStock(p: Product) {
    p.stockQuantity > 0
  }

  /** `isLowStock(product)`. */
  predicate IsLowStock(p: Product) {
    p.stockQuantity > 0 && p.stockQuantity <= p.lowStockThreshold
  }

  /** A product low on stock is in stock, and a product in stock is low on stock exactly when
      its quantity has not passed the threshold. */
  lemma StockLevels(p: Product)
    ensures IsLowStock(p) ==> IsInStock(p)
    ensures IsInStock(p) ==> (IsLowStock(p) <==> p.stockQuantity <= p.lowStockThreshold)
    ensures p.lowStockThreshold <= 0 ==> !IsLowStock(p)
  {
  }
}
