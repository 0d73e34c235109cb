/** The item calculator: quantity times unit price for one line item, and the
    per-amount tax at a whole-number percentage. */
module ItemCalc {
  import opened Wrappers
  import opened Money
  import opened Json

  /** The quantity as the calculator reads it: `int(str(item.get('quantity', 0)))`.
      Commas are not deleted here. */
  function QuantityOf(item: Item): Option<int>
  {
    IntOf(Get(item, "quantity", Int(0)))
  }

  /** The unit price as the calculator reads it:
      `int(str(item.get('price', '0')).replace(',', ''))`. */
  function PriceOf(item: Item): Option<int>
  {
    AmountOf(Get(item, "price", Str("0")))
  }

  /** `calculate_item_total`: the grouped text of quantity times price, or "0"
      when either does not parse. The result always reads back as an amount. */
  function CalculateItemTotal(item: Item): (r: string)
    ensures QuantityOf(item).Some? && PriceOf(item).Some? ==>
              r == Format(QuantityOf(item).value * PriceOf(item).value)
    ensures QuantityOf(item).Some? && PriceOf(item).Some? ==>
              ParseAmount(r) == Some(QuantityOf(item).value * PriceOf(item).value)
    ensures QuantityOf(item).None? || PriceOf(item).None? ==> r == "0"
    ensures ParseAmount(r).Some?
  {
    match (QuantityOf(item), PriceOf(item))
    case (Some(q), Some(p)) => FormatRoundTrip(q * p); Format(q * p)
    case _ => "0"
  }

  /** `int(a / 100)`: division by 100 truncating toward zero, where Dafny's
      own `/` rounds toward negative infinity. */
  function TruncDiv100(a: int): (r: int)
    ensures a >= 0 ==> 0 <= r * 100 <= a < r * 100 + 100
    ensures a < 0 ==> r * 100 - 100 < a <= r * 100 <= 0
  {
    if a >= 0 then a / 100 else -((-a) / 100)
  }

  /** The tax on `amount` at `percent`%: `int(amount * (percent / 100))`,
      computed exactly in integers. */
  function ItemTax(amount: int, percent: int): int
  {
    TruncDiv100(amount * percent)
  }

  /** Taxing two non-negative amounts separately never yields more than taxing
      their sum: truncation can only lose, and loses at most once on the sum. */
  lemma ItemTaxSuperadditive(a: int, b: int, percent: int)
    requires a >= 0 && b >= 0 && percent >= 0
    ensures ItemTax(a, percent) + ItemTax(b, percent) <= ItemTax(a + b, percent)
  {
    var x, y := a * percent, b * percent;
    assert (a + b) * percent == x + y;
    assert x >= 0 && y >= 0;
    var qx, qy := x / 100, y / 100;
    assert qx * 100 + qy * 100 <= x + y;
    assert (qx + qy) * 100 <= x + y;
  }

  /** A comma-grouped quantity ("1,000") is rejected by `int`, so the item total
      falls back to "0" however valid the price is. */
  lemma GroupedQuantityYieldsZero(item: Item, n: int)
    requires "quantity" in item && item["quantity"] == Str(Format(n))
    requires n >= 1000 || n <= -1000
    ensures CalculateItemTotal(item) == "0"
  {
    FormattedLargeAmountRejectedByInt(n);
  }

  /** A comma-grouped price is accepted: its commas are deleted before `int`. */
  lemma GroupedPriceAccepted(item: Item, q: int, p: int)
    requires "quantity" in item && item["quantity"] == Int(q)
    requires "price" in item && item["price"] == Str(Format(p))
    ensures ParseAmount(CalculateItemTotal(item)) == Some(q * p)
  {
    FormatRoundTrip(p);
  }

  /** A missing quantity counts as zero: the total is the formatted zero. */
  lemma MissingQuantityCountsAsZero(item: Item)
    requires "quantity" !in item && PriceOf(item).Some?
    ensures CalculateItemTotal(item) == "0"
  {
    assert QuantityOf(item) == Some(0);
    assert Format(0) == "0";
  }
}
