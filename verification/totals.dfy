/** The totals aggregator: one pass over the item list that fills each item's
    `total` and `tax_amount` in place and accumulates the supply price, the
    sum of per-item taxes and the total quantity. */
module Totals {
  import opened Wrappers
  import opened Money
  import opened Json
  import opened ItemCalc

  /** The figures `calculate_totals` returns: four grouped amounts and a raw count. */
  datatype ComputedTotals = ComputedTotals(
    supplyPrice: string,
    taxAmount: string,
    totalTaxAmount: string,
    totalAmount: string,
    totalQuantity: int)

  // ---------------------------------------------------------------------
  // One item
  // ---------------------------------------------------------------------

  /** The item's `total` is recomputed when the key is absent or its value is falsy. */
  predicate MissingTotal(item: Item)
  {
    "total" !in item || !Truthy(item["total"])
  }

  /** The item after the fill-in step of the loop body. */
  function FillTotal(item: Item): Item
  {
    if MissingTotal(item) then item["total" := Str(CalculateItemTotal(item))] else item
  }

  /** The item's contribution to the supply price: its (filled) total read as an
      amount, or `None` when that raises `ValueError`. */
  function TotalAmount(item: Item): Option<int>
  {
    AmountOf(Get(FillTotal(item), "total", Str("0")))
  }

  /** The text the loop stores in `tax_amount`: the grouped tax on the total
      when that parses, and "0" otherwise. */
  function TaxText(item: Item, percent: int): string
  {
    match TotalAmount(item)
    case Some(t) => Format(ItemTax(t, percent))
    case None => "0"
  }

  /** The item as the loop leaves it: `total` filled when missing, `tax_amount` set. */
  function FillItem(item: Item, percent: int): Item
  {
    FillTotal(item)["tax_amount" := Str(TaxText(item, percent))]
  }

  /** What the loop body does to the keys of one item: `total` is kept unless
      missing or falsy, in which case it is the computed product; `tax_amount`
      is always present; no other key is added, removed or changed. */
  lemma FillItemShape(item: Item, percent: int)
    ensures var r := FillItem(item, percent);
            && "total" in r && "tax_amount" in r
            && (MissingTotal(item) ==> r["total"] == Str(CalculateItemTotal(item)))
            && (!MissingTotal(item) ==> r["total"] == item["total"])
            && (forall k :: k != "total" && k != "tax_amount" ==> (k in r <==> k in item))
            && (forall k :: k in item && k != "total" && k != "tax_amount" ==> r[k] == item[k])
  {
  }

  /** The `tax_amount` the loop body writes: "0" when the total does not
      parse, and otherwise a text that reads back as the item's tax. */
  lemma FillItemTax(item: Item, percent: int)
    ensures var r := FillItem(item, percent);
            && "tax_amount" in r
            && (TotalAmount(item).None? ==> r["tax_amount"] == Str("0"))
            && (TotalAmount(item).Some? ==>
                  AmountOf(r["tax_amount"]) == Some(ItemTax(TotalAmount(item).value, percent)))
  {
    if TotalAmount(item).Some? {
      FormatRoundTrip(ItemTax(TotalAmount(item).value, percent));
    }
  }

  /** A total the calculator filled in always reads back: only a supplied,
      truthy total can fail to parse. */
  lemma ComputedTotalAlwaysParses(item: Item)
    requires MissingTotal(item)
    ensures TotalAmount(item) == ParseAmount(CalculateItemTotal(item))
    ensures TotalAmount(item).Some?
  {
  }

  // ---------------------------------------------------------------------
  // The accumulators over the whole list, first item first
  // ---------------------------------------------------------------------

  /** `supply_price`: the sum of the item totals that parse. */
  function Supply(items: seq<Item>): int
  {
    if items == [] then 0
    else Supply(items[..|items| - 1]) + TotalAmount(items[|items| - 1]).GetOr(0)
  }

  /** The tax on one item, zero when its total does not parse. */
  function ItemTaxOf(item: Item, percent: int): int
  {
    match TotalAmount(item)
    case Some(t) => ItemTax(t, percent)
    case None => 0
  }

  /** `total_tax`: the sum of the per-item taxes. */
  function TaxSum(items: seq<Item>, percent: int): int
  {
    if items == [] then 0
    else TaxSum(items[..|items| - 1], percent) + ItemTaxOf(items[|items| - 1], percent)
  }

  /** `total_quantity`: the sum of the quantities that parse; the others are skipped. */
  function Quantity(items: seq<Item>): int
  {
    if items == [] then 0
    else Quantity(items[..|items| - 1]) + QuantityOf(items[|items| - 1]).GetOr(0)
  }

  /** What `calculate_totals(items, percent / 100)` returns. */
  function TotalsOf(items: seq<Item>, percent: int): ComputedTotals
  {
    var supply := Supply(items);
    var tax := ItemTax(supply, percent);
    ComputedTotals(Format(supply), Format(tax), Format(TaxSum(items, percent)),
                   Format(supply + tax), Quantity(items))
  }

  // ---------------------------------------------------------------------
  // calculate_totals
  // ---------------------------------------------------------------------

  /** The loop body's effect on the three accumulators. */
  lemma SumsStep(items: seq<Item>, i: nat, percent: int)
    requires i < |items|
    ensures Supply(items[..i + 1]) == Supply(items[..i]) + TotalAmount(items[i]).GetOr(0)
    ensures TaxSum(items[..i + 1], percent) == TaxSum(items[..i], percent) + ItemTaxOf(items[i], percent)
    ensures Quantity(items[..i + 1]) == Quantity(items[..i]) + QuantityOf(items[i]).GetOr(0)
  {
    assert items[..i + 1][..i] == items[..i];
  }

  /** The body of the loop in `calculate_totals` for one item: the updated item,
      what it adds to the supply price, to the tax sum and to the quantity. */
  method UpdateItem(item: Item, percent: int) returns (updated: Item, total: int, tax: int, quantity: int)
    ensures updated == FillItem(item, percent)
    ensures total == TotalAmount(item).GetOr(0)
    ensures tax == ItemTaxOf(item, percent)
    ensures quantity == QuantityOf(item).GetOr(0)
  {
    updated := item;
    if "total" !in updated || !Truthy(updated["total"]) {
      updated := updated["total" := Str(CalculateItemTotal(updated))];
    }
    assert updated == FillTotal(item);
    total, tax := 0, 0;
    match AmountOf(Get(updated, "total", Str("0"))) {
      case Some(itemTotal) =>
        total := itemTotal;
        tax := ItemTax(itemTotal, percent);
        updated := updated["tax_amount" := Str(Format(tax))];
      case None =>
        updated := updated["tax_amount" := Str("0")];
    }
    assert Get(updated, "quantity", Int(0)) == Get(item, "quantity", Int(0));
    quantity := 0;
    match IntOf(Get(updated, "quantity", Int(0))) {
      case Some(q) => quantity := q;
      case None =>
    }
  }

  /** `calculate_totals`: every item is updated in place as `FillItem` says, in
      order and without changing the list's length; the figures returned are
      those of `TotalsOf` on the items as they were before the call. */
  method CalculateTotals(items: array<Item>, percent: int) returns (totals: ComputedTotals)
    modifies items
    ensures forall i :: 0 <= i < items.Length ==> items[i] == FillItem(old(items[i]), percent)
    ensures totals == TotalsOf(old(items[..]), percent)
  {
    ghost var before := items[..];
    var supply, totalTax, totalQuantity := 0, 0, 0;
    var i := 0;
    while i < items.Length
      invariant 0 <= i <= items.Length
      invariant forall k :: 0 <= k < i ==> items[k] == FillItem(old(items[k]), percent)
      invariant forall k :: i <= k < items.Length ==> items[k] == old(items[k])
      invariant supply == Supply(before[..i])
      invariant totalTax == TaxSum(before[..i], percent)
      invariant totalQuantity == Quantity(before[..i])
    {
      SumsStep(before, i, percent);
      var item, total, tax, quantity := UpdateItem(items[i], percent);
      supply, totalTax, totalQuantity := supply + total, totalTax + tax, totalQuantity + quantity;
      ghost var prev := items[..];
      items[i] := item;
      assert forall k :: 0 <= k < items.Length && k != i ==> items[k] == prev[k];
      i := i + 1;
    }
    assert before[..items.Length] == before;
    var tax := ItemTax(supply, percent);
    totals := ComputedTotals(Format(supply), Format(tax), Format(totalTax),
                             Format(supply + tax), totalQuantity);
  }

  // ---------------------------------------------------------------------
  // Properties of the accumulated figures
  // ---------------------------------------------------------------------

  lemma {:induction false} SupplyAppend(a: seq<Item>, b: seq<Item>)
    ensures Supply(a + b) == Supply(a) + Supply(b)
  {
    if b != [] {
      var last := b[|b| - 1];
      assert (a + b)[..|a + b| - 1] == a + b[..|b| - 1];
      SupplyAppend(a, b[..|b| - 1]);
    } else {
      assert a + b == a;
    }
  }

  lemma {:induction false} TaxSumAppend(a: seq<Item>, b: seq<Item>, percent: int)
    ensures TaxSum(a + b, percent) == TaxSum(a, percent) + TaxSum(b, percent)
  {
    if b != [] {
      assert (a + b)[..|a + b| - 1] == a + b[..|b| - 1];
      TaxSumAppend(a, b[..|b| - 1], percent);
    } else {
      assert a + b == a;
    }
  }

  lemma {:induction false} QuantityAppend(a: seq<Item>, b: seq<Item>)
    ensures Quantity(a + b) == Quantity(a) + Quantity(b)
  {
    if b != [] {
      assert (a + b)[..|a + b| - 1] == a + b[..|b| - 1];
      QuantityAppend(a, b[..|b| - 1]);
    } else {
      assert a + b == a;
    }
  }

  /** An item whose total does not parse contributes nothing to the supply price
      or to the tax sum, gets `tax_amount` "0", and the items after it are still
      counted. */
  lemma UnparseableTotalContributesNothing(a: seq<Item>, x: Item, b: seq<Item>, percent: int)
    requires TotalAmount(x).None?
    ensures Supply(a + [x] + b) == Supply(a + b)
    ensures TaxSum(a + [x] + b, percent) == TaxSum(a + b, percent)
    ensures FillItem(x, percent)["tax_amount"] == Str("0")
  {
    SupplyAppend(a + [x], b);
    SupplyAppend(a, [x]);
    SupplyAppend(a, b);
    assert Supply([x]) == Supply([]) + 0 by { assert [x][..0] == []; }
    TaxSumAppend(a + [x], b, percent);
    TaxSumAppend(a, [x], percent);
    TaxSumAppend(a, b, percent);
    assert TaxSum([x], percent) == TaxSum([], percent) + 0 by { assert [x][..0] == []; }
  }

  /** An item whose quantity does not parse is skipped by the quantity sum. */
  lemma UnparseableQuantitySkipped(a: seq<Item>, x: Item, b: seq<Item>)
    requires QuantityOf(x).None?
    ensures Quantity(a + [x] + b) == Quantity(a + b)
  {
    QuantityAppend(a + [x], b);
    QuantityAppend(a, [x]);
    QuantityAppend(a, b);
    assert [x][..0] == [];
  }

  /** An item whose price fails still adds its quantity, while its computed
      total and its tax are "0". */
  lemma PriceFailureStillCountsQuantity(a: seq<Item>, x: Item, q: int, percent: int)
    requires MissingTotal(x) && PriceOf(x).None? && QuantityOf(x) == Some(q)
    ensures Quantity(a + [x]) == Quantity(a) + q
    ensures TotalAmount(x) == Some(0)
    ensures FillItem(x, percent)["total"] == Str("0")
    ensures FillItem(x, percent)["tax_amount"] == Str("0")
  {
    assert (a + [x])[..|a|] == a;
    assert ParseAmount("0") == Some(0) by { assert Format(0) == "0"; FormatRoundTrip(0); }
    assert ItemTax(0, percent) == 0;
  }

  /** One more non-negative amount keeps the per-item tax sum below the aggregate tax. */
  lemma TaxBoundStep(taxes: int, supply: int, t: int, sum: int, percent: int)
    requires supply >= 0 && t >= 0 && percent >= 0 && sum == supply + t
    requires taxes <= ItemTax(supply, percent)
    ensures taxes + ItemTax(t, percent) <= ItemTax(sum, percent)
  {
    ItemTaxSuperadditive(supply, t, percent);
  }

  /** For non-negative totals and rate, the sum of per-item taxes never exceeds
      the tax computed on the summed supply price. */
  lemma {:induction false} TaxSumAtMostAggregate(items: seq<Item>, percent: int)
    requires percent >= 0
    requires forall i :: 0 <= i < |items| ==> TotalAmount(items[i]).GetOr(0) >= 0
    ensures Supply(items) >= 0
    ensures TaxSum(items, percent) <= ItemTax(Supply(items), percent)
  {
    if items != [] {
      var init, last := items[..|items| - 1], items[|items| - 1];
      assert forall i :: 0 <= i < |init| ==> init[i] == items[i];
      TaxSumAtMostAggregate(init, percent);
      var t := TotalAmount(last).GetOr(0);
      var supplyInit, taxesInit := Supply(init), TaxSum(init, percent);
      assert t >= 0;
      assert Supply(items) == supplyInit + t;
      assert TaxSum(items, percent) == taxesInit + ItemTax(t, percent) by {
        if TotalAmount(last).None? { assert ItemTax(0, percent) == 0; }
      }
      TaxBoundStep(taxesInit, supplyInit, t, Supply(items), percent);
    }
  }

  /** The two tax paths can differ: two items of total 5 at 10% owe no tax each,
      while their summed supply price of 10 owes 1. */
  lemma TaxPathsCanDiffer()
    ensures var items := [map["total" := Int(5)], map["total" := Int(5)]];
            TotalsOf(items, 10).taxAmount == "1" && TotalsOf(items, 10).totalTaxAmount == "0"
  {
    var x: Item := map["total" := Int(5)];
    var items := [x, x];
    assert !MissingTotal(x) && FillTotal(x) == x;
    assert TotalAmount(x) == Some(5);
    assert ItemTax(5, 10) == 0;
    assert items[..1] == [x] && [x][..0] == [];
    assert Supply([x]) == 5;
    assert Supply(items) == 10;
    assert ItemTaxOf(x, 10) == 0;
    assert TaxSum([x], 10) == 0;
    assert TaxSum(items, 10) == 0;
    assert ItemTax(10, 10) == 1;
  }

  /** The four grouped figures built from a supply price, its tax and a tax
      sum read back as those integers. */
  lemma FiguresReadBack(supply: int, tax: int, taxSum: int)
    ensures ParseAmount(Format(supply)) == Some(supply)
    ensures ParseAmount(Format(tax)) == Some(tax)
    ensures ParseAmount(Format(taxSum)) == Some(taxSum)
    ensures ParseAmount(Format(supply + tax)) == Some(supply + tax)
  {
    FormatRoundTrip(supply);
    FormatRoundTrip(tax);
    FormatRoundTrip(taxSum);
    FormatRoundTrip(supply + tax);
  }

  /** Every figure returned is the grouped text of its integer, and the figures
      read back are related as `calculate_totals` computes them: the total is the
      supply price plus the truncated aggregate tax. */
  lemma TotalsReadBack(items: seq<Item>, percent: int)
    ensures var t := TotalsOf(items, percent);
            && ParseAmount(t.supplyPrice) == Some(Supply(items))
            && ParseAmount(t.taxAmount) == Some(ItemTax(Supply(items), percent))
            && ParseAmount(t.totalTaxAmount) == Some(TaxSum(items, percent))
            && ParseAmount(t.totalAmount) ==
                 Some(ParseAmount(t.supplyPrice).value + ParseAmount(t.taxAmount).value)
            && t.totalQuantity == Quantity(items)
  {
    var s := Supply(items);
    var tax := ItemTax(s, percent);
    FiguresReadBack(s, tax, TaxSum(items, percent));
  }

  // ---------------------------------------------------------------------
  // Worked scenarios
  // ---------------------------------------------------------------------

  /** An item with no total, an integer quantity `q` and the grouped text of a
      price `p` is filled with the grouped text of `q * p`, which is also its
      contribution to the supply price. */
  lemma ComputedItem(x: Item, q: int, p: int)
    requires "total" !in x
    requires "quantity" in x && x["quantity"] == Int(q)
    requires "price" in x && x["price"] == Str(Format(p))
    ensures CalculateItemTotal(x) == Format(q * p)
    ensures TotalAmount(x) == Some(q * p)
    ensures QuantityOf(x) == Some(q)
  {
    FormatRoundTrip(p);
    FormatRoundTrip(q * p);
  }

  /** The three accumulators on a two-item list, item by item. */
  lemma TwoItemSums(a: Item, b: Item, percent: int)
    ensures Supply([a, b]) == TotalAmount(a).GetOr(0) + TotalAmount(b).GetOr(0)
    ensures TaxSum([a, b], percent) == ItemTaxOf(a, percent) + ItemTaxOf(b, percent)
    ensures Quantity([a, b]) == QuantityOf(a).GetOr(0) + QuantityOf(b).GetOr(0)
  {
    assert [a, b][..1] == [a] && [a][..0] == [];
    assert Supply([a]) == Supply([]) + TotalAmount(a).GetOr(0);
    assert TaxSum([a], percent) == TaxSum([], percent) + ItemTaxOf(a, percent);
    assert Quantity([a]) == Quantity([]) + QuantityOf(a).GetOr(0);
  }

  /** The grouped text of the three-digit figures of the worked example. */
  lemma ThreeDigitFormats()
    ensures Format(200) == "200" && Format(500) == "500"
  {
    assert Digits(2) == "2" && Digits(20) == "20";
    assert Digits(5) == "5" && Digits(50) == "50";
  }

  /** The grouped text of the four-digit figures of the worked example. */
  lemma GroupedFormats()
    ensures Format(1000) == "1,000" && Format(2000) == "2,000" && Format(2200) == "2,200"
  {
    assert Group(1) == "1" && Group(2) == "2";
    assert Pad3(0) == "000" && Pad3(200) == "200";
  }

  /** Two items without a total, 2 x "500" and 1 x "1,000", at 10%: supply
      "2,000", tax "200", total "2,200", quantity 3, and each item's total is
      filled in as "1,000". */
  lemma TwoItemScenario(a: Item, b: Item)
    requires "total" !in a && "quantity" in a && a["quantity"] == Int(2)
    requires "price" in a && a["price"] == Str("500")
    requires "total" !in b && "quantity" in b && b["quantity"] == Int(1)
    requires "price" in b && b["price"] == Str("1,000")
    ensures TotalsOf([a, b], 10) == ComputedTotals("2,000", "200", "200", "2,200", 3)
    ensures CalculateItemTotal(a) == "1,000" && CalculateItemTotal(b) == "1,000"
  {
    ThreeDigitFormats();
    GroupedFormats();
    ComputedItem(a, 2, 500);
    ComputedItem(b, 1, 1000);
    TwoItemSums(a, b, 10);
    assert ItemTax(1000, 10) == 100;
    assert ItemTax(2000, 10) == 200;
  }
}
