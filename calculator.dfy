/** The financial calculator shared by create_quotation and update_quotation
    (server.py:477-480 and 538-541): subtotal, taxable amount, tax and total
    from the line items, a discount and an integer tax-rate percentage.
    Amounts are exact `real`s rather than binary floats. */
module Calculator {
  import opened Common

  /** One line of a quotation, a snapshot of the product at quotation time.
      `total` is whatever the client sent: nothing checks it against
      `quantity * unitPrice`. */
  datatype QuotationItem = QuotationItem(
    productName: string,
    specifications: Option<string>,
    quantity: int,
    unit: string,
    unitPrice: real,
    total: real)

  datatype Totals = Totals(subtotal: real, taxableAmount: real, taxAmount: real, total: real)

  /** `sum(item.total for item in items)`, accumulated from the left. */
  function SumOfTotals(items: seq<QuotationItem>): real {
    if items == [] then 0.0 else SumOfTotals(items[..|items| - 1]) + items[|items| - 1].total
  }

  lemma {:induction false} SumOfTotalsAppend(a: seq<QuotationItem>, b: seq<QuotationItem>)
    ensures SumOfTotals(a + b) == SumOfTotals(a) + SumOfTotals(b)
  {
    if b != [] {
      var b' := b[..|b| - 1];
      assert (a + b)[..|a + b| - 1] == a + b';
      SumOfTotalsAppend(a, b');
    } else {
      assert a + b == a;
    }
  }

  /** The subtotal is the sum of the items' totals, whichever end one starts
      adding from. */
  lemma {:induction false} SumOfTotalsFromFront(items: seq<QuotationItem>)
    requires items != []
    ensures SumOfTotals(items) == items[0].total + SumOfTotals(items[1..])
  {
    assert items == [items[0]] + items[1..];
    SumOfTotalsAppend([items[0]], items[1..]);
    assert [items[0]][..0] == [];
  }

  /** The taxable amount is the subtotal less the discount and is not clamped
      at zero; the tax is that amount times `taxRate / 100`; the total is the
      taxable amount plus the tax. */
  function ComputeTotals(items: seq<QuotationItem>, discountAmount: real, taxRate: int): (t: Totals)
    ensures t.subtotal == SumOfTotals(items)
    ensures t.taxableAmount == t.subtotal - discountAmount
    ensures t.total - t.taxAmount == t.taxableAmount
  {
    var subtotal := SumOfTotals(items);
    var taxable := subtotal - discountAmount;
    var tax := taxable * (taxRate as real / 100.0);
    Totals(subtotal, taxable, tax, taxable + tax)
  }

  /** The total is the taxable amount scaled by `(100 + taxRate) / 100`. */
  lemma TotalScalesTaxable(items: seq<QuotationItem>, discountAmount: real, taxRate: int)
    ensures var t := ComputeTotals(items, discountAmount, taxRate);
            t.total * 100.0 == t.taxableAmount * (100.0 + taxRate as real)
  {
  }

  /** A discount larger than the subtotal is not clamped: with a tax rate of
      zero or more, the taxable amount and the total come out negative and
      the tax is never positive (it is zero at a zero rate). */
  lemma DiscountAboveSubtotalGivesNegativeTotal(items: seq<QuotationItem>, discountAmount: real, taxRate: int)
    requires discountAmount > SumOfTotals(items)
    requires 0 <= taxRate
    ensures ComputeTotals(items, discountAmount, taxRate).taxableAmount < 0.0
    ensures ComputeTotals(items, discountAmount, taxRate).taxAmount <= 0.0
    ensures ComputeTotals(items, discountAmount, taxRate).total < 0.0
  {
    var t := ComputeTotals(items, discountAmount, taxRate);
    var rate := taxRate as real / 100.0;
    assert t.taxAmount == t.taxableAmount * rate;
    assert 0.0 <= rate;
    assert t.taxableAmount * rate <= 0.0;
  }

  /** Adding items adds their totals to the subtotal and, at a fixed
      discount and rate, to the taxable amount. */
  lemma AppendedItemsRaiseTaxable(items: seq<QuotationItem>, more: seq<QuotationItem>, discountAmount: real, taxRate: int)
    ensures ComputeTotals(items + more, discountAmount, taxRate).subtotal
         == ComputeTotals(items, discountAmount, taxRate).subtotal + SumOfTotals(more)
    ensures ComputeTotals(items + more, discountAmount, taxRate).taxableAmount
         == ComputeTotals(items, discountAmount, taxRate).taxableAmount + SumOfTotals(more)
  {
    SumOfTotalsAppend(items, more);
  }

  /** Two items totalling 100 and 50 at a 20% rate: without a discount the
      quotation comes to 150 + 30 = 180; with a discount of 50 the taxable
      amount is 100, the tax 20 and the total 120. */
  lemma TwoItemExample()
    ensures var items := [QuotationItem("A", None, 1, "adet", 100.0, 100.0),
                          QuotationItem("B", None, 2, "adet", 25.0, 50.0)];
            && ComputeTotals(items, 0.0, 20) == Totals(150.0, 150.0, 30.0, 180.0)
            && ComputeTotals(items, 50.0, 20) == Totals(150.0, 100.0, 20.0, 120.0)
  {
    var items := [QuotationItem("A", None, 1, "adet", 100.0, 100.0),
                  QuotationItem("B", None, 2, "adet", 25.0, 50.0)];
    assert items[..1][..0] == [];
    assert SumOfTotals(items) == 150.0;
  }
}
