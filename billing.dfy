/** Cart lines and the bill derived from them: the subtotal, the threshold discount, and the
    tax charged on the discounted amount. Money is exact (`real`); rounding to cents happens
    only when amounts are displayed, which this model leaves out. */
module Billing {

  /** `TAX_RATE`: 8% sales tax. */
  const TAX_RATE: real := 0.08
  /** `DISCOUNT_PERCENTAGE`: 10% off. */
  const DISCOUNT_PERCENTAGE: real := 0.10
  /** The subtotal from which the discount applies, inclusive. */
  const DISCOUNT_THRESHOLD: real := 20.00

  /** A cart line: `product_name`, `price`, `quantity` and `line_total`. */
  datatype Line = Line(productName: string, price: real, quantity: int, lineTotal: real)

  /** A line as `add_item_to_cart_gui` creates it: a positive quantity of a product with a
      non-negative price, its total being price times quantity. */
  predicate PricedLine(l: Line) {
    l.quantity > 0 && l.price >= 0.0 && l.lineTotal == l.price * l.quantity as real
  }

  /** The sum of the line totals. */
  function Subtotal(lines: seq<Line>): real {
    if lines == [] then 0.0 else Subtotal(lines[..|lines| - 1]) + lines[|lines| - 1].lineTotal
  }

  /** `sum(item["line_total"] for item in self.cart)`, adding the lines in cart order. */
  method SumLineTotals(lines: seq<Line>) returns (total: real)
    ensures total == Subtotal(lines)
  {
    total := 0.0;
    var i := 0;
    while i < |lines|
      invariant 0 <= i <= |lines|
      invariant total == Subtotal(lines[..i])
    {
      assert lines[..i + 1][..i] == lines[..i];
      total := total + lines[i].lineTotal;
      i := i + 1;
    }
    assert lines[..i] == lines;
  }

  /** Appending a line adds its total to the subtotal. */
  lemma SubtotalAppend(lines: seq<Line>, l: Line)
    ensures Subtotal(lines + [l]) == Subtotal(lines) + l.lineTotal
  {
    assert (lines + [l])[..|lines|] == lines;
  }

  /** Lines with non-negative totals have a non-negative subtotal. */
  lemma {:induction false} SubtotalNonNegative(lines: seq<Line>)
    requires forall i :: 0 <= i < |lines| ==> lines[i].lineTotal >= 0.0
    ensures Subtotal(lines) >= 0.0
  {
    if lines != [] {
      var front := lines[..|lines| - 1];
      assert forall i :: 0 <= i < |front| ==> front[i] == lines[i];
      SubtotalNonNegative(front);
      assert lines[|lines| - 1].lineTotal >= 0.0;
    }
  }

  /** A priced line has a non-negative total. */
  lemma PricedLineNonNegative(l: Line)
    requires PricedLine(l)
    ensures l.lineTotal >= 0.0
  {
    assert l.quantity as real > 0.0;
  }

  /** The amounts `calculate_bill` stores. */
  datatype Bill = Bill(subtotal: real, discount: real, tax: real, total: real)

  /** `calculate_bill` for a given subtotal: the discount is 10% of the subtotal from 20.00 on
      (20.00 itself included) and nothing below; tax is 8% of what remains after the discount;
      the total is what remains plus the tax, that is, 1.08 times the discounted subtotal. */
  function BillFor(subtotal: real): (b: Bill)
    ensures b.subtotal == subtotal
    ensures subtotal >= DISCOUNT_THRESHOLD ==> b.discount == subtotal * DISCOUNT_PERCENTAGE
    ensures subtotal < DISCOUNT_THRESHOLD ==> b.discount == 0.0
    ensures b.tax == (subtotal - b.discount) * TAX_RATE
    ensures b.total == (subtotal - b.discount) * (1.0 + TAX_RATE)
    ensures b.total == b.subtotal - b.discount + b.tax
  {
    var discount := if subtotal >= 20.00 then subtotal * DISCOUNT_PERCENTAGE else 0.0;
    var taxable := subtotal - discount;
    var tax := taxable * TAX_RATE;
    Bill(subtotal, discount, tax, taxable + tax)
  }

  /** The bill of a cart. */
  function BillOf(lines: seq<Line>): Bill {
    BillFor(Subtotal(lines))
  }

  /** With a non-negative subtotal every amount is non-negative, the discount is charged only
      from the threshold on, and the total never exceeds the subtotal plus 8% nor falls below
      the subtotal less 10%, plus 8%. */
  lemma BillBounds(subtotal: real)
    requires subtotal >= 0.0
    ensures var b := BillFor(subtotal);
      && 0.0 <= b.discount <= b.subtotal
      && (b.discount > 0.0 <==> subtotal >= DISCOUNT_THRESHOLD)
      && b.tax >= 0.0
      && b.total >= 0.0
      && b.total <= subtotal * (1.0 + TAX_RATE)
      && b.total >= subtotal * (1.0 - DISCOUNT_PERCENTAGE) * (1.0 + TAX_RATE)
  {
  }

  /** A cart of priced lines has a bill with every amount non-negative. */
  lemma CartBillNonNegative(lines: seq<Line>)
    requires forall i :: 0 <= i < |lines| ==> PricedLine(lines[i])
    ensures var b := BillOf(lines);
      b.subtotal >= 0.0 && b.discount >= 0.0 && b.tax >= 0.0 && b.total >= 0.0
      && b.total <= b.subtotal * (1.0 + TAX_RATE)
  {
    forall i | 0 <= i < |lines|
      ensures lines[i].lineTotal >= 0.0
    {
      PricedLineNonNegative(lines[i]);
    }
    SubtotalNonNegative(lines);
    BillBounds(Subtotal(lines));
  }

  /** The discount makes the total drop as the subtotal reaches the threshold: any subtotal
      strictly between 18.00 and 20.00 costs more than a subtotal of exactly 20.00. */
  lemma ThresholdLowersTotal(subtotal: real)
    requires 18.00 < subtotal < DISCOUNT_THRESHOLD
    ensures BillFor(subtotal).total > BillFor(DISCOUNT_THRESHOLD).total
  {
  }
}
