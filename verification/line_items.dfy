/** Line items of a purchase order and the sums taken over them. */
module LineItems {

  /** A line item as far as the totals read it: its pre-tax amount and its tax.
      Amounts are exact decimals, so `real` stands for Ruby's BigDecimal. */
  datatype LineItem = LineItem(lineAmount: real, taxAmount: real)

  /** Which amount of a line item a sum is taken over. */
  datatype Column = LineAmountColumn | TaxAmountColumn

  function Amount(item: LineItem, column: Column): real
  {
    match column
    case LineAmountColumn => item.lineAmount
    case TaxAmountColumn => item.taxAmount
  }

  /** The sum of one column over `items`, by structural recursion: the
      reference definition the totals are specified against. */
  function Sum(items: seq<LineItem>, column: Column): real
  {
    if items == [] then 0.0 else Amount(items[0], column) + Sum(items[1..], column)
  }

  /** Ruby's `items.inject(acc) { |sum, item| sum + item.<column> }`: a left
      fold that threads the running total through the items in order. Whatever
      the starting total, it adds exactly the reference sum. */
  function Inject(acc: real, items: seq<LineItem>, column: Column): (r: real)
    ensures r == acc + Sum(items, column)
    decreases items
  {
    if items == [] then acc else Inject(acc + Amount(items[0], column), items[1..], column)
  }

  /** Summing is additive over concatenation: appending a line item adds
      exactly its own amount to a total. */
  lemma {:induction false} SumAppend(xs: seq<LineItem>, ys: seq<LineItem>, column: Column)
    ensures Sum(xs + ys, column) == Sum(xs, column) + Sum(ys, column)
  {
    if xs == [] {
      assert xs + ys == ys;
    } else {
      assert (xs + ys)[1..] == xs[1..] + ys;
      SumAppend(xs[1..], ys, column);
    }
  }
}
