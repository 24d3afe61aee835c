/**
 * The cart panel of the POS page. Its displayed subtotal is an outer
 * `reduce` over the lines whose step ignores the line and adds the whole
 * inner sum of `total_price` again, so it shows `items.length` times the
 * line sum; tax and total are derived from that figure.
 */
module PosCart {
  import opened Types
  import PosPage

  /** The outer `items.reduce((sum) => sum + inner, 0)`: `inner` added once per line. */
  function RepeatedSum(lines: seq<CartItem>, inner: real): real {
    if lines == [] then 0.0 else RepeatedSum(lines[..|lines| - 1], inner) + inner
  }

  /** The subtotal shown in the panel, as the component computes it. */
  function DisplayedSubtotal(items: seq<CartItem>): real {
    RepeatedSum(items, PosPage.Subtotal(items))
  }

  function DisplayedTax(items: seq<CartItem>): (t: real)
    ensures t == DisplayedSubtotal(items) * 0.1
  {
    PosPage.Tax(DisplayedSubtotal(items))
  }

  /** `total = subtotal + tax`, that is 110 % of the displayed subtotal. */
  function DisplayedTotal(items: seq<CartItem>): (t: real)
    ensures t == DisplayedSubtotal(items) + DisplayedSubtotal(items) * 0.1
    ensures t == DisplayedSubtotal(items) * 1.1
  {
    DisplayedSubtotal(items) + DisplayedTax(items)
  }

  lemma {:induction false} RepeatedSumIsProduct(lines: seq<CartItem>, inner: real)
    ensures RepeatedSum(lines, inner) == |lines| as real * inner
  {
    if lines != [] {
      RepeatedSumIsProduct(lines[..|lines| - 1], inner);
    }
  }

  /** The displayed subtotal is the number of lines times the line sum. */
  lemma DisplayedIsCountTimesSum(items: seq<CartItem>)
    ensures DisplayedSubtotal(items) == |items| as real * PosPage.Subtotal(items)
  {
    RepeatedSumIsProduct(items, PosPage.Subtotal(items));
  }

  lemma EmptyCartShowsZero()
    ensures DisplayedSubtotal([]) == 0.0 && DisplayedTotal([]) == 0.0
  {
  }

  /** With one line the quirk is invisible: the line's own total price is shown. */
  lemma SingleLineShowsItsTotal(item: CartItem)
    ensures DisplayedSubtotal([item]) == item.total_price
    ensures DisplayedSubtotal([item]) == PosPage.Subtotal([item])
  {
    DisplayedIsCountTimesSum([item]);
    assert [item][..0] == [];
  }

  /** With two or more lines and a positive line sum the panel shows more than the page charges. */
  lemma SeveralLinesOverstate(items: seq<CartItem>)
    requires |items| >= 2 && PosPage.Subtotal(items) > 0.0
    ensures DisplayedSubtotal(items) > PosPage.Subtotal(items)
    ensures DisplayedTotal(items) > PosPage.Total(items)
  {
    DisplayedIsCountTimesSum(items);
    var n := |items| as real;
    var s := PosPage.Subtotal(items);
    assert n * s >= 2.0 * s by {
      assert (n - 2.0) * s >= 0.0;
    }
  }

  /** Two lines of 10 each: the page charges 20 and the panel shows 40 as the subtotal. */
  lemma TwoLinesExample()
    ensures var items := [CartItem("a", "A", "A-1", 1, 10.0, 10.0), CartItem("b", "B", "B-1", 1, 10.0, 10.0)];
      PosPage.Subtotal(items) == 20.0 && DisplayedSubtotal(items) == 40.0
  {
    var items := [CartItem("a", "A", "A-1", 1, 10.0, 10.0), CartItem("b", "B", "B-1", 1, 10.0, 10.0)];
    assert items[..1][..0] == [];
    assert items[..1] == [items[0]];
    DisplayedIsCountTimesSum(items);
  }

  /** A front-to-back `reduce((s, item) => s + item.total_price, acc)`. */
  function FoldTotals(items: seq<CartItem>, acc: real): real
    decreases |items|
  {
    if items == [] then acc else FoldTotals(items[1..], acc + items[0].total_price)
  }

  /** The subtotal the panel evidently means: the inner reduce alone, the line sum taken once. */
  function CorrectedSubtotal(items: seq<CartItem>): (r: real)
    ensures r == PosPage.Subtotal(items)
    ensures |items| >= 2 && r > 0.0 ==> r < DisplayedSubtotal(items)
  {
    FoldTotalsIsSubtotal(items, 0.0);
    if |items| >= 2 && PosPage.Subtotal(items) > 0.0 then
      SeveralLinesOverstate(items);
      FoldTotals(items, 0.0)
    else
      FoldTotals(items, 0.0)
  }

  lemma {:induction false} FoldTotalsIsSubtotal(items: seq<CartItem>, acc: real)
    ensures FoldTotals(items, acc) == acc + PosPage.Subtotal(items)
    decreases |items|
  {
    if items != [] {
      FoldTotalsIsSubtotal(items[1..], acc + items[0].total_price);
      SubtotalCons(items);
    }
  }

  /** The page's end-first sum also splits off the first line. */
  lemma {:induction false} SubtotalCons(items: seq<CartItem>)
    requires items != []
    ensures PosPage.Subtotal(items) == items[0].total_price + PosPage.Subtotal(items[1..])
    decreases |items|
  {
    var n := |items| - 1;
    if n > 0 {
      SubtotalCons(items[..n]);
      assert items[..n][1..] == items[1..][..n - 1];
      assert items[..n][0] == items[0];
    } else {
      assert items[..n] == [] && items[1..] == [];
    }
  }

  /** The minus button asks for one unit fewer; on a one-unit line that removes the line. */
  lemma MinusOnLastUnitRemoves(cart: seq<CartItem>, i: nat)
    requires PosPage.WellFormed(cart) && i < |cart| && cart[i].qty == 1
    ensures var r := PosPage.QtyUpdated(cart, cart[i].product_id, cart[i].qty - 1);
      forall j :: 0 <= j < |r| ==> r[j].product_id != cart[i].product_id
  {
  }
}
