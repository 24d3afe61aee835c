/**
 * The transaction history screen: revenue, count and average over the
 * browser-local transaction list, and the list shown newest first with
 * each row numbered by its original position.
 */
module PosTransactionList {
  import opened TransactionsHook
  import PosCashier

  /** `transactions.reduce((sum, t) => sum + t.total, 0)`. */
  function Revenue(ts: seq<Transaction>): real {
    if ts == [] then 0.0 else Revenue(ts[..|ts| - 1]) + ts[|ts| - 1].total
  }

  lemma RevenueAppend(ts: seq<Transaction>, t: Transaction)
    ensures Revenue(Appended(ts, t)) == Revenue(ts) + t.total
  {
    assert Appended(ts, t)[..|ts|] == ts;
  }

  /** A completed checkout raises the revenue by the cart's total including tax. */
  lemma CheckoutRaisesRevenue(ts: seq<Transaction>, cart: seq<SaleLine>, paymentText: string, payment: real, now: int)
    requires PosCashier.CheckoutOutcome(cart, paymentText, payment, now).Completed?
    ensures var t := PosCashier.CheckoutOutcome(cart, paymentText, payment, now).transaction;
      Revenue(Appended(ts, t)) == Revenue(ts) + PosCashier.Total(cart)
  {
    RevenueAppend(ts, PosCashier.CheckoutOutcome(cart, paymentText, payment, now).transaction);
  }

  /** Revenue is never negative when no recorded total is. */
  lemma {:induction false} RevenueNonNegative(ts: seq<Transaction>)
    requires forall i :: 0 <= i < |ts| ==> ts[i].total >= 0.0
    ensures Revenue(ts) >= 0.0
  {
    if ts != [] {
      RevenueNonNegative(ts[..|ts| - 1]);
    }
  }

  /** The "Average Transaction" card: 0 with no transactions, else revenue over count. */
  function Average(ts: seq<Transaction>): (r: real)
    ensures |ts| == 0 ==> r == 0.0
    ensures |ts| > 0 ==> r * |ts| as real == Revenue(ts)
  {
    if |ts| > 0 then Revenue(ts) / |ts| as real else 0.0
  }

  /** `[...transactions].reverse()`: a reversed copy. */
  function Reversed(ts: seq<Transaction>): (r: seq<Transaction>)
    ensures |r| == |ts|
  {
    if ts == [] then [] else [ts[|ts| - 1]] + Reversed(ts[..|ts| - 1])
  }

  lemma {:induction false} ReversedAt(ts: seq<Transaction>, idx: nat)
    requires idx < |ts|
    ensures Reversed(ts)[idx] == ts[|ts| - 1 - idx]
  {
    if idx > 0 {
      ReversedAt(ts[..|ts| - 1], idx - 1);
    }
  }

  /** A history row: the number `#n` and the transaction it shows. */
  datatype Row = Row(number: int, transaction: Transaction)

  /** The rows in display order: the copy reversed, row `idx` labelled `count - idx`. */
  function Displayed(ts: seq<Transaction>): (rows: seq<Row>)
    ensures |rows| == |ts|
    ensures forall idx :: 0 <= idx < |rows| ==> rows[idx].number == |ts| - idx
  {
    var rev := Reversed(ts);
    seq(|rev|, idx requires 0 <= idx < |rev| => Row(|ts| - idx, rev[idx]))
  }

  /** Row `idx` shows the transaction whose 1-based position in the stored list is its label. */
  lemma LabelIsOriginalPosition(ts: seq<Transaction>, idx: nat)
    requires idx < |ts|
    ensures 1 <= Displayed(ts)[idx].number <= |ts|
    ensures Displayed(ts)[idx].transaction == ts[Displayed(ts)[idx].number - 1]
  {
    ReversedAt(ts, idx);
  }

  /** The newest transaction comes first. */
  lemma NewestFirst(ts: seq<Transaction>)
    requires ts != []
    ensures Displayed(ts)[0].transaction == ts[|ts| - 1] && Displayed(ts)[0].number == |ts|
  {
    ReversedAt(ts, 0);
  }

  /** The amount shown beside each sold line. */
  function LineAmount(line: SaleLine): real {
    line.price * line.quantity as real
  }

  /**
   * The line amounts of a transaction, added up. The list computes each
   * line's amount with the same price × quantity formula the cashier uses
   * for its subtotal, so the two sums coincide by construction; the lemma
   * below records that the shown lines and the shown subtotal agree.
   */
  function LineAmountsTotal(items: seq<SaleLine>): real {
    if items == [] then 0.0 else LineAmountsTotal(items[..|items| - 1]) + LineAmount(items[|items| - 1])
  }

  /** The line amounts shown add up to the cashier's subtotal of the same lines. */
  lemma {:induction false} LineAmountsAddUpToSubtotal(items: seq<SaleLine>)
    ensures LineAmountsTotal(items) == PosCashier.Subtotal(items)
  {
    if items != [] {
      LineAmountsAddUpToSubtotal(items[..|items| - 1]);
    }
  }

  /** For a sale recorded at checkout, the line amounts shown add up to the subtotal shown. */
  lemma CheckoutRowAddsUp(cart: seq<SaleLine>, paymentText: string, payment: real, now: int)
    requires PosCashier.CheckoutOutcome(cart, paymentText, payment, now).Completed?
    ensures var t := PosCashier.CheckoutOutcome(cart, paymentText, payment, now).transaction;
      LineAmountsTotal(t.items) == t.subtotal && t.subtotal + t.tax == t.total
  {
    LineAmountsAddUpToSubtotal(cart);
  }
}
