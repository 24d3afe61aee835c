/**
 * The database tables the two API routes write, held in memory, and the
 * ledger relation between the movement log and the balance rows.
 */
module Tables {
  import opened Types

  class Database {
    /** `stock_movements`, in insertion order. */
    var movements: seq<StockMovement>
    /** `stock_balances`: at most one row per (product, warehouse). */
    var balances: map<Key, int>
    /** `sales_orders`, in insertion order. */
    var orders: seq<SalesOrder>
    /** `sales_order_items`, in insertion order. */
    var orderItems: seq<SalesOrderItem>
    /** The id the next inserted movement or order receives. */
    var nextId: Id

    constructor ()
      ensures movements == [] && balances == map[] && orders == [] && orderItems == []
      ensures nextId == 0
      ensures Consistent(movements, balances)
    {
      movements, balances, orders, orderItems, nextId := [], map[], [], [], 0;
    }
  }

  /** The quantity a page reads for a key: the row's qty, or 0 when there is no row. */
  function BalanceOf(balances: map<Key, int>, k: Key): int {
    if k in balances then balances[k] else 0
  }

  /**
   * The signed effect a movement records: IN adds, OUT subtracts. No
   * modelled handler writes TRANSFER or ADJUST rows; they count as 0.
   */
  function Delta(m: StockMovement): (d: int)
    ensures m.movement_type == IN ==> d == m.qty
    ensures m.movement_type == OUT ==> d == -m.qty
  {
    match m.movement_type
    case IN => m.qty
    case OUT => -m.qty
    case _ => 0
  }

  /** The net quantity the log records for key `k`. */
  function NetQty(ms: seq<StockMovement>, k: Key): int {
    if ms == [] then 0
    else
      var last := ms[|ms| - 1];
      NetQty(ms[..|ms| - 1], k) + (if last.KeyOf() == k then Delta(last) else 0)
  }

  lemma NetQtyAppend(ms: seq<StockMovement>, m: StockMovement, k: Key)
    ensures NetQty(ms + [m], k) == NetQty(ms, k) + (if m.KeyOf() == k then Delta(m) else 0)
  {
    assert (ms + [m])[..|ms|] == ms;
  }

  /** Every balance (0 where there is no row) equals what the log records for its key. */
  ghost predicate Consistent(ms: seq<StockMovement>, balances: map<Key, int>) {
    forall k :: BalanceOf(balances, k) == NetQty(ms, k)
  }
}
