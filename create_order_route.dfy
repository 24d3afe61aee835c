/**
 * POST /api/pos/create-order: validates the request, inserts the order and
 * its item rows, then for each cart line appends an OUT movement and
 * decrements the line's balance row when one exists. There is no floor,
 * no row is created for a missing key, and nothing is rolled back.
 */
module CreateOrderRoute {
  import opened Wrappers
  import opened Types
  import opened Tables
  import Text

  /**
   * The request body. A missing string field reads as "" and a missing
   * `items` list as [] (both are rejected by the same guard).
   */
  datatype Request = Request(
    cashier_id: string,
    warehouse_id: string,
    items: seq<CartItem>,
    subtotal: real,
    tax: real,
    discount: real,
    total: real,
    payment_method: string,
    payment_amount: real,
    change: real,
    notes: Option<string>)

  /** 201 with the inserted order, or 400 "Missing required fields". */
  datatype Response = Created(order: SalesOrder) | BadRequest

  /** The guard `!cashier_id || !warehouse_id || !items || items.length === 0` fails. */
  predicate Accepts(req: Request) {
    req.cashier_id != "" && req.warehouse_id != "" && |req.items| > 0
  }

  /** The `sales_orders` row: every amount is stored as the client sent it. */
  function OrderRow(id: Id, req: Request): (o: SalesOrder)
    ensures o.id == id && o.cashier_id == req.cashier_id && o.warehouse_id == req.warehouse_id
  {
    SalesOrder(id, req.cashier_id, req.warehouse_id, req.subtotal, req.tax, req.discount,
               req.total, req.payment_method, req.payment_amount, req.change, req.notes)
  }

  /** The stored subtotal, tax, total and change do not depend on the items sent. */
  lemma OrderAmountsIgnoreItems(id: Id, req: Request, items: seq<CartItem>)
    ensures OrderRow(id, req) == OrderRow(id, req.(items := items))
    ensures OrderRow(id, req).subtotal == req.subtotal && OrderRow(id, req).tax == req.tax
    ensures OrderRow(id, req).total == req.total && OrderRow(id, req).change == req.change
  {
  }

  /** The `sales_order_items` rows, one per cart line, in line order. */
  function ItemRows(orderId: Id, items: seq<CartItem>): (r: seq<SalesOrderItem>)
    ensures |r| == |items|
    ensures forall i :: 0 <= i < |items| ==>
      r[i] == SalesOrderItem(orderId, items[i].product_id, items[i].qty, items[i].unit_price, items[i].total_price)
  {
    if items == [] then []
    else
      var last := items[|items| - 1];
      ItemRows(orderId, items[..|items| - 1])
        + [SalesOrderItem(orderId, last.product_id, last.qty, last.unit_price, last.total_price)]
  }

  /** The description written on each sale movement: `Sale order ${order.id}`. */
  function SaleDescription(orderId: Id): string {
    "Sale order " + Text.Decimal(orderId)
  }

  /** The OUT movement for one line; `id` is the id the database assigns to it. */
  function SaleMovement(id: Id, orderId: Id, warehouse: string, item: CartItem): StockMovement {
    StockMovement(id, item.product_id, warehouse, OUT, item.qty, Some(orderId), Some(SaleDescription(orderId)))
  }

  /** The OUT movements the loop appends, one per line in line order, with consecutive ids from `firstId`. */
  function SaleMovements(firstId: Id, orderId: Id, warehouse: string, items: seq<CartItem>): (r: seq<StockMovement>)
    ensures |r| == |items|
  {
    if items == [] then []
    else
      SaleMovements(firstId, orderId, warehouse, items[..|items| - 1])
        + [SaleMovement(firstId + |items| - 1, orderId, warehouse, items[|items| - 1])]
  }

  /** Movement `i` is line `i`'s OUT movement: its key, qty, order reference and description. */
  lemma {:induction false} SaleMovementsAt(firstId: Id, orderId: Id, warehouse: string, items: seq<CartItem>, i: nat)
    requires i < |items|
    ensures var m := SaleMovements(firstId, orderId, warehouse, items)[i];
      && m.id == firstId + i
      && m.movement_type == OUT
      && m.KeyOf() == Key(items[i].product_id, warehouse)
      && m.qty == items[i].qty
      && m.reference_id == Some(orderId)
      && m.description == Some(SaleDescription(orderId))
  {
    if i < |items| - 1 {
      SaleMovementsAt(firstId, orderId, warehouse, items[..|items| - 1], i);
    }
  }

  /** The total quantity the lines sell of `productId`. */
  function SoldQty(items: seq<CartItem>, productId: string): int {
    if items == [] then 0
    else
      var last := items[|items| - 1];
      SoldQty(items[..|items| - 1], productId) + (if last.product_id == productId then last.qty else 0)
  }

  /** One iteration's balance update: decrement the row when there is one, else do nothing. */
  function Decremented(balances: map<Key, int>, k: Key, qty: int): map<Key, int> {
    if k in balances then balances[k := balances[k] - qty] else balances
  }

  /**
   * The balance table after the loop. No row is created or removed; a row
   * of the order's warehouse loses exactly what the lines sell of its
   * product, however many lines there are and whatever the result's sign;
   * every other row is unchanged.
   */
  function SaleBalances(balances: map<Key, int>, warehouse: string, items: seq<CartItem>): (r: map<Key, int>)
    ensures r.Keys == balances.Keys
    ensures forall k :: k in balances ==>
      r[k] == balances[k] - (if k.warehouse_id == warehouse then SoldQty(items, k.product_id) else 0)
  {
    if items == [] then balances
    else
      var last := items[|items| - 1];
      Decremented(SaleBalances(balances, warehouse, items[..|items| - 1]), Key(last.product_id, warehouse), last.qty)
  }

  method Post(db: Database, req: Request) returns (resp: Response)
    modifies db
    ensures resp.BadRequest? <==> !Accepts(req)
    ensures !Accepts(req) ==> unchanged(db)
    ensures Accepts(req) ==>
      var orderId := old(db.nextId);
      && resp == Created(OrderRow(orderId, req))
      && db.orders == old(db.orders) + [resp.order]
      && db.orderItems == old(db.orderItems) + ItemRows(orderId, req.items)
      && db.movements == old(db.movements) + SaleMovements(orderId + 1, orderId, req.warehouse_id, req.items)
      && db.balances == SaleBalances(old(db.balances), req.warehouse_id, req.items)
      && db.nextId == orderId + 1 + |req.items|
  {
    if !Accepts(req) {
      return BadRequest;
    }
    var order := OrderRow(db.nextId, req);
    db.orders := db.orders + [order];
    db.nextId := db.nextId + 1;
    db.orderItems := db.orderItems + ItemRows(order.id, req.items);
    RecordSaleLines(db, order.id, req.warehouse_id, req.items);
    return Created(order);
  }

  /** The `for (const item of items)` loop: one OUT movement and one balance read-modify-write per line. */
  method RecordSaleLines(db: Database, orderId: Id, warehouse: string, items: seq<CartItem>)
    modifies db
    ensures db.movements == old(db.movements) + SaleMovements(old(db.nextId), orderId, warehouse, items)
    ensures db.balances == SaleBalances(old(db.balances), warehouse, items)
    ensures db.nextId == old(db.nextId) + |items|
    ensures db.orders == old(db.orders) && db.orderItems == old(db.orderItems)
  {
    var i := 0;
    assert items[..0] == [];
    while i < |items|
      invariant 0 <= i <= |items|
      invariant db.orders == old(db.orders) && db.orderItems == old(db.orderItems)
      invariant db.movements == old(db.movements) + SaleMovements(old(db.nextId), orderId, warehouse, items[..i])
      invariant db.balances == SaleBalances(old(db.balances), warehouse, items[..i])
      invariant db.nextId == old(db.nextId) + i
    {
      SaleStep(old(db.balances), old(db.nextId), orderId, warehouse, items, i);
      RecordSaleLine(db, orderId, warehouse, items[i]);
      i := i + 1;
    }
    assert items[..i] == items;
  }

  /** One turn of the loop: insert the line's OUT movement, then decrement its balance row if there is one. */
  method RecordSaleLine(db: Database, orderId: Id, warehouse: string, item: CartItem)
    modifies db
    ensures db.movements == old(db.movements) + [SaleMovement(old(db.nextId), orderId, warehouse, item)]
    ensures db.balances == Decremented(old(db.balances), Key(item.product_id, warehouse), item.qty)
    ensures db.nextId == old(db.nextId) + 1
    ensures db.orders == old(db.orders) && db.orderItems == old(db.orderItems)
  {
    db.movements := db.movements + [SaleMovement(db.nextId, orderId, warehouse, item)];
    db.nextId := db.nextId + 1;
    var key := Key(item.product_id, warehouse);
    var row: Option<int> := if key in db.balances then Some(db.balances[key]) else None;
    if row.Some? {
      db.balances := db.balances[key := row.value - item.qty];
    }
  }

  /** One more turn of the loop extends the movements and the balance updates by line `i`. */
  lemma SaleStep(balances: map<Key, int>, firstId: Id, orderId: Id, warehouse: string, items: seq<CartItem>, i: nat)
    requires i < |items|
    ensures SaleMovements(firstId, orderId, warehouse, items[..i + 1])
      == SaleMovements(firstId, orderId, warehouse, items[..i]) + [SaleMovement(firstId + i, orderId, warehouse, items[i])]
    ensures SaleBalances(balances, warehouse, items[..i + 1])
      == Decremented(SaleBalances(balances, warehouse, items[..i]), Key(items[i].product_id, warehouse), items[i].qty)
  {
    assert items[..i + 1][..i] == items[..i];
  }

  /** A sale is not floored: a row holding less than the line asks for goes negative. */
  lemma SaleDrivesBalanceNegative()
    ensures
      var k := Key("p1", "w1");
      var line := CartItem("p1", "Item", "SKU-1", 5, 1.0, 5.0);
      SaleBalances(map[k := 2], "w1", [line])[k] == -3
  {
    var line := CartItem("p1", "Item", "SKU-1", 5, 1.0, 5.0);
    assert SoldQty([line], "p1") == 5 by {
      assert [line][..0] == [];
    }
  }

  /** A sale keeps the ledger consistent when every line's key already has a balance row. */
  lemma {:induction false} SaleWithRowsKeepsLedgerConsistent(
      ms: seq<StockMovement>, balances: map<Key, int>, firstId: Id, orderId: Id, warehouse: string, items: seq<CartItem>)
    requires Consistent(ms, balances)
    requires forall i :: 0 <= i < |items| ==> Key(items[i].product_id, warehouse) in balances
    ensures Consistent(ms + SaleMovements(firstId, orderId, warehouse, items), SaleBalances(balances, warehouse, items))
  {
    if items == [] {
      assert ms + SaleMovements(firstId, orderId, warehouse, items) == ms;
    } else {
      var n := |items| - 1;
      var prefix := items[..n];
      SaleWithRowsKeepsLedgerConsistent(ms, balances, firstId, orderId, warehouse, prefix);
      var before := ms + SaleMovements(firstId, orderId, warehouse, prefix);
      var m := SaleMovement(firstId + n, orderId, warehouse, items[n]);
      assert ms + SaleMovements(firstId, orderId, warehouse, items) == before + [m];
      var mid := SaleBalances(balances, warehouse, prefix);
      assert m.KeyOf() in mid;
      forall k
        ensures BalanceOf(SaleBalances(balances, warehouse, items), k) == NetQty(before + [m], k)
      {
        NetQtyAppend(before, m, k);
        assert BalanceOf(mid, k) == NetQty(before, k);
      }
    }
  }

  /** The OUT movements of a sale lower each key of its warehouse by what the lines sell of that product. */
  lemma {:induction false} NetQtyOfSale(
      ms: seq<StockMovement>, firstId: Id, orderId: Id, warehouse: string, items: seq<CartItem>, k: Key)
    requires k.warehouse_id == warehouse
    ensures NetQty(ms + SaleMovements(firstId, orderId, warehouse, items), k) == NetQty(ms, k) - SoldQty(items, k.product_id)
  {
    if items == [] {
      assert ms + SaleMovements(firstId, orderId, warehouse, items) == ms;
    } else {
      var n := |items| - 1;
      NetQtyOfSale(ms, firstId, orderId, warehouse, items[..n], k);
      var before := ms + SaleMovements(firstId, orderId, warehouse, items[..n]);
      var m := SaleMovement(firstId + n, orderId, warehouse, items[n]);
      assert ms + SaleMovements(firstId, orderId, warehouse, items) == before + [m];
      NetQtyAppend(before, m, k);
    }
  }

  /**
   * When a key of the order's warehouse has no balance row and the lines
   * sell a non-zero quantity of its product, the OUT movements are still
   * logged but no row is written, so the log and the balances part ways.
   */
  lemma MissingRowBreaksLedger(
      ms: seq<StockMovement>, balances: map<Key, int>, firstId: Id, orderId: Id, warehouse: string,
      items: seq<CartItem>, k: Key)
    requires Consistent(ms, balances)
    requires k !in balances && k.warehouse_id == warehouse
    requires SoldQty(items, k.product_id) != 0
    ensures !Consistent(ms + SaleMovements(firstId, orderId, warehouse, items), SaleBalances(balances, warehouse, items))
  {
    NetQtyOfSale(ms, firstId, orderId, warehouse, items, k);
    assert BalanceOf(balances, k) == NetQty(ms, k);
    assert BalanceOf(SaleBalances(balances, warehouse, items), k) == 0;
  }
}
