/**
 * POST /api/inventory/stock-in: validates the request, appends an IN
 * movement and then updates or inserts the (product, warehouse) balance row.
 */
module StockInRoute {
  import opened Wrappers
  import opened Types
  import opened Tables

  /**
   * The request body. A missing string field reads as "" and a missing or
   * non-numeric `qty` as 0: each is falsy, like the value it stands for.
   * `cost_price` is read from the body but never used.
   */
  datatype Request = Request(
    product_id: string,
    warehouse_id: string,
    qty: int,
    cost_price: Option<real>,
    description: Option<string>)
  {
    function KeyOf(): Key { Key(product_id, warehouse_id) }
  }

  /** 201 with the inserted movement, or 400 "Missing required fields". */
  datatype Response = Created(movement: StockMovement) | BadRequest

  /** The guard `!product_id || !warehouse_id || !qty` fails. */
  predicate Accepts(req: Request) {
    req.product_id != "" && req.warehouse_id != "" && req.qty != 0
  }

  /** The IN movement row the route inserts, with the id the database assigns. */
  function InMovement(id: Id, req: Request): (m: StockMovement)
    ensures m.movement_type == IN && m.KeyOf() == req.KeyOf()
    ensures m.qty == req.qty && m.description == req.description && m.reference_id == None
    ensures Delta(m) == req.qty
  {
    StockMovement(id, req.product_id, req.warehouse_id, IN, req.qty, None, req.description)
  }

  /** The balance table after the update-or-insert of lines 31-51. */
  function Upserted(balances: map<Key, int>, k: Key, qty: int): (r: map<Key, int>)
    ensures r.Keys == balances.Keys + {k}
    ensures k in balances ==> r[k] == balances[k] + qty
    ensures k !in balances ==> r[k] == qty
    ensures forall other :: other in balances && other != k ==> r[other] == balances[other]
  {
    if k in balances then balances[k := balances[k] + qty] else balances[k := qty]
  }

  method Post(db: Database, req: Request) returns (resp: Response)
    modifies db
    ensures resp.BadRequest? <==> !Accepts(req)
    ensures !Accepts(req) ==> unchanged(db)
    ensures Accepts(req) ==>
      && resp == Created(InMovement(old(db.nextId), req))
      && db.movements == old(db.movements) + [resp.movement]
      && db.balances == Upserted(old(db.balances), req.KeyOf(), req.qty)
      && db.nextId == old(db.nextId) + 1
      && db.orders == old(db.orders) && db.orderItems == old(db.orderItems)
  {
    if !Accepts(req) {
      return BadRequest;
    }
    var movement := InMovement(db.nextId, req);
    db.movements := db.movements + [movement];
    db.nextId := db.nextId + 1;

    var key := req.KeyOf();
    var row: Option<int> := if key in db.balances then Some(db.balances[key]) else None;
    if row.Some? {
      db.balances := db.balances[key := row.value + req.qty];
    } else {
      db.balances := db.balances[key := req.qty];
    }
    return Created(movement);
  }

  /** A negative quantity passes the guard and lowers the balance it is applied to. */
  lemma NegativeQuantityLowersBalance(balances: map<Key, int>, req: Request)
    requires req.product_id != "" && req.warehouse_id != "" && req.qty < 0
    ensures Accepts(req)
    ensures BalanceOf(Upserted(balances, req.KeyOf(), req.qty), req.KeyOf()) < BalanceOf(balances, req.KeyOf())
  {
  }

  /** A successful stock-in keeps every balance equal to the net quantity its log records. */
  lemma StockInKeepsLedgerConsistent(ms: seq<StockMovement>, balances: map<Key, int>, id: Id, req: Request)
    requires Consistent(ms, balances)
    ensures Consistent(ms + [InMovement(id, req)], Upserted(balances, req.KeyOf(), req.qty))
  {
    var m := InMovement(id, req);
    var after := Upserted(balances, req.KeyOf(), req.qty);
    forall k
      ensures BalanceOf(after, k) == NetQty(ms + [m], k)
    {
      NetQtyAppend(ms, m, k);
      assert BalanceOf(balances, k) == NetQty(ms, k);
    }
  }
}
