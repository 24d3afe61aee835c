/**
 * The WMS "Stock Summary" screen: the total-units, SKU and low-stock cards
 * and the per-product rows, all read from the inventory map and the catalog.
 */
module WmsStockSummary {
  import opened Types
  import opened InventoryHook
  import Seqs
  import WmsStockIn

  /** The low-stock threshold, shown as "Min Level". */
  const MinLevel := 10

  /** `Object.values(inventory).reduce((sum, qty) => sum + qty, 0)`: every entry counts, catalog product or not. */
  ghost function TotalStock(inv: Inventory): int
    decreases |inv|
  {
    if inv == map[] then 0
    else
      var k :| k in inv;
      inv[k] + TotalStock(inv - {k})
  }

  /** The total does not depend on which entry is taken first. */
  lemma {:induction false} TotalStockWithout(inv: Inventory, k: string)
    requires k in inv
    ensures TotalStock(inv) == inv[k] + TotalStock(inv - {k})
    decreases |inv|
  {
    var j :| j in inv && TotalStock(inv) == inv[j] + TotalStock(inv - {j});
    if j != k {
      var rest := inv - {j};
      assert k in rest;
      TotalStockWithout(rest, k);
      var both := rest - {k};
      assert inv - {k} - {j} == both;
      assert j in inv - {k};
      TotalStockWithout(inv - {k}, j);
    }
  }

  /** `addStock` raises the total-units card by exactly the quantity added. */
  lemma TotalStockAdded(inv: Inventory, productId: string, quantity: int)
    ensures TotalStock(Added(inv, productId, quantity)) == TotalStock(inv) + quantity
  {
    var after := Added(inv, productId, quantity);
    TotalStockWithout(after, productId);
    assert after - {productId} == inv - {productId};
    if productId in inv {
      TotalStockWithout(inv, productId);
    } else {
      assert inv - {productId} == inv;
    }
  }

  /** Submitting a stock-in list raises the "Total Items" card by the list's own total. */
  lemma {:induction false} ReceivedRaisesTotal(inv: Inventory, items: seq<WmsStockIn.StockInItem>)
    ensures TotalStock(WmsStockIn.Received(inv, items)) == TotalStock(inv) + WmsStockIn.TotalUnits(items)
  {
    if items != [] {
      var n := |items| - 1;
      ReceivedRaisesTotal(inv, items[..n]);
      TotalStockAdded(WmsStockIn.Received(inv, items[..n]), items[n].productId, items[n].quantity);
    }
  }

  /** The low-stock card's value: `inventory[p.id] || p.stock`, so an entry of 0 falls back to the catalog stock. */
  function CardStock(p: MockProduct, inv: Inventory): (v: int)
    ensures StockOf(inv, p.id) != 0 ==> v == inv[p.id]
    ensures StockOf(inv, p.id) == 0 ==> v == p.stock
  {
    if p.id in inv && inv[p.id] != 0 then inv[p.id] else p.stock
  }

  /** A row's "Current Stock": `inventory[p.id] ?? p.stock`, so only a missing entry falls back. */
  function CurrentStock(p: MockProduct, inv: Inventory): (v: int)
    ensures p.id in inv ==> v == inv[p.id]
    ensures p.id !in inv ==> v == p.stock
  {
    if p.id in inv then inv[p.id] else p.stock
  }

  /** A row shows "Low Stock" iff its current stock is under the minimum level. */
  predicate IsLowStock(p: MockProduct, inv: Inventory) {
    CurrentStock(p, inv) < MinLevel
  }

  /** `lowStockProducts`: the catalog products whose card value is under the minimum level, in catalog order. */
  function LowStockProducts(catalog: seq<MockProduct>, inv: Inventory): (r: seq<MockProduct>)
    ensures |r| <= |catalog|
    ensures forall i :: 0 <= i < |r| ==> r[i] in catalog && CardStock(r[i], inv) < MinLevel
    ensures forall i :: 0 <= i < |catalog| && CardStock(catalog[i], inv) < MinLevel ==> catalog[i] in r
    ensures Seqs.IsSublist(r, catalog)
  {
    Seqs.Filter(catalog, (p: MockProduct) => CardStock(p, inv) < MinLevel)
  }

  /**
   * An entry of 0 for a product whose catalog stock is at least the minimum
   * level makes its row say "Low Stock" while the low-stock card leaves it out.
   */
  lemma ZeroEntryShownLowButNotCounted(catalog: seq<MockProduct>, inv: Inventory, p: MockProduct)
    requires p.id in inv && inv[p.id] == 0 && p.stock >= MinLevel
    ensures IsLowStock(p, inv)
    ensures p !in LowStockProducts(catalog, inv)
  {
  }

  /** The three summary cards. */
  datatype Cards = Cards(totalStock: int, skus: nat, lowStock: nat)

  ghost function SummaryCards(catalog: seq<MockProduct>, inv: Inventory): (c: Cards)
    ensures c.skus == |catalog|
    ensures c.lowStock == |LowStockProducts(catalog, inv)| && c.lowStock <= c.skus
    ensures c.totalStock == TotalStock(inv)
  {
    Cards(TotalStock(inv), |catalog|, |LowStockProducts(catalog, inv)|)
  }
}
