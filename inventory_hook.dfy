/**
 * useInventory: the browser-local `productId -> qty` map. `addStock` adds
 * without a floor; `adjustStock` floors the result at 0. Each update is
 * also written to local storage; a failed write is only logged.
 */
module InventoryHook {

  type Inventory = map<string, int>

  /** `prev[productId] || 0`. */
  function StockOf(inv: Inventory, productId: string): int {
    if productId in inv then inv[productId] else 0
  }

  /** The map `addStock` builds: `{...prev, [productId]: (prev[productId] || 0) + quantity}`. */
  function Added(inv: Inventory, productId: string, quantity: int): (r: Inventory)
    ensures r.Keys == inv.Keys + {productId}
    ensures r[productId] == StockOf(inv, productId) + quantity
    ensures forall p :: p in inv && p != productId ==> r[p] == inv[p]
  {
    inv[productId := StockOf(inv, productId) + quantity]
  }

  /** The map `adjustStock` builds: the same, with the new value floored at 0. */
  function Adjusted(inv: Inventory, productId: string, adjustment: int): (r: Inventory)
    ensures r.Keys == inv.Keys + {productId}
    ensures r[productId] >= 0
    ensures StockOf(inv, productId) + adjustment >= 0 ==> r[productId] == StockOf(inv, productId) + adjustment
    ensures StockOf(inv, productId) + adjustment < 0 ==> r[productId] == 0
    ensures forall p :: p in inv && p != productId ==> r[p] == inv[p]
  {
    var v := StockOf(inv, productId) + adjustment;
    inv[productId := if v < 0 then 0 else v]
  }

  /** From a non-negative stock, a non-negative adjustment is the same as adding it. */
  lemma AdjustMatchesAddWhenNonNegative(inv: Inventory, productId: string, amount: int)
    requires StockOf(inv, productId) >= 0 && amount >= 0
    ensures Adjusted(inv, productId, amount) == Added(inv, productId, amount)
  {
  }

  /** With a negative adjustment that overshoots, the two differ. */
  lemma AdjustDiffersFromAddBelowZero(inv: Inventory, productId: string, amount: int)
    requires StockOf(inv, productId) + amount < 0
    ensures Adjusted(inv, productId, amount)[productId] == 0 != Added(inv, productId, amount)[productId]
  {
  }

  /** The hook's state: the in-memory map and the copy last written to local storage. */
  class InventoryStore {
    var inventory: Inventory
    var saved: Inventory
    /** Whether `localStorage.setItem` succeeds in this browser (it may throw, e.g. over quota). */
    const storageWritable: bool

    ghost predicate Valid()
      reads this
    {
      storageWritable ==> saved == inventory
    }

    constructor (initial: Inventory, writable: bool)
      ensures Valid()
      ensures inventory == initial && saved == initial && storageWritable == writable
    {
      inventory, saved, storageWritable := initial, initial, writable;
    }

    /** Saves `updated` when storage accepts it; a failure leaves the old copy. */
    method Save(updated: Inventory)
      modifies this
      ensures inventory == old(inventory)
      ensures saved == if storageWritable then updated else old(saved)
    {
      if storageWritable {
        saved := updated;
      }
    }

    method AddStock(productId: string, quantity: int)
      requires Valid()
      modifies this
      ensures Valid()
      ensures inventory == Added(old(inventory), productId, quantity)
      ensures !storageWritable ==> saved == old(saved)
    {
      var updated := Added(inventory, productId, quantity);
      Save(updated);
      inventory := updated;
    }

    method AdjustStock(productId: string, adjustment: int)
      requires Valid()
      modifies this
      ensures Valid()
      ensures inventory == Adjusted(old(inventory), productId, adjustment)
      ensures !storageWritable ==> saved == old(saved)
    {
      var updated := Adjusted(inventory, productId, adjustment);
      Save(updated);
      inventory := updated;
    }
  }
}
