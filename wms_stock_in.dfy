/**
 * The WMS "Stock In" screen: an editable list of lines under one
 * reference number, folded into the inventory map on submit.
 */
module WmsStockIn {
  import opened Wrappers
  import opened InventoryHook
  import Seqs

  datatype StockInItem = StockInItem(productId: string, quantity: int, referenceNo: string)

  /** The list after `updateQuantity(index, quantity)`. */
  function QuantityUpdated(items: seq<StockInItem>, index: int, quantity: int): (r: seq<StockInItem>)
    ensures quantity <= 0 ==> r == Seqs.RemoveIndex(items, index)
    ensures quantity > 0 ==> |r| == |items|
    ensures quantity > 0 ==> forall j :: 0 <= j < |items| && j != index ==> r[j] == items[j]
    ensures quantity > 0 && 0 <= index < |items| ==>
      r[index].quantity == quantity && r[index].productId == items[index].productId
      && r[index].referenceNo == items[index].referenceNo
  {
    if quantity <= 0 then Seqs.RemoveIndex(items, index)
    else if 0 <= index < |items| then items[index := items[index].(quantity := quantity)]
    else items
  }

  /**
   * The quantity typed into a line's box: `Number.parseInt(value) || 1`,
   * where `parsed` is None when the text is not a number.
   */
  function TypedQuantity(parsed: Option<int>): (q: int)
    ensures parsed == None || parsed == Some(0) ==> q == 1
    ensures parsed.Some? && parsed.value != 0 ==> q == parsed.value
  {
    if parsed.Some? && parsed.value != 0 then parsed.value else 1
  }

  /** Typing 0 or a non-number keeps the line with quantity 1 instead of removing it. */
  lemma TypedZeroKeepsLine(items: seq<StockInItem>, index: int, parsed: Option<int>)
    requires 0 <= index < |items|
    requires parsed == None || parsed == Some(0)
    ensures |QuantityUpdated(items, index, TypedQuantity(parsed))| == |items|
    ensures QuantityUpdated(items, index, TypedQuantity(parsed))[index].quantity == 1
  {
  }

  /** `totalItems`: the units over all lines. */
  function TotalUnits(items: seq<StockInItem>): int {
    if items == [] then 0 else TotalUnits(items[..|items| - 1]) + items[|items| - 1].quantity
  }

  /** The units the lines carry for one product. */
  function UnitsFor(items: seq<StockInItem>, productId: string): int {
    if items == [] then 0
    else
      var last := items[|items| - 1];
      UnitsFor(items[..|items| - 1], productId) + (if last.productId == productId then last.quantity else 0)
  }

  ghost function ProductsOf(items: seq<StockInItem>): set<string> {
    set i | 0 <= i < |items| :: items[i].productId
  }

  lemma {:induction false} UnitsForAbsent(items: seq<StockInItem>, productId: string)
    requires productId !in ProductsOf(items)
    ensures UnitsFor(items, productId) == 0
  {
    if items != [] {
      var n := |items| - 1;
      assert forall i :: 0 <= i < n ==> items[..n][i] == items[i];
      UnitsForAbsent(items[..n], productId);
    }
  }

  lemma ProductsOfSnoc(items: seq<StockInItem>)
    requires items != []
    ensures ProductsOf(items) == ProductsOf(items[..|items| - 1]) + {items[|items| - 1].productId}
  {
    var n := |items| - 1;
    forall p | p in ProductsOf(items) ensures p in ProductsOf(items[..n]) + {items[n].productId} {
      var i :| 0 <= i < |items| && items[i].productId == p;
      if i < n { assert items[..n][i] == items[i]; }
    }
    forall p | p in ProductsOf(items[..n]) ensures p in ProductsOf(items) {
      var i :| 0 <= i < n && items[..n][i].productId == p;
      assert items[i].productId == p;
    }
  }

  /**
   * The inventory after `items.forEach(item => addStock(item.productId, item.quantity))`,
   * one call per line in list order.
   */
  function Received(inv: Inventory, items: seq<StockInItem>): Inventory {
    if items == [] then inv
    else Added(Received(inv, items[..|items| - 1]), items[|items| - 1].productId, items[|items| - 1].quantity)
  }

  /** Each product grows by the units of all its lines; the entries of no other product change or appear. */
  lemma {:induction false} ReceivedSpec(inv: Inventory, items: seq<StockInItem>)
    ensures Received(inv, items).Keys == inv.Keys + ProductsOf(items)
    ensures forall p :: p in Received(inv, items) ==> Received(inv, items)[p] == StockOf(inv, p) + UnitsFor(items, p)
  {
    if items != [] {
      var n := |items| - 1;
      ReceivedSpec(inv, items[..n]);
      ProductsOfSnoc(items);
      forall p | p !in inv && p !in ProductsOf(items[..n]) {
        UnitsForAbsent(items[..n], p);
      }
    }
  }

  /** The loop's step: the prefix through line `i` is the prefix before it, then line `i`. */
  lemma ReceivedPrefixStep(inv: Inventory, items: seq<StockInItem>, i: nat)
    requires i < |items|
    ensures Received(inv, items[..i + 1]) == Added(Received(inv, items[..i]), items[i].productId, items[i].quantity)
  {
    assert items[..i + 1][..i] == items[..i];
  }

  class StockInScreen {
    var items: seq<StockInItem>
    var referenceNo: string
    const store: InventoryStore

    constructor (store: InventoryStore)
      ensures items == [] && referenceNo == "" && this.store == store
    {
      items, referenceNo := [], "";
      this.store := store;
    }

    /** The reference number box's `onChange`. */
    method SetReferenceNo(value: string)
      modifies this
      ensures referenceNo == value && items == old(items)
    {
      referenceNo := value;
    }

    /** A product button: appends a line of 1 unit under the current reference number. */
    method AddItem(productId: string)
      modifies this
      ensures items == old(items) + [StockInItem(productId, 1, old(referenceNo))]
      ensures referenceNo == old(referenceNo)
    {
      items := items + [StockInItem(productId, 1, referenceNo)];
    }

    method UpdateQuantity(index: int, quantity: int)
      modifies this
      ensures items == QuantityUpdated(old(items), index, quantity)
      ensures referenceNo == old(referenceNo)
    {
      if quantity <= 0 {
        items := Seqs.RemoveIndex(items, index);
        return;
      }
      items := QuantityUpdated(items, index, quantity);
    }

    /** The quantity box's `onChange`. */
    method OnQuantityInput(index: int, parsed: Option<int>)
      modifies this
      ensures items == QuantityUpdated(old(items), index, TypedQuantity(parsed))
      ensures referenceNo == old(referenceNo)
    {
      UpdateQuantity(index, TypedQuantity(parsed));
    }

    method RemoveItem(index: int)
      modifies this
      ensures items == Seqs.RemoveIndex(old(items), index)
      ensures referenceNo == old(referenceNo)
    {
      items := Seqs.RemoveIndex(items, index);
    }

    /**
     * "Complete Stock In": with a reference number and at least one line,
     * adds each line to the inventory in list order, then clears the form;
     * otherwise changes nothing.
     */
    method HandleSubmit() returns (submitted: bool)
      requires store.Valid()
      modifies this, store
      ensures store.Valid()
      ensures submitted <==> old(referenceNo) != "" && |old(items)| > 0
      ensures !submitted ==>
        items == old(items) && referenceNo == old(referenceNo) && store.inventory == old(store.inventory)
      ensures submitted ==>
        store.inventory == Received(old(store.inventory), old(items)) && items == [] && referenceNo == ""
      ensures !store.storageWritable ==> store.saved == old(store.saved)
    {
      if referenceNo == "" || |items| == 0 {
        return false;
      }
      var i := 0;
      while i < |items|
        invariant 0 <= i <= |items|
        invariant items == old(items) && referenceNo == old(referenceNo)
        invariant store.Valid()
        invariant store.inventory == Received(old(store.inventory), items[..i])
        invariant !store.storageWritable ==> store.saved == old(store.saved)
      {
        ReceivedPrefixStep(old(store.inventory), items, i);
        store.AddStock(items[i].productId, items[i].quantity);
        i := i + 1;
      }
      assert items[..i] == items;
      items := [];
      referenceNo := "";
      return true;
    }
  }
}
