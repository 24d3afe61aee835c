/**
 * The WMS "Stock Adjustments" screen: an editable list of signed
 * adjustments, applied in list order through the floored `adjustStock`.
 */
module WmsStockAdjustment {
  import opened Wrappers
  import opened Types
  import opened InventoryHook
  import Seqs

  datatype AdjustmentType = Add | Subtract

  datatype AdjustmentItem = AdjustmentItem(
    productId: string,
    reason: string,
    quantity: int,
    adjustmentType: AdjustmentType)

  /** One field of a line and its new value, as `updateItem(index, field, value)` receives them. */
  datatype FieldUpdate =
    | ProductIdField(productId: string)
    | ReasonField(reason: string)
    | QuantityField(quantity: int)
    | TypeField(adjustmentType: AdjustmentType)

  /** The line "Add Adjustment" appends: the first catalog product, 1 unit, "Inventory Count", subtract. */
  function DefaultItem(catalog: seq<MockProduct>): (item: AdjustmentItem)
    requires |catalog| > 0
    ensures item.productId == catalog[0].id && item.quantity == 1
    ensures item.reason == "Inventory Count" && item.adjustmentType == Subtract
  {
    AdjustmentItem(catalog[0].id, "Inventory Count", 1, Subtract)
  }

  /** `{ ...item, [field]: value }`. */
  function WithField(item: AdjustmentItem, f: FieldUpdate): (r: AdjustmentItem)
    ensures f.ProductIdField? ==> r == item.(productId := f.productId)
    ensures f.ReasonField? ==> r == item.(reason := f.reason)
    ensures f.QuantityField? ==> r == item.(quantity := f.quantity)
    ensures f.TypeField? ==> r == item.(adjustmentType := f.adjustmentType)
  {
    match f
    case ProductIdField(v) => item.(productId := v)
    case ReasonField(v) => item.(reason := v)
    case QuantityField(v) => item.(quantity := v)
    case TypeField(v) => item.(adjustmentType := v)
  }

  /** The list after `updateItem(index, field, value)`: only that field of that line changes. */
  function ItemUpdated(items: seq<AdjustmentItem>, index: int, f: FieldUpdate): (r: seq<AdjustmentItem>)
    ensures |r| == |items|
    ensures forall j :: 0 <= j < |items| && j != index ==> r[j] == items[j]
    ensures 0 <= index < |items| ==> r[index] == WithField(items[index], f)
  {
    if 0 <= index < |items| then items[index := WithField(items[index], f)] else items
  }

  /** The quantity box: `Math.max(1, Number.parseInt(value) || 1)`; None stands for a non-number. */
  function ClampedQuantity(parsed: Option<int>): (q: int)
    ensures q >= 1
    ensures parsed.Some? && parsed.value >= 1 ==> q == parsed.value
    ensures parsed.None? || parsed.value < 1 ==> q == 1
  {
    var v := if parsed.Some? && parsed.value != 0 then parsed.value else 1;
    if v < 1 then 1 else v
  }

  /** `adjustmentType === "add" ? quantity : -quantity`. */
  function SignedAdjustment(item: AdjustmentItem): (a: int)
    ensures item.adjustmentType == Add ==> a == item.quantity
    ensures item.adjustmentType == Subtract ==> a == -item.quantity
  {
    if item.adjustmentType == Add then item.quantity else -item.quantity
  }

  ghost function ProductsOf(items: seq<AdjustmentItem>): set<string> {
    set i | 0 <= i < |items| :: items[i].productId
  }

  /** The inventory after the submit loop: one floored `adjustStock` call per line, in list order. */
  function Applied(inv: Inventory, items: seq<AdjustmentItem>): Inventory {
    if items == [] then inv
    else Adjusted(Applied(inv, items[..|items| - 1]), items[|items| - 1].productId, SignedAdjustment(items[|items| - 1]))
  }

  /**
   * After the submit loop every product a line names ends non-negative,
   * and every other entry is unchanged and no other entry appears.
   */
  lemma {:induction false} AppliedSpec(inv: Inventory, items: seq<AdjustmentItem>)
    ensures Applied(inv, items).Keys == inv.Keys + ProductsOf(items)
    ensures forall p :: p in ProductsOf(items) ==> Applied(inv, items)[p] >= 0
    ensures forall p :: p in inv && p !in ProductsOf(items) ==> Applied(inv, items)[p] == inv[p]
  {
    if items != [] {
      AppliedSpec(inv, items[..|items| - 1]);
      ProductsOfSnoc(items);
    }
  }

  lemma ProductsOfSnoc(items: seq<AdjustmentItem>)
    requires items != []
    ensures ProductsOf(items) == ProductsOf(items[..|items| - 1]) + {items[|items| - 1].productId}
  {
    var n := |items| - 1;
    forall p | p in ProductsOf(items) ensures p in ProductsOf(items[..n]) + {items[n].productId} {
      var i :| 0 <= i < |items| && items[i].productId == p;
      if i < n { assert items[..n][i] == items[i]; }
    }
    forall p | p in ProductsOf(items[..n]) ensures p in ProductsOf(items) {
      var i :| 0 <= i < n && items[..n][i].productId == p;
      assert items[i].productId == p;
    }
  }

  /** The loop's step: the prefix through line `i` is the prefix before it, then line `i`. */
  lemma AppliedPrefixStep(inv: Inventory, items: seq<AdjustmentItem>, i: nat)
    requires i < |items|
    ensures Applied(inv, items[..i + 1]) == Adjusted(Applied(inv, items[..i]), items[i].productId, SignedAdjustment(items[i]))
  {
    assert items[..i + 1][..i] == items[..i];
  }

  /** Applying one more line is one more floored `adjustStock` call on the result so far. */
  lemma AppliedStep(inv: Inventory, items: seq<AdjustmentItem>, item: AdjustmentItem)
    ensures Applied(inv, items + [item]) == Adjusted(Applied(inv, items), item.productId, SignedAdjustment(item))
  {
    assert (items + [item])[..|items|] == items;
  }

  /**
   * Order matters: from a stock of 0, subtracting `amount` and then adding
   * it back leaves `amount`, because the subtraction is floored at 0; in the
   * other order (next lemma) the lines cancel out.
   */
  lemma SubtractThenAddLeavesAmount(p: string, amount: int)
    requires amount > 0
    ensures Applied(map[p := 0], [AdjustmentItem(p, "Damage", amount, Subtract),
                                  AdjustmentItem(p, "Inventory Count", amount, Add)])[p] == amount
  {
    var sub := AdjustmentItem(p, "Damage", amount, Subtract);
    var add := AdjustmentItem(p, "Inventory Count", amount, Add);
    TwoLines(map[p := 0], sub, add);
  }

  lemma AddThenSubtractCancels(p: string, amount: int)
    requires amount > 0
    ensures Applied(map[p := 0], [AdjustmentItem(p, "Inventory Count", amount, Add),
                                  AdjustmentItem(p, "Damage", amount, Subtract)])[p] == 0
  {
    var sub := AdjustmentItem(p, "Damage", amount, Subtract);
    var add := AdjustmentItem(p, "Inventory Count", amount, Add);
    TwoLines(map[p := 0], add, sub);
  }

  /** A two-line list is two `adjustStock` calls in list order. */
  lemma TwoLines(inv: Inventory, first: AdjustmentItem, second: AdjustmentItem)
    ensures Applied(inv, [first, second]) ==
      Adjusted(Adjusted(inv, first.productId, SignedAdjustment(first)), second.productId, SignedAdjustment(second))
  {
    var once := SingleLine(inv, first);
    AppliedStep(inv, [first], second);
    assert [first] + [second] == [first, second];
  }

  /** A one-line list is one `adjustStock` call. */
  lemma SingleLine(inv: Inventory, item: AdjustmentItem) returns (r: Inventory)
    ensures r == Applied(inv, [item]) && r == Adjusted(inv, item.productId, SignedAdjustment(item))
  {
    AppliedStep(inv, [], item);
    assert [] + [item] == [item];
    r := Applied(inv, [item]);
  }

  class StockAdjustmentScreen {
    var items: seq<AdjustmentItem>
    const catalog: seq<MockProduct>
    const store: InventoryStore

    constructor (catalog: seq<MockProduct>, store: InventoryStore)
      ensures items == [] && this.catalog == catalog && this.store == store
    {
      items := [];
      this.catalog := catalog;
      this.store := store;
    }

    /** "Add Adjustment" (the catalog it reads from is a fixed, non-empty list). */
    method AddItem()
      requires |catalog| > 0
      modifies this
      ensures items == old(items) + [DefaultItem(catalog)]
    {
      items := items + [AdjustmentItem(catalog[0].id, "Inventory Count", 1, Subtract)];
    }

    method UpdateItem(index: int, f: FieldUpdate)
      modifies this
      ensures items == ItemUpdated(old(items), index, f)
    {
      items := ItemUpdated(items, index, f);
    }

    /** The quantity box's `onChange`. */
    method OnQuantityInput(index: int, parsed: Option<int>)
      modifies this
      ensures items == ItemUpdated(old(items), index, QuantityField(ClampedQuantity(parsed)))
    {
      UpdateItem(index, QuantityField(ClampedQuantity(parsed)));
    }

    method RemoveItem(index: int)
      modifies this
      ensures items == Seqs.RemoveIndex(old(items), index)
    {
      items := Seqs.RemoveIndex(items, index);
    }

    /** "Submit Adjustments": with at least one line, applies each in list order and empties the list. */
    method HandleSubmit() returns (submitted: bool)
      requires store.Valid()
      modifies this, store
      ensures store.Valid()
      ensures submitted <==> |old(items)| > 0
      ensures !submitted ==> items == old(items) && store.inventory == old(store.inventory)
      ensures submitted ==> store.inventory == Applied(old(store.inventory), old(items)) && items == []
      ensures !store.storageWritable ==> store.saved == old(store.saved)
    {
      if |items| == 0 {
        return false;
      }
      var i := 0;
      while i < |items|
        invariant 0 <= i <= |items|
        invariant items == old(items)
        invariant store.Valid()
        invariant store.inventory == Applied(old(store.inventory), items[..i])
        invariant !store.storageWritable ==> store.saved == old(store.saved)
      {
        AppliedPrefixStep(old(store.inventory), items, i);
        var adjustment := SignedAdjustment(items[i]);
        store.AdjustStock(items[i].productId, adjustment);
        i := i + 1;
      }
      assert items[..i] == items;
      items := [];
      return true;
    }
  }
}
