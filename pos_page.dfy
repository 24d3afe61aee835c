/**
 * The POS cashier page: a cart of `CartItem`s with the derived field
 * `total_price = unit_price * qty`, its subtotal, 10 % tax and total, and
 * the order request it sends to the create-order route.
 */
module PosPage {
  import opened Wrappers
  import opened Types
  import Seqs
  import CreateOrderRoute

  /** The line's derived price is up to date. */
  predicate Priced(item: CartItem) {
    item.total_price == item.unit_price * item.qty as real
  }

  ghost predicate UniqueIds(cart: seq<CartItem>) {
    forall i, j :: 0 <= i < j < |cart| ==> cart[i].product_id != cart[j].product_id
  }

  /** What every reachable cart satisfies: one line per product, each priced, each with at least 1 unit. */
  ghost predicate WellFormed(cart: seq<CartItem>) {
    && UniqueIds(cart)
    && forall i :: 0 <= i < |cart| ==> Priced(cart[i]) && cart[i].qty >= 1
  }

  /** `cart.find(item => item.product_id === productId)`, as a position. */
  function IndexOf(cart: seq<CartItem>, productId: string): (r: Option<nat>)
    ensures r.None? <==> forall i :: 0 <= i < |cart| ==> cart[i].product_id != productId
    ensures r.Some? ==> r.value < |cart| && cart[r.value].product_id == productId
    ensures r.Some? ==> forall i :: 0 <= i < r.value ==> cart[i].product_id != productId
  {
    if cart == [] then None
    else if cart[0].product_id == productId then Some(0)
    else match IndexOf(cart[1..], productId)
      case None => None
      case Some(i) => Some(i + 1)
  }

  /** The line a product not yet in the cart gets: 1 unit at the selling price. */
  function NewLine(p: Product): (item: CartItem)
    ensures item.product_id == p.id && item.qty == 1
    ensures item.unit_price == p.selling_price && item.total_price == p.selling_price
    ensures Priced(item)
  {
    CartItem(p.id, p.name, p.sku, 1, p.selling_price, p.selling_price)
  }

  /** `handleRemoveItem`: `cart.filter(item => item.product_id !== productId)`. */
  function ItemRemoved(cart: seq<CartItem>, productId: string): (r: seq<CartItem>)
    ensures forall i :: 0 <= i < |r| ==> r[i] in cart && r[i].product_id != productId
    ensures forall i :: 0 <= i < |cart| && cart[i].product_id != productId ==> cart[i] in r
    ensures Seqs.IsSublist(r, cart)
  {
    Seqs.Filter(cart, (item: CartItem) => item.product_id != productId)
  }

  /** `handleUpdateQty`: a quantity of 0 or less removes the line; otherwise the line is re-priced. */
  function QtyUpdated(cart: seq<CartItem>, productId: string, qty: int): (r: seq<CartItem>)
    ensures qty <= 0 ==> r == ItemRemoved(cart, productId)
    ensures qty > 0 ==> |r| == |cart|
    ensures qty > 0 ==> forall i :: 0 <= i < |cart| && cart[i].product_id != productId ==> r[i] == cart[i]
    ensures qty > 0 ==> forall i :: 0 <= i < |cart| && cart[i].product_id == productId ==>
      r[i] == Repriced(cart[i], qty)
  {
    if qty <= 0 then ItemRemoved(cart, productId)
    else
      seq(|cart|, i requires 0 <= i < |cart| =>
        if cart[i].product_id == productId
        then Repriced(cart[i], qty)
        else cart[i])
  }

  /** `handleAddProduct`: one more unit of a product already in the cart, else a new line at the end. */
  function ProductAdded(cart: seq<CartItem>, p: Product): (r: seq<CartItem>)
    ensures IndexOf(cart, p.id).None? ==> r == cart + [NewLine(p)]
    ensures IndexOf(cart, p.id).Some? ==> r == QtyUpdated(cart, p.id, cart[IndexOf(cart, p.id).value].qty + 1)
  {
    match IndexOf(cart, p.id)
    case None => cart + [NewLine(p)]
    case Some(i) => QtyUpdated(cart, p.id, cart[i].qty + 1)
  }

  lemma RemovePreservesWellFormed(cart: seq<CartItem>, productId: string)
    requires WellFormed(cart)
    ensures WellFormed(ItemRemoved(cart, productId))
  {
    SublistKeepsWellFormed(ItemRemoved(cart, productId), cart);
  }

  lemma {:induction false} SublistKeepsWellFormed(r: seq<CartItem>, cart: seq<CartItem>)
    requires WellFormed(cart) && Seqs.IsSublist(r, cart)
    ensures WellFormed(r)
    decreases |cart|
  {
    if r != [] {
      assert cart != [];
      assert WellFormed(cart[1..]) by {
        forall i | 0 <= i < |cart[1..]| ensures Priced(cart[1..][i]) && cart[1..][i].qty >= 1 {
          assert cart[1..][i] == cart[i + 1];
        }
      }
      if r[0] == cart[0] && Seqs.IsSublist(r[1..], cart[1..]) {
        SublistKeepsWellFormed(r[1..], cart[1..]);
        SublistElements(r[1..], cart[1..]);
        assert forall i :: 1 <= i < |r| ==> r[i] == r[1..][i - 1];
      } else {
        SublistKeepsWellFormed(r, cart[1..]);
      }
    }
  }

  /** Every element of a sublist is an element of the list. */
  lemma {:induction false} SublistElements<T>(r: seq<T>, s: seq<T>)
    requires Seqs.IsSublist(r, s)
    ensures forall i :: 0 <= i < |r| ==> r[i] in s
    decreases |s|
  {
    if r != [] {
      if r[0] == s[0] && Seqs.IsSublist(r[1..], s[1..]) {
        SublistElements(r[1..], s[1..]);
        assert forall i :: 1 <= i < |r| ==> r[i] == r[1..][i - 1];
      } else {
        SublistElements(r, s[1..]);
      }
    }
  }

  lemma UpdatePreservesWellFormed(cart: seq<CartItem>, productId: string, qty: int)
    requires WellFormed(cart)
    ensures WellFormed(QtyUpdated(cart, productId, qty))
  {
    if qty <= 0 {
      RemovePreservesWellFormed(cart, productId);
    }
  }

  lemma AddPreservesWellFormed(cart: seq<CartItem>, p: Product)
    requires WellFormed(cart)
    ensures WellFormed(ProductAdded(cart, p))
  {
    match IndexOf(cart, p.id)
    case None =>
    case Some(i) => UpdatePreservesWellFormed(cart, p.id, cart[i].qty + 1);
  }

  /** `cart.reduce((sum, item) => sum + item.total_price, 0)`. */
  function Subtotal(cart: seq<CartItem>): real {
    if cart == [] then 0.0 else Subtotal(cart[..|cart| - 1]) + cart[|cart| - 1].total_price
  }

  /** 10 % of the subtotal. */
  function Tax(subtotal: real): real {
    subtotal * 0.1
  }

  function Total(cart: seq<CartItem>): (t: real)
    ensures t == Subtotal(cart) * 1.1
  {
    Subtotal(cart) + Tax(Subtotal(cart))
  }

  lemma SubtotalAppend(cart: seq<CartItem>, item: CartItem)
    ensures Subtotal(cart + [item]) == Subtotal(cart) + item.total_price
  {
    assert (cart + [item])[..|cart|] == cart;
  }

  /** Changing the line at position `k` changes the subtotal by the difference of its total price. */
  lemma {:induction false} SubtotalReplace(cart: seq<CartItem>, k: nat, item: CartItem)
    requires k < |cart|
    ensures Subtotal(cart[k := item]) == Subtotal(cart) - cart[k].total_price + item.total_price
  {
    var n := |cart| - 1;
    if k < n {
      assert cart[k := item][..n] == cart[..n][k := item];
      SubtotalReplace(cart[..n], k, item);
    } else {
      assert cart[k := item][..n] == cart[..n];
    }
  }

  /**
   * Adding a product raises the subtotal by one unit price: the selling
   * price for a new line, the line's own unit price for an existing one.
   */
  lemma AddRaisesSubtotal(cart: seq<CartItem>, p: Product)
    requires WellFormed(cart)
    ensures IndexOf(cart, p.id).None? ==> Subtotal(ProductAdded(cart, p)) == Subtotal(cart) + p.selling_price
    ensures IndexOf(cart, p.id).Some? ==>
      Subtotal(ProductAdded(cart, p)) == Subtotal(cart) + cart[IndexOf(cart, p.id).value].unit_price
  {
    var found := IndexOf(cart, p.id);
    if found.None? {
      assert ProductAdded(cart, p) == cart + [NewLine(p)];
      SubtotalAppend(cart, NewLine(p));
    } else {
      var k := found.value;
      assert ProductAdded(cart, p) == QtyUpdated(cart, cart[k].product_id, cart[k].qty + 1);
      assert Priced(cart[k]) && cart[k].qty >= 1;
      BumpRaisesSubtotal(cart, k);
    }
  }

  /** One more unit of the line at position `k` adds its unit price to the subtotal. */
  lemma BumpRaisesSubtotal(cart: seq<CartItem>, k: nat)
    requires UniqueIds(cart) && k < |cart| && Priced(cart[k]) && cart[k].qty >= 1
    ensures Subtotal(QtyUpdated(cart, cart[k].product_id, cart[k].qty + 1)) == Subtotal(cart) + cart[k].unit_price
  {
    UpdateOneLine(cart, k, cart[k].qty + 1);
    SubtotalReplace(cart, k, Repriced(cart[k], cart[k].qty + 1));
    OneMoreUnit(cart[k]);
  }

  /** The line re-priced at a new quantity. */
  function Repriced(item: CartItem, qty: int): (r: CartItem)
    ensures Priced(r) && r.qty == qty && r.product_id == item.product_id && r.unit_price == item.unit_price
  {
    item.(qty := qty, total_price := item.unit_price * qty as real)
  }

  /** With product ids unique, a positive quantity update touches exactly one position. */
  lemma UpdateOneLine(cart: seq<CartItem>, k: nat, qty: int)
    requires UniqueIds(cart) && k < |cart| && qty > 0
    ensures QtyUpdated(cart, cart[k].product_id, qty) == cart[k := Repriced(cart[k], qty)]
  {
    var updated := QtyUpdated(cart, cart[k].product_id, qty);
    forall i | 0 <= i < |cart| ensures updated[i] == cart[k := Repriced(cart[k], qty)][i] {
      if i != k {
        assert cart[i].product_id != cart[k].product_id;
      }
    }
  }

  lemma OneMoreUnit(item: CartItem)
    requires Priced(item)
    ensures Repriced(item, item.qty + 1).total_price == item.total_price + item.unit_price
  {
    calc {
      Repriced(item, item.qty + 1).total_price;
      item.unit_price * (item.qty as real + 1.0);
      item.unit_price * item.qty as real + item.unit_price;
    }
  }

  /**
   * The body `handleCompletePayment` posts to the create-order route: the
   * cart as the order lines, the page's own subtotal, tax and total, no
   * discount, and `change = amount - total`.
   */
  function PaymentRequest(cart: seq<CartItem>, paymentMethod: string, amount: real): (req: CreateOrderRoute.Request)
    ensures req.cashier_id == "current-user-id" && req.warehouse_id == "default-warehouse"
    ensures req.items == cart && req.discount == 0.0
    ensures req.subtotal == Subtotal(cart) && req.tax == req.subtotal * 0.1
    ensures req.total == Total(cart) && req.total == req.subtotal + req.tax
    ensures req.payment_method == paymentMethod && req.notes == None
    ensures req.payment_amount == amount && req.change == amount - req.total
    ensures CreateOrderRoute.Accepts(req) <==> |cart| > 0
  {
    CreateOrderRoute.Request("current-user-id", "default-warehouse", cart, Subtotal(cart), Tax(Subtotal(cart)),
      0.0, Total(cart), paymentMethod, amount, amount - Total(cart), None)
  }

  /**
   * A non-empty cart's payment passes the route's guard, and the order row
   * the route stores carries the page's own figures for that cart.
   */
  lemma PaidOrderStoresPageTotals(id: Id, cart: seq<CartItem>, paymentMethod: string, amount: real)
    requires |cart| > 0
    ensures CreateOrderRoute.Accepts(PaymentRequest(cart, paymentMethod, amount))
    ensures var o := CreateOrderRoute.OrderRow(id, PaymentRequest(cart, paymentMethod, amount));
      && o.subtotal == Subtotal(cart) && o.tax == Subtotal(cart) * 0.1 && o.total == Subtotal(cart) * 1.1
      && o.discount == 0.0 && o.change == amount - Total(cart) && o.payment_method == paymentMethod
  {
  }

  class PosPageState {
    var cart: seq<CartItem>

    /** The cart keeps one line per product, each priced at its quantity. */
    ghost predicate Valid()
      reads this
    {
      WellFormed(cart)
    }

    constructor ()
      ensures cart == [] && Valid()
    {
      cart := [];
    }

    method HandleAddProduct(p: Product)
      requires Valid()
      modifies this
      ensures Valid()
      ensures cart == ProductAdded(old(cart), p)
    {
      AddPreservesWellFormed(cart, p);
      var existing := IndexOf(cart, p.id);
      if existing.Some? {
        var newQty := cart[existing.value].qty + 1;
        HandleUpdateQty(p.id, newQty);
      } else {
        cart := cart + [NewLine(p)];
      }
    }

    method HandleUpdateQty(productId: string, qty: int)
      requires Valid()
      modifies this
      ensures Valid()
      ensures cart == QtyUpdated(old(cart), productId, qty)
    {
      if qty <= 0 {
        HandleRemoveItem(productId);
        return;
      }
      UpdatePreservesWellFormed(cart, productId, qty);
      cart := QtyUpdated(cart, productId, qty);
    }

    method HandleRemoveItem(productId: string)
      requires Valid()
      modifies this
      ensures Valid()
      ensures cart == ItemRemoved(old(cart), productId)
    {
      RemovePreservesWellFormed(cart, productId);
      cart := ItemRemoved(cart, productId);
    }

    /** After the create-order call answers with success: the cart is emptied. */
    method PaymentCompleted(responseOk: bool)
      requires Valid()
      modifies this
      ensures Valid()
      ensures cart == if responseOk then [] else old(cart)
    {
      if responseOk {
        cart := [];
      }
    }
  }
}
