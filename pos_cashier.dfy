/**
 * The demo cashier screen: a cart of `{ id, name, price, quantity }` lines
 * built from the static product catalog, its totals with 10 % tax, and
 * checkout into the browser-local transaction list.
 */
module PosCashier {
  import opened Wrappers
  import opened Types
  import Seqs
  import opened TransactionsHook

  /** `MOCK_PRODUCTS.find(p => p.id === productId)`. */
  function FindProduct(catalog: seq<MockProduct>, productId: string): (r: Option<MockProduct>)
    ensures r.None? <==> forall i :: 0 <= i < |catalog| ==> catalog[i].id != productId
    ensures r.Some? ==> r.value in catalog && r.value.id == productId
  {
    if catalog == [] then None
    else if catalog[0].id == productId then Some(catalog[0])
    else FindProduct(catalog[1..], productId)
  }

  predicate InCart(cart: seq<SaleLine>, productId: string) {
    exists i :: 0 <= i < |cart| && cart[i].id == productId
  }

  ghost predicate UniqueIds(cart: seq<SaleLine>) {
    forall i, j :: 0 <= i < j < |cart| ==> cart[i].id != cart[j].id
  }

  /** Every reachable cart: one line per product, each with at least one unit. */
  ghost predicate WellFormed(cart: seq<SaleLine>) {
    UniqueIds(cart) && forall i :: 0 <= i < |cart| ==> cart[i].quantity >= 1
  }

  /** `removeFromCart`: `prev.filter(item => item.id !== productId)`. */
  function RemovedFromCart(cart: seq<SaleLine>, productId: string): (r: seq<SaleLine>)
    ensures !InCart(r, productId)
    ensures forall i :: 0 <= i < |r| ==> r[i] in cart
    ensures forall i :: 0 <= i < |cart| && cart[i].id != productId ==> cart[i] in r
    ensures Seqs.IsSublist(r, cart)
  {
    Seqs.Filter(cart, (item: SaleLine) => item.id != productId)
  }

  /** The `map` that sets the quantity of `productId`'s line. */
  function WithQuantity(cart: seq<SaleLine>, productId: string, quantity: int): (r: seq<SaleLine>)
    ensures |r| == |cart|
    ensures forall i :: 0 <= i < |cart| ==>
      r[i] == if cart[i].id == productId then cart[i].(quantity := quantity) else cart[i]
  {
    seq(|cart|, i requires 0 <= i < |cart| =>
      if cart[i].id == productId then cart[i].(quantity := quantity) else cart[i])
  }

  /** `updateQuantity`: a quantity of 0 or less removes the line. */
  function QuantityUpdated(cart: seq<SaleLine>, productId: string, quantity: int): (r: seq<SaleLine>)
    ensures quantity <= 0 ==> r == RemovedFromCart(cart, productId)
    ensures quantity > 0 ==> r == WithQuantity(cart, productId, quantity)
    ensures quantity > 0 && !InCart(cart, productId) ==> r == cart
  {
    if quantity <= 0 then RemovedFromCart(cart, productId) else WithQuantity(cart, productId, quantity)
  }

  /** `addToCart`: nothing for an id outside the catalog, one more unit of a line already there, else a new line. */
  function AddedToCart(catalog: seq<MockProduct>, cart: seq<SaleLine>, productId: string): (r: seq<SaleLine>)
    ensures FindProduct(catalog, productId).None? ==> r == cart
    ensures FindProduct(catalog, productId).Some? && !InCart(cart, productId) ==>
      var p := FindProduct(catalog, productId).value;
      r == cart + [SaleLine(p.id, p.name, p.price, 1)]
  {
    match FindProduct(catalog, productId)
    case None => cart
    case Some(p) =>
      if InCart(cart, productId)
      then seq(|cart|, i requires 0 <= i < |cart| =>
        if cart[i].id == productId then cart[i].(quantity := cart[i].quantity + 1) else cart[i])
      else cart + [SaleLine(p.id, p.name, p.price, 1)]
  }

  /** An existing line gains exactly one unit; nothing else moves and the length is kept. */
  lemma AddExistingIncrements(catalog: seq<MockProduct>, cart: seq<SaleLine>, productId: string, k: nat)
    requires FindProduct(catalog, productId).Some?
    requires WellFormed(cart) && k < |cart| && cart[k].id == productId
    ensures AddedToCart(catalog, cart, productId) == cart[k := cart[k].(quantity := cart[k].quantity + 1)]
  {
    var r := AddedToCart(catalog, cart, productId);
    forall i | 0 <= i < |cart| ensures r[i] == cart[k := cart[k].(quantity := cart[k].quantity + 1)][i] {
      if i != k {
        assert cart[i].id != cart[k].id;
      }
    }
  }

  lemma {:induction false} SublistKeepsWellFormed(r: seq<SaleLine>, cart: seq<SaleLine>)
    requires WellFormed(cart) && Seqs.IsSublist(r, cart)
    ensures WellFormed(r)
    decreases |cart|
  {
    if r != [] {
      assert WellFormed(cart[1..]) by {
        forall i | 0 <= i < |cart[1..]| ensures cart[1..][i].quantity >= 1 {
          assert cart[1..][i] == cart[i + 1];
        }
      }
      if r[0] == cart[0] && Seqs.IsSublist(r[1..], cart[1..]) {
        SublistKeepsWellFormed(r[1..], cart[1..]);
        assert forall i :: 1 <= i < |r| ==> r[i] == r[1..][i - 1];
        forall i | 1 <= i < |r| ensures r[i].id != r[0].id {
          SublistMember(r[1..], cart[1..], i - 1);
        }
      } else {
        SublistKeepsWellFormed(r, cart[1..]);
      }
    }
  }

  /** An element of a sublist sits at some position of the list. */
  lemma {:induction false} SublistMember(r: seq<SaleLine>, s: seq<SaleLine>, i: nat)
    requires Seqs.IsSublist(r, s) && i < |r|
    ensures exists j :: 0 <= j < |s| && s[j] == r[i]
    decreases |s|
  {
    if r[0] == s[0] && Seqs.IsSublist(r[1..], s[1..]) {
      if i == 0 {
        assert s[0] == r[0];
      } else {
        SublistMember(r[1..], s[1..], i - 1);
        var j :| 0 <= j < |s[1..]| && s[1..][j] == r[1..][i - 1];
        assert s[j + 1] == r[i];
      }
    } else {
      SublistMember(r, s[1..], i);
      var j :| 0 <= j < |s[1..]| && s[1..][j] == r[i];
      assert s[j + 1] == r[i];
    }
  }

  lemma RemovePreservesWellFormed(cart: seq<SaleLine>, productId: string)
    requires WellFormed(cart)
    ensures WellFormed(RemovedFromCart(cart, productId))
  {
    SublistKeepsWellFormed(RemovedFromCart(cart, productId), cart);
  }

  lemma UpdatePreservesWellFormed(cart: seq<SaleLine>, productId: string, quantity: int)
    requires WellFormed(cart)
    ensures WellFormed(QuantityUpdated(cart, productId, quantity))
  {
    if quantity <= 0 {
      RemovePreservesWellFormed(cart, productId);
    }
  }

  lemma AddPreservesWellFormed(catalog: seq<MockProduct>, cart: seq<SaleLine>, productId: string)
    requires WellFormed(cart)
    ensures WellFormed(AddedToCart(catalog, cart, productId))
  {
  }

  /** `cart.reduce((sum, item) => sum + item.price * item.quantity, 0)`. */
  function Subtotal(cart: seq<SaleLine>): real {
    if cart == [] then 0.0
    else Subtotal(cart[..|cart| - 1]) + cart[|cart| - 1].price * cart[|cart| - 1].quantity as real
  }

  function Tax(cart: seq<SaleLine>): (t: real)
    ensures t == Subtotal(cart) * 0.1
  {
    Subtotal(cart) * 0.1
  }

  function Total(cart: seq<SaleLine>): (t: real)
    ensures t == Subtotal(cart) * 1.1
  {
    Subtotal(cart) + Tax(cart)
  }

  lemma SubtotalAppend(cart: seq<SaleLine>, line: SaleLine)
    ensures Subtotal(cart + [line]) == Subtotal(cart) + line.price * line.quantity as real
  {
    assert (cart + [line])[..|cart|] == cart;
  }

  lemma {:induction false} SubtotalReplace(cart: seq<SaleLine>, k: nat, line: SaleLine)
    requires k < |cart|
    ensures Subtotal(cart[k := line]) ==
      Subtotal(cart) - cart[k].price * cart[k].quantity as real + line.price * line.quantity as real
  {
    var n := |cart| - 1;
    if k < n {
      assert cart[k := line][..n] == cart[..n][k := line];
      SubtotalReplace(cart[..n], k, line);
    } else {
      assert cart[k := line][..n] == cart[..n];
    }
  }

  /** Adding a catalog product raises the subtotal by one unit price. */
  lemma AddRaisesSubtotal(catalog: seq<MockProduct>, cart: seq<SaleLine>, productId: string)
    requires WellFormed(cart) && FindProduct(catalog, productId).Some?
    ensures !InCart(cart, productId) ==>
      Subtotal(AddedToCart(catalog, cart, productId)) == Subtotal(cart) + FindProduct(catalog, productId).value.price
    ensures forall k :: 0 <= k < |cart| && cart[k].id == productId ==>
      Subtotal(AddedToCart(catalog, cart, productId)) == Subtotal(cart) + cart[k].price
  {
    var p := FindProduct(catalog, productId).value;
    if !InCart(cart, productId) {
      assert AddedToCart(catalog, cart, productId) == cart + [SaleLine(p.id, p.name, p.price, 1)];
      SubtotalAppend(cart, SaleLine(p.id, p.name, p.price, 1));
    }
    forall k | 0 <= k < |cart| && cart[k].id == productId
      ensures Subtotal(AddedToCart(catalog, cart, productId)) == Subtotal(cart) + cart[k].price
    {
      AddExistingIncrements(catalog, cart, productId, k);
      BumpRaisesSubtotal(cart, k);
    }
  }

  lemma BumpRaisesSubtotal(cart: seq<SaleLine>, k: nat)
    requires k < |cart|
    ensures Subtotal(cart[k := cart[k].(quantity := cart[k].quantity + 1)]) == Subtotal(cart) + cart[k].price
  {
    var line := cart[k];
    SubtotalReplace(cart, k, line.(quantity := line.quantity + 1));
    calc {
      line.price * (line.quantity + 1) as real;
      line.price * (line.quantity as real + 1.0);
      line.price * line.quantity as real + line.price;
    }
  }

  /** What checkout does with the current cart, the payment text and its parsed value. */
  datatype Outcome = Ignored | Insufficient | Completed(transaction: Transaction)

  function CheckoutOutcome(cart: seq<SaleLine>, paymentText: string, payment: real, now: int): (r: Outcome)
    ensures r.Ignored? <==> cart == [] || paymentText == ""
    ensures r.Insufficient? <==> cart != [] && paymentText != "" && payment < Total(cart)
    ensures r.Completed? ==>
      && r.transaction.items == cart
      && r.transaction.subtotal == Subtotal(cart)
      && r.transaction.tax == Tax(cart)
      && r.transaction.total == Subtotal(cart) + Tax(cart)
      && r.transaction.payment == payment
      && r.transaction.change == payment - r.transaction.total
      && r.transaction.change >= 0.0
      && r.transaction.timestamp == now
  {
    if |cart| == 0 || paymentText == "" then Ignored
    else if payment < Total(cart) then Insufficient
    else Completed(Transaction(cart, Subtotal(cart), Tax(cart), Total(cart), payment, payment - Total(cart), now))
  }

  class Cashier {
    var cart: seq<SaleLine>
    var paymentAmount: string
    const catalog: seq<MockProduct>
    const transactions: TransactionStore

    ghost predicate Valid()
      reads this, transactions
    {
      WellFormed(cart) && transactions.Valid()
    }

    constructor (products: seq<MockProduct>, store: TransactionStore)
      requires store.Valid()
      ensures Valid()
      ensures cart == [] && paymentAmount == "" && catalog == products && transactions == store
    {
      cart, paymentAmount := [], "";
      catalog, transactions := products, store;
    }

    method SetPaymentAmount(text: string)
      modifies this
      ensures paymentAmount == text && cart == old(cart)
    {
      paymentAmount := text;
    }

    method AddToCart(productId: string)
      requires Valid()
      modifies this
      ensures Valid()
      ensures cart == AddedToCart(catalog, old(cart), productId) && paymentAmount == old(paymentAmount)
    {
      AddPreservesWellFormed(catalog, cart, productId);
      cart := AddedToCart(catalog, cart, productId);
    }

    method RemoveFromCart(productId: string)
      requires Valid()
      modifies this
      ensures Valid()
      ensures cart == RemovedFromCart(old(cart), productId) && paymentAmount == old(paymentAmount)
    {
      RemovePreservesWellFormed(cart, productId);
      cart := RemovedFromCart(cart, productId);
    }

    method UpdateQuantity(productId: string, quantity: int)
      requires Valid()
      modifies this
      ensures Valid()
      ensures cart == QuantityUpdated(old(cart), productId, quantity) && paymentAmount == old(paymentAmount)
    {
      if quantity <= 0 {
        RemoveFromCart(productId);
        return;
      }
      cart := WithQuantity(cart, productId, quantity);
    }

    /**
     * `handleCheckout`; `payment` is what `parseFloat` reads from the
     * payment text and `now` the clock reading.
     */
    method HandleCheckout(payment: real, now: int) returns (outcome: Outcome)
      requires Valid()
      modifies this, transactions
      ensures Valid()
      ensures outcome == CheckoutOutcome(old(cart), old(paymentAmount), payment, now)
      ensures outcome.Completed? ==>
        && transactions.transactions == Appended(old(transactions.transactions), outcome.transaction)
        && cart == [] && paymentAmount == ""
      ensures !outcome.Completed? ==>
        && transactions.transactions == old(transactions.transactions)
        && transactions.saved == old(transactions.saved)
        && cart == old(cart) && paymentAmount == old(paymentAmount)
      ensures !transactions.storageWritable ==> transactions.saved == old(transactions.saved)
    {
      outcome := CheckoutOutcome(cart, paymentAmount, payment, now);
      if |cart| == 0 || paymentAmount == "" {
        return;
      }
      if payment < Total(cart) {
        return;
      }
      transactions.AddTransaction(outcome.transaction);
      cart := [];
      paymentAmount := "";
    }
  }
}
