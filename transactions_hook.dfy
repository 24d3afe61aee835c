/**
 * useTransactions: the browser-local, append-only list of completed demo
 * sales, also written to local storage (a failed write is only logged).
 */
module TransactionsHook {

  /** A sold line: `{ id, name, price, quantity }`. */
  datatype SaleLine = SaleLine(id: string, name: string, price: real, quantity: int)

  /** A completed sale; `timestamp` is the clock reading at checkout. */
  datatype Transaction = Transaction(
    items: seq<SaleLine>,
    subtotal: real,
    tax: real,
    total: real,
    payment: real,
    change: real,
    timestamp: int)

  /** `[...prev, transaction]`. */
  function Appended(ts: seq<Transaction>, t: Transaction): (r: seq<Transaction>)
    ensures |r| == |ts| + 1
    ensures r[|ts|] == t
    ensures r[..|ts|] == ts
  {
    ts + [t]
  }

  class TransactionStore {
    var transactions: seq<Transaction>
    var saved: seq<Transaction>
    /** Whether `localStorage.setItem` succeeds in this browser. */
    const storageWritable: bool

    ghost predicate Valid()
      reads this
    {
      storageWritable ==> saved == transactions
    }

    constructor (initial: seq<Transaction>, writable: bool)
      ensures Valid()
      ensures transactions == initial && saved == initial && storageWritable == writable
    {
      transactions, saved, storageWritable := initial, initial, writable;
    }

    method AddTransaction(t: Transaction)
      requires Valid()
      modifies this
      ensures Valid()
      ensures transactions == Appended(old(transactions), t)
      ensures !storageWritable ==> saved == old(saved)
    {
      var updated := Appended(transactions, t);
      if storageWritable {
        saved := updated;
      }
      transactions := updated;
    }
  }
}
