/**
 * The inventory page: the stock balance rows joined with their product,
 * filtered by the search box, with a low-stock count, the total inventory
 * value and a per-row status.
 */
module InventoryPage {
  import opened Wrappers
  import opened Types
  import Seqs
  import Text
  import CreateOrderRoute

  /** Rows below this quantity count as low stock. */
  const LowStockBelow := 50

  datatype ProductInfo = ProductInfo(sku: string, name: string, selling_price: real)

  /** A `stock_balances` row with its joined product, which may be missing. */
  datatype StockRow = StockRow(id: string, product_id: string, warehouse_id: string, qty: int, product: Option<ProductInfo>)

  /** The search condition: a joined product whose name or SKU contains the search text. */
  predicate Shown(row: StockRow, search: string) {
    row.product.Some? && Text.Matches(row.product.value.name, row.product.value.sku, search)
  }

  function FilteredStocks(stocks: seq<StockRow>, search: string): (r: seq<StockRow>)
    ensures forall i :: 0 <= i < |r| ==> r[i] in stocks && r[i].product.Some?
    ensures forall i :: 0 <= i < |r| ==> Text.Matches(r[i].product.value.name, r[i].product.value.sku, search)
    ensures forall i :: 0 <= i < |stocks| && Shown(stocks[i], search) ==> stocks[i] in r
    ensures Seqs.IsSublist(r, stocks)
  {
    Seqs.Filter(stocks, (row: StockRow) => Shown(row, search))
  }

  /** With an empty search the table lists exactly the rows that have a product. */
  lemma EmptySearchKeepsJoinedRows(stocks: seq<StockRow>)
    ensures FilteredStocks(stocks, "") == Seqs.Filter(stocks, (row: StockRow) => row.product.Some?)
  {
    forall i | 0 <= i < |stocks| ensures Shown(stocks[i], "") == stocks[i].product.Some? {
      if stocks[i].product.Some? {
        Text.EmptyQueryMatches(stocks[i].product.value.name, stocks[i].product.value.sku);
      }
    }
    Seqs.FilterCongruent(stocks, (row: StockRow) => Shown(row, ""), (row: StockRow) => row.product.Some?);
  }

  /** `stocks.filter(s => s.qty < 50).length`, over all rows whatever the search. */
  function LowStockCount(stocks: seq<StockRow>): (n: nat)
    ensures n <= |stocks|
  {
    |Seqs.Filter(stocks, (row: StockRow) => row.qty < LowStockBelow)|
  }

  /** The number of low rows, counted from the end. */
  function CountLow(stocks: seq<StockRow>): nat {
    if stocks == [] then 0
    else CountLow(stocks[..|stocks| - 1]) + (if stocks[|stocks| - 1].qty < LowStockBelow then 1 else 0)
  }

  lemma {:induction false} CountLowCons(stocks: seq<StockRow>)
    requires stocks != []
    ensures CountLow(stocks) == (if stocks[0].qty < LowStockBelow then 1 else 0) + CountLow(stocks[1..])
  {
    var n := |stocks| - 1;
    if n > 0 {
      CountLowCons(stocks[..n]);
      assert stocks[..n][1..] == stocks[1..][..n - 1];
    } else {
      assert stocks[1..] == [];
    }
  }

  /** The card's count agrees with counting the low rows one by one. */
  lemma {:induction false} LowStockCountIsCount(stocks: seq<StockRow>)
    ensures LowStockCount(stocks) == CountLow(stocks)
  {
    if stocks != [] {
      LowStockCountIsCount(stocks[1..]);
      CountLowCons(stocks);
    }
  }

  /** The value column: `qty × selling_price`, with a missing product priced at 0. */
  function RowValue(row: StockRow): (v: real)
    ensures row.product.None? ==> v == 0.0
    ensures row.qty == 0 ==> v == 0.0
  {
    row.qty as real * (if row.product.Some? then row.product.value.selling_price else 0.0)
  }

  /** `stocks.reduce((sum, s) => sum + s.qty * (s.product?.selling_price || 0), 0)`. */
  function TotalValue(stocks: seq<StockRow>): real {
    if stocks == [] then 0.0 else TotalValue(stocks[..|stocks| - 1]) + RowValue(stocks[|stocks| - 1])
  }

  /** The total over two blocks of rows is the sum of their totals. */
  lemma {:induction false} TotalValueConcat(a: seq<StockRow>, b: seq<StockRow>)
    ensures TotalValue(a + b) == TotalValue(a) + TotalValue(b)
    decreases |b|
  {
    if b == [] {
      assert a + b == a;
    } else {
      var n := |b| - 1;
      assert (a + b)[..|a + b| - 1] == a + b[..n];
      TotalValueConcat(a, b[..n]);
    }
  }

  /** Rows without a product add nothing to the total. */
  lemma {:induction false} UnjoinedRowsAddNothing(stocks: seq<StockRow>)
    requires forall i :: 0 <= i < |stocks| ==> stocks[i].product.None?
    ensures TotalValue(stocks) == 0.0
  {
    if stocks != [] {
      UnjoinedRowsAddNothing(stocks[..|stocks| - 1]);
    }
  }

  datatype Status = OutOfStock | LowStock | InStock

  /** The status badge. */
  function StatusOf(qty: int): (s: Status)
    ensures s == OutOfStock <==> qty == 0
    ensures s == LowStock <==> qty != 0 && qty < LowStockBelow
    ensures s == InStock <==> qty >= LowStockBelow
  {
    if qty == 0 then OutOfStock else if qty < LowStockBelow then LowStock else InStock
  }

  /** A row is counted on the low-stock card exactly when its badge is not "In Stock". */
  lemma CountedLowIffNotInStock(row: StockRow)
    ensures row.qty < LowStockBelow <==> StatusOf(row.qty) != InStock
  {
  }

  /**
   * A sale that sells more of a product than its balance row holds in the
   * order's warehouse leaves that row negative, and the page shows it as
   * "Low Stock", not "Out of Stock".
   */
  lemma OversoldRowShownLow(balances: map<Key, int>, warehouse: string, items: seq<CartItem>, k: Key)
    requires k in balances && k.warehouse_id == warehouse
    requires CreateOrderRoute.SoldQty(items, k.product_id) > balances[k]
    ensures StatusOf(CreateOrderRoute.SaleBalances(balances, warehouse, items)[k]) == LowStock
  {
  }
}
