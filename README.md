# POS / WMS ledger and cart model

A Dafny model of the behavioural core of a point-of-sale and warehouse
management web application. It has two halves.

- **Server side.** There are two HTTP routes over the database tables.
  - `POST /api/inventory/stock-in` records an `IN` movement, then updates or inserts the stock balance row.
  - `POST /api/pos/create-order` inserts a sales order and its item rows. Then, for each cart line, it logs an `OUT` movement and decrements the line's balance row, if there is one. There is no floor and no rollback.
- **Browser side.**
  - The `useInventory` hook: `addStock`, and the `adjustStock` floored at 0.
  - The `useTransactions` hook: `addTransaction`.
  - The warehouse screens that drive these hooks: stock-in, stock adjustment and stock summary.
  - The POS page and its cart panel. The cart panel shows `items.length × Σ total_price` as its subtotal.
  - The demo cashier with checkout, the transaction history, and the product search box.
  - The read-side filters and totals of the inventory, products and movements pages.

Each source file is one module in one `.dfy` file. Five shared modules sit beside them:

- `Wrappers`: `Option`.
- `Types`: the records of `lib/types/index.ts`.
- `Seqs`: `filter` and index removal.
- `Text`: ASCII lower-casing, `includes`, and decimal rendering.
- `Tables`: the database tables both routes write, and the ledger relation between movements and balances.

State that the source changes in place is a `class`:

- the database tables (`Tables.Database`);
- the hook stores (`InventoryHook.InventoryStore`, `TransactionsHook.TransactionStore`);
- each screen's React state (`WmsStockIn.StockInScreen`, `WmsStockAdjustment.StockAdjustmentScreen`, `PosPage.PosPageState`, `PosCashier.Cashier`, `PosProductSearch.ProductSearchBox`).

The class methods are proved against pure functions of the old state, and the properties are lemmas about those functions.

Conventions:

- Money is `real`, so the 10 % tax is exact.
- Quantities are `int`.
- Database ids are `nat`, drawn in insertion order from a counter on the `Database` object.
- A missing string field is `""` and a missing quantity is `0`: both are falsy, like the absent value in the source.
- Local storage is a `saved` copy of the state. A `storageWritable` flag says whether writes succeed; when they fail, the in-memory update still happens.
- Values the source reads from the outside world are parameters of the methods that use them. These are the clock, `parseFloat`/`parseInt` results, fetched product lists, and the `response.ok` of a fetch.

The ledger relation `Tables.Consistent(movements, balances)` says that every balance equals the net quantity its key's movements record, with 0 where there is no row. IN counts `+qty` and OUT counts `−qty`. A stock-in always preserves it. A sale preserves it when every sold key already has a row. A sale that sells a non-zero net quantity of a key of its warehouse that has no row breaks it.

## Model

| member | source | states |
|---|---|---|
| Tables.Delta | app/api/inventory/stock-in/route.ts:21-22 | an IN movement counts its quantity up, an OUT movement counts it down |
| Tables.NetQtyAppend | app/api/inventory/stock-in/route.ts:15-26 | appending a movement changes the net quantity of its own key by its signed quantity and of no other key |
| StockInRoute.Accepts | app/api/inventory/stock-in/route.ts:8 | the guard passes: product and warehouse non-empty and qty non-zero; `Post` answers 400 exactly when it fails |
| StockInRoute.InMovement | app/api/inventory/stock-in/route.ts:15-26 | the inserted row is an IN movement for the request's product and warehouse with its qty and description and no reference |
| StockInRoute.Upserted | app/api/inventory/stock-in/route.ts:31-51 | an existing row for the key gains qty, a missing one is created holding qty, every other row is unchanged, no row disappears |
| StockInRoute.Post | app/api/inventory/stock-in/route.ts:8-53 | 400 exactly when product, warehouse or a non-zero qty is missing, with no table changed; otherwise one movement appended and returned, the balance upserted, nothing else written |
| StockInRoute.NegativeQuantityLowersBalance | app/api/inventory/stock-in/route.ts:8-42 | a negative qty passes validation and lowers the key's balance |
| StockInRoute.StockInKeepsLedgerConsistent | app/api/inventory/stock-in/route.ts:15-51 | if balances matched the movement log before, they match it after a stock-in |
| CreateOrderRoute.Accepts | app/api/pos/create-order/route.ts:20 | the guard passes: cashier and warehouse non-empty and at least one item; `Post` answers 400 exactly when it fails |
| CreateOrderRoute.OrderRow | app/api/pos/create-order/route.ts:27-43 | the order row carries the new id and the request's cashier and warehouse |
| CreateOrderRoute.OrderAmountsIgnoreItems | app/api/pos/create-order/route.ts:6-43 | subtotal, tax, total and change are stored as sent and do not depend on the items |
| CreateOrderRoute.ItemRows | app/api/pos/create-order/route.ts:48-56 | one item row per cart line, in line order, with the order id and the line's product, qty, unit and total price |
| CreateOrderRoute.SaleDescription | app/api/pos/create-order/route.ts:69 | the text `Sale order ${order.id}`, with the id in decimal |
| CreateOrderRoute.SaleMovement | app/api/pos/create-order/route.ts:62-71 | the OUT movement inserted for one line: its product, the order's warehouse, its qty, the order id as reference and the sale description |
| CreateOrderRoute.SaleMovementsAt | app/api/pos/create-order/route.ts:61-71 | movement i is an OUT movement for line i's product in the order's warehouse, with line i's qty, the order id as reference and the description "Sale order <id>" |
| CreateOrderRoute.SaleMovements | app/api/pos/create-order/route.ts:61-71 | one OUT movement per line, in line order; its length is the number of lines and `SaleMovementsAt` gives each one |
| CreateOrderRoute.SoldQty | app/api/pos/create-order/route.ts:61-86 | the total qty the lines sell of one product, the amount `SaleBalances` takes off that product's row |
| CreateOrderRoute.NetQtyOfSale | app/api/pos/create-order/route.ts:61-71 | the logged OUT movements lower the net quantity of every key of the order's warehouse by exactly what the lines sell of its product, for every log and every line list |
| CreateOrderRoute.Decremented | app/api/pos/create-order/route.ts:74-86 | one iteration's balance update: the key's row loses qty when it exists, and no row is created otherwise |
| CreateOrderRoute.SaleBalances | app/api/pos/create-order/route.ts:61-87 | no balance row is created or removed; a row of the order's warehouse loses the total qty all lines sell of its product; other rows are unchanged |
| CreateOrderRoute.Post | app/api/pos/create-order/route.ts:20-89 | 400 exactly when cashier, warehouse or items are missing or the items are empty, with nothing written; otherwise the order, its item rows, one movement per line and the decremented balances, and the order is returned |
| CreateOrderRoute.RecordSaleLines | app/api/pos/create-order/route.ts:61-87 | the loop appends the lines' OUT movements in order with consecutive ids and leaves the balances as `SaleBalances` describes |
| CreateOrderRoute.RecordSaleLine | app/api/pos/create-order/route.ts:62-86 | one iteration: one movement appended, then the row for the line's key decremented if it exists |
| CreateOrderRoute.SaleStep | app/api/pos/create-order/route.ts:61-87 | one more line extends the sale's movements by that line's movement and its balance effect by one decrement |
| CreateOrderRoute.SaleDrivesBalanceNegative | app/api/pos/create-order/route.ts:84 | a row holding 2 that sells 5 is left at −3: no floor |
| CreateOrderRoute.SaleWithRowsKeepsLedgerConsistent | app/api/pos/create-order/route.ts:61-87 | a sale whose every line's key has a balance row preserves ledger consistency |
| CreateOrderRoute.MissingRowBreaksLedger | app/api/pos/create-order/route.ts:61-86 | for every consistent log and balance map, a sale selling a non-zero net quantity of a key of its warehouse that has no row leaves the log and the balances inconsistent |
| InventoryHook.StockOf | lib/hooks/use-inventory.tsx:37 | the stored value read with a fallback of 0, 0 when the product has no entry |
| InventoryHook.Added | lib/hooks/use-inventory.tsx:35-38 | the product's entry becomes its old value (0 if absent) plus the quantity and is present afterwards; every other entry is unchanged |
| InventoryHook.Adjusted | lib/hooks/use-inventory.tsx:50-53 | the product's entry becomes max(0, old value or 0 plus the adjustment) and is present and non-negative; every other entry is unchanged |
| InventoryHook.AdjustMatchesAddWhenNonNegative | lib/hooks/use-inventory.tsx:37-52 | from a non-negative value, a non-negative adjustment is the same as `addStock` |
| InventoryHook.AdjustDiffersFromAddBelowZero | lib/hooks/use-inventory.tsx:37-52 | when the sum would be negative, `adjustStock` gives 0 where `addStock` would not |
| InventoryHook.InventoryStore.Save | lib/hooks/use-inventory.tsx:39-43 | the `localStorage` write: the saved copy becomes the new map when storage is writable and stays as it was otherwise; the in-memory map is untouched |
| InventoryHook.InventoryStore.AddStock | lib/hooks/use-inventory.tsx:33-46 | the in-memory map becomes `Added` of the old one; storage receives it when writable and is left stale otherwise |
| InventoryHook.InventoryStore.AdjustStock | lib/hooks/use-inventory.tsx:48-61 | the in-memory map becomes `Adjusted` of the old one; storage receives it when writable and is left stale otherwise |
| TransactionsHook.Appended | lib/hooks/use-transactions.tsx:45 | the list grows by one, the new transaction is last, and the earlier ones are kept in order |
| TransactionsHook.TransactionStore.AddTransaction | lib/hooks/use-transactions.tsx:43-53 | the in-memory list becomes `Appended` of the old one even when the storage write fails |
| WmsStockIn.StockInScreen.AddItem | components/wms/stock-in.tsx:22-24 | appends a line for the product with quantity 1 and the current reference number, duplicates allowed |
| WmsStockIn.StockInScreen.SetReferenceNo | components/wms/stock-in.tsx:68 | the reference number becomes the typed value and the lines are unchanged |
| WmsStockIn.StockInScreen.UpdateQuantity | components/wms/stock-in.tsx:26-32 | the lines become `QuantityUpdated` of the old lines, and the reference number is kept |
| WmsStockIn.StockInScreen.OnQuantityInput | components/wms/stock-in.tsx:134 | the quantity field routes `TypedQuantity` of the parsed input through `updateQuantity` |
| WmsStockIn.QuantityUpdated | components/wms/stock-in.tsx:26-32 | a quantity ≤ 0 removes line i; otherwise only line i's quantity changes, the length and all other lines are kept |
| WmsStockIn.TypedQuantity | components/wms/stock-in.tsx:134 | a typed value that parses to nothing or to 0 becomes 1; any other parsed value is kept |
| WmsStockIn.TypedZeroKeepsLine | components/wms/stock-in.tsx:134 | typing 0 or text that is not a number keeps the line, with quantity 1 |
| WmsStockIn.StockInScreen.RemoveItem | components/wms/stock-in.tsx:34-36 | deletes exactly position i and keeps the rest in order |
| Seqs.Filter | app/products/page.tsx:48-52 | `Array.prototype.filter`: a sublist of the input, in order, holding only kept elements and every kept element |
| Seqs.FilterMultiset | app/products/page.tsx:48-52 | each kept value occurs in the result exactly as often as in the input, and a rejected value not at all |
| Seqs.RemoveIndex | components/wms/stock-in.tsx:34-36 | drops position i and shifts the later lines down by one; an index outside the list changes nothing |
| WmsStockIn.TotalUnits | components/wms/stock-in.tsx:53 | the sum of the lines' quantities |
| WmsStockIn.Received | components/wms/stock-in.tsx:44-46 | one `addStock` per line in list order; `ReceivedSpec` states the result |
| WmsStockIn.ReceivedSpec | components/wms/stock-in.tsx:44-46 | after the loop, each product grows by the sum of its lines' quantities, and no other entry changes or appears |
| WmsStockIn.StockInScreen.HandleSubmit | components/wms/stock-in.tsx:38-51 | with an empty reference or no lines nothing changes; otherwise `addStock` runs once per line in order, and the list and the reference number are cleared |
| WmsStockAdjustment.DefaultItem | components/wms/stock-adjustment.tsx:21-31 | the new line is the first catalog product, reason "Inventory Count", quantity 1, type subtract |
| WmsStockAdjustment.WithField | components/wms/stock-adjustment.tsx:34 | `{ ...item, [field]: value }`: exactly the named field takes the new value |
| WmsStockAdjustment.ItemUpdated | components/wms/stock-adjustment.tsx:33-35 | only the named field of line i changes; the length and all other lines are kept |
| WmsStockAdjustment.StockAdjustmentScreen.RemoveItem | components/wms/stock-adjustment.tsx:37-39 | deletes exactly position i |
| WmsStockAdjustment.StockAdjustmentScreen.AddItem | components/wms/stock-adjustment.tsx:21-31 | appends `DefaultItem` of the catalog to the lines |
| WmsStockAdjustment.StockAdjustmentScreen.UpdateItem | components/wms/stock-adjustment.tsx:33-35 | the lines become `ItemUpdated` of the old lines |
| WmsStockAdjustment.StockAdjustmentScreen.OnQuantityInput | components/wms/stock-adjustment.tsx:106 | the quantity field stores `ClampedQuantity` of the parsed input on line `index` |
| WmsStockAdjustment.SignedAdjustment | components/wms/stock-adjustment.tsx:48 | +quantity for add, −quantity for subtract |
| WmsStockAdjustment.ClampedQuantity | components/wms/stock-adjustment.tsx:106 | the stored quantity is at least 1: the parsed value when it is ≥ 1, else 1 |
| WmsStockAdjustment.Applied | components/wms/stock-adjustment.tsx:47-50 | one floored `adjustStock` per line in list order; `AppliedSpec` states the result |
| WmsStockAdjustment.AppliedSpec | components/wms/stock-adjustment.tsx:47-50 | after the loop, every product a line names is non-negative, and no other entry changes or appears |
| WmsStockAdjustment.AppliedStep | components/wms/stock-adjustment.tsx:47-50 | applying one more line is one more floored `adjustStock` call on the result so far |
| WmsStockAdjustment.SubtractThenAddLeavesAmount | components/wms/stock-adjustment.tsx:47-50 | from 0, subtract a then add a leaves a (the subtraction is floored) |
| WmsStockAdjustment.AddThenSubtractCancels | components/wms/stock-adjustment.tsx:47-50 | from 0, add a then subtract a leaves 0, so the order of lines matters |
| WmsStockAdjustment.StockAdjustmentScreen.HandleSubmit | components/wms/stock-adjustment.tsx:41-54 | with no lines nothing changes; otherwise each line's signed adjustment is applied in list order and the list is emptied |
| WmsStockSummary.TotalStock | components/wms/stock-summary.tsx:10 | the sum of every entry of the inventory map, catalog product or not |
| WmsStockSummary.TotalStockAdded | components/wms/stock-summary.tsx:10 | `addStock` raises the sum of all inventory values by exactly the quantity added |
| WmsStockSummary.ReceivedRaisesTotal | components/wms/stock-summary.tsx:10 | a submitted stock-in list raises the total-items card by the list's total units |
| WmsStockSummary.CardStock | components/wms/stock-summary.tsx:11 | the card reads the inventory value, falling back to the catalog stock when the value is 0 or absent |
| WmsStockSummary.LowStockProducts | components/wms/stock-summary.tsx:11 | exactly the catalog products whose card value is below 10, in catalog order |
| WmsStockSummary.CurrentStock | components/wms/stock-summary.tsx:53 | the row reads the inventory value, falling back to the catalog stock only when the key is absent |
| WmsStockSummary.IsLowStock | components/wms/stock-summary.tsx:53-54 | a row is "Low Stock" exactly when its `??` stock is below 10 |
| WmsStockSummary.ZeroEntryShownLowButNotCounted | components/wms/stock-summary.tsx:11-54 | a product whose entry is 0 and whose catalog stock is ≥ 10 has a "Low Stock" row but is not in the low-stock count |
| WmsStockSummary.SummaryCards | components/wms/stock-summary.tsx:10-32 | the total-units card is the inventory total, the SKU card the catalog size, and the low-stock card the length of `LowStockProducts`, which is at most the SKU count |
| PosPage.IndexOf | app/pos/page.tsx:22 | finds the first line for the product, or reports that no line has it |
| PosPage.NewLine | app/pos/page.tsx:28-35 | a new line holds 1 unit with unit and total price equal to the selling price |
| PosPage.Repriced | app/pos/page.tsx:46-55 | `{...item, qty, total_price: item.unit_price * qty}`: the line at the new quantity, priced, with its product and unit price kept |
| PosPage.ProductAdded | app/pos/page.tsx:21-38 | a product already in the cart has its quantity raised by 1 through the quantity update; a new one is appended as `NewLine` |
| PosPage.QtyUpdated | app/pos/page.tsx:40-57 | a quantity ≤ 0 removes the product's lines; otherwise those lines take the quantity and `total_price = unit_price × qty`, and the others are unchanged |
| PosPage.ItemRemoved | app/pos/page.tsx:59-61 | exactly the lines of that product are dropped, the others kept in order |
| PosPage.AddPreservesWellFormed | app/pos/page.tsx:22-36 | adding keeps product ids unique, every line priced and at least 1 unit |
| PosPage.UpdatePreservesWellFormed | app/pos/page.tsx:40-57 | updating keeps product ids unique, every line priced and at least 1 unit |
| PosPage.RemovePreservesWellFormed | app/pos/page.tsx:59-61 | removing keeps product ids unique, every line priced and at least 1 unit |
| PosPage.Subtotal | app/pos/page.tsx:17 | the sum of the lines' `total_price`, in cart order; `SubtotalAppend` and `AddRaisesSubtotal` state how it moves |
| PosPage.Tax | app/pos/page.tsx:18 | 10 % of the subtotal |
| PosPage.Total | app/pos/page.tsx:17-19 | total is 110 % of the line sum |
| PosPage.AddRaisesSubtotal | app/pos/page.tsx:17-38 | adding a product raises the subtotal by one unit price: the selling price for a new line, that line's unit price for an existing one |
| PosPage.UpdateOneLine | app/pos/page.tsx:46-55 | with unique ids, a positive quantity update changes exactly one position |
| PosPage.PaymentRequest | app/pos/page.tsx:63-78 | the posted body: cashier "current-user-id", warehouse "default-warehouse", the cart as items, the page's subtotal, its tax (10 % of the subtotal) and its total, no discount, the chosen method and amount, and change = amount − total; the route accepts it exactly when the cart is non-empty |
| PosPage.PaidOrderStoresPageTotals | app/pos/page.tsx:63-78 | a non-empty cart's payment passes the route's guard, and the order row stored for it carries the page's subtotal, 10 % tax, 110 % total, zero discount, the method and amount − total as change |
| PosPage.PosPageState.HandleAddProduct | app/pos/page.tsx:21-38 | the cart becomes `ProductAdded` of the old cart, and the cart stays well formed |
| PosPage.PosPageState.HandleUpdateQty | app/pos/page.tsx:40-57 | the cart becomes `QtyUpdated` of the old cart, and the cart stays well formed |
| PosPage.PosPageState.HandleRemoveItem | app/pos/page.tsx:59-61 | the cart becomes `ItemRemoved` of the old cart, and the cart stays well formed |
| PosPage.PosPageState.PaymentCompleted | app/pos/page.tsx:82-87 | a successful order response empties the cart; a failed one keeps it |
| PosCart.RepeatedSum | components/pos/cart.tsx:13 | the outer `reduce`, which ignores its element and adds the inner sum once per line |
| PosCart.DisplayedSubtotal | components/pos/cart.tsx:13 | the subtotal as the panel computes it; `DisplayedIsCountTimesSum` proves it is the line count times the true sum |
| PosCart.DisplayedTax | components/pos/cart.tsx:14 | 10 % of the displayed subtotal |
| PosCart.DisplayedIsCountTimesSum | components/pos/cart.tsx:13 | the displayed subtotal is the number of lines times the line sum |
| PosCart.EmptyCartShowsZero | components/pos/cart.tsx:13-15 | an empty cart shows subtotal and total 0 |
| PosCart.SingleLineShowsItsTotal | components/pos/cart.tsx:13 | a one-line cart shows that line's total price, which is also the page's subtotal |
| PosCart.SeveralLinesOverstate | components/pos/cart.tsx:13-15 | with two or more lines and a positive line sum, the panel's subtotal and total exceed the page's |
| PosCart.TwoLinesExample | components/pos/cart.tsx:13 | two lines of 10 each: the page charges 20 and the panel shows 40 |
| PosCart.DisplayedTotal | components/pos/cart.tsx:14-15 | total = subtotal + subtotal × 0.1 |
| PosCart.CorrectedSubtotal | components/pos/cart.tsx:13 | the inner reduce alone equals the page's subtotal, and is below the displayed one once there are two or more lines with a positive sum |
| PosCart.MinusOnLastUnitRemoves | components/pos/cart.tsx:34 | the minus button on a one-unit line removes that product from the cart |
| PosCashier.FindProduct | components/pos/cashier.tsx:24 | finds a catalog product with that id, or reports that none has it |
| PosCashier.AddedToCart | components/pos/cashier.tsx:23-42 | an id outside the catalog leaves the cart unchanged; a new id is appended with quantity 1 and the catalog name and price |
| PosCashier.AddExistingIncrements | components/pos/cashier.tsx:28-30 | an id already in the cart gains exactly one unit on its line, and the length and all other lines are kept |
| PosCashier.RemovedFromCart | components/pos/cashier.tsx:44-46 | no line of the product is left, and the others are kept in order |
| PosCashier.WithQuantity | components/pos/cashier.tsx:54 | the map that sets the quantity: same length, the id's lines take the new quantity, every other line is unchanged |
| PosCashier.QuantityUpdated | components/pos/cashier.tsx:48-57 | a quantity ≤ 0 is `removeFromCart`; otherwise only the product's line takes the quantity, and an absent product leaves the cart unchanged |
| PosCashier.AddPreservesWellFormed | components/pos/cashier.tsx:27-41 | adding keeps ids unique and every quantity ≥ 1 |
| PosCashier.UpdatePreservesWellFormed | components/pos/cashier.tsx:48-57 | updating keeps ids unique and every quantity ≥ 1 |
| PosCashier.RemovePreservesWellFormed | components/pos/cashier.tsx:44-46 | removing keeps ids unique and every quantity ≥ 1 |
| PosCashier.Subtotal | components/pos/cashier.tsx:59 | the sum of price × quantity over the cart lines; `SubtotalAppend` and `AddRaisesSubtotal` state how it moves |
| PosCashier.Tax | components/pos/cashier.tsx:60 | 10 % of the subtotal |
| PosCashier.Total | components/pos/cashier.tsx:59-61 | total is 110 % of Σ price × quantity |
| PosCashier.AddRaisesSubtotal | components/pos/cashier.tsx:23-42 | adding a catalog product raises the subtotal by one unit price |
| PosCashier.CheckoutOutcome | components/pos/cashier.tsx:63-80 | nothing happens for an empty cart or empty payment text; a payment below the total is refused; otherwise one transaction with the cart, its totals, the payment, the clock reading and change = payment − total ≥ 0 |
| PosCashier.Cashier.HandleCheckout | components/pos/cashier.tsx:63-86 | a completed checkout appends exactly that transaction and clears the cart and the payment text; otherwise nothing changes, the saved copy included; when storage is not writable the saved copy is never touched |
| PosCashier.Cashier.AddToCart | components/pos/cashier.tsx:23-42 | the cart becomes `AddedToCart` of the old cart and stays well formed |
| PosCashier.Cashier.RemoveFromCart | components/pos/cashier.tsx:44-46 | the cart becomes `RemovedFromCart` of the old cart, the payment text is kept, and the cart stays well formed |
| PosCashier.Cashier.SetPaymentAmount | components/pos/cashier.tsx:181 | the payment text becomes the typed value and the cart is unchanged |
| PosCashier.Cashier.UpdateQuantity | components/pos/cashier.tsx:48-57 | the cart becomes `QuantityUpdated` of the old cart and stays well formed |
| PosTransactionList.Revenue | components/pos/transaction-list.tsx:9 | the sum of the recorded totals, in list order |
| PosTransactionList.RevenueAppend | components/pos/transaction-list.tsx:9 | appending a transaction raises the revenue by its total |
| PosTransactionList.CheckoutRaisesRevenue | components/pos/transaction-list.tsx:9 | a completed cashier checkout raises the revenue by the cart's total |
| PosTransactionList.RevenueNonNegative | components/pos/transaction-list.tsx:9 | totals that are all non-negative give a non-negative revenue |
| PosTransactionList.Average | components/pos/transaction-list.tsx:32 | 0 with no transactions, otherwise the value that times the count gives the revenue |
| PosTransactionList.Reversed | components/pos/transaction-list.tsx:48 | `[...transactions].reverse()`: same length, and `ReversedAt` gives each position |
| PosTransactionList.ReversedAt | components/pos/transaction-list.tsx:48 | display position idx holds the transaction at position n − 1 − idx |
| PosTransactionList.Displayed | components/pos/transaction-list.tsx:48-52 | one row per transaction, row idx numbered n − idx |
| PosTransactionList.LabelIsOriginalPosition | components/pos/transaction-list.tsx:48-52 | the number on a row is the 1-based position of its transaction in the stored list |
| PosTransactionList.NewestFirst | components/pos/transaction-list.tsx:48-52 | the first row shows the last transaction, numbered n |
| PosTransactionList.LineAmount | components/pos/transaction-list.tsx:64 | the amount shown beside a sold line, price × quantity |
| PosTransactionList.LineAmountsAddUpToSubtotal | components/pos/transaction-list.tsx:64 | the price × quantity amounts shown on the lines add up to the cashier's subtotal |
| PosTransactionList.CheckoutRowAddsUp | components/pos/transaction-list.tsx:59-71 | for a recorded checkout, the line amounts shown add up to the shown subtotal, and subtotal plus tax is the total |
| PosProductSearch.Suggestions | components/pos/product-search.tsx:36-48 | an empty value gives none; otherwise the first min(8, matches) of the products whose lowercased name or SKU contains the lowercased value, in catalog order (the products page's filter) |
| PosProductSearch.SuggestionsMatch | components/pos/product-search.tsx:38-43 | every suggestion is a loaded product that matches the value |
| PosProductSearch.SuggestionsIgnoreCase | components/pos/product-search.tsx:40 | the case of the typed value does not change the suggestions |
| PosProductSearch.ProductSearchBox.ProductsLoaded | components/pos/product-search.tsx:24-31 | the fetched list becomes the loaded products and nothing else changes |
| PosProductSearch.ProductSearchBox.HandleSearch | components/pos/product-search.tsx:36-48 | sets the search text and the suggestions, and shows the list exactly when the value is non-empty |
| PosProductSearch.ProductSearchBox.HandleSelect | components/pos/product-search.tsx:50-55 | hands the product on once, then clears the search and suggestions and hides the list |
| PosProductSearch.ProductSearchBox.Clear | components/pos/product-search.tsx:71-75 | clears the search and suggestions and hides the list, handing nothing on |
| PosProductSearch.ProductSearchBox.OnFocus | components/pos/product-search.tsx:65 | reopens the list only when the search text is non-empty |
| Text.Lower | app/products/page.tsx:50-51 | `toLowerCase` on ASCII: same length, each character mapped by `LowerChar` (A-Z to a-z), so no upper-case letter is left and every other character is unchanged |
| Text.Contains | app/products/page.tsx:50-51 | `includes`: the query occurs starting at the first position or somewhere in the rest |
| Text.ContainsIffOccurs | components/pos/product-search.tsx:40 | `includes` holds exactly when the query occurs at some position |
| Text.Matches | app/products/page.tsx:50-51 | the shared search rule: the lower-cased name or the lower-cased SKU includes the lower-cased query (also at app/inventory/page.tsx:52-53, app/inventory/movements/page.tsx:53-54 and components/pos/product-search.tsx:40) |
| Text.MatchesIgnoresCase | app/products/page.tsx:50-51 | lower-casing the query or the fields does not change whether a product matches |
| Text.EmptyQueryMatches | app/products/page.tsx:48-52 | an empty query matches every name and SKU |
| Text.Decimal | app/api/pos/create-order/route.ts:69 | the template rendering of an id: a non-empty string of decimal digits |
| Text.DecimalValue | app/api/pos/create-order/route.ts:69 | reading the rendered digits back gives the id, and only 0 renders with a leading '0' |
| Text.DecimalInjective | app/api/pos/create-order/route.ts:69 | different ids render to different strings, so each "Sale order <id>" names one order |
| InventoryPage.Shown | app/inventory/page.tsx:50-54 | a row is listed when it has a joined product whose name or SKU matches the search |
| InventoryPage.FilteredStocks | app/inventory/page.tsx:50-54 | exactly the rows with a joined product whose name or SKU contains the search, in order |
| InventoryPage.EmptySearchKeepsJoinedRows | app/inventory/page.tsx:50-54 | an empty search lists exactly the rows that have a product, and none without one |
| InventoryPage.LowStockCount | app/inventory/page.tsx:56 | the number of rows, over all rows, whose qty is below 50; at most the number of rows |
| InventoryPage.LowStockCountIsCount | app/inventory/page.tsx:56 | the low-stock card counts the rows below 50 over all rows, whatever the search |
| InventoryPage.RowValue | app/inventory/page.tsx:169 | qty × selling price, and 0 when the product is missing |
| InventoryPage.TotalValue | app/inventory/page.tsx:57 | the sum of the row values, in row order |
| InventoryPage.TotalValueConcat | app/inventory/page.tsx:57 | the inventory value of two blocks of rows is the sum of their values |
| InventoryPage.UnjoinedRowsAddNothing | app/inventory/page.tsx:57 | rows without a product add nothing to the inventory value |
| InventoryPage.StatusOf | app/inventory/page.tsx:154-166 | "Out of Stock" iff qty = 0, "Low Stock" iff qty ≠ 0 and qty < 50, "In Stock" iff qty ≥ 50 |
| InventoryPage.CountedLowIffNotInStock | app/inventory/page.tsx:56-166 | a row counts on the low-stock card exactly when its badge is not "In Stock" |
| InventoryPage.OversoldRowShownLow | app/inventory/page.tsx:154-161 | a row that a sale drives below 0 is shown as "Low Stock" |
| ProductsPage.FilteredProducts | app/products/page.tsx:48-52 | exactly the products whose name or SKU contains the search, both lowercased, as a sublist in order |
| ProductsPage.EmptySearchKeepsAll | app/products/page.tsx:48-52 | an empty search lists every product |
| ProductsPage.SearchIgnoresCase | app/products/page.tsx:50-51 | the case of the search text does not change the list |
| MovementsPage.Shown | app/inventory/movements/page.tsx:52-56 | a movement is listed when it has a joined product whose name or SKU matches the search |
| MovementsPage.FilteredMovements | app/inventory/movements/page.tsx:51-55 | exactly the movements with a joined product whose name or SKU contains the search, in original order |
| MovementsPage.EmptySearchKeepsJoinedRows | app/inventory/movements/page.tsx:51-55 | an empty search lists exactly the movements that have a product |
| MovementsPage.EmptySearchListsJoinedHistory | app/inventory/movements/page.tsx:51-55 | when every movement has its product, an empty search lists them all |

## Left out

- Database client, HTTP and JSON plumbing. The tables are fields of `Tables.Database`. The client's error objects and the 500 responses for thrown errors are not modelled. A failed insert part-way through a route, which would leave its earlier writes in place, is not modelled either.
- `.single()` with duplicate rows is not modelled: the balance table is a map with at most one row per key.
- Concurrency between requests is not modelled. Every route runs to completion on its own.
- Ids and timestamps the database assigns are not modelled as such: ids come from the counter, and `created_at` is not represented. The ids of order-item rows are not modelled, since nothing in the core reads them.
- StockInRoute.Post: `cost_price` is read from the body and never used, so the model ignores it.
- Local storage loading, JSON encoding and the first-run seeding of the inventory from the catalog are I/O. Only the saved copy and whether the write succeeds are modelled.
- Floating point is not modelled, nor are `toFixed` and `toLocaleString`. Money is an exact `real`, so the 10 % tax has no rounding.
- `parseInt` and `parseFloat` are taken as given results: an `Option<int>` for the quantity boxes and a `real` for the cashier's payment.
- PosCashier.Cashier.HandleCheckout: text that `parseFloat` reads as NaN fails the `payment < total` test, so the source would record a transaction with a NaN payment and change. The model's payment is always a number, so that path is not captured.
- `toLowerCase` is modelled on ASCII letters only. Unicode case mapping is not modelled.
- PosPage.PosPageState.PaymentCompleted: the `fetch` to the create-order route is not modelled. The method takes whether the response was ok. The body it sends is `PosPage.PaymentRequest`. `showPayment`, `transactionComplete` and the 3-second timer are presentation state.
- Each screen calls its own copy of `useInventory` or `useTransactions`. The model passes each screen a store object instead. It does not model the screens' copies drifting apart until the next load.
- Product lists that are fetched (the product search and the inventory and movements pages) and the static demo catalog are parameters or fields set from outside.
- Not part of this model:
  - the payment modal;
  - the stock and product forms;
  - the settings page;
  - the summary, list, create and today-summary routes;
  - the middleware;
  - navigation, the dashboard, and alerts and rendering generally.
- WmsStockAdjustment.StockAdjustmentScreen.AddItem requires a non-empty catalog: the source indexes `MOCK_PRODUCTS[0]`, which is a fixed, non-empty list.

## Findings

| source | as written | input that shows it | evidently intended | confidence | as-written member | corrected member |
|---|---|---|---|---|---|---|
| components/pos/cart.tsx:13 | the outer `reduce` ignores its element and adds the whole inner line sum once per line, so the panel shows `items.length × Σ total_price` | two lines of 10 each: the page charges 20 (app/pos/page.tsx:17) but the panel shows a subtotal of 40 and a total of 44 | the subtotal is the inner sum alone, as the page computes it | high (not executed) | PosCart.TwoLinesExample | PosCart.CorrectedSubtotal |
