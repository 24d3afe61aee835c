/**
 * The record shapes of lib/types/index.ts that the modelled code reads
 * and writes. Timestamps (`created_at`, `updated_at`) are not modelled.
 */
module Types {
  import opened Wrappers

  /** A row id assigned by the database when the row is inserted. */
  type Id = nat

  /** The key of a `stock_balances` row. */
  datatype Key = Key(product_id: string, warehouse_id: string)

  datatype MovementType = IN | OUT | TRANSFER | ADJUST

  /** A `stock_movements` row. */
  datatype StockMovement = StockMovement(
    id: Id,
    product_id: string,
    warehouse_id: string,
    movement_type: MovementType,
    qty: int,
    reference_id: Option<Id>,
    description: Option<string>)
  {
    function KeyOf(): Key { Key(product_id, warehouse_id) }
  }

  /** A catalog product as the POS screens receive it. */
  datatype Product = Product(id: string, sku: string, name: string, selling_price: real)

  /** A line of the POS page's cart; it is sent unchanged as an order line. */
  datatype CartItem = CartItem(
    product_id: string,
    product_name: string,
    sku: string,
    qty: int,
    unit_price: real,
    total_price: real)

  /** A `sales_orders` row. */
  datatype SalesOrder = SalesOrder(
    id: Id,
    cashier_id: string,
    warehouse_id: string,
    subtotal: real,
    tax: real,
    discount: real,
    total: real,
    payment_method: string,
    payment_amount: real,
    change: real,
    notes: Option<string>)

  /** A `sales_order_items` row. */
  datatype SalesOrderItem = SalesOrderItem(
    sales_order_id: Id,
    product_id: string,
    qty: int,
    unit_price: real,
    total_price: real)

  /**
   * A product of the browser-side demo catalog that the WMS screens and
   * the demo cashier use (its entries are a parameter of the model).
   */
  datatype MockProduct = MockProduct(id: string, name: string, price: real, stock: int)
}
