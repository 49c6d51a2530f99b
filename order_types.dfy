/** The order records of src/features/orders/order.types.ts. */
module OrderTypes {
  import opened Wrappers

  datatype OrderItem = OrderItem(id: string, name: string, price: int, qty: int)

  /** What the checkout sends to order creation. */
  datatype OrderCreateInput = OrderCreateInput(
    customer_name: string,
    phone: string,
    address: string,
    delivery_method: string,
    payment_method: string,
    items: seq<OrderItem>,
    total: int)

  /** An order as stored. */
  datatype Order = Order(
    id: string,
    customer_name: string,
    phone: string,
    address: string,
    delivery_method: string,
    payment_method: string,
    items: seq<OrderItem>,
    total: int,
    status: string,
    created_at: Option<string>)

  datatype OrderUpdateStatusInput = OrderUpdateStatusInput(id: string, status: string)

  /** The four order statuses, in the order the source lists them. */
  const Statuses: seq<string> := ["pending", "confirmed", "delivered", "cancelled"]
}
