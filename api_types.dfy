/**
 * The record and enumeration types of the REST client (src/api.ts) that the
 * order-draft editor works on. Money amounts are integer cents; dates are
 * instants supplied by the caller.
 */
module ApiTypes {
  import opened Wrappers

  /** One line of an order: which product, how many, at what unit price. */
  datatype OrderItem = OrderItem(productId: string, quantity: int, price: int)

  /** A shipping address; `state` is the only field the order form treats as optional. */
  datatype Address = Address(street: string, city: string, state: string, zipCode: string, country: string)

  datatype OrderStatus = Pending | Confirmed | Shipped | Delivered | Cancelled

  /** An order as sent to the backend. `id` is assigned by the backend. */
  datatype Order = Order(
    id: Option<string>,
    userId: string,
    items: seq<OrderItem>,
    totalAmount: int,
    status: OrderStatus,
    paymentMethod: Option<string>,  // the `method` field
    shippingAddress: Address,
    createdAt: int,
    updatedAt: int)

  /** A catalogue product; `id` is the optional `_id`. */
  datatype Product = Product(
    id: Option<string>,
    name: string,
    description: string,
    price: int,
    stock: int,
    category: string,
    imageUrl: Option<string>)
}
