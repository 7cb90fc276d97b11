/** The shop's value types: products, cart lines, the cart, and the order form. The admin table's order is `OrdersTable.AdminOrder`. */
module Types {
  import opened Wrappers

  /** A catalogue product. `description`, `rating` and `isPopular` are optional; `similarity` is the
      score the remote semantic search attaches to its results and is absent everywhere else.
      Prices are whole tenge. */
  datatype Product = Product(
    id: string,
    name: string,
    price: int,
    image: string,
    description: Option<string>,
    category: string,
    inStock: bool,
    rating: Option<real>,
    isPopular: Option<bool>,
    similarity: Option<real>)

  /** One cart line: a product and how many of it. */
  datatype CartItem = CartItem(product: Product, quantity: int)

  /** The cart: its lines and the total the widget keeps next to them. */
  datatype Cart = Cart(items: seq<CartItem>, total: int)

  /** The two payment methods the order form offers. */
  datatype PaymentMethod = Kaspi | Cash

  /** What the customer enters when checking out. */
  datatype OrderForm = OrderForm(
    phone: string,
    address: string,
    deliveryDate: string,
    deliveryTime: string,
    paymentMethod: PaymentMethod,
    comment: Option<string>)
}
