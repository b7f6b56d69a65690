/**
  The plain data records of the storefront (src/app/common) and the two
  constructors that carry behaviour: a cart line built from a product, and an
  order line built from a cart line.

  Prices are whole cents (an `int`); the storefront keeps them in JavaScript
  numbers. Dates are timestamps.
 */
module Common {

  datatype Product = Product(
    id: string,
    sku: string,
    name: string,
    description: string,
    unitPrice: int,
    imageUrl: string,
    active: bool,
    unitsInStock: int,
    dateCreated: int,
    lastUpdated: int)

  /** One row of the shopping cart, keyed by the product id. */
  datatype CartItem = CartItem(id: string, name: string, imageUrl: string, unitPrice: int, quantity: int)

  /** The denormalised copy of a cart line that is sent with an order. */
  datatype OrderItem = OrderItem(imageUrl: string, unitPrice: int, quantity: int, productId: string)

  datatype Order = Order(totalQuantity: int, totalPrice: int)

  datatype Customer = Customer(firstName: string, lastName: string, email: string)

  /** An address as submitted: state and country are display names. */
  datatype Address = Address(street: string, city: string, state: string, country: string, zipCode: string)

  datatype Country = Country(id: int, code: string, name: string)

  datatype State = State(id: int, name: string)

  datatype Purchase = Purchase(
    customer: Customer,
    shippingAddress: Address,
    billingAddress: Address,
    order: Order,
    orderItems: seq<OrderItem>)

  /** What a cart line contributes to the cart's total price. */
  function Subtotal(item: CartItem): int {
    item.quantity * item.unitPrice
  }

  /** What an order line contributes to the order's total price. */
  function OrderSubtotal(item: OrderItem): int {
    item.quantity * item.unitPrice
  }

  /** `new CartItem(product)`: a fresh cart line for one unit of the product. */
  function NewCartItem(product: Product): (item: CartItem)
    ensures item.quantity == 1
    ensures Subtotal(item) == product.unitPrice
  {
    CartItem(product.id, product.name, product.imageUrl, product.unitPrice, 1)
  }

  /** `new OrderItem(cartItem)`: the order line for a cart line. */
  function ToOrderItem(item: CartItem): (line: OrderItem)
    ensures OrderSubtotal(line) == Subtotal(item)
  {
    OrderItem(item.imageUrl, item.unitPrice, item.quantity, item.id)
  }

  /**
    Two products give the same cart line exactly when they agree on id,
    name, image and price: the line keeps those four and nothing else of the
    product (sku, description, stock and dates have no effect).
   */
  lemma NewCartItemDeterminedBy(p: Product, q: Product)
    ensures NewCartItem(p) == NewCartItem(q) <==>
              p.id == q.id && p.name == q.name && p.imageUrl == q.imageUrl && p.unitPrice == q.unitPrice
    ensures NewCartItem(p).id == p.id && NewCartItem(p).name == p.name
    ensures NewCartItem(p).imageUrl == p.imageUrl && NewCartItem(p).unitPrice == p.unitPrice
  {
  }

  /**
    Two cart lines give the same order line exactly when they agree on
    everything but the display name; the product id is the cart line's id.
   */
  lemma ToOrderItemDeterminedBy(c: CartItem, d: CartItem)
    ensures ToOrderItem(c) == ToOrderItem(d) <==>
              c.id == d.id && c.imageUrl == d.imageUrl && c.unitPrice == d.unitPrice && c.quantity == d.quantity
    ensures ToOrderItem(c).productId == c.id && ToOrderItem(c).quantity == c.quantity
    ensures ToOrderItem(c).imageUrl == c.imageUrl && ToOrderItem(c).unitPrice == c.unitPrice
  {
  }
}
