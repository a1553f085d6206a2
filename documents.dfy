/** The documents the core works on, as the handlers see them once the
    database has returned them, and the two collections that the mutating
    handlers change (orders and products). */
module Documents {
  import opened Common

  /** A calendar month as `Date.getMonth()` reports it: 0 is January. */
  type Month = m: int | 0 <= m < 12

  /** A calendar date reduced to what the core reads of it. */
  datatype Date = Date(year: int, month: Month, day: int)

  /** The three order states. */
  datatype Status = Processing | Shipped | Delivered

  /** `OrderItemType` */
  datatype OrderItem = OrderItem(name: string, price: int, quantity: int, image: string, productId: string)

  /** `ShippingInfoType` */
  datatype ShippingInfo = ShippingInfo(address: string, city: string, state: string, country: string, pinCode: int)

  /** A stored order.  Numeric fields the client may omit are optional. */
  datatype Order = Order(
    id: string,
    user: Option<string>,
    status: Status,
    createdMonth: Month,
    shippingInfo: Option<ShippingInfo>,
    orderItems: seq<OrderItem>,
    subtotal: Option<int>,
    tax: Option<int>,
    shippingCharges: Option<int>,
    discount: Option<int>,
    total: Option<int>)

  /** A stored product. */
  datatype Product = Product(
    id: string,
    name: string,
    image: string,
    price: int,
    stock: int,
    category: string,
    createdMonth: Month)

  /** Every order is stored under its own id. */
  predicate OrdersKeyed(orders: map<string, Order>)
  {
    forall k :: k in orders ==> orders[k].id == k
  }

  /** Every product is stored under its own id. */
  predicate ProductsKeyed(products: map<string, Product>)
  {
    forall k :: k in products ==> products[k].id == k
  }

  /** The order and product collections, each a map from `_id` to document. */
  class Database {
    var orders: map<string, Order>
    var products: map<string, Product>

    /** A document's key is its `_id`. */
    predicate Valid()
      reads this
    {
      OrdersKeyed(orders) && ProductsKeyed(products)
    }

    constructor (orders: map<string, Order>, products: map<string, Product>)
      requires OrdersKeyed(orders) && ProductsKeyed(products)
      ensures this.orders == orders && this.products == products
      ensures Valid()
    {
      this.orders := orders;
      this.products := products;
    }
  }
}
