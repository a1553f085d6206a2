/** The order handlers (src/controllers/order.ts): read-through caching of
    order lists and single orders, order placement, and the status machine
    `Processing -> Shipped -> Delivered`.  Database reads arrive as inputs
    (`found`: the serialized query result); the order and product
    collections that the handlers change are a `Database`. */
module OrderController {
  import opened Common
  import opened Caching
  import opened Documents
  import opened DbCache
  import opened DbStock

  // ---------------------------------------------------------------------
  // Status machine
  // ---------------------------------------------------------------------

  /** The `switch` of `processOrder`: an order never goes back to
      `Processing`, and each call not on a delivered order is one step. */
  function NextStatus(s: Status): (r: Status)
    ensures s == Processing ==> r == Shipped
    ensures s != Processing ==> r == Delivered
    ensures r != Processing
    ensures s != Delivered ==> StepsToDelivered(r) == StepsToDelivered(s) - 1
  {
    match s
    case Processing => Shipped
    case Shipped => Delivered
    case _ => Delivered
  }

  /** How many `processOrder` calls an order still needs. */
  function StepsToDelivered(s: Status): nat
  {
    match s
    case Processing => 2
    case Shipped => 1
    case Delivered => 0
  }

  /** `Delivered` is absorbing, every other state moves one step closer to
      it, and two steps reach it from anywhere. */
  lemma StatusProgress(s: Status)
    ensures NextStatus(Delivered) == Delivered
    ensures s != Delivered ==> StepsToDelivered(NextStatus(s)) == StepsToDelivered(s) - 1
    ensures NextStatus(NextStatus(s)) == Delivered
    ensures NextStatus(s) == s <==> s == Delivered
  {
  }

  // ---------------------------------------------------------------------
  // Invalidation requests issued here
  // ---------------------------------------------------------------------

  /** `allOrders` invalidates with all three flags and no ids. */
  const AllOrdersFlags: InvalidCacheProps := InvalidCacheProps(true, true, true, None, None, NoProductId)

  /** `processOrder` and `deleteOrder`: no product flag, the order's user and id. */
  function OrderChangeFlags(o: Order): InvalidCacheProps
  {
    InvalidCacheProps(false, true, true, o.user, Some(o.id), NoProductId)
  }

  /** The body of `POST /order/new`. */
  datatype NewOrderBody = NewOrderBody(
    shippingInfo: Option<ShippingInfo>,
    user: Option<string>,
    subtotal: Option<int>,
    tax: Option<int>,
    shippingCharges: Option<int>,
    discount: Option<int>,
    total: Option<int>,
    orderItems: Option<seq<OrderItem>>)

  /** The required-field check of `newOrder`; a zero tax, subtotal or total
      is falsy and fails it. */
  predicate AllFieldsFilled(b: NewOrderBody)
  {
    b.shippingInfo.Some? && b.orderItems.Some? && TruthyNumber(b.tax) && TruthyNumber(b.subtotal)
    && TruthyText(b.user) && TruthyNumber(b.total)
  }

  /** The order `Order.create` stores; a missing item list is stored empty
      and a new order starts in `Processing`. */
  function CreatedOrder(id: string, b: NewOrderBody, today: Month): (o: Order)
    ensures o.id == id && o.status == Processing && o.createdMonth == today
    ensures o.user == b.user && o.shippingInfo == b.shippingInfo
    ensures o.subtotal == b.subtotal && o.tax == b.tax && o.shippingCharges == b.shippingCharges
    ensures o.discount == b.discount && o.total == b.total
    ensures b.orderItems.Some? ==> o.orderItems == b.orderItems.value
    ensures b.orderItems.None? ==> o.orderItems == []
    ensures StepsToDelivered(o.status) == 2
  {
    Order(id, b.user, Processing, today, b.shippingInfo,
          if b.orderItems.Some? then b.orderItems.value else [],
          b.subtotal, b.tax, b.shippingCharges, b.discount, b.total)
  }

  /** `orderItems.map((item) => item.productId.toString())` */
  function ItemProductIds(items: seq<OrderItem>): (ids: seq<string>)
    ensures |ids| == |items|
    ensures forall i :: 0 <= i < |items| ==> ids[i] == items[i].productId
  {
    seq(|items|, i requires 0 <= i < |items| => items[i].productId)
  }

  /** `newOrder` invalidates with all three flags, the user, and every item's product. */
  function NewOrderFlags(b: NewOrderBody): InvalidCacheProps
    requires b.orderItems.Some?
  {
    InvalidCacheProps(true, true, true, b.user, None, ProductIdList(ItemProductIds(b.orderItems.value)))
  }

  // ---------------------------------------------------------------------
  // Handlers
  // ---------------------------------------------------------------------

  /** `myOrders`: read-through on `myOrders-<user>`. */
  method MyOrders(cache: NodeCache, user: Option<string>, found: string) returns (reply: Reply)
    modifies cache
    ensures var key := MyOrdersKey(user);
      if old(cache.GetIsTruthy(key))
      then reply == Success(200, old(cache.entries[key])) && cache.entries == old(cache.entries)
      else reply == Success(200, found) && cache.entries == old(cache.entries)[key := found]
  {
    var key := MyOrdersKey(user);
    var orders: string;
    if cache.GetIsTruthy(key) {
      orders := cache.Get(key).value;
    } else {
      orders := found;
      cache.Set(key, orders);
    }
    reply := Success(200, orders);
  }

  /** `allOrders`: read-through on `allOrders`, after which the key is
      deleted again by its own invalidation call. */
  method AllOrders(cache: NodeCache, found: string) returns (reply: Reply)
    modifies cache
    ensures var hit := old(cache.GetIsTruthy("allOrders"));
      && reply == Success(200, if hit then old(cache.entries["allOrders"]) else found)
      && cache.entries == Invalidated(if hit then old(cache.entries) else old(cache.entries)["allOrders" := found], AllOrdersFlags)
    ensures "allOrders" !in cache.entries
  {
    var key := "allOrders";
    var orders: string;
    if cache.GetIsTruthy(key) {
      orders := cache.Get(key).value;
    } else {
      orders := found;
      cache.Set(key, orders);
    }
    InvalidateCache(cache, AllOrdersFlags);
    reply := Success(200, orders);
  }

  /** `getSingleOrder`: read-through on `singleOrder-<id>`; an order that is
      not found is not cached. */
  method GetSingleOrder(cache: NodeCache, id: string, found: Option<string>) returns (reply: Reply)
    modifies cache
    ensures var key := SingleOrderKey(Some(id));
      if old(cache.GetIsTruthy(key)) then
        reply == Success(200, old(cache.entries[key])) && cache.entries == old(cache.entries)
      else if found.None? then
        reply == Failure(404, "Order not found") && cache.entries == old(cache.entries)
      else
        reply == Success(200, found.value) && cache.entries == old(cache.entries)[key := found.value]
  {
    var key := SingleOrderKey(Some(id));
    if cache.GetIsTruthy(key) {
      reply := Success(200, cache.Get(key).value);
    } else {
      if found.None? {
        return Failure(404, "Order not found");
      }
      cache.Set(key, found.value);
      reply := Success(200, found.value);
    }
  }

  /** `newOrder`: the order is stored first; only then are the fields
      checked, so a rejected order stays stored, with no stock change and
      no invalidation.  A missing product stops the stock loop with an
      error, keeping the decrements made before it. */
  method NewOrder(db: Database, cache: NodeCache, body: NewOrderBody, newId: string, today: Month)
    returns (reply: Reply)
    requires db.Valid()
    requires newId !in db.orders
    modifies db, cache
    ensures db.Valid()
    ensures db.orders == old(db.orders)[newId := CreatedOrder(newId, body, today)]
    ensures !AllFieldsFilled(body) ==>
      && reply == Failure(400, "Please fill all fields")
      && db.products == old(db.products)
      && cache.entries == old(cache.entries)
    ensures AllFieldsFilled(body) ==>
      var r := Reduce(old(db.products), body.orderItems.value);
      && db.products == r.products
      && (r.error.Some? ==> reply == Thrown(r.error.value) && cache.entries == old(cache.entries))
      && (r.error.None? ==> reply == Success(201, "Order placed successfully")
                            && cache.entries == Invalidated(old(cache.entries), NewOrderFlags(body)))
  {
    db.orders := db.orders[newId := CreatedOrder(newId, body, today)];
    if !AllFieldsFilled(body) {
      return Failure(400, "Please fill all fields");
    }
    var after, error := ReduceOrderQuantity(db.products, body.orderItems.value);
    db.products := after;
    if error.Some? {
      return Thrown(error.value);
    }
    InvalidateCache(cache, NewOrderFlags(body));
    reply := Success(201, "Order placed successfully");
  }

  /** `processOrder`: advances the status and invalidates the order and
      dashboard keys of that order, keeping the product keys. */
  method ProcessOrder(db: Database, cache: NodeCache, id: string) returns (reply: Reply)
    requires db.Valid()
    modifies db, cache
    ensures db.Valid()
    ensures db.products == old(db.products)
    ensures id in old(db.orders) ==> SingleOrderKey(Some(id)) !in cache.entries
    ensures id !in old(db.orders) ==>
      reply == Failure(404, "Order not found") && db.orders == old(db.orders) && cache.entries == old(cache.entries)
    ensures id in old(db.orders) ==>
      var o := old(db.orders[id]);
      && db.orders == old(db.orders)[id := o.(status := NextStatus(o.status))]
      && cache.entries == Invalidated(old(cache.entries), OrderChangeFlags(o))
      && reply == Success(201, "Order processed successfully")
  {
    if id !in db.orders {
      return Failure(404, "Order not found");
    }
    var order := db.orders[id];
    order := order.(status := NextStatus(order.status));
    db.orders := db.orders[id := order];
    InvalidateCache(cache, OrderChangeFlags(order));
    reply := Success(201, "Order processed successfully");
  }

  /** `deleteOrder`: removes the order and invalidates like `processOrder`. */
  method DeleteOrder(db: Database, cache: NodeCache, id: string) returns (reply: Reply)
    requires db.Valid()
    modifies db, cache
    ensures db.Valid()
    ensures db.products == old(db.products)
    ensures id in old(db.orders) ==> SingleOrderKey(Some(id)) !in cache.entries
    ensures id !in old(db.orders) ==>
      reply == Failure(404, "Order not found") && db.orders == old(db.orders) && cache.entries == old(cache.entries)
    ensures id in old(db.orders) ==>
      && db.orders == old(db.orders) - {id}
      && cache.entries == Invalidated(old(cache.entries), OrderChangeFlags(old(db.orders[id])))
      && reply == Success(201, "Order deleted successfully")
  {
    if id !in db.orders {
      return Failure(404, "Order not found");
    }
    var order := db.orders[id];
    db.orders := db.orders - {id};
    InvalidateCache(cache, OrderChangeFlags(order));
    reply := Success(201, "Order deleted successfully");
  }

  // ---------------------------------------------------------------------
  // Key discipline
  // ---------------------------------------------------------------------

  /** Changing an order deletes the two keys its reads use,
      `myOrders-<user>` and `singleOrder-<id>`, and keeps every product key. */
  lemma OrderChangeKeys(m: map<string, string>, o: Order)
    ensures MyOrdersKey(o.user) !in Invalidated(m, OrderChangeFlags(o))
    ensures SingleOrderKey(Some(o.id)) !in Invalidated(m, OrderChangeFlags(o))
    ensures forall k :: IsProductFamilyKey(k) && k in m ==>
      k in Invalidated(m, OrderChangeFlags(o)) && Invalidated(m, OrderChangeFlags(o))[k] == m[k]
  {
    forall k | IsProductFamilyKey(k) && k in m
      ensures k in Invalidated(m, OrderChangeFlags(o)) && Invalidated(m, OrderChangeFlags(o))[k] == m[k]
    {
      ProductKeysSurvive(m, OrderChangeFlags(o), k);
    }
  }

  /** Placing an order deletes `product-<id>` for every item, the user's
      order list, and all lists and dashboards. */
  lemma NewOrderKeys(m: map<string, string>, b: NewOrderBody)
    requires b.orderItems.Some?
    ensures forall i :: 0 <= i < |b.orderItems.value| ==>
      ProductKey(b.orderItems.value[i].productId) !in Invalidated(m, NewOrderFlags(b))
    ensures MyOrdersKey(b.user) !in Invalidated(m, NewOrderFlags(b))
    ensures forall k :: k in FixedProductKeys + AdminKeys + ["allOrders"] ==> k !in Invalidated(m, NewOrderFlags(b))
  {
    var items := b.orderItems.value;
    forall i | 0 <= i < |items|
      ensures ProductKey(items[i].productId) !in Invalidated(m, NewOrderFlags(b))
    {
      assert ItemProductIds(items)[i] == items[i].productId;
    }
  }

  /** What the field check looks at: a zero or missing tax, subtotal or
      total, and an empty or missing user, fail it; the discount and the
      shipping charges are never checked, and an empty item list passes
      (an empty array is truthy). */
  lemma FieldCheckScope(b: NewOrderBody, discount: Option<int>, shippingCharges: Option<int>)
    ensures !TruthyNumber(b.tax) || !TruthyNumber(b.subtotal) || !TruthyNumber(b.total) || !TruthyText(b.user) ==>
      !AllFieldsFilled(b)
    ensures AllFieldsFilled(b) <==> AllFieldsFilled(b.(discount := discount, shippingCharges := shippingCharges))
    ensures (b.shippingInfo.Some? && b.tax == Some(1) && b.subtotal == Some(1) && b.total == Some(1)
             && b.user == Some("u") && b.orderItems == Some([])) ==> AllFieldsFilled(b)
  {
  }

  /** A zero tax is falsy, so such an order is stored and then rejected. */
  lemma ZeroTaxRejected(b: NewOrderBody)
    requires b.tax == Some(0)
    ensures !AllFieldsFilled(b)
  {
  }
}
