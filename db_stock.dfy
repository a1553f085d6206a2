/** Stock decrement for a placed order (`reduceOrderQuantity` in
    src/utils/db.ts): each item lowers its product's stock by its quantity,
    in list order, and each decrement is saved at once.  The first item whose
    product does not exist raises an error; what was saved before stays
    saved and the later items are not applied. */
module DbStock {
  import opened Common
  import opened Documents

  /** The message of the error raised for a missing product. */
  const OutOfStock: string := "Product out of stock"

  /** The product collection after the loop, and the error it raised, if any. */
  datatype Reduction = Reduction(products: map<string, Product>, error: Option<string>)

  /** `product.stock -= quantity` for one product. */
  function Decrement(products: map<string, Product>, id: string, quantity: int): map<string, Product>
    requires id in products
  {
    products[id := products[id].(stock := products[id].stock - quantity)]
  }

  /** The loop, item by item: it keeps the same products (what it does to
      each is `ReduceEffect`). */
  function Reduce(products: map<string, Product>, items: seq<OrderItem>): (r: Reduction)
    ensures r.products.Keys == products.Keys
    decreases |items|
  {
    if items == [] then Reduction(products, None)
    else if items[0].productId !in products then Reduction(products, Some(OutOfStock))
    else Reduce(Decrement(products, items[0].productId, items[0].quantity), items[1..])
  }

  /** The index of the first item whose product does not exist, or the
      number of items when all exist. */
  function FirstMissing(products: map<string, Product>, items: seq<OrderItem>): (n: nat)
    ensures n <= |items|
    ensures forall j :: 0 <= j < n ==> items[j].productId in products
    ensures n < |items| ==> items[n].productId !in products
    decreases |items|
  {
    if items == [] || items[0].productId !in products then 0
    else 1 + FirstMissing(products, items[1..])
  }

  /** The total quantity the items order of one product: nothing when no
      item names it, and never negative when no quantity is. */
  function QuantityFor(items: seq<OrderItem>, id: string): (q: int)
    ensures (forall j :: 0 <= j < |items| ==> items[j].productId != id) ==> q == 0
    ensures (forall j :: 0 <= j < |items| ==> items[j].quantity >= 0) ==> q >= 0
    decreases |items|
  {
    if items == [] then 0
    else (if items[0].productId == id then items[0].quantity else 0) + QuantityFor(items[1..], id)
  }

  /** What the loop leaves behind: the same products, each with its stock
      lowered by what the items before the first missing one ordered of it,
      nothing else of a product changed, and an error exactly when some item
      names a missing product. */
  lemma {:induction false} ReduceEffect(products: map<string, Product>, items: seq<OrderItem>)
    ensures var r := Reduce(products, items);
      var n := FirstMissing(products, items);
      && r.products.Keys == products.Keys
      && (r.error.None? <==> n == |items|)
      && (r.error.Some? ==> r.error.value == OutOfStock)
      && forall id :: id in products ==>
           r.products[id] == products[id].(stock := products[id].stock - QuantityFor(items[..n], id))
    decreases |items|
  {
    if items == [] || items[0].productId !in products {
      assert items[..0] == [];
    } else {
      var head := items[0];
      var next := Decrement(products, head.productId, head.quantity);
      assert next.Keys == products.Keys;
      ReduceEffect(next, items[1..]);
      FirstMissingSameKeys(next, products, items[1..]);
      var n := FirstMissing(products, items);
      var m := FirstMissing(next, items[1..]);
      assert n == m + 1;
      assert items[..n][0] == head && items[..n][1..] == items[1..][..m];
      var r := Reduce(next, items[1..]);
      assert Reduce(products, items) == r;
      forall id | id in products
        ensures r.products[id] == products[id].(stock := products[id].stock - QuantityFor(items[..n], id))
      {
        assert QuantityFor(items[..n], id)
            == (if head.productId == id then head.quantity else 0) + QuantityFor(items[1..][..m], id);
      }
    }
  }

  /** Only the key set matters to `FirstMissing`. */
  lemma {:induction false} FirstMissingSameKeys(a: map<string, Product>, b: map<string, Product>, items: seq<OrderItem>)
    requires a.Keys == b.Keys
    ensures FirstMissing(a, items) == FirstMissing(b, items)
    decreases |items|
  {
    if items != [] && items[0].productId in a {
      FirstMissingSameKeys(a, b, items[1..]);
    }
  }

  /** An order whose products all exist lowers every stock by the full
      quantity ordered. */
  lemma AllPresentFullDecrement(products: map<string, Product>, items: seq<OrderItem>, id: string)
    requires forall j :: 0 <= j < |items| ==> items[j].productId in products
    requires id in products
    ensures Reduce(products, items).error.None?
    ensures id in Reduce(products, items).products
    ensures Reduce(products, items).products[id].stock == products[id].stock - QuantityFor(items, id)
  {
    ReduceEffect(products, items);
    assert items[..|items|] == items;
  }

  /** `reduceOrderQuantity(orderItems)` over the product collection. */
  method ReduceOrderQuantity(products: map<string, Product>, orderItems: seq<OrderItem>)
    returns (after: map<string, Product>, error: Option<string>)
    ensures Reduction(after, error) == Reduce(products, orderItems)
    ensures after.Keys == products.Keys
    ensures ProductsKeyed(products) ==> ProductsKeyed(after)
    ensures error.None? <==> forall j :: 0 <= j < |orderItems| ==> orderItems[j].productId in products
  {
    after, error := products, None;
    var i := 0;
    while i < |orderItems| && error.None?
      invariant 0 <= i <= |orderItems|
      invariant error.None? ==> Reduce(after, orderItems[i..]) == Reduce(products, orderItems)
      invariant error.Some? ==> Reduction(after, error) == Reduce(products, orderItems)
      decreases |orderItems| - i, error.None?
    {
      var order := orderItems[i];
      assert orderItems[i..][0] == order && orderItems[i..][1..] == orderItems[i + 1..];
      if order.productId !in after {
        error := Some(OutOfStock);
      } else {
        after := Decrement(after, order.productId, order.quantity);
        i := i + 1;
      }
    }
    if error.None? {
      assert orderItems[i..] == [];
    }
    ReduceEffect(products, orderItems);
  }
}
