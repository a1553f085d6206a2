/** Cache invalidation (`invalidateCache` in src/utils/db.ts): three flags
    and optional identifiers name the cached responses that a change made
    stale, and those keys are deleted from the shared cache.  The key
    builders below are the ones every handler uses to read and write the
    cache, so a handler's key and the key deleted here are one definition. */
module DbCache {
  import opened Common
  import opened Caching

  // ---------------------------------------------------------------------
  // Cache keys
  // ---------------------------------------------------------------------

  /** `product-${id}`: one product's cached document; the id can be read
      back after the eight-character prefix. */
  function ProductKey(id: string): (k: string)
    ensures |k| == 8 + |id| && k[..8] == "product-" && k[8..] == id
  {
    "product-" + id
  }

  /** `myOrders-${user}`: the cached order list of one user; the rendered
      user can be read back after the nine-character prefix. */
  function MyOrdersKey(user: Option<string>): (k: string)
    ensures |k| >= 9 && k[..9] == "myOrders-" && k[9..] == Interp(user)
  {
    "myOrders-" + Interp(user)
  }

  /** `singleOrder-${id}`: one cached order; the rendered id can be read
      back after the twelve-character prefix. */
  function SingleOrderKey(id: Option<string>): (k: string)
    ensures |k| >= 12 && k[..12] == "singleOrder-" && k[12..] == Interp(id)
  {
    "singleOrder-" + Interp(id)
  }

  /** The fixed keys deleted whenever the product flag is set. */
  const FixedProductKeys: seq<string> := ["latestProducts", "categories", "allProducts"]

  /** The keys of the four dashboard responses. */
  const AdminKeys: seq<string> := ["stats", "pie-charts", "bar-charts", "line-charts"]

  /** Every key a product handler reads or writes. */
  predicate IsProductFamilyKey(k: string)
  {
    k in FixedProductKeys || (|k| >= 8 && k[..8] == "product-")
  }

  /** Distinct product ids give distinct keys. */
  lemma ProductKeyInjective(a: string, b: string)
    ensures ProductKey(a) == ProductKey(b) <==> a == b
  {
    if ProductKey(a) == ProductKey(b) {
      assert a == ProductKey(a)[8..];
      assert b == ProductKey(b)[8..];
    }
  }

  /** Two users share an order-list key exactly when they are the same, but
      for a missing user, whose key is that of the user id `undefined`; the
      same holds for single-order keys. */
  lemma OrderKeysCollide(a: Option<string>, b: Option<string>)
    ensures MyOrdersKey(a) == MyOrdersKey(b) <==>
      a == b || (a == None && b == Some("undefined")) || (a == Some("undefined") && b == None)
    ensures SingleOrderKey(a) == SingleOrderKey(b) <==>
      a == b || (a == None && b == Some("undefined")) || (a == Some("undefined") && b == None)
  {
    InterpCollision(a, b);
    if MyOrdersKey(a) == MyOrdersKey(b) {
      assert Interp(a) == MyOrdersKey(a)[9..];
    }
    if SingleOrderKey(a) == SingleOrderKey(b) {
      assert Interp(a) == SingleOrderKey(a)[12..];
    }
  }

  // ---------------------------------------------------------------------
  // The invalidation request
  // ---------------------------------------------------------------------

  /** `productId?: string | string[]` */
  datatype ProductIds = NoProductId | OneProductId(id: string) | ProductIdList(ids: seq<string>)

  /** `InvalidCacheProps`; an omitted flag is `false`. */
  datatype InvalidCacheProps = InvalidCacheProps(
    product: bool,
    admin: bool,
    order: bool,
    userId: Option<string>,
    orderId: Option<string>,
    productId: ProductIds)

  /** The ids that `productId` supplies. */
  predicate NamesProduct(p: ProductIds, id: string)
  {
    match p
    case NoProductId => false
    case OneProductId(x) => x == id
    case ProductIdList(ids) => id in ids
  }

  /** The keys the product flag deletes. */
  function ProductKeys(p: ProductIds): set<string>
  {
    KeySet(FixedProductKeys) +
    match p
    case NoProductId => {}
    case OneProductId(id) => {ProductKey(id)}
    case ProductIdList(ids) => set id | id in ids :: ProductKey(id)
  }

  /** The keys the order flag deletes, as the source lists them. */
  function OrderKeyList(props: InvalidCacheProps): seq<string>
  {
    ["allOrders", MyOrdersKey(props.userId), SingleOrderKey(props.orderId)]
  }

  /** Everything one call deletes: the union over the flags that are set. */
  function InvalidationKeys(props: InvalidCacheProps): set<string>
  {
    (if props.product then ProductKeys(props.productId) else {}) +
    (if props.order then KeySet(OrderKeyList(props)) else {}) +
    (if props.admin then KeySet(AdminKeys) else {})
  }

  /** The cache after one call. */
  function Invalidated(m: map<string, string>, props: InvalidCacheProps): map<string, string>
  {
    m - InvalidationKeys(props)
  }

  // ---------------------------------------------------------------------
  // The operation
  // ---------------------------------------------------------------------

  /** Builds the product key list the way the source does: the three fixed
      keys, then `product-<id>` for a single id or for each listed id. */
  method ProductKeyList(productId: ProductIds) returns (keys: seq<string>)
    ensures KeySet(keys) == ProductKeys(productId)
    ensures |keys| >= 3 && keys[..3] == FixedProductKeys
    ensures forall k :: k in keys[3..] ==> exists id :: NamesProduct(productId, id) && k == ProductKey(id)
  {
    keys := FixedProductKeys;
    match productId {
      case NoProductId =>
      case OneProductId(id) =>
        keys := keys + [ProductKey(id)];
      case ProductIdList(ids) =>
        var i := 0;
        while i < |ids|
          invariant 0 <= i <= |ids|
          invariant |keys| == 3 + i && keys[..3] == FixedProductKeys
          invariant forall j :: 0 <= j < i ==> keys[3 + j] == ProductKey(ids[j])
        {
          keys := keys + [ProductKey(ids[i])];
          i := i + 1;
        }
        assert forall k :: k in keys[3..] ==> exists j :: 0 <= j < |ids| && k == ProductKey(ids[j]) by {
          forall k | k in keys[3..] ensures exists j :: 0 <= j < |ids| && k == ProductKey(ids[j]) {
            var n :| 0 <= n < |keys[3..]| && keys[3..][n] == k;
            assert keys[3 + n] == k && keys[3 + n] == ProductKey(ids[n]);
          }
        }
        assert forall id :: id in ids ==> ProductKey(id) in keys by {
          forall id | id in ids ensures ProductKey(id) in keys {
            var j :| 0 <= j < |ids| && ids[j] == id;
            assert keys[3 + j] == ProductKey(id);
          }
        }
    }
    assert forall k :: k in keys ==> k in keys[..3] || k in keys[3..] by {
      assert keys == keys[..3] + keys[3..];
    }
  }

  /** `invalidateCache(props)`: deletes exactly `InvalidationKeys(props)`. */
  method InvalidateCache(cache: NodeCache, props: InvalidCacheProps)
    modifies cache
    ensures cache.entries == Invalidated(old(cache.entries), props)
  {
    ghost var start := cache.entries;
    if props.product {
      var productKeys := ProductKeyList(props.productId);
      cache.Del(productKeys);
    }
    assert cache.entries == start - (if props.product then ProductKeys(props.productId) else {});
    if props.order {
      cache.Del(OrderKeyList(props));
    }
    if props.admin {
      cache.Del(AdminKeys);
    }
  }

  // ---------------------------------------------------------------------
  // Properties
  // ---------------------------------------------------------------------

  /** Exactly the computed keys disappear; every other entry keeps its value. */
  lemma InvalidatedFrame(m: map<string, string>, props: InvalidCacheProps)
    ensures forall k :: k in Invalidated(m, props) <==> k in m && k !in InvalidationKeys(props)
    ensures forall k :: k in Invalidated(m, props) ==> Invalidated(m, props)[k] == m[k]
  {
  }

  /** Which keys one call deletes, flag by flag. */
  lemma InvalidationKeysExact(props: InvalidCacheProps, k: string)
    ensures k in InvalidationKeys(props) <==>
      (props.product && (k in FixedProductKeys || exists id :: NamesProduct(props.productId, id) && k == ProductKey(id))) ||
      (props.order && (k == "allOrders" || k == MyOrdersKey(props.userId) || k == SingleOrderKey(props.orderId))) ||
      (props.admin && k in AdminKeys)
  {
    match props.productId {
      case NoProductId =>
      case OneProductId(x) =>
        if props.product && k == ProductKey(x) {
          assert NamesProduct(props.productId, x);
        }
      case ProductIdList(ids) =>
    }
  }

  /** With no flag set nothing is deleted. */
  lemma NoFlagsNoChange(m: map<string, string>, props: InvalidCacheProps)
    requires !props.product && !props.order && !props.admin
    ensures Invalidated(m, props) == m
  {
    assert InvalidationKeys(props) == {};
  }

  /** Deleting again deletes nothing more. */
  lemma InvalidateIdempotent(m: map<string, string>, props: InvalidCacheProps)
    ensures Invalidated(Invalidated(m, props), props) == Invalidated(m, props)
  {
  }

  /** Keys that are not in the cache are ignored: invalidating a cache that
      holds none of the computed keys changes nothing. */
  lemma AbsentKeysIgnored(m: map<string, string>, props: InvalidCacheProps)
    requires forall k :: k in InvalidationKeys(props) ==> k !in m
    ensures Invalidated(m, props) == m
  {
  }

  /** The flags combine as a union of independent deletions, so one call with
      several flags equals one call per flag; two of the six orders are
      stated here, and `InvalidationsCommute` gives the others. */
  lemma FlagsCombine(m: map<string, string>, props: InvalidCacheProps)
    ensures Invalidated(m, props) ==
      Invalidated(Invalidated(Invalidated(m, props.(product := false, order := false)),
                              props.(admin := false, order := false)),
                  props.(admin := false, product := false))
    ensures Invalidated(m, props) ==
      Invalidated(Invalidated(Invalidated(m, props.(admin := false, product := false)),
                              props.(admin := false, order := false)),
                  props.(product := false, order := false))
  {
    var a := if props.admin then KeySet(AdminKeys) else {};
    var p := if props.product then ProductKeys(props.productId) else {};
    var o := if props.order then KeySet(OrderKeyList(props)) else {};
    assert InvalidationKeys(props.(product := false, order := false)) == a;
    assert InvalidationKeys(props.(admin := false, order := false)) == p;
    assert InvalidationKeys(props.(admin := false, product := false)) == o;
    assert InvalidationKeys(props) == p + o + a;
    MinusUnion(m, a, p, o);
    MinusUnion(m, o, p, a);
    assert p + o + a == a + p + o == o + p + a;
  }

  /** Removing a union of three key sets is removing them one after the other. */
  lemma MinusUnion(m: map<string, string>, x: set<string>, y: set<string>, z: set<string>)
    ensures m - (x + y + z) == ((m - x) - y) - z
  {
  }

  /** Two invalidation calls commute, so the calls of one flag each may run
      in any order. */
  lemma InvalidationsCommute(m: map<string, string>, a: InvalidCacheProps, b: InvalidCacheProps)
    ensures Invalidated(Invalidated(m, a), b) == Invalidated(Invalidated(m, b), a)
    ensures Invalidated(Invalidated(m, a), b) == m - (InvalidationKeys(a) + InvalidationKeys(b))
  {
  }

  /** The order and admin keys are never product keys, so a call without the
      product flag keeps every cached product response. */
  lemma ProductKeysSurvive(m: map<string, string>, props: InvalidCacheProps, k: string)
    requires !props.product && IsProductFamilyKey(k) && k in m
    ensures k in Invalidated(m, props) && Invalidated(m, props)[k] == m[k]
  {
    var u := MyOrdersKey(props.userId);
    var o := SingleOrderKey(props.orderId);
    assert u[0] == 'm' && o[0] == 's';
    if k in FixedProductKeys {
      assert k[0] != 'm' && k[0] != 's';
      assert k !in AdminKeys && k != "allOrders";
    } else {
      assert k[0] == 'p' && k[1] == 'r';
      assert "pie-charts"[1] == 'i';
      assert k !in AdminKeys && k != "allOrders";
    }
    assert k != u && k != o;
    assert k !in InvalidationKeys(props);
  }

  /** The product-id example: the three fixed keys and `product-p1` go, the
      dashboard key stays. */
  lemma ProductExample(m: map<string, string>)
    requires "stats" in m
    ensures var r := Invalidated(m, InvalidCacheProps(true, false, false, None, None, OneProductId("p1")));
      "latestProducts" !in r && "categories" !in r && "allProducts" !in r && "product-p1" !in r &&
      "stats" in r && r["stats"] == m["stats"]
  {
    var props := InvalidCacheProps(true, false, false, None, None, OneProductId("p1"));
    assert ProductKey("p1") == "product-p1";
    assert "stats" !in InvalidationKeys(props) by {
      assert "stats"[0] != "product-p1"[0];
    }
  }

  /** The admin flag alone removes exactly the four dashboard keys. */
  lemma AdminOnlyExact(m: map<string, string>, userId: Option<string>, orderId: Option<string>, productId: ProductIds)
    ensures Invalidated(m, InvalidCacheProps(false, true, false, userId, orderId, productId)) ==
      m - {"stats", "pie-charts", "bar-charts", "line-charts"}
  {
    assert KeySet(AdminKeys) == {"stats", "pie-charts", "bar-charts", "line-charts"};
  }
}
