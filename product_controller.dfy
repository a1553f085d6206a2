/** The product handlers (src/controllers/product.ts): read-through caching of
    product lists and single products, pagination and filter building for
    the search listing, the required-field check of product creation, the
    partial update, and the invalidation each change issues.  A product
    form arrives either as multipart text, where `"0"` is truthy, or as a
    JSON body, where the number 0 is falsy; `newProduct` needs an uploaded
    image and so in effect only sees multipart forms. */
module ProductController {
  import opened Common
  import opened Caching
  import opened Documents
  import opened DbCache

  // ---------------------------------------------------------------------
  // Read-through getters
  // ---------------------------------------------------------------------

  /** What `JSON.stringify` makes of a lookup that found nothing. */
  const NullJson: string := "null"

  /** Serialized values that `JSON.parse` turns into a falsy value. */
  predicate FalsyJson(s: string)
  {
    s == "null" || s == "false" || s == "0" || s == "\"\""
  }

  /** The serialized result of a single-document lookup. */
  function Serialized(found: Option<string>): string
  {
    if found.Some? then found.value else NullJson
  }

  /** The shared shape of the product getters: `cache.has(key)`, then either
      the cached value or the fetched one, which is stored; a falsy value
      answers 404. */
  method ReadThrough(cache: NodeCache, key: string, fetched: string, notFound: string) returns (reply: Reply)
    modifies cache
    ensures var value := if old(key in cache.entries) then old(cache.entries[key]) else fetched;
      && cache.entries == old(cache.entries)[key := value]
      && reply == if FalsyJson(value) then Failure(404, notFound) else Success(200, value)
  {
    var value: string;
    if cache.Has(key) {
      value := cache.Get(key).value;
    } else {
      value := fetched;
      cache.Set(key, value);
    }
    if FalsyJson(value) {
      return Failure(404, notFound);
    }
    reply := Success(200, value);
  }

  /** `getLatestProducts` */
  method GetLatestProducts(cache: NodeCache, fetched: string) returns (reply: Reply)
    modifies cache
    ensures var value := if old("latestProducts" in cache.entries) then old(cache.entries["latestProducts"]) else fetched;
      && cache.entries == old(cache.entries)["latestProducts" := value]
      && reply == if FalsyJson(value) then Failure(404, "Products not found") else Success(200, value)
  {
    reply := ReadThrough(cache, "latestProducts", fetched, "Products not found");
  }

  /** `getAllProductsCategory` */
  method GetAllProductsCategory(cache: NodeCache, fetched: string) returns (reply: Reply)
    modifies cache
    ensures var value := if old("categories" in cache.entries) then old(cache.entries["categories"]) else fetched;
      && cache.entries == old(cache.entries)["categories" := value]
      && reply == if FalsyJson(value) then Failure(404, "Products not found") else Success(200, value)
  {
    reply := ReadThrough(cache, "categories", fetched, "Products not found");
  }

  /** `getAdminsProducts` */
  method GetAdminsProducts(cache: NodeCache, fetched: string) returns (reply: Reply)
    modifies cache
    ensures var value := if old("allProducts" in cache.entries) then old(cache.entries["allProducts"]) else fetched;
      && cache.entries == old(cache.entries)["allProducts" := value]
      && reply == if FalsyJson(value) then Failure(404, "Products not found") else Success(200, value)
  {
    reply := ReadThrough(cache, "allProducts", fetched, "Products not found");
  }

  /** `getSingleProduct`: a product that is not found is cached as `null`
      all the same, and then answers 404, now and on every later hit. */
  method GetSingleProduct(cache: NodeCache, id: string, found: Option<string>) returns (reply: Reply)
    modifies cache
    ensures var key := ProductKey(id);
      var value := if old(key in cache.entries) then old(cache.entries[key]) else Serialized(found);
      && cache.entries == old(cache.entries)[key := value]
      && reply == if FalsyJson(value) then Failure(404, "Product not found") else Success(200, value)
    ensures old(ProductKey(id) !in cache.entries) && found.None? ==>
      cache.entries[ProductKey(id)] == NullJson && reply == Failure(404, "Product not found")
  {
    reply := ReadThrough(cache, ProductKey(id), Serialized(found), "Product not found");
  }

  // ---------------------------------------------------------------------
  // getAllProducts: pagination and the filter
  // ---------------------------------------------------------------------

  /** `SearchRequestQuery` */
  datatype SearchRequestQuery = SearchRequestQuery(
    search: Option<string>,
    sort: Option<string>,
    category: Option<string>,
    page: Option<NumericText>,
    price: Option<NumericText>)

  /** `Number(x) || fallback`: a missing, non-numeric or zero value gives
      the fallback. */
  function NumberOr(x: Option<NumericText>, fallback: int): (r: int)
    ensures (x.Some? && x.value.value.Some? && x.value.value.value != 0) ==> r == x.value.value.value
    ensures !(x.Some? && x.value.value.Some? && x.value.value.value != 0) ==> r == fallback
  {
    if x.Some? && x.value.value.Some? && x.value.value.value != 0 then x.value.value.value else fallback
  }

  /** The page asked for, 1 by default. */
  function Page(q: SearchRequestQuery): (r: int)
    ensures r != 0
  {
    NumberOr(q.page, 1)
  }

  /** Products per page: `PRODUCTS_PER_PAGE` from the environment, 8 by default. */
  function Limit(env: Option<NumericText>): (r: int)
    ensures r != 0
  {
    NumberOr(env, 8)
  }

  /** The `$lte` bound of the price filter; `None` is `Number(price)` giving NaN. */
  datatype PriceFilter = PriceAtMost(bound: Option<int>)

  /** `BaseQuery`: a case-insensitive name pattern, a price bound, a category. */
  datatype BaseQuery = BaseQuery(name: Option<string>, price: Option<PriceFilter>, category: Option<string>)

  /** The filter holds exactly the parts whose query parameter was given. */
  function BuildBaseQuery(q: SearchRequestQuery): (r: BaseQuery)
    ensures r.name.Some? <==> TruthyText(q.search)
    ensures r.name.Some? ==> r.name.value == q.search.value
    ensures r.price.Some? <==> TruthyField(q.price)
    ensures r.price.Some? ==> r.price.value.bound == q.price.value.value
    ensures r.category.Some? <==> TruthyText(q.category)
    ensures r.category.Some? ==> r.category.value == q.category.value
  {
    BaseQuery(
      if TruthyText(q.search) then Some(q.search.value) else None,
      if TruthyField(q.price) then Some(PriceAtMost(q.price.value.value)) else None,
      if TruthyText(q.category) then Some(q.category.value) else None)
  }

  /** Whether a product satisfies the filter; the case-insensitive name
      pattern's match is the parameter `nameMatches`, and a price bound that
      is not a number matches no product. */
  predicate Matches(p: Product, bq: BaseQuery, nameMatches: (string, string) -> bool)
  {
    && (bq.name.None? || nameMatches(bq.name.value, p.name))
    && (bq.price.None? || (bq.price.value.bound.Some? && p.price <= bq.price.value.bound.value))
    && (bq.category.None? || p.category == bq.category.value)
  }

  /** A product passes the built filter exactly when it passes every test
      whose query parameter is truthy; with no such parameter every product
      passes, and an empty text filters nothing. */
  lemma FilterSemantics(q: SearchRequestQuery, p: Product, nameMatches: (string, string) -> bool)
    ensures Matches(p, BuildBaseQuery(q), nameMatches) <==>
      && (!TruthyText(q.search) || nameMatches(q.search.value, p.name))
      && (!TruthyField(q.price) || (q.price.value.value.Some? && p.price <= q.price.value.value.value))
      && (!TruthyText(q.category) || p.category == q.category.value)
    ensures !TruthyText(q.search) && !TruthyField(q.price) && !TruthyText(q.category) ==>
      Matches(p, BuildBaseQuery(q), nameMatches)
  {
  }

  /** `sort && { price: sort === "asc" ? 1 : -1 }` */
  datatype SortOrder = Unsorted | ByPrice(direction: int)

  function SortOf(q: SearchRequestQuery): (r: SortOrder)
    ensures r.ByPrice? <==> TruthyText(q.sort)
    ensures r.ByPrice? ==> (r.direction == 1 <==> q.sort.value == "asc")
    ensures r.ByPrice? ==> (r.direction == 1 || r.direction == -1)
  {
    if TruthyText(q.sort) then ByPrice(if q.sort.value == "asc" then 1 else -1) else Unsorted
  }

  /** The comparison with `asc` is exact: `ASC` or `ascending` sorts by
      descending price, and an empty `sort` does not sort. */
  lemma SortIsCaseSensitive(q: SearchRequestQuery)
    ensures q.sort == Some("asc") ==> SortOf(q) == ByPrice(1)
    ensures q.sort == Some("ASC") ==> SortOf(q) == ByPrice(-1)
    ensures q.sort == Some("desc") ==> SortOf(q) == ByPrice(-1)
    ensures q.sort == Some("") || q.sort.None? ==> SortOf(q) == Unsorted
  {
  }

  /** `Math.ceil(filteredCount / limit)` */
  function TotalPages(filteredCount: nat, limit: int): (r: int)
    requires limit != 0
    ensures limit > 0 ==> (r - 1) * limit < filteredCount <= r * limit
  {
    CeilDiv(filteredCount, limit)
  }

  /** What `getAllProducts` sends to the database and answers with. */
  datatype ProductPage = ProductPage(query: BaseQuery, sort: SortOrder, limit: int, skip: int, totalPages: int)

  /** `getAllProducts`, given how many products match the filter. */
  function GetAllProducts(q: SearchRequestQuery, env: Option<NumericText>, filteredCount: nat): (r: ProductPage)
    ensures r.query == BuildBaseQuery(q) && r.sort == SortOf(q) && r.limit == Limit(env)
    ensures r.skip == (Page(q) - 1) * r.limit
    ensures r.limit > 0 ==> (r.totalPages - 1) * r.limit < filteredCount <= r.totalPages * r.limit
  {
    var page := Page(q);
    var limit := Limit(env);
    ProductPage(BuildBaseQuery(q), SortOf(q), limit, (page - 1) * limit, TotalPages(filteredCount, limit))
  }

  /** Without a usable page number the listing starts at the first product. */
  lemma DefaultPageStartsAtZero(q: SearchRequestQuery, env: Option<NumericText>, filteredCount: nat)
    requires q.page.None? || q.page.value.value.None? || q.page.value.value == Some(0)
    ensures Page(q) == 1 && GetAllProducts(q, env, filteredCount).skip == 0
    ensures env.None? ==> GetAllProducts(q, env, filteredCount).limit == 8
  {
  }

  /** A page between the first and the last starts at a matching product:
      skipping `(page - 1) * limit` products leaves at least one. */
  lemma PageWithinCountStartsOnAMatch(q: SearchRequestQuery, env: Option<NumericText>, filteredCount: nat)
    requires Limit(env) > 0 && 1 <= Page(q) <= TotalPages(filteredCount, Limit(env))
    ensures 0 <= GetAllProducts(q, env, filteredCount).skip < filteredCount
  {
    var p, l, t := Page(q), Limit(env), TotalPages(filteredCount, Limit(env));
    MulCancel(t - 1, p - 1, l);
    MulCancel(p - 1, 0, l);
  }

  /** With a positive page size, no products means no pages, and every
      matching product lies on one of the pages: its page starts before it
      and only pages up to the last one are needed. */
  lemma PagesCoverProducts(filteredCount: nat, limit: int, i: nat)
    requires limit > 0
    ensures TotalPages(filteredCount, limit) == 0 <==> filteredCount == 0
    ensures i < filteredCount ==> 0 <= i / limit < TotalPages(filteredCount, limit)
  {
    var t := TotalPages(filteredCount, limit);
    if filteredCount == 0 {
      MulCancel(t - 1, 0, limit);
      MulCancel(-1, t, limit);
    } else {
      MulCancel(0, t, limit);
    }
    if i < filteredCount {
      MulCancel(i / limit, t, limit);
    }
  }

  // ---------------------------------------------------------------------
  // newProduct, updateProduct, deleteProduct
  // ---------------------------------------------------------------------

  /** The fields of a product form, multipart text or JSON. */
  datatype ProductForm = ProductForm(
    name: Option<string>,
    price: Option<NumericText>,
    stock: Option<NumericText>,
    category: Option<string>)

  /** `!name || !price || !stock || !category` fails; the test reads the
      text, so a multipart `"0"` passes and a JSON 0 does not. */
  predicate FormFilled(f: ProductForm)
  {
    TruthyText(f.name) && TruthyField(f.price) && TruthyField(f.stock) && TruthyText(f.category)
  }

  /** The product the creation stores: the category lower-cased, then
      trimmed by the schema; `None` when the database refuses it (a number
      field that does not convert, or a category that trims to nothing). */
  function CreatedProduct(id: string, f: ProductForm, imagePath: string, today: Month): (r: Option<Product>)
    requires FormFilled(f)
    ensures r.None? <==> f.price.value.value.None? || f.stock.value.value.None? || Trim(ToLower(f.category.value)) == ""
    ensures r.Some? ==> r.value.id == id && r.value.name == f.name.value && r.value.image == imagePath
    ensures r.Some? ==> r.value.price == f.price.value.value.value && r.value.stock == f.stock.value.value.value
    ensures r.Some? ==> r.value.category == Trim(ToLower(f.category.value)) && r.value.category != ""
  {
    var category := Trim(ToLower(f.category.value));
    if f.price.value.value.None? || f.stock.value.value.None? || category == "" then None
    else Some(Product(id, f.name.value, imagePath, f.price.value.value.value, f.stock.value.value.value, category, today))
  }

  /** The update: each field is overwritten only when its new value is
      truthy; the category is trimmed but not lower-cased.  `None` when the
      database refuses the result. */
  function UpdatedProduct(p: Product, f: ProductForm, imagePath: Option<string>): (r: Option<Product>)
    ensures r.None? <==>
      (TruthyField(f.price) && f.price.value.value.None?) ||
      (TruthyField(f.stock) && f.stock.value.value.None?) ||
      (TruthyText(f.category) && Trim(f.category.value) == "")
    ensures r.Some? ==> r.value.id == p.id && r.value.createdMonth == p.createdMonth
    ensures r.Some? ==> r.value.image == (if imagePath.Some? then imagePath.value else p.image)
    ensures r.Some? ==> r.value.name == (if TruthyText(f.name) then f.name.value else p.name)
    ensures r.Some? ==> r.value.price == (if TruthyField(f.price) then f.price.value.value.value else p.price)
    ensures r.Some? ==> r.value.stock == (if TruthyField(f.stock) then f.stock.value.value.value else p.stock)
    ensures r.Some? ==> r.value.category == (if TruthyText(f.category) then Trim(f.category.value) else p.category)
  {
    if (TruthyField(f.price) && f.price.value.value.None?) ||
       (TruthyField(f.stock) && f.stock.value.value.None?) ||
       (TruthyText(f.category) && Trim(f.category.value) == "")
    then None
    else
      var p1 := if imagePath.Some? then p.(image := imagePath.value) else p;
      var p2 := if TruthyText(f.name) then p1.(name := f.name.value) else p1;
      var p3 := if TruthyField(f.price) then p2.(price := f.price.value.value.value) else p2;
      var p4 := if TruthyField(f.stock) then p3.(stock := f.stock.value.value.value) else p3;
      Some(if TruthyText(f.category) then p4.(category := Trim(f.category.value)) else p4)
  }

  /** The category a created product is stored with is normal: lower-casing
      or trimming it again changes nothing. */
  lemma CreatedCategoryNormal(id: string, f: ProductForm, imagePath: string, today: Month)
    requires FormFilled(f)
    ensures var r := CreatedProduct(id, f, imagePath, today);
      r.Some? ==> ToLower(r.value.category) == r.value.category && Trim(r.value.category) == r.value.category
  {
    LowerTrimNormal(f.category.value);
  }

  /** An empty form without an image changes nothing. */
  lemma EmptyUpdateNoChange(p: Product)
    ensures UpdatedProduct(p, ProductForm(None, None, None, None), None) == Some(p)
  {
  }

  /** A zero stock typed into the form is non-empty text and is accepted. */
  lemma ZeroStockTextAccepted(f: ProductForm)
    requires TruthyText(f.name) && TruthyField(f.price) && TruthyText(f.category)
    requires f.stock == Some(NumericText("0", Some(0)))
    ensures FormFilled(f)
  {
  }

  /** A JSON body reaches the handlers too: its number 0 is falsy, so it is
      `NumericText("", Some(0))` here.  Such a stock fails the creation check
      and is not applied by an update, which keeps the old stock. */
  lemma JsonZeroStockIgnored(p: Product, f: ProductForm, imagePath: Option<string>)
    requires f.stock == Some(NumericText("", Some(0)))
    ensures !FormFilled(f)
    ensures UpdatedProduct(p, f, imagePath).Some? ==> UpdatedProduct(p, f, imagePath).value.stock == p.stock
  {
  }

  /** The same category text, given without surrounding white space, is
      stored lower-cased on creation and as given on update, so the two
      differ exactly when the text has an upper-case letter (`Books` is
      stored as `books` and as `Books`). */
  lemma CategoryCaseDiffers(p: Product, f: ProductForm, imagePath: string, today: Month)
    requires FormFilled(f) && f.price.value.value.Some? && f.stock.value.value.Some?
    requires !IsSpace(f.category.value[0]) && !IsSpace(f.category.value[|f.category.value| - 1])
    ensures var r := CreatedProduct(p.id, f, imagePath, today); r.Some? && r.value.category == ToLower(f.category.value)
    ensures var r := UpdatedProduct(p, f, None); r.Some? && r.value.category == f.category.value
    ensures ToLower(f.category.value) == f.category.value <==> IsLower(f.category.value)
  {
    var c := f.category.value;
    var l := ToLower(c);
    TrimIdempotent(c);
    assert !IsSpace(l[0]) && !IsSpace(l[|l| - 1]);
    TrimIdempotent(l);
    ToLowerIdempotent(c);
    var created := CreatedProduct(p.id, f, imagePath, today);
    assert created.Some?;
  }

  /** `newProduct` invalidates with the product and admin flags and no id. */
  const NewProductFlags: InvalidCacheProps := InvalidCacheProps(true, true, false, None, None, NoProductId)

  /** `updateProduct` and `deleteProduct` add the product's own key. */
  function ProductChangeFlags(id: string): InvalidCacheProps
  {
    InvalidCacheProps(true, true, false, None, None, OneProductId(id))
  }

  /** `newProduct` */
  method NewProduct(db: Database, cache: NodeCache, form: ProductForm, image: Option<string>, newId: string, today: Month)
    returns (reply: Reply)
    requires db.Valid()
    requires newId !in db.products
    modifies db, cache
    ensures db.Valid()
    ensures db.orders == old(db.orders)
    ensures image.None? ==>
      reply == Failure(400, "Please upload an image") && db.products == old(db.products) && cache.entries == old(cache.entries)
    ensures image.Some? && !FormFilled(form) ==>
      reply == Failure(400, "Please fill all the fields") && db.products == old(db.products) && cache.entries == old(cache.entries)
    ensures image.Some? && FormFilled(form) ==>
      var created := CreatedProduct(newId, form, image.value, today);
      && (created.None? ==> reply == Thrown("Product validation failed")
                            && db.products == old(db.products) && cache.entries == old(cache.entries))
      && (created.Some? ==> reply == Success(201, "Product created successfully")
                            && db.products == old(db.products)[newId := created.value]
                            && cache.entries == Invalidated(old(cache.entries), NewProductFlags))
  {
    if image.None? {
      return Failure(400, "Please upload an image");
    }
    if !FormFilled(form) {
      return Failure(400, "Please fill all the fields");
    }
    var created := CreatedProduct(newId, form, image.value, today);
    if created.None? {
      return Thrown("Product validation failed");
    }
    db.products := db.products[newId := created.value];
    InvalidateCache(cache, NewProductFlags);
    reply := Success(201, "Product created successfully");
  }

  /** `updateProduct` */
  method UpdateProduct(db: Database, cache: NodeCache, id: string, form: ProductForm, image: Option<string>)
    returns (reply: Reply)
    requires db.Valid()
    modifies db, cache
    ensures db.Valid()
    ensures db.orders == old(db.orders)
    ensures id != "" && id in old(db.products) && UpdatedProduct(old(db.products[id]), form, image).Some? ==>
      ProductKey(id) !in cache.entries
    ensures id == "" ==>
      reply == Failure(400, "Please provide product id") && db.products == old(db.products) && cache.entries == old(cache.entries)
    ensures id != "" && id !in old(db.products) ==>
      reply == Failure(404, "Product Not Found") && db.products == old(db.products) && cache.entries == old(cache.entries)
    ensures id != "" && id in old(db.products) ==>
      var p := old(db.products[id]);
      var updated := UpdatedProduct(p, form, image);
      && (updated.None? ==> reply == Thrown("Product validation failed")
                            && db.products == old(db.products) && cache.entries == old(cache.entries))
      && (updated.Some? ==> reply == Success(200, "Product Updated Successfully")
                            && db.products == old(db.products)[id := updated.value]
                            && cache.entries == Invalidated(old(cache.entries), ProductChangeFlags(p.id)))
  {
    if id == "" {
      return Failure(400, "Please provide product id");
    }
    if id !in db.products {
      return Failure(404, "Product Not Found");
    }
    var product := db.products[id];
    var updated := UpdatedProduct(product, form, image);
    if updated.None? {
      return Thrown("Product validation failed");
    }
    db.products := db.products[id := updated.value];
    InvalidateCache(cache, ProductChangeFlags(product.id));
    reply := Success(200, "Product Updated Successfully");
  }

  /** `deleteProduct` */
  method DeleteProduct(db: Database, cache: NodeCache, id: string) returns (reply: Reply)
    requires db.Valid()
    modifies db, cache
    ensures db.Valid()
    ensures db.orders == old(db.orders)
    ensures id in old(db.products) ==> ProductKey(id) !in cache.entries
    ensures id !in old(db.products) ==>
      reply == Failure(404, "Product not found") && db.products == old(db.products) && cache.entries == old(cache.entries)
    ensures id in old(db.products) ==>
      && reply == Success(200, "Product deleted successfully")
      && db.products == old(db.products) - {id}
      && cache.entries == Invalidated(old(cache.entries), ProductChangeFlags(old(db.products[id]).id))
  {
    if id !in db.products {
      return Failure(404, "Product not found");
    }
    var product := db.products[id];
    db.products := db.products - {id};
    InvalidateCache(cache, ProductChangeFlags(product.id));
    reply := Success(200, "Product deleted successfully");
  }

  // ---------------------------------------------------------------------
  // Key discipline
  // ---------------------------------------------------------------------

  /** Changing one product deletes its own key, the three lists and the
      dashboards, and keeps the order keys and the keys of other products. */
  lemma ProductChangeKeys(m: map<string, string>, id: string, other: string, user: Option<string>, order: Option<string>)
    requires other != id
    ensures var r := Invalidated(m, ProductChangeFlags(id));
      && ProductKey(id) !in r
      && (forall k :: k in FixedProductKeys + AdminKeys ==> k !in r)
      && (ProductKey(other) in m ==> ProductKey(other) in r)
      && (forall k :: k in ["allOrders", MyOrdersKey(user), SingleOrderKey(order)] && k in m ==> k in r && r[k] == m[k])
  {
    ProductKeyInjective(id, other);
    NonProductKeysSurvive(m, ProductChangeFlags(id), user, order, other);
  }

  /** Creating a product keeps every cached single product. */
  lemma NewProductKeepsSingles(m: map<string, string>, id: string)
    requires ProductKey(id) in m
    ensures ProductKey(id) in Invalidated(m, NewProductFlags)
    ensures forall k :: k in FixedProductKeys + AdminKeys ==> k !in Invalidated(m, NewProductFlags)
  {
    NonProductKeysSurvive(m, NewProductFlags, None, None, id);
  }

  /** Without the order flag, order keys survive, and a product key survives
      unless that product is named. */
  lemma NonProductKeysSurvive(m: map<string, string>, props: InvalidCacheProps, user: Option<string>, order: Option<string>, id: string)
    requires !props.order
    ensures forall k :: k in ["allOrders", MyOrdersKey(user), SingleOrderKey(order)] && k in m ==>
      k in Invalidated(m, props) && Invalidated(m, props)[k] == m[k]
    ensures !NamesProduct(props.productId, id) && ProductKey(id) in m ==> ProductKey(id) in Invalidated(m, props)
  {
    var u := MyOrdersKey(user);
    var o := SingleOrderKey(order);
    assert u[0] == 'm' && o[0] == 's';
    assert "allOrders"[3] == 'O';
    forall k | k in ["allOrders", u, o]
      ensures k !in InvalidationKeys(props)
    {
      assert k[0] != 'p';
      match props.productId {
        case NoProductId =>
        case OneProductId(x) => assert ProductKey(x)[0] == 'p';
        case ProductIdList(ids) =>
          forall x | x in ids ensures k != ProductKey(x) { assert ProductKey(x)[0] == 'p'; }
      }
    }
    var pk := ProductKey(id);
    assert pk[0] == 'p' && pk[1] == 'r';
    if !NamesProduct(props.productId, id) {
      match props.productId {
        case NoProductId =>
        case OneProductId(x) => ProductKeyInjective(x, id);
        case ProductIdList(ids) =>
          forall x | x in ids ensures pk != ProductKey(x) { ProductKeyInjective(x, id); }
      }
      assert "pie-charts"[1] == 'i';
      assert pk !in InvalidationKeys(props);
    }
  }
}
