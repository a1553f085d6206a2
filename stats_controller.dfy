/** The admin dashboards (src/controllers/stats.ts): the dashboard summary,
    the pie charts, the bar charts and the line charts.  Each is read through
    its own cache key and otherwise computed from the collections, which
    arrive as inputs, and from the results of the date-range queries, which
    are inputs too. */
module StatsController {
  import opened Common
  import opened Caching
  import opened Documents
  import opened DbCharts
  import opened UserModel

  // ---------------------------------------------------------------------
  // Sums over orders and the records the charts read
  // ---------------------------------------------------------------------

  /** The order fields the dashboards add up. */
  datatype OrderField = TotalField | DiscountField | ShippingChargesField | TaxField

  function FieldValue(o: Order, f: OrderField): Option<int>
  {
    match f
    case TotalField => o.total
    case DiscountField => o.discount
    case ShippingChargesField => o.shippingCharges
    case TaxField => o.tax
  }

  /** `orders.reduce((acc, order) => acc + (order[field] || 0), 0)` */
  function SumOf(orders: seq<Order>, f: OrderField): int
  {
    if orders == [] then 0 else OrZero(FieldValue(orders[0], f)) + SumOf(orders[1..], f)
  }

  /** The values of the field over the orders that carry it, in order. */
  function Recorded(orders: seq<Order>, f: OrderField): (r: seq<int>)
    ensures |r| <= |orders|
  {
    if orders == [] then []
    else (if FieldValue(orders[0], f).Some? then [FieldValue(orders[0], f).value] else []) + Recorded(orders[1..], f)
  }

  /** `reduce` with `|| 0` adds exactly the recorded values: an order
      without the field counts as nothing, not as a failure. */
  lemma {:induction false} SumOfRecorded(orders: seq<Order>, f: OrderField)
    ensures SumOf(orders, f) == Sum(Recorded(orders, f))
  {
    if orders != [] {
      SumOfRecorded(orders[1..], f);
      var v := FieldValue(orders[0], f);
      if v.Some? {
        SumCons(v.value, Recorded(orders[1..], f));
      } else {
        assert Recorded(orders, f) == Recorded(orders[1..], f);
      }
    }
  }

  /** Orders without the field add nothing. */
  lemma {:induction false} SumOfMissing(orders: seq<Order>, f: OrderField)
    requires forall i :: 0 <= i < |orders| ==> FieldValue(orders[i], f).None?
    ensures SumOf(orders, f) == 0
  {
    if orders != [] {
      assert forall i :: 0 <= i < |orders[1..]| ==> orders[1..][i] == orders[i + 1];
      SumOfMissing(orders[1..], f);
    }
  }

  /** The records `getChartData` reads from orders. */
  function OrderDocs(orders: seq<Order>): (r: seq<Doc>)
    ensures |r| == |orders|
    ensures forall i :: 0 <= i < |orders| ==>
      r[i].createdMonth == orders[i].createdMonth && r[i].discount == orders[i].discount && r[i].total == orders[i].total
  {
    seq(|orders|, i requires 0 <= i < |orders| => Doc(orders[i].createdMonth, orders[i].discount, orders[i].total))
  }

  /** The records `getChartData` reads from products: only the creation month. */
  function ProductDocs(products: seq<Product>): (r: seq<Doc>)
    ensures |r| == |products|
    ensures forall i :: 0 <= i < |products| ==> r[i] == Doc(products[i].createdMonth, None, None)
  {
    seq(|products|, i requires 0 <= i < |products| => Doc(products[i].createdMonth, None, None))
  }

  /** The records `getChartData` reads from users, built like `ProductDocs`. */
  function UserDocs(users: seq<User>): seq<Doc>
  {
    seq(|users|, i requires 0 <= i < |users| => Doc(users[i].createdMonth, None, None))
  }

  /** Every order carries a total. */
  predicate AllTotals(orders: seq<Order>)
  {
    forall i :: 0 <= i < |orders| ==> orders[i].total.Some?
  }

  /** Over a whole year the total-mode buckets of the orders add up to their
      revenue. */
  lemma {:induction false} YearRevenue(orders: seq<Order>, today: Month)
    requires AllTotals(orders)
    ensures Carries(OrderDocs(orders), Some(Total))
    ensures WindowTotal(12, OrderDocs(orders), today, Some(Total)) == SumOf(orders, TotalField)
  {
    if orders != [] {
      assert OrderDocs(orders)[1..] == OrderDocs(orders[1..]);
      assert forall i :: 0 <= i < |orders[1..]| ==> orders[1..][i] == orders[i + 1];
      YearRevenue(orders[1..], today);
    }
  }

  /** The same for discounts. */
  lemma {:induction false} YearDiscount(orders: seq<Order>, today: Month)
    requires forall i :: 0 <= i < |orders| ==> orders[i].discount.Some?
    ensures Carries(OrderDocs(orders), Some(Discount))
    ensures WindowTotal(12, OrderDocs(orders), today, Some(Discount)) == SumOf(orders, DiscountField)
  {
    if orders != [] {
      assert OrderDocs(orders)[1..] == OrderDocs(orders[1..]);
      assert forall i :: 0 <= i < |orders[1..]| ==> orders[1..][i] == orders[i + 1];
      YearDiscount(orders[1..], today);
    }
  }

  /** The read-through every dashboard shares: `cache.has(key)` answers the
      cached text, otherwise the computed one is stored and answered. */
  method ReadThrough(cache: NodeCache, key: string, computed: string) returns (reply: Reply)
    modifies cache
    ensures var value := if old(key in cache.entries) then old(cache.entries[key]) else computed;
      cache.entries == old(cache.entries)[key := value] && reply == Success(200, value)
  {
    if cache.Has(key) {
      reply := Success(200, cache.Get(key).value);
    } else {
      cache.Set(key, computed);
      reply := Success(200, computed);
    }
  }

  // ---------------------------------------------------------------------
  // getDashboardStats
  // ---------------------------------------------------------------------

  /** What the dashboard summary reads: the collections, and the results of
      its date-range queries (this month from its first day up to today,
      last month from its first day up to the start of its last day, the
      last six months). */
  datatype DashboardInput = DashboardInput(
    today: Date,
    products: seq<Product>,
    users: seq<User>,
    orders: seq<Order>,
    categories: seq<string>,
    thisMonthProducts: nat,
    lastMonthProducts: nat,
    thisMonthUsers: nat,
    lastMonthUsers: nat,
    thisMonthOrders: seq<Order>,
    lastMonthOrders: seq<Order>,
    lastSixMonthsOrders: seq<Order>)

  datatype ChangePercent = ChangePercent(revenue: int, product: int, user: int, order: int)

  datatype Count = Count(revenue: int, product: nat, user: nat, order: nat)

  datatype GenderRatio = GenderRatio(male: nat, female: int)

  /** One entry of `latestTransactions`. */
  datatype Transaction = Transaction(id: string, discount: Option<int>, amount: Option<int>, quantity: nat, status: Status)

  datatype DashboardStats = DashboardStats(
    categoryCount: seq<CategoryShare>,
    changePercent: ChangePercent,
    count: Count,
    orderChart: seq<int>,
    revenueChart: seq<int>,
    userGenderRatio: GenderRatio,
    latestTransactions: seq<Transaction>)

  /** `Product.countDocuments({ category })`: never more than all products. */
  function CategoryCount(products: seq<Product>, category: string): (r: nat)
    ensures r <= |products|
  {
    CountWhere(products, (p: Product) => p.category == category)
  }

  /** `Order.find({}).limit(4)`, each order reduced to a transaction: the
      first four orders, or all of them when there are fewer, in order. */
  function LatestTransactions(orders: seq<Order>): (r: seq<Transaction>)
    ensures |r| == if |orders| <= 4 then |orders| else 4
    ensures forall i :: 0 <= i < |r| ==>
      r[i].id == orders[i].id && r[i].amount == orders[i].total && r[i].discount == orders[i].discount
      && r[i].quantity == |orders[i].orderItems| && r[i].status == orders[i].status
  {
    var latest := if |orders| <= 4 then orders else orders[..4];
    seq(|latest|, i requires 0 <= i < |latest| =>
      Transaction(latest[i].id, latest[i].discount, latest[i].total, |latest[i].orderItems|, latest[i].status))
  }

  /** The dashboard summary as computed on a cache miss: one share per
      category, two six-month charts, at most four transactions, and a
      gender split that is never negative. */
  function Dashboard(input: DashboardInput): (r: DashboardStats)
    requires AllTotals(input.lastSixMonthsOrders)
    ensures |r.categoryCount| == |input.categories|
    ensures |r.orderChart| == 6 && |r.revenueChart| == 6
    ensures |r.latestTransactions| <= 4
    ensures r.count.order == |input.orders| && r.count.product == |input.products| && r.count.user == |input.users|
    ensures 0 <= r.userGenderRatio.female <= |input.users|
  {
    YearRevenue(input.lastSixMonthsOrders, input.today.month);
    var docs := OrderDocs(input.lastSixMonthsOrders);
    var usersCount := |input.users|;
    var maleUsersCount := CountWhere(input.users, (u: User) => u.gender == Male);
    DashboardStats(
      GetInventories(input.categories, c => CategoryCount(input.products, c), |input.products|),
      ChangePercent(
        CalculatePercentage(SumOf(input.thisMonthOrders, TotalField), SumOf(input.lastMonthOrders, TotalField)),
        CalculatePercentage(input.thisMonthProducts, input.lastMonthProducts),
        CalculatePercentage(input.thisMonthUsers, input.lastMonthUsers),
        CalculatePercentage(|input.thisMonthOrders|, |input.lastMonthOrders|)),
      Count(SumOf(input.orders, TotalField), |input.products|, usersCount, |input.orders|),
      Bucketize(6, docs, input.today.month, None),
      Bucketize(6, docs, input.today.month, Some(Total)),
      GenderRatio(maleUsersCount, usersCount - maleUsersCount),
      LatestTransactions(input.orders))
  }

  /** The two dashboard charts: six monthly slots each, holding the orders of
      the last six months by count and by total. */
  lemma DashboardCharts(input: DashboardInput)
    requires AllTotals(input.lastSixMonthsOrders)
    ensures var s := Dashboard(input);
      var docs := OrderDocs(input.lastSixMonthsOrders);
      && |s.orderChart| == 6 && |s.revenueChart| == 6
      && Sum(s.orderChart) == CountInWindow(6, docs, input.today.month)
      && Sum(s.revenueChart) == WindowTotal(6, docs, input.today.month, Some(Total))
      && Sum(s.orderChart) <= |input.lastSixMonthsOrders|
  {
    var docs := OrderDocs(input.lastSixMonthsOrders);
    YearRevenue(input.lastSixMonthsOrders, input.today.month);
    CountBucketsSum(6, docs, input.today.month);
    BucketizeSum(6, docs, input.today.month, Some(Total));
    CountInWindowBound(6, docs, input.today.month);
  }

  lemma {:induction false} CountInWindowBound(length: nat, docs: seq<Doc>, today: Month)
    ensures CountInWindow(length, docs, today) <= |docs|
  {
    if docs != [] {
      CountInWindowBound(length, docs[1..], today);
    }
  }

  /** The gender ratio splits all users into the men and the women. */
  lemma GenderSplit(input: DashboardInput)
    requires AllTotals(input.lastSixMonthsOrders)
    ensures var g := Dashboard(input).userGenderRatio;
      && g.male + g.female == |input.users|
      && g.female == CountWhere(input.users, (u: User) => u.gender == Female)
  {
    CountComplement(input.users, (u: User) => u.gender == Male, (u: User) => u.gender == Female);
  }

  /** The revenue is the sum of the totals the orders record; an order
      without a total adds nothing. */
  lemma RevenueOfRecordedTotals(input: DashboardInput)
    requires AllTotals(input.lastSixMonthsOrders)
    ensures Dashboard(input).count.revenue == Sum(Recorded(input.orders, TotalField))
  {
    SumOfRecorded(input.orders, TotalField);
  }

  /** With at least one product every category share on the dashboard and on
      the pie chart is a percentage between 0 and 100. */
  lemma CategorySharesArePercentages(input: DashboardInput, pie: PieInput)
    requires AllTotals(input.lastSixMonthsOrders)
    ensures |input.products| > 0 ==> forall i :: 0 <= i < |input.categories| ==>
      var share := Dashboard(input).categoryCount[i];
      share.percent.Some? && 0 <= share.percent.value <= 100
    ensures |pie.products| > 0 ==> forall i :: 0 <= i < |pie.categories| ==>
      var share := Pie(pie).productCategories[i];
      share.percent.Some? && 0 <= share.percent.value <= 100
  {
    if |input.products| > 0 {
      InventoriesBounded(input.categories, c => CategoryCount(input.products, c), |input.products|);
    }
    if |pie.products| > 0 {
      InventoriesBounded(pie.categories, c => CategoryCount(pie.products, c), |pie.products|);
    }
  }

  /** `getDashboardStats`; on a miss the two charts come from `getChartData`. */
  method GetDashboardStats(cache: NodeCache, input: DashboardInput, encode: DashboardStats -> string) returns (reply: Reply)
    requires "stats" !in cache.entries ==> AllTotals(input.lastSixMonthsOrders)
    modifies cache
    ensures var value := if old("stats" in cache.entries) then old(cache.entries["stats"]) else encode(Dashboard(input));
      cache.entries == old(cache.entries)["stats" := value] && reply == Success(200, value)
  {
    var key := "stats";
    if cache.Has(key) {
      reply := Success(200, cache.Get(key).value);
      return;
    }
    YearRevenue(input.lastSixMonthsOrders, input.today.month);
    var docs := OrderDocs(input.lastSixMonthsOrders);
    var orderMonthCounts := GetChartData(6, docs, input.today.month, None);
    var orderMonthlyRevenue := GetChartData(6, docs, input.today.month, Some(Total));
    var usersCount := |input.users|;
    var maleUsersCount := CountWhere(input.users, (u: User) => u.gender == Male);
    var stats := DashboardStats(
      GetInventories(input.categories, c => CategoryCount(input.products, c), |input.products|),
      ChangePercent(
        CalculatePercentage(SumOf(input.thisMonthOrders, TotalField), SumOf(input.lastMonthOrders, TotalField)),
        CalculatePercentage(input.thisMonthProducts, input.lastMonthProducts),
        CalculatePercentage(input.thisMonthUsers, input.lastMonthUsers),
        CalculatePercentage(|input.thisMonthOrders|, |input.lastMonthOrders|)),
      Count(SumOf(input.orders, TotalField), |input.products|, usersCount, |input.orders|),
      orderMonthCounts[..],
      orderMonthlyRevenue[..],
      GenderRatio(maleUsersCount, usersCount - maleUsersCount),
      LatestTransactions(input.orders));
    assert stats == Dashboard(input);
    cache.Set(key, encode(stats));
    reply := Success(200, encode(stats));
  }

  // ---------------------------------------------------------------------
  // getPieChart
  // ---------------------------------------------------------------------

  /** What the pie charts read: the three collections and today, for ages. */
  datatype PieInput = PieInput(today: Date, orders: seq<Order>, products: seq<Product>, categories: seq<string>, users: seq<User>)

  datatype OrderFulfillment = OrderFulfillment(processing: nat, shipped: nat, delivered: nat)

  datatype StockAvailability = StockAvailability(inStock: int, outOfStock: nat)

  datatype RevenueDistribution = RevenueDistribution(netMargin: int, discount: int, productionCost: int, burnt: int, marketingCost: int)

  datatype AgeGroups = AgeGroups(teen: nat, adult: nat, senior: nat)

  datatype AdminCustomer = AdminCustomer(admin: nat, customer: nat)

  datatype PieCharts = PieCharts(
    orderFullfillment: OrderFulfillment,
    productCategories: seq<CategoryShare>,
    stockAvailability: StockAvailability,
    revenueDistribution: RevenueDistribution,
    usersAgeGroup: AgeGroups,
    adminCustomer: AdminCustomer)

  /** `revenueDistribution`: the total less discounts, shipping charges
      (called production cost), tax (called burnt) and a marketing cost of
      a fifth of the gross income, rounded. */
  function Distribution(orders: seq<Order>): (r: RevenueDistribution)
    ensures r.netMargin + r.discount + r.productionCost + r.burnt + r.marketingCost == SumOf(orders, TotalField)
    ensures 10 * r.marketingCost - 5 <= 2 * SumOf(orders, TotalField) < 10 * r.marketingCost + 5
  {
    var grossIncome := SumOf(orders, TotalField);
    var discount := SumOf(orders, DiscountField);
    var productionCost := SumOf(orders, ShippingChargesField);
    var burnt := SumOf(orders, TaxField);
    var marketingCost := RoundDiv(grossIncome, 5);
    RevenueDistribution(grossIncome - discount - productionCost - burnt - marketingCost,
                        discount, productionCost, burnt, marketingCost)
  }

  /** The pie charts as computed on a cache miss: one share per category,
      and an in-stock count that is never negative. */
  function Pie(input: PieInput): (r: PieCharts)
    ensures |r.productCategories| == |input.categories|
    ensures 0 <= r.stockAvailability.inStock <= |input.products|
  {
    var productsCount := |input.products|;
    var productsOutOfStock := CountWhere(input.products, (p: Product) => p.stock == 0);
    var users := input.users;
    PieCharts(
      OrderFulfillment(
        CountWhere(input.orders, (o: Order) => o.status == Processing),
        CountWhere(input.orders, (o: Order) => o.status == Shipped),
        CountWhere(input.orders, (o: Order) => o.status == Delivered)),
      GetInventories(input.categories, c => CategoryCount(input.products, c), productsCount),
      StockAvailability(productsCount - productsOutOfStock, productsOutOfStock),
      Distribution(input.orders),
      AgeGroups(
        CountWhere(users, (u: User) => Age(input.today, u.dob) < 20),
        CountWhere(users, (u: User) => 20 <= Age(input.today, u.dob) < 40),
        CountWhere(users, (u: User) => Age(input.today, u.dob) >= 40)),
      AdminCustomer(
        CountWhere(users, (u: User) => u.role == Admin),
        CountWhere(users, (u: User) => u.role == Customer)))
  }

  /** Every order is in exactly one fulfilment state. */
  lemma FulfillmentCoversOrders(input: PieInput)
    ensures var f := Pie(input).orderFullfillment;
      f.processing + f.shipped + f.delivered == |input.orders|
  {
    CountPartition3(input.orders, (o: Order) => o.status == Processing,
                    (o: Order) => o.status == Shipped, (o: Order) => o.status == Delivered);
  }

  /** In stock means a stock other than zero (a negative stock counts as in
      stock); the two parts make up all products. */
  lemma StockSplit(input: PieInput)
    ensures var s := Pie(input).stockAvailability;
      && s.inStock + s.outOfStock == |input.products|
      && s.inStock == CountWhere(input.products, (p: Product) => p.stock != 0)
  {
    CountComplement(input.products, (p: Product) => p.stock == 0, (p: Product) => p.stock != 0);
  }

  /** The revenue distribution of the pie charts splits the totals the
      orders actually record; its discount, production cost and burnt parts
      are the recorded discounts, shipping charges and taxes, an order
      without the field adding nothing. */
  lemma DistributionSplitsIncome(input: PieInput)
    ensures var d := Pie(input).revenueDistribution;
      && d.netMargin + d.discount + d.productionCost + d.burnt + d.marketingCost
           == Sum(Recorded(input.orders, TotalField))
      && d.discount == Sum(Recorded(input.orders, DiscountField))
      && d.productionCost == Sum(Recorded(input.orders, ShippingChargesField))
      && d.burnt == Sum(Recorded(input.orders, TaxField))
  {
    SumOfRecorded(input.orders, TotalField);
    SumOfRecorded(input.orders, DiscountField);
    SumOfRecorded(input.orders, ShippingChargesField);
    SumOfRecorded(input.orders, TaxField);
  }

  /** Every user falls in exactly one age group. */
  lemma AgeGroupsCoverUsers(input: PieInput)
    ensures var g := Pie(input).usersAgeGroup;
      g.teen + g.adult + g.senior == |input.users|
  {
    CountPartition3(input.users, (u: User) => Age(input.today, u.dob) < 20,
                    (u: User) => 20 <= Age(input.today, u.dob) < 40, (u: User) => Age(input.today, u.dob) >= 40);
  }

  /** Every user is an admin or a customer. */
  lemma RolesCoverUsers(input: PieInput)
    ensures var a := Pie(input).adminCustomer;
      a.admin + a.customer == |input.users|
  {
    CountComplement(input.users, (u: User) => u.role == Admin, (u: User) => u.role == Customer);
  }

  /** `getPieChart` */
  method GetPieChart(cache: NodeCache, input: PieInput, encode: PieCharts -> string) returns (reply: Reply)
    modifies cache
    ensures var value := if old("pie-charts" in cache.entries) then old(cache.entries["pie-charts"]) else encode(Pie(input));
      cache.entries == old(cache.entries)["pie-charts" := value] && reply == Success(200, value)
  {
    reply := ReadThrough(cache, "pie-charts", encode(Pie(input)));
  }

  // ---------------------------------------------------------------------
  // getBarCharts and getLineCharts
  // ---------------------------------------------------------------------

  /** What the bar charts read: the users and products of the last six
      months and the orders of the last twelve. */
  datatype BarInput = BarInput(today: Month, users: seq<User>, products: seq<Product>, orders: seq<Order>)

  datatype BarCharts = BarCharts(users: seq<int>, products: seq<int>, orders: seq<int>)

  /** The bar charts as written: the queries are destructured as
      `[products, users, orders]` though they run users first, and the
      results are stored under swapped names again. */
  function Bars(input: BarInput): (r: BarCharts)
    ensures |r.users| == 6 && |r.products| == 6 && |r.orders| == 12
  {
    var products := UserDocs(input.users);
    var users := ProductDocs(input.products);
    var productsCount := Bucketize(6, products, input.today, None);
    var usersCount := Bucketize(6, users, input.today, None);
    var ordersCount := Bucketize(12, OrderDocs(input.orders), input.today, None);
    BarCharts(productsCount, usersCount, ordersCount)
  }

  /** The two swaps cancel: the `users` series counts users and the
      `products` series counts products, six months each; the order series
      spans twelve months and counts every order it is given. */
  lemma BarsLabels(input: BarInput)
    ensures var b := Bars(input);
      && b.users == Bucketize(6, UserDocs(input.users), input.today, None)
      && b.products == Bucketize(6, ProductDocs(input.products), input.today, None)
      && |b.users| == 6 && |b.products| == 6 && |b.orders| == 12
      && Sum(b.orders) == |input.orders|
  {
    CountBucketsSum(12, OrderDocs(input.orders), input.today);
    YearWindowKeepsAll(12, OrderDocs(input.orders), input.today);
  }

  /** `getBarCharts` */
  method GetBarCharts(cache: NodeCache, input: BarInput, encode: BarCharts -> string) returns (reply: Reply)
    modifies cache
    ensures var value := if old("bar-charts" in cache.entries) then old(cache.entries["bar-charts"]) else encode(Bars(input));
      cache.entries == old(cache.entries)["bar-charts" := value] && reply == Success(200, value)
  {
    var key := "bar-charts";
    if cache.Has(key) {
      reply := Success(200, cache.Get(key).value);
      return;
    }
    var products := UserDocs(input.users);
    var users := ProductDocs(input.products);
    var productsCount := GetChartData(6, products, input.today, None);
    var usersCount := GetChartData(6, users, input.today, None);
    var ordersCount := GetChartData(12, OrderDocs(input.orders), input.today, None);
    var barCharts := BarCharts(productsCount[..], usersCount[..], ordersCount[..]);
    cache.Set(key, encode(barCharts));
    reply := Success(200, encode(barCharts));
  }

  /** What the line charts read: products, users and orders of the last
      twelve months. */
  datatype LineInput = LineInput(today: Month, products: seq<Product>, users: seq<User>, orders: seq<Order>)

  datatype LineCharts = LineCharts(users: seq<int>, products: seq<int>, discount: seq<int>, revenue: seq<int>)

  /** Every order carries a discount and a total. */
  predicate LineReady(orders: seq<Order>)
  {
    forall i :: 0 <= i < |orders| ==> orders[i].discount.Some? && orders[i].total.Some?
  }

  /** The line charts as written: the series named `users` is built from the
      product query and the one named `products` from the user query. */
  function Lines(input: LineInput): (r: LineCharts)
    requires LineReady(input.orders)
    ensures |r.users| == 12 && |r.products| == 12 && |r.discount| == 12 && |r.revenue| == 12
  {
    var docs := OrderDocs(input.orders);
    var productsCount := Bucketize(12, ProductDocs(input.products), input.today, None);
    var usersCount := Bucketize(12, UserDocs(input.users), input.today, None);
    LineCharts(productsCount, usersCount, Bucketize(12, docs, input.today, Some(Discount)),
               Bucketize(12, docs, input.today, Some(Total)))
  }

  /** Over twelve months nothing is dropped: the `users` series adds up to
      the number of products, the `products` series to the number of users,
      and the discount and revenue series to the orders' sums. */
  lemma LinesTotals(input: LineInput)
    requires LineReady(input.orders)
    ensures var l := Lines(input);
      && Sum(l.users) == |input.products| && Sum(l.products) == |input.users|
      && Sum(l.discount) == SumOf(input.orders, DiscountField)
      && Sum(l.revenue) == SumOf(input.orders, TotalField)
  {
    var docs := OrderDocs(input.orders);
    CountBucketsSum(12, ProductDocs(input.products), input.today);
    YearWindowKeepsAll(12, ProductDocs(input.products), input.today);
    CountBucketsSum(12, UserDocs(input.users), input.today);
    YearWindowKeepsAll(12, UserDocs(input.users), input.today);
    YearDiscount(input.orders, input.today);
    YearRevenue(input.orders, input.today);
    BucketizeSum(12, docs, input.today, Some(Discount));
    BucketizeSum(12, docs, input.today, Some(Total));
  }

  /** `getLineCharts` */
  method GetLineCharts(cache: NodeCache, input: LineInput, encode: LineCharts -> string) returns (reply: Reply)
    requires "line-charts" !in cache.entries ==> LineReady(input.orders)
    modifies cache
    ensures var value := if old("line-charts" in cache.entries) then old(cache.entries["line-charts"]) else encode(Lines(input));
      cache.entries == old(cache.entries)["line-charts" := value] && reply == Success(200, value)
  {
    var key := "line-charts";
    if cache.Has(key) {
      reply := Success(200, cache.Get(key).value);
      return;
    }
    var docs := OrderDocs(input.orders);
    YearDiscount(input.orders, input.today);
    YearRevenue(input.orders, input.today);
    var productsCount := GetChartData(12, ProductDocs(input.products), input.today, None);
    var usersCount := GetChartData(12, UserDocs(input.users), input.today, None);
    var discount := GetChartData(12, docs, input.today, Some(Discount));
    var revenue := GetChartData(12, docs, input.today, Some(Total));
    var lineCharts := LineCharts(productsCount[..], usersCount[..], discount[..], revenue[..]);
    cache.Set(key, encode(lineCharts));
    reply := Success(200, encode(lineCharts));
  }
}
