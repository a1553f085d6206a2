/** The arithmetic of the dashboard (src/utils/db.ts): bucketing records into
    trailing calendar months (`getChartData`), the month-over-month ratio
    (`calculatePercentage`) and each category's rounded share of all products
    (the rounding in `getInventories`).  Records are reduced to the month
    number of their creation date; fractional arithmetic is done over
    integers. */
module DbCharts {
  import opened Common
  import opened Documents

  // ---------------------------------------------------------------------
  // getChartData
  // ---------------------------------------------------------------------

  /** The field a chart may sum instead of counting. */
  datatype Property = Discount | Total

  /** The shape `getChartData` reads: a creation month and two optional numbers. */
  datatype Doc = Doc(createdMonth: Month, discount: Option<int>, total: Option<int>)

  function FieldOf(d: Doc, property: Property): Option<int>
  {
    match property
    case Discount => d.discount
    case Total => d.total
  }

  /** The source reads `i[property]!`: with a property, every record must
      carry that field. */
  predicate Carries(docs: seq<Doc>, property: Option<Property>)
  {
    property.Some? ==> forall i :: 0 <= i < |docs| ==> FieldOf(docs[i], property.value).Some?
  }

  /** `(today.getMonth() - creationDate.getMonth() + 12) % 12`: how many
      months before today's month the record's month lies, modulo a year. */
  function MonthDiff(today: Month, created: Month): (r: nat)
    ensures r < 12
    ensures (created + r) % 12 == today
    ensures r == 0 <==> created == today
  {
    (today - created + 12) % 12
  }

  /** A record counts when its month difference is below the window length. */
  predicate InWindow(length: nat, today: Month, d: Doc)
  {
    MonthDiff(today, d.createdMonth) < length
  }

  /** `length - monthDiff - 1`, the slot a record in the window lands in. */
  function BucketIndex(length: nat, today: Month, d: Doc): (r: nat)
    requires InWindow(length, today, d)
    ensures r < length
  {
    length - MonthDiff(today, d.createdMonth) - 1
  }

  /** `property ? i[property]! : 1` */
  function Contribution(d: Doc, property: Option<Property>): int
    requires property.Some? ==> FieldOf(d, property.value).Some?
  {
    if property.Some? then FieldOf(d, property.value).value else 1
  }

  /** The array after the `forEach` has visited every record, in order. */
  function Bucketize(length: nat, docs: seq<Doc>, today: Month, property: Option<Property>): (r: seq<int>)
    requires Carries(docs, property)
    ensures |r| == length
    decreases |docs|
  {
    if docs == [] then seq(length, _ => 0)
    else
      var prefix := docs[..|docs| - 1];
      assert Carries(prefix, property) by {
        assert forall i :: 0 <= i < |prefix| ==> prefix[i] == docs[i];
      }
      var prev := Bucketize(length, prefix, today, property);
      var d := docs[|docs| - 1];
      if InWindow(length, today, d) then
        var k := BucketIndex(length, today, d);
        prev[k := prev[k] + Contribution(d, property)]
      else prev
  }

  /** `getChartData({length, docArr, today, property})`: a fresh array of
      `length` zeros, then one accumulation per record in the window. */
  method GetChartData(length: nat, docArr: seq<Doc>, today: Month, property: Option<Property>)
    returns (data: array<int>)
    requires Carries(docArr, property)
    ensures fresh(data)
    ensures data.Length == length
    ensures data[..] == Bucketize(length, docArr, today, property)
  {
    data := new int[length](_ => 0);
    assert data[..] == seq(length, _ => 0);
    var n := 0;
    while n < |docArr|
      invariant 0 <= n <= |docArr|
      invariant Carries(docArr[..n], property)
      invariant data[..] == Bucketize(length, docArr[..n], today, property)
    {
      var i := docArr[n];
      assert docArr[..n + 1][..n] == docArr[..n] && docArr[..n + 1][n] == i;
      var monthDiff := MonthDiff(today, i.createdMonth);
      if monthDiff < length {
        var monthIndex := length - monthDiff - 1;
        data[monthIndex] := data[monthIndex] + (if property.Some? then FieldOf(i, property.value).value else 1);
      }
      n := n + 1;
    }
    assert docArr[..n] == docArr;
  }

  // ---------------------------------------------------------------------
  // Independent descriptions of the buckets
  // ---------------------------------------------------------------------

  /** What the records contribute to slot `j`, read front to back. */
  function SlotTotal(length: nat, docs: seq<Doc>, today: Month, property: Option<Property>, j: nat): int
    requires Carries(docs, property)
    decreases |docs|
  {
    if docs == [] then 0
    else
      var d := docs[0];
      assert Carries(docs[1..], property) by {
        assert forall i :: 0 <= i < |docs[1..]| ==> docs[1..][i] == docs[i + 1];
      }
      (if InWindow(length, today, d) && BucketIndex(length, today, d) == j then Contribution(d, property) else 0)
      + SlotTotal(length, docs[1..], today, property, j)
  }

  /** What all records in the window contribute together. */
  function WindowTotal(length: nat, docs: seq<Doc>, today: Month, property: Option<Property>): int
    requires Carries(docs, property)
    decreases |docs|
  {
    if docs == [] then 0
    else
      var d := docs[0];
      assert Carries(docs[1..], property) by {
        assert forall i :: 0 <= i < |docs[1..]| ==> docs[1..][i] == docs[i + 1];
      }
      (if InWindow(length, today, d) then Contribution(d, property) else 0)
      + WindowTotal(length, docs[1..], today, property)
  }

  /** How many records lie in the window. */
  function CountInWindow(length: nat, docs: seq<Doc>, today: Month): nat
    decreases |docs|
  {
    if docs == [] then 0
    else (if InWindow(length, today, docs[0]) then 1 else 0) + CountInWindow(length, docs[1..], today)
  }

  lemma {:induction false} SlotTotalSnoc(length: nat, docs: seq<Doc>, today: Month, property: Option<Property>, j: nat)
    requires |docs| > 0 && Carries(docs, property)
    ensures Carries(docs[..|docs| - 1], property)
    ensures var d := docs[|docs| - 1];
      SlotTotal(length, docs, today, property, j) ==
        SlotTotal(length, docs[..|docs| - 1], today, property, j) +
        (if InWindow(length, today, d) && BucketIndex(length, today, d) == j then Contribution(d, property) else 0)
    decreases |docs|
  {
    assert forall i :: 0 <= i < |docs| - 1 ==> docs[..|docs| - 1][i] == docs[i];
    if |docs| > 1 {
      assert docs[1..][..|docs[1..]| - 1] == docs[..|docs| - 1][1..];
      SlotTotalSnoc(length, docs[1..], today, property, j);
    }
  }

  lemma {:induction false} WindowTotalSnoc(length: nat, docs: seq<Doc>, today: Month, property: Option<Property>)
    requires |docs| > 0 && Carries(docs, property)
    ensures Carries(docs[..|docs| - 1], property)
    ensures var d := docs[|docs| - 1];
      WindowTotal(length, docs, today, property) ==
        WindowTotal(length, docs[..|docs| - 1], today, property) +
        (if InWindow(length, today, d) then Contribution(d, property) else 0)
    decreases |docs|
  {
    assert forall i :: 0 <= i < |docs| - 1 ==> docs[..|docs| - 1][i] == docs[i];
    if |docs| > 1 {
      assert docs[1..][..|docs[1..]| - 1] == docs[..|docs| - 1][1..];
      WindowTotalSnoc(length, docs[1..], today, property);
    }
  }

  /** Slot `j` holds exactly what the records whose month lands in `j`
      contribute: every slot starts at zero and no slot outside the window
      is touched. */
  lemma {:induction false} BucketizeSlot(length: nat, docs: seq<Doc>, today: Month, property: Option<Property>, j: nat)
    requires Carries(docs, property) && j < length
    ensures Bucketize(length, docs, today, property)[j] == SlotTotal(length, docs, today, property, j)
    decreases |docs|
  {
    if docs != [] {
      SlotTotalSnoc(length, docs, today, property, j);
      BucketizeSlot(length, docs[..|docs| - 1], today, property, j);
    }
  }

  /** The buckets add up to what the records in the window contribute. */
  lemma {:induction false} BucketizeSum(length: nat, docs: seq<Doc>, today: Month, property: Option<Property>)
    requires Carries(docs, property)
    ensures Sum(Bucketize(length, docs, today, property)) == WindowTotal(length, docs, today, property)
    decreases |docs|
  {
    if docs == [] {
      SumZeros(length);
    } else {
      WindowTotalSnoc(length, docs, today, property);
      BucketizeSum(length, docs[..|docs| - 1], today, property);
      var prev := Bucketize(length, docs[..|docs| - 1], today, property);
      var d := docs[|docs| - 1];
      if InWindow(length, today, d) {
        SumUpdate(prev, BucketIndex(length, today, d), Contribution(d, property));
      }
    }
  }

  /** Counting mode adds one per record in the window. */
  lemma {:induction false} CountModeTotal(length: nat, docs: seq<Doc>, today: Month)
    ensures WindowTotal(length, docs, today, None) == CountInWindow(length, docs, today)
    decreases |docs|
  {
    if docs != [] {
      CountModeTotal(length, docs[1..], today);
    }
  }

  /** In counting mode the buckets sum to the number of records in the window. */
  lemma CountBucketsSum(length: nat, docs: seq<Doc>, today: Month)
    ensures Sum(Bucketize(length, docs, today, None)) == CountInWindow(length, docs, today)
  {
    BucketizeSum(length, docs, today, None);
    CountModeTotal(length, docs, today);
  }

  /** With a window of a whole year no record is dropped. */
  lemma {:induction false} YearWindowKeepsAll(length: nat, docs: seq<Doc>, today: Month)
    requires length >= 12
    ensures CountInWindow(length, docs, today) == |docs|
    decreases |docs|
  {
    if docs != [] {
      YearWindowKeepsAll(length, docs[1..], today);
    }
  }

  /** No records, all zeros. */
  lemma EmptyAllZero(length: nat, today: Month, property: Option<Property>)
    ensures Bucketize(length, [], today, property) == seq(length, _ => 0)
  {
  }

  // ---------------------------------------------------------------------
  // calculatePercentage
  // ---------------------------------------------------------------------

  /** `calculatePercentage(thisMonth, lastMonth)`: this month as a percentage
      of last month, rounded down (a ratio times 100, not a change), and
      `thisMonth * 100` when last month is zero. */
  function CalculatePercentage(thisMonth: int, lastMonth: int): (r: int)
    ensures lastMonth == 0 ==> r == thisMonth * 100
    ensures lastMonth > 0 ==> r * lastMonth <= 100 * thisMonth < (r + 1) * lastMonth
    ensures lastMonth < 0 ==> r * lastMonth >= 100 * thisMonth > (r + 1) * lastMonth
  {
    if lastMonth == 0 then thisMonth * 100 else FloorDiv(thisMonth * 100, lastMonth)
  }

  /** Two equal months give 100, not 0: the result is a ratio. */
  lemma EqualMonthsGiveHundred(n: int)
    requires n != 0
    ensures CalculatePercentage(n, n) == 100
  {
    var r := CalculatePercentage(n, n);
    if n > 0 {
      MulCancel(r, 101, n);
      MulCancel(100, r + 1, n);
    } else {
      MulCancel(r, 101, -n);
      MulCancel(100, r + 1, -n);
    }
  }

  lemma PercentageExample()
    ensures CalculatePercentage(150, 100) == 150
    ensures CalculatePercentage(29, 100) == 29
    ensures CalculatePercentage(7, 0) == 700
    ensures CalculatePercentage(1, 3) == 33
  {
  }

  // ---------------------------------------------------------------------
  // getInventories
  // ---------------------------------------------------------------------

  /** `Math.round(count / productsCount * 100)`: `None` when there are no
      products, where the quotient is not a finite number. */
  function ShareOf(count: nat, productsCount: nat): (r: Option<int>)
    ensures r.None? <==> productsCount == 0
    ensures r.Some? ==> 2 * r.value * productsCount - productsCount <= 200 * count < 2 * r.value * productsCount + productsCount
  {
    if productsCount == 0 then None else Some(RoundDiv(100 * count, productsCount))
  }

  /** A category never holds more than all products, so its share is a
      percentage between 0 and 100. */
  lemma ShareBounds(count: nat, productsCount: nat)
    requires 0 < productsCount && count <= productsCount
    ensures 0 <= ShareOf(count, productsCount).value <= 100
  {
    var r := ShareOf(count, productsCount).value;
    MulCancel(-1, 2 * r, productsCount);
    MulCancel(2 * r, 201, productsCount);
  }

  /** One category with its share. */
  datatype CategoryShare = CategoryShare(category: string, percent: Option<int>)

  /** `getInventories({categories, productsCount})`, with the per-category
      document count given as `countOf`. */
  function GetInventories(categories: seq<string>, countOf: string -> nat, productsCount: nat): (r: seq<CategoryShare>)
    ensures |r| == |categories|
    ensures forall i :: 0 <= i < |r| ==> r[i].category == categories[i]
    ensures forall i :: 0 <= i < |r| ==> r[i].percent == ShareOf(countOf(categories[i]), productsCount)
  {
    seq(|categories|, i requires 0 <= i < |categories| => CategoryShare(categories[i], ShareOf(countOf(categories[i]), productsCount)))
  }

  /** When there are products and no category holds more than all of them,
      every entry carries a share between 0 and 100. */
  lemma InventoriesBounded(categories: seq<string>, countOf: string -> nat, productsCount: nat)
    requires productsCount > 0
    requires forall c :: countOf(c) <= productsCount
    ensures forall i :: 0 <= i < |categories| ==>
      var share := GetInventories(categories, countOf, productsCount)[i];
      share.category == categories[i] && share.percent.Some? && 0 <= share.percent.value <= 100
  {
    forall i | 0 <= i < |categories|
      ensures 0 <= ShareOf(countOf(categories[i]), productsCount).value <= 100
    {
      ShareBounds(countOf(categories[i]), productsCount);
    }
  }
}
