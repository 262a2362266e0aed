/** The in-place running aggregation (aggregation.py) and its snapshots. */
module Aggregation {
  import opened Reals
  import opened Orders
  import opened Statistics

  class RunningStats {
    var count: nat
    var mean: real
    var minimum: Float
    var maximum: Float

    constructor ()
      ensures Value() == FRESH
    {
      count, mean, minimum, maximum := 0, 0.0, PosInf, NegInf;
    }

    function Value(): Stats
      reads this
    {
      Stats(count, mean, minimum, maximum)
    }

    method Update(value: real)
      modifies this
      ensures Value() == Updated(old(Value()), value)
    {
      count := count + 1;
      mean := mean + (value - mean) / count as real;
      minimum := MinWith(minimum, value);
      maximum := MaxWith(maximum, value);
    }

    function Total(): real
      reads this
    {
      mean * count as real
    }

    function AsDict(scope: string): (r: Record)
      reads this
      ensures r == RecordOf(Value(), scope)
    {
      var empty := count == 0;
      Record(scope, count, mean, Total(),
             if empty then Finite(0.0) else minimum, if empty then Finite(0.0) else maximum)
    }
  }

  datatype Record = Record(
    scope: string, count: nat, averagePrice: real, sumPrice: real, minPrice: Float, maxPrice: Float)

  function RecordOf(s: Stats, scope: string): Record {
    if s.count == 0 then Record(scope, 0, s.mean, TotalOf(s), Finite(0.0), Finite(0.0))
    else Record(scope, s.count, s.mean, TotalOf(s), s.minimum, s.maximum)
  }

  // ---- product names in order ----

  /** Python's `<` on strings: by code point, a proper prefix first. */
  predicate Less(a: string, b: string)
    decreases |a|
  {
    b != [] && (a == [] || a[0] < b[0] || (a[0] == b[0] && Less(a[1..], b[1..])))
  }

  lemma {:induction false} LessIsTotal(a: string, b: string)
    ensures Less(a, b) || Less(b, a) || a == b
    decreases |a|
  {
    if a != [] && b != [] && a[0] == b[0] {
      LessIsTotal(a[1..], b[1..]);
      if a[1..] == b[1..] {
        assert a == [a[0]] + a[1..] && b == [b[0]] + b[1..];
      }
    }
  }

  lemma {:induction false} LessIsTransitive(a: string, b: string, c: string)
    requires Less(a, b) && Less(b, c)
    ensures Less(a, c)
    decreases |a|
  {
    if a != [] && a[0] == b[0] && b[0] == c[0] {
      LessIsTransitive(a[1..], b[1..], c[1..]);
    }
  }

  lemma {:induction false} NotLessThanItself(a: string)
    ensures !Less(a, a)
    decreases |a|
  {
    if a != [] {
      NotLessThanItself(a[1..]);
    }
  }

  /** The order of strings by their first difference, or by length when one continues the other. */
  ghost predicate Precedes(a: string, b: string) {
    (|a| < |b| && b[..|a|] == a) || exists i: nat :: LowerAt(a, b, i)
  }

  predicate LowerAt(a: string, b: string, i: nat) {
    i < |a| && i < |b| && a[..i] == b[..i] && a[i] < b[i]
  }

  lemma {:induction false} LessExactly(a: string, b: string)
    ensures Less(a, b) <==> Precedes(a, b)
    decreases |a|
  {
    if a == [] && b != [] {
      assert b[..|a|] == a;
    } else if a != [] && b != [] {
      if a[0] == b[0] {
        LessExactly(a[1..], b[1..]);
        TailPrecedes(a, b);
      } else {
        FirstDecides(a, b);
      }
    }
  }

  lemma FirstDecides(a: string, b: string)
    requires a != [] && b != [] && a[0] != b[0]
    ensures Precedes(a, b) <==> a[0] < b[0]
  {
    if a[0] < b[0] {
      assert LowerAt(a, b, 0);
    }
    assert |a| < |b| ==> b[..|a|][0] == b[0];
    assert forall i: nat :: 0 < i < |a| && i < |b| ==> a[..i][0] == a[0] && b[..i][0] == b[0];
  }

  lemma TailPrecedes(a: string, b: string)
    requires a != [] && b != [] && a[0] == b[0]
    ensures Precedes(a, b) <==> Precedes(a[1..], b[1..])
  {
    var x, y := a[1..], b[1..];
    assert a == [a[0]] + x && b == [b[0]] + y;
    if i: nat :| LowerAt(a, b, i) {
      assert x[..i - 1] == a[..i][1..] && y[..i - 1] == b[..i][1..];
      assert LowerAt(x, y, i - 1);
    }
    if i: nat :| LowerAt(x, y, i) {
      assert a[..i + 1] == [a[0]] + x[..i] && b[..i + 1] == [b[0]] + y[..i];
      assert LowerAt(a, b, i + 1);
    }
    if |a| < |b| {
      assert b[..|a|] == [b[0]] + y[..|x|];
      assert y[..|x|] == b[..|a|][1..];
    }
  }

  ghost predicate Ascending(keys: seq<string>) {
    forall i, j :: 0 <= i < j < |keys| ==> Precedes(keys[i], keys[j])
  }

  lemma AscendingIsDistinct(keys: seq<string>)
    requires Ascending(keys)
    ensures Distinct(keys)
  {
    hide Precedes;
    forall i, j | 0 <= i < j < |keys| ensures keys[i] != keys[j] {
      LessExactly(keys[i], keys[j]);
      NotLessThanItself(keys[i]);
    }
  }

  /** `sorted` over a dictionary's keys. */
  method Sorted(names: set<string>) returns (keys: seq<string>)
    ensures Ascending(keys)
    ensures forall k :: k in keys <==> k in names
  {
    keys := [];
    var rest := names;
    while rest != {}
      invariant Ascending(keys) && rest <= names
      invariant forall k :: k in keys <==> k in names - rest
      decreases rest
    {
      var k :| k in rest;
      keys := Insert(keys, k);
      rest := rest - {k};
    }
  }

  method Insert(keys: seq<string>, k: string) returns (r: seq<string>)
    requires Ascending(keys) && k !in keys
    ensures Ascending(r)
    ensures forall x :: x in r <==> x in keys || x == k
  {
    hide Precedes;
    var i := 0;
    while i < |keys| && Less(keys[i], k)
      invariant i <= |keys|
      invariant forall j :: 0 <= j < i ==> Less(keys[j], k)
    {
      i := i + 1;
    }
    forall j | 0 <= j < i ensures Precedes(keys[j], k) {
      LessExactly(keys[j], k);
    }
    forall j | i <= j < |keys| ensures Precedes(k, keys[j]) {
      LessIsTotal(keys[i], k);
      LessExactly(keys[i], keys[j]);
      LessExactly(k, keys[j]);
      if i < j {
        LessIsTransitive(k, keys[i], keys[j]);
      }
    }
    r := keys[..i] + [k] + keys[i..];
    forall x ensures x in r <==> x in keys || x == k {
      assert keys == keys[..i] + keys[i..];
    }
  }

  // ---- the aggregator ----

  class OrderAggregator {
    var overall: RunningStats
    var perProduct: map<string, RunningStats>
    /** Every order folded in so far. */
    ghost var sales: seq<Sale>

    ghost function Repr(): set<object>
      reads this
    {
      {this, overall} + perProduct.Values
    }

    /** No two scopes share a statistics object. */
    ghost predicate Separate()
      reads this
    {
      overall !in perProduct.Values &&
      forall a, b :: a in perProduct && b in perProduct && a != b ==> perProduct[a] != perProduct[b]
    }

    /** Each scope's statistics are those of the orders folded in. */
    ghost predicate Valid()
      reads this, Repr()
    {
      Separate() &&
      perProduct.Keys == Products(sales) &&
      overall.Value() == Fold(Prices(sales, All)) &&
      forall k :: k in perProduct ==> perProduct[k].Value() == Fold(Prices(sales, Product(k)))
    }

    constructor ()
      ensures Valid() && sales == [] && fresh(Repr())
    {
      overall := new RunningStats();
      perProduct := map[];
      sales := [];
    }

    function Count(): nat
      reads this, overall
    {
      overall.count
    }

    lemma CountsEverySale()
      requires Valid()
      ensures Count() == |sales|
    {
      FoldIsBatch(Prices(sales, All));
      AllInScope(sales);
    }

    method Add(order: Order)
      requires Valid() && order.price.Finite?
      modifies Repr()
      ensures Valid() && fresh(Repr() - old(Repr()))
      ensures sales == old(sales) + [Sale(order.product, order.price.value)]
    {
      hide Fold, Prices, Updated, Products, RunningStats.Value;
      ghost var sale := Sale(order.product, order.price.value);
      overall.Update(order.price.value);
      UpdateProduct(order.product, order.price.value);
      ScopesAfter(sales, sale);
      sales := sales + [sale];
    }

    /** `per_product.setdefault(product, RunningStats()).update(price)` */
    method UpdateProduct(product: string, price: real)
      requires Separate()
      modifies this`perProduct, perProduct.Values
      ensures Separate() && fresh(perProduct.Values - old(perProduct.Values))
      ensures perProduct.Keys == old(perProduct.Keys) + {product}
      ensures forall k :: k in perProduct ==>
        perProduct[k].Value() ==
          var before := if k in old(perProduct) then old(perProduct[k].Value()) else FRESH;
          if k == product then Updated(before, price) else before
    {
      hide Updated, RunningStats.Value;
      if product !in perProduct {
        var created := new RunningStats();
        perProduct := perProduct[product := created];
      }
      perProduct[product].Update(price);
    }

    /** One record for the global scope, then one per product in ascending order. */
    method Snapshots() returns (records: seq<Record>)
      requires Valid()
      ensures IsSnapshot(records, sales)
    {
      records := [overall.AsDict("ALL")];
      var keys := Sorted(perProduct.Keys);
      var i := 0;
      while i < |keys|
        invariant i <= |keys|
        invariant records == SnapshotOf(sales, keys[..i])
      {
        assert keys[i] in perProduct.Keys;
        records := records + [perProduct[keys[i]].AsDict(keys[i])];
        assert keys[..i + 1][..i] == keys[..i];
        i := i + 1;
      }
      assert keys[..|keys|] == keys;
    }
  }

  lemma FoldSnoc(xs: seq<real>, x: real)
    ensures Fold(xs + [x]) == Updated(Fold(xs), x)
  {
    assert (xs + [x])[..|xs|] == xs;
  }

  lemma {:induction false} NoPricesYet(sales: seq<Sale>, p: string)
    requires p !in Products(sales)
    ensures Prices(sales, Product(p)) == []
  {
    if sales != [] {
      var before, s := sales[..|sales| - 1], sales[|sales| - 1];
      assert sales == before + [s];
      ProductsSnoc(before, s);
      NoPricesYet(before, p);
    }
  }

  function ProductAfter(sales: seq<Sale>, s: Sale, k: string): Stats {
    if k != s.product then Fold(Prices(sales, Product(k)))
    else if k in Products(sales) then Updated(Fold(Prices(sales, Product(k))), s.price)
    else Updated(FRESH, s.price)
  }

  /** What one more sale does to each scope: its own two move on by one update, no other changes. */
  lemma ScopesAfter(sales: seq<Sale>, s: Sale)
    ensures Products(sales + [s]) == Products(sales) + {s.product}
    ensures Fold(Prices(sales + [s], All)) == Updated(Fold(Prices(sales, All)), s.price)
    ensures forall k :: Fold(Prices(sales + [s], Product(k))) == ProductAfter(sales, s, k)
  {
    hide Updated;
    ProductsSnoc(sales, s);
    PricesSnoc(sales, s, All);
    FoldSnoc(Prices(sales, All), s.price);
    forall k ensures Fold(Prices(sales + [s], Product(k))) == ProductAfter(sales, s, k) {
      PricesSnoc(sales, s, Product(k));
      FoldSnoc(Prices(sales, Product(k)), s.price);
      if k !in Products(sales) {
        NoPricesYet(sales, k);
      }
    }
  }

  // ---- what a snapshot list carries ----

  /** The list for the given product order, recomputed from the orders themselves. */
  function SnapshotOf(sales: seq<Sale>, keys: seq<string>): seq<Record> {
    if keys == [] then [RecordOf(Fold(Prices(sales, All)), "ALL")]
    else
      var k := keys[|keys| - 1];
      SnapshotOf(sales, keys[..|keys| - 1]) + [RecordOf(Fold(Prices(sales, Product(k))), k)]
  }

  ghost predicate IsSnapshot(records: seq<Record>, sales: seq<Sale>) {
    exists keys :: Lists(keys, sales) && records == SnapshotOf(sales, keys)
  }

  lemma {:induction false} SnapshotAt(sales: seq<Sale>, keys: seq<string>, i: nat)
    requires i <= |keys|
    ensures |SnapshotOf(sales, keys)| == |keys| + 1
    ensures SnapshotOf(sales, keys)[i] ==
            if i == 0 then RecordOf(Fold(Prices(sales, All)), "ALL")
            else RecordOf(Fold(Prices(sales, Product(keys[i - 1]))), keys[i - 1])
  {
    if keys != [] {
      var before := keys[..|keys| - 1];
      SnapshotAt(sales, before, if i < |keys| then i else 0);
      assert 0 < i < |keys| ==> before[i - 1] == keys[i - 1];
    }
  }

  function RecordCounts(records: seq<Record>): nat {
    if records == [] then 0 else RecordCounts(records[..|records| - 1]) + records[|records| - 1].count
  }

  function RecordTotals(records: seq<Record>): real {
    if records == [] then 0.0 else RecordTotals(records[..|records| - 1]) + records[|records| - 1].sumPrice
  }

  lemma {:induction false} SnapshotSums(sales: seq<Sale>, keys: seq<string>)
    ensures |SnapshotOf(sales, keys)| == |keys| + 1
    ensures RecordCounts(SnapshotOf(sales, keys)[1..]) == Counts(sales, keys)
    ensures RecordTotals(SnapshotOf(sales, keys)[1..]) == Totals(sales, keys)
  {
    hide TotalOf, Fold, Prices;
    if keys != [] {
      var before := keys[..|keys| - 1];
      SnapshotSums(sales, before);
      var all := SnapshotOf(sales, keys);
      assert all[1..][..|all[1..]| - 1] == SnapshotOf(sales, before)[1..];
    }
  }

  /** Every snapshot of a non-empty aggregator: one record per product in strictly ascending
      order, whose counts and sums add up to the first record, whose extremes are met by a
      product, and whose means surround the global mean. */
  lemma SnapshotIsConsistent(records: seq<Record>, sales: seq<Sale>)
    requires IsSnapshot(records, sales) && sales != []
    ensures |records| == |Products(sales)| + 1 && records[0].scope == "ALL" && records[0].count == |sales|
    ensures forall i, j :: 1 <= i < j < |records| ==> Precedes(records[i].scope, records[j].scope)
    ensures forall p :: p in Products(sales) <==> exists i :: 1 <= i < |records| && records[i].scope == p
    ensures RecordCounts(records[1..]) == records[0].count && RecordTotals(records[1..]) == records[0].sumPrice
    ensures records[0].minPrice.Finite? && records[0].maxPrice.Finite?
    ensures records[0].minPrice.value <= records[0].averagePrice <= records[0].maxPrice.value
    ensures forall i :: 1 <= i < |records| ==>
      records[i].minPrice.Finite? && records[0].minPrice.value <= records[i].minPrice.value &&
      records[i].maxPrice.Finite? && records[i].maxPrice.value <= records[0].maxPrice.value
    ensures exists i :: 1 <= i < |records| && records[i].minPrice == records[0].minPrice
    ensures exists i :: 1 <= i < |records| && records[i].maxPrice == records[0].maxPrice
    ensures exists i :: 1 <= i < |records| && records[i].averagePrice <= records[0].averagePrice
    ensures exists i :: 1 <= i < |records| && records[0].averagePrice <= records[i].averagePrice
  {
    var keys :| Lists(keys, sales) && records == SnapshotOf(sales, keys);
    SnapshotShape(records, sales, keys);
    SnapshotAddsUp(records, sales, keys);
    SnapshotExtremes(records, sales, keys);
    SnapshotMeans(records, sales, keys);
  }

  ghost predicate Lists(keys: seq<string>, sales: seq<Sale>) {
    Ascending(keys) && forall k :: k in keys <==> k in Products(sales)
  }

  lemma SalesListed(keys: seq<string>, sales: seq<Sale>)
    requires Lists(keys, sales)
    ensures Distinct(keys) && |keys| == |Products(sales)|
    ensures forall i :: 0 <= i < |sales| ==> sales[i].product in keys
    ensures forall i :: 0 <= i < |keys| ==> keys[i] in Products(sales)
  {
    AscendingIsDistinct(keys);
    forall i | 0 <= i < |sales| ensures sales[i].product in keys {
      assert sales[i].product in Products(sales);
    }
    DistinctSize(keys);
    assert (set k | k in keys) == Products(sales);
  }

  lemma {:induction false} DistinctSize(keys: seq<string>)
    requires Distinct(keys)
    ensures |set k | k in keys| == |keys|
  {
    if keys != [] {
      var n := |keys| - 1;
      DistinctSize(keys[..n]);
      assert keys == keys[..n] + [keys[n]];
      assert (set k | k in keys) == (set k | k in keys[..n]) + {keys[n]};
    }
  }

  lemma SnapshotShape(records: seq<Record>, sales: seq<Sale>, keys: seq<string>)
    requires Lists(keys, sales) && records == SnapshotOf(sales, keys) && sales != []
    ensures |records| == |Products(sales)| + 1 == |keys| + 1 && records[0].scope == "ALL"
    ensures forall i :: 1 <= i < |records| ==> records[i].scope == keys[i - 1]
    ensures forall i, j :: 1 <= i < j < |records| ==> Precedes(records[i].scope, records[j].scope)
    ensures forall p :: p in Products(sales) <==> exists i :: 1 <= i < |records| && records[i].scope == p
  {
    hide Fold, Prices, TotalOf, Products, SnapshotOf;
    SalesListed(keys, sales);
    SnapshotAt(sales, keys, 0);
    forall i | 1 <= i < |records| ensures records[i].scope == keys[i - 1] {
      SnapshotAt(sales, keys, i);
    }
    forall p ensures p in Products(sales) <==> exists i :: 1 <= i < |records| && records[i].scope == p {
      if p in Products(sales) {
        var i :| 0 <= i < |keys| && keys[i] == p;
        assert records[i + 1].scope == p;
      }
    }
  }

  lemma SnapshotAddsUp(records: seq<Record>, sales: seq<Sale>, keys: seq<string>)
    requires Lists(keys, sales) && records == SnapshotOf(sales, keys) && sales != []
    ensures |records| == |keys| + 1 && records[0].count == |sales|
    ensures RecordCounts(records[1..]) == records[0].count && RecordTotals(records[1..]) == records[0].sumPrice
  {
    hide Fold, Prices, TotalOf, Products, SnapshotOf, Lists;
    SalesListed(keys, sales);
    SnapshotAt(sales, keys, 0);
    SnapshotSums(sales, keys);
    ProductsAddUp(sales, keys);
  }

  /** The record of a scope that has prices shows its statistics as they are. */
  lemma RecordShows(xs: seq<real>, scope: string)
    requires xs != []
    ensures var s, r := Fold(xs), RecordOf(Fold(xs), scope);
      r == Record(scope, s.count, s.mean, TotalOf(s), s.minimum, s.maximum)
  {
    FoldIsBatch(xs);
  }

  lemma ProductRecord(records: seq<Record>, sales: seq<Sale>, keys: seq<string>, i: nat)
    requires Lists(keys, sales) && records == SnapshotOf(sales, keys) && i < |keys|
    ensures i + 1 < |records|
    ensures var s := Fold(Prices(sales, Product(keys[i])));
      records[i + 1].minPrice == s.minimum && records[i + 1].maxPrice == s.maximum &&
      records[i + 1].averagePrice == MeanOf(sales, keys[i])
  {
    hide Fold, Prices, TotalOf, Products, SnapshotOf;
    SnapshotAt(sales, keys, i + 1);
    assert keys[i] in Products(sales);
    ProductNotEmpty(sales, keys[i]);
    RecordShows(Prices(sales, Product(keys[i])), keys[i]);
  }

  lemma AllRecord(records: seq<Record>, sales: seq<Sale>, keys: seq<string>)
    requires records == SnapshotOf(sales, keys) && sales != []
    ensures |records| == |keys| + 1
    ensures var s := Fold(Prices(sales, All));
      records[0].minPrice == s.minimum && records[0].maxPrice == s.maximum && records[0].averagePrice == s.mean
  {
    hide Fold, Prices, TotalOf, SnapshotOf;
    SnapshotAt(sales, keys, 0);
    AllInScope(sales);
    RecordShows(Prices(sales, All), "ALL");
  }

  lemma SnapshotExtremes(records: seq<Record>, sales: seq<Sale>, keys: seq<string>)
    requires Lists(keys, sales) && records == SnapshotOf(sales, keys) && sales != []
    ensures |records| == |keys| + 1 && records[0].minPrice.Finite? && records[0].maxPrice.Finite?
    ensures forall i :: 1 <= i < |records| ==>
      records[i].minPrice.Finite? && records[0].minPrice.value <= records[i].minPrice.value &&
      records[i].maxPrice.Finite? && records[i].maxPrice.value <= records[0].maxPrice.value
    ensures exists i :: 1 <= i < |records| && records[i].minPrice == records[0].minPrice
    ensures exists i :: 1 <= i < |records| && records[i].maxPrice == records[0].maxPrice
  {
    hide Fold, Prices, TotalOf, Products, SnapshotOf, Lists;
    SalesListed(keys, sales);
    AllRecord(records, sales, keys);
    ExtremesCombine(sales, keys);
    forall i | 0 <= i < |keys|
      ensures var s := Fold(Prices(sales, Product(keys[i])));
        records[i + 1].minPrice == s.minimum && records[i + 1].maxPrice == s.maximum
    {
      ProductRecord(records, sales, keys, i);
    }
    var i :| 0 <= i < |keys| && Fold(Prices(sales, Product(keys[i]))).minimum == records[0].minPrice;
    assert records[i + 1].minPrice == records[0].minPrice;
    var j :| 0 <= j < |keys| && Fold(Prices(sales, Product(keys[j]))).maximum == records[0].maxPrice;
    assert records[j + 1].maxPrice == records[0].maxPrice;
    forall i | 1 <= i < |records|
      ensures records[i].minPrice.Finite? && records[0].minPrice.value <= records[i].minPrice.value &&
        records[i].maxPrice.Finite? && records[i].maxPrice.value <= records[0].maxPrice.value
    {
      assert keys[i - 1] in keys;
    }
  }

  lemma SnapshotMeans(records: seq<Record>, sales: seq<Sale>, keys: seq<string>)
    requires Lists(keys, sales) && records == SnapshotOf(sales, keys) && sales != []
    ensures |records| == |keys| + 1 && records[0].minPrice.Finite? && records[0].maxPrice.Finite?
    ensures records[0].minPrice.value <= records[0].averagePrice <= records[0].maxPrice.value
    ensures exists i :: 1 <= i < |records| && records[i].averagePrice <= records[0].averagePrice
    ensures exists i :: 1 <= i < |records| && records[0].averagePrice <= records[i].averagePrice
  {
    hide Fold, Prices, TotalOf, Products, SnapshotOf, Lists, MeanOf;
    SalesListed(keys, sales);
    AllRecord(records, sales, keys);
    AllInScope(sales);
    MeanWithinExtremes(Prices(sales, All));
    MeanBetweenProductMeans(sales, keys);
    var i :| 0 <= i < |keys| && MeanOf(sales, keys[i]) <= records[0].averagePrice;
    ProductRecord(records, sales, keys, i);
    var j :| 0 <= j < |keys| && records[0].averagePrice <= MeanOf(sales, keys[j]);
    ProductRecord(records, sales, keys, j);
    assert records[i + 1].averagePrice <= records[0].averagePrice <= records[j + 1].averagePrice;
  }

  /** The record is what a fresh computation over these prices gives. */
  ghost predicate Summarises(r: Record, xs: seq<real>) {
    xs != [] && r.count == |xs| && r.sumPrice == Sum(xs) && r.averagePrice == Sum(xs) / |xs| as real &&
    r.minPrice.Finite? && r.minPrice.value in xs && (forall x :: x in xs ==> r.minPrice.value <= x) &&
    r.maxPrice.Finite? && r.maxPrice.value in xs && (forall x :: x in xs ==> x <= r.maxPrice.value)
  }

  lemma RecordSummarises(xs: seq<real>, scope: string)
    requires xs != []
    ensures Summarises(RecordOf(Fold(xs), scope), xs) && RecordOf(Fold(xs), scope).scope == scope
  {
    FoldIsBatch(xs);
    hide Fold, Sum;
    QuotientTimes(Sum(xs), |xs| as real);
    Cancel(Fold(xs).mean, Sum(xs) / |xs| as real, |xs| as real);
  }

  /** Every record of a snapshot is recomputed from the orders of its scope: the first from all of
      them, each other from those of the product it names. */
  lemma SnapshotSummarises(records: seq<Record>, sales: seq<Sale>, i: nat)
    requires IsSnapshot(records, sales) && sales != [] && i < |records|
    ensures Summarises(records[i], Prices(sales, if i == 0 then All else Product(records[i].scope)))
    ensures i == 0 ==> records[i].scope == "ALL"
  {
    hide Fold, Prices, RecordOf, Summarises, Products, SnapshotOf;
    var keys :| Lists(keys, sales) && records == SnapshotOf(sales, keys);
    SnapshotAt(sales, keys, 0);
    SnapshotAt(sales, keys, i);
    if i == 0 {
      AllInScope(sales);
      RecordSummarises(Prices(sales, All), "ALL");
    } else {
      assert keys[i - 1] in keys;
      ProductNotEmpty(sales, keys[i - 1]);
      RecordSummarises(Prices(sales, Product(keys[i - 1])), keys[i - 1]);
    }
  }

  /** Before the first order a record shows zeros throughout. */
  lemma EmptyRecord(scope: string)
    ensures RecordOf(Fold([]), scope) == Record(scope, 0, 0.0, 0.0, Finite(0.0), Finite(0.0))
  {
  }

  /** The scope name tells the records apart unless a product is itself called "ALL". */
  lemma ScopeNamesDistinctExactly(records: seq<Record>, sales: seq<Sale>)
    requires IsSnapshot(records, sales) && sales != []
    ensures (forall i, j :: 0 <= i < j < |records| ==> records[i].scope != records[j].scope) <==>
      "ALL" !in Products(sales)
  {
    hide IsSnapshot, Products, Precedes;
    SnapshotIsConsistent(records, sales);
    forall i, j | 1 <= i < j < |records| ensures records[i].scope != records[j].scope {
      LessExactly(records[i].scope, records[j].scope);
      NotLessThanItself(records[i].scope);
    }
  }

  /** One order for a product called "ALL": its snapshot carries the scope twice. */
  lemma ScopeNamesCanClash()
    ensures exists records: seq<Record>, sales: seq<Sale> ::
      IsSnapshot(records, sales) && |records| == 2 && records[0].scope == records[1].scope
  {
    hide Fold, Prices;
    var sales, keys := [Sale("ALL", 1.0)], ["ALL"];
    assert keys[0] in keys && keys[..0] == [];
    assert sales[0].product in Products(sales);
    assert Lists(keys, sales);
    var records := SnapshotOf(sales, keys);
    assert IsSnapshot(records, sales);
    assert |records| == 2 && records[0].scope == records[1].scope;
  }
}
