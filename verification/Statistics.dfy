/** What the running statistics of aggregation.py mean: the incremental update against a batch
    definition, independence of order, the relation between scopes, and rounding. */
module Statistics {
  import opened Reals
  import opened Orders
  import opened Selection

  datatype Stats = Stats(count: nat, mean: real, minimum: Float, maximum: Float)

  const FRESH := Stats(0, 0.0, PosInf, NegInf)

  /** Python's `min(current, value)` and `max(current, value)` for a finite value. */
  function MinWith(current: Float, value: real): Float {
    match current
    case PosInf => Finite(value)
    case Finite(v) => if value < v then Finite(value) else current
    case _ => current
  }

  function MaxWith(current: Float, value: real): Float {
    match current
    case NegInf => Finite(value)
    case Finite(v) => if value > v then Finite(value) else current
    case _ => current
  }

  /** One Welford step. */
  function Updated(s: Stats, x: real): Stats {
    Stats(s.count + 1, s.mean + (x - s.mean) / (s.count + 1) as real, MinWith(s.minimum, x), MaxWith(s.maximum, x))
  }

  function Fold(xs: seq<real>): Stats {
    if xs == [] then FRESH else Updated(Fold(xs[..|xs| - 1]), xs[|xs| - 1])
  }

  /** `RunningStats.total` */
  function TotalOf(s: Stats): real {
    s.mean * s.count as real
  }

  // ---- the batch definition ----

  predicate IsLeast(v: Float, xs: seq<real>) {
    if xs == [] then v == PosInf
    else v.Finite? && v.value in xs && forall x :: x in xs ==> v.value <= x
  }

  predicate IsGreatest(v: Float, xs: seq<real>) {
    if xs == [] then v == NegInf
    else v.Finite? && v.value in xs && forall x :: x in xs ==> x <= v.value
  }

  lemma WelfordStep(s: Stats, x: real)
    ensures TotalOf(Updated(s, x)) == TotalOf(s) + x
  {
    hide MinWith, MaxWith;
    var k := (s.count + 1) as real;
    Distribute(s.mean, (x - s.mean) / k, k);
    QuotientTimes(x - s.mean, k);
    assert s.mean * k == s.mean * s.count as real + s.mean;
  }

  /** The incremental statistics are the batch statistics of everything folded in. */
  lemma {:induction false} FoldIsBatch(xs: seq<real>)
    ensures var s := Fold(xs);
      s.count == |xs| && TotalOf(s) == Sum(xs) &&
      IsLeast(s.minimum, xs) && IsGreatest(s.maximum, xs)
  {
    if xs == [] {
      assert TotalOf(FRESH) == 0.0;
    } else {
      hide TotalOf, MinWith, MaxWith;
      var before, x := xs[..|xs| - 1], xs[|xs| - 1];
      FoldIsBatch(before);
      WelfordStep(Fold(before), x);
      assert xs == before + [x];
      FoldExtremes(before, x);
    }
  }

  lemma FoldExtremes(before: seq<real>, x: real)
    requires IsLeast(Fold(before).minimum, before) && IsGreatest(Fold(before).maximum, before)
    ensures IsLeast(MinWith(Fold(before).minimum, x), before + [x])
    ensures IsGreatest(MaxWith(Fold(before).maximum, x), before + [x])
  {
    assert x in before + [x];
  }

  lemma MeanFromTotal(s: Stats, t: Stats)
    requires s.count == t.count && s.count > 0
    ensures TotalOf(s) == TotalOf(t) ==> s.mean == t.mean
    ensures TotalOf(s) <= TotalOf(t) ==> s.mean <= t.mean
  {
    Cancel(s.mean, t.mean, s.count as real);
    Cancel(t.mean, s.mean, s.count as real);
  }

  lemma SameExtremes(v: Float, w: Float, xs: seq<real>, ys: seq<real>)
    requires |xs| == |ys| && forall x :: x in xs <==> x in ys
    ensures IsLeast(v, xs) && IsLeast(w, ys) ==> v == w
    ensures IsGreatest(v, xs) && IsGreatest(w, ys) ==> v == w
  {
  }

  /** The batch values determine the state. */
  lemma BatchDetermines(xs: seq<real>, ys: seq<real>)
    requires |xs| == |ys| && Sum(xs) == Sum(ys)
    requires forall x :: x in xs <==> x in ys
    ensures Fold(xs) == Fold(ys)
  {
    if xs != [] {
      hide *;
      FoldIsBatch(xs);
      FoldIsBatch(ys);
      MeanFromTotal(Fold(xs), Fold(ys));
      SameExtremes(Fold(xs).minimum, Fold(ys).minimum, xs, ys);
      SameExtremes(Fold(xs).maximum, Fold(ys).maximum, xs, ys);
    }
  }

  // ---- order does not matter ----

  lemma {:induction false} SumConcat(xs: seq<real>, ys: seq<real>)
    ensures Sum(xs + ys) == Sum(xs) + Sum(ys)
  {
    if ys == [] {
      assert xs + ys == xs;
    } else {
      assert (xs + ys)[..|xs + ys| - 1] == xs + ys[..|ys| - 1];
      SumConcat(xs, ys[..|ys| - 1]);
    }
  }

  lemma WithoutAt<T>(ys: seq<T>, i: nat)
    requires i < |ys|
    ensures ys == ys[..i] + [ys[i]] + ys[i + 1..]
    ensures multiset(ys) == multiset(ys[..i] + ys[i + 1..]) + multiset{ys[i]}
  {
    assert ys == ys[..i] + [ys[i]] + ys[i + 1..];
    assert multiset(ys[..i] + [ys[i]] + ys[i + 1..]) ==
           multiset(ys[..i]) + multiset{ys[i]} + multiset(ys[i + 1..]);
    assert multiset(ys[..i] + ys[i + 1..]) == multiset(ys[..i]) + multiset(ys[i + 1..]);
  }

  lemma TakeOut<T>(xs: seq<T>, ys: seq<T>) returns (i: nat, rest: seq<T>)
    requires xs != [] && multiset(xs) == multiset(ys)
    ensures i < |ys| && ys[i] == xs[|xs| - 1] && rest == ys[..i] + ys[i + 1..]
    ensures ys == ys[..i] + [ys[i]] + ys[i + 1..]
    ensures multiset(rest) == multiset(xs[..|xs| - 1])
  {
    var n := |xs| - 1;
    WithoutAt(xs, n);
    assert xs[..n] + xs[n + 1..] == xs[..n];
    assert xs[n] in multiset(ys);
    i :| 0 <= i < |ys| && ys[i] == xs[n];
    WithoutAt(ys, i);
    rest := ys[..i] + ys[i + 1..];
    DropOne(multiset(rest), multiset(xs[..n]), xs[n]);
  }

  lemma DropOne<T>(a: multiset<T>, b: multiset<T>, x: T)
    requires a + multiset{x} == b + multiset{x}
    ensures a == b
  {
    assert a == (a + multiset{x}) - multiset{x};
    assert b == (b + multiset{x}) - multiset{x};
  }

  lemma {:induction false} SumOfPermutation(xs: seq<real>, ys: seq<real>)
    requires multiset(xs) == multiset(ys)
    ensures Sum(xs) == Sum(ys) && |xs| == |ys|
  {
    if xs == [] {
      assert |multiset(ys)| == 0;
    } else {
      var i, rest := TakeOut(xs, ys);
      SumOfPermutation(xs[..|xs| - 1], rest);
      SumConcat(ys[..i] + [ys[i]], ys[i + 1..]);
      SumConcat(ys[..i], [ys[i]]);
      SumConcat(ys[..i], ys[i + 1..]);
      assert Sum([ys[i]]) == ys[i] by {
        assert [ys[i]][..0] == [];
      }
    }
  }

  lemma SameMembers(xs: seq<real>, ys: seq<real>)
    requires multiset(xs) == multiset(ys)
    ensures forall x :: x in xs <==> x in ys
  {
    forall x ensures x in xs <==> x in ys {
      assert x in xs <==> x in multiset(xs);
      assert x in ys <==> x in multiset(ys);
    }
  }

  /** The statistics depend only on the multiset of observations. */
  lemma FoldOfPermutation(xs: seq<real>, ys: seq<real>)
    requires multiset(xs) == multiset(ys)
    ensures Fold(xs) == Fold(ys)
  {
    SumOfPermutation(xs, ys);
    SameMembers(xs, ys);
    BatchDetermines(xs, ys);
  }

  // ---- scopes ----

  datatype Sale = Sale(product: string, price: real)

  datatype Scope = All | Product(name: string)

  predicate InScope(s: Sale, scope: Scope) {
    scope.All? || s.product == scope.name
  }

  function Prices(sales: seq<Sale>, scope: Scope): seq<real> {
    if sales == [] then []
    else
      var s := sales[|sales| - 1];
      var before := Prices(sales[..|sales| - 1], scope);
      if InScope(s, scope) then before + [s.price] else before
  }

  function Products(sales: seq<Sale>): set<string> {
    set i | 0 <= i < |sales| :: sales[i].product
  }

  function OfScope(scope: Scope): Sale -> bool {
    (s: Sale) => scope == All || scope == Product(s.product)
  }

  /** The prices of a scope are those of its own orders, all of them and in their order. */
  lemma {:induction false} PricesExactly(sales: seq<Sale>, scope: Scope) returns (own: seq<Sale>)
    ensures Picks(own, sales, OfScope(scope))
    ensures |own| == |Prices(sales, scope)| && forall i :: 0 <= i < |own| ==> Prices(sales, scope)[i] == own[i].price
  {
    hide Picks;
    if sales == [] {
      own := [];
      PicksNothing(OfScope(scope));
    } else {
      var n := |sales| - 1;
      var before := PricesExactly(sales[..n], scope);
      var keeps := OfScope(scope)(sales[n]);
      assert keeps <==> InScope(sales[n], scope);
      PicksLast(before, sales[..n], sales[n], OfScope(scope));
      assert sales[..n] + [sales[n]] == sales;
      own := if keeps then before + [sales[n]] else before;
    }
  }

  lemma PricesSnoc(sales: seq<Sale>, s: Sale, scope: Scope)
    ensures Prices(sales + [s], scope) == Prices(sales, scope) + (if InScope(s, scope) then [s.price] else [])
  {
    assert (sales + [s])[..|sales|] == sales;
  }

  lemma ProductsSnoc(sales: seq<Sale>, s: Sale)
    ensures Products(sales + [s]) == Products(sales) + {s.product}
  {
    var all := sales + [s];
    assert all[|sales|] == s;
    forall p | p in Products(sales) ensures p in Products(all) {
      var i :| 0 <= i < |sales| && sales[i].product == p;
      assert all[i] == sales[i];
    }
  }

  lemma {:induction false} PricesConcat(a: seq<Sale>, b: seq<Sale>, scope: Scope)
    ensures Prices(a + b, scope) == Prices(a, scope) + Prices(b, scope)
  {
    if b == [] {
      assert a + b == a;
    } else {
      assert (a + b)[..|a + b| - 1] == a + b[..|b| - 1];
      PricesConcat(a, b[..|b| - 1], scope);
    }
  }

  lemma PricesWithout(b: seq<Sale>, i: nat, scope: Scope)
    requires i < |b|
    ensures multiset(Prices(b, scope)) ==
            multiset(Prices(b[..i] + b[i + 1..], scope)) + (if InScope(b[i], scope) then multiset{b[i].price} else multiset{})
  {
    hide *;
    assert b == (b[..i] + [b[i]]) + b[i + 1..];
    PricesConcat(b[..i] + [b[i]], b[i + 1..], scope);
    PricesSnoc(b[..i], b[i], scope);
    PricesConcat(b[..i], b[i + 1..], scope);
  }

  lemma {:induction false} PricesOfPermutation(a: seq<Sale>, b: seq<Sale>, scope: Scope)
    requires multiset(a) == multiset(b)
    ensures multiset(Prices(a, scope)) == multiset(Prices(b, scope))
  {
    if a == [] {
      assert |multiset(b)| == 0;
    } else {
      hide *;
      var n := |a| - 1;
      var i, rest := TakeOut(a, b);
      PricesOfPermutation(a[..n], rest, scope);
      PricesWithout(b, i, scope);
      PricesWithout(a, n, scope);
      assert a[..n] + a[n + 1..] == a[..n];
    }
  }

  /** Any reordering of the processed orders leaves every scope's statistics the same. */
  lemma AggregateIgnoresOrder(a: seq<Sale>, b: seq<Sale>)
    requires multiset(a) == multiset(b)
    ensures forall scope :: Fold(Prices(a, scope)) == Fold(Prices(b, scope))
    ensures Products(a) == Products(b)
  {
    forall scope ensures Fold(Prices(a, scope)) == Fold(Prices(b, scope)) {
      PricesOfPermutation(a, b, scope);
      FoldOfPermutation(Prices(a, scope), Prices(b, scope));
    }
    forall p ensures p in Products(a) <==> p in Products(b) {
      ProductByMembership(a, p);
      ProductByMembership(b, p);
      forall s ensures s in a <==> s in b {
        assert s in multiset(a) <==> s in a;
        assert s in multiset(b) <==> s in b;
      }
    }
  }

  lemma ProductByMembership(a: seq<Sale>, p: string)
    ensures p in Products(a) <==> exists s :: s in a && s.product == p
  {
  }

  // ---- the global scope combines the products ----

  predicate Distinct(keys: seq<string>) {
    forall i, j :: 0 <= i < j < |keys| ==> keys[i] != keys[j]
  }

  /** The prices of every product, product after product. */
  function Gathered(sales: seq<Sale>, keys: seq<string>): seq<real> {
    if keys == [] then []
    else Gathered(sales, keys[..|keys| - 1]) + Prices(sales, Product(keys[|keys| - 1]))
  }

  lemma {:induction false} GatheredSnoc(sales: seq<Sale>, s: Sale, keys: seq<string>)
    requires Distinct(keys)
    ensures multiset(Gathered(sales + [s], keys)) ==
            multiset(Gathered(sales, keys)) + (if s.product in keys then multiset{s.price} else multiset{})
  {
    if keys != [] {
      var k := keys[|keys| - 1];
      assert keys == keys[..|keys| - 1] + [k];
      GatheredSnoc(sales, s, keys[..|keys| - 1]);
      PricesSnoc(sales, s, Product(k));
    }
  }

  lemma {:induction false} GatheredEmpty(keys: seq<string>)
    ensures Gathered([], keys) == []
  {
    if keys != [] {
      GatheredEmpty(keys[..|keys| - 1]);
    }
  }

  /** The product scopes partition the sales. */
  lemma {:induction false} GatheredIsEverything(sales: seq<Sale>, keys: seq<string>)
    requires Distinct(keys) && forall i :: 0 <= i < |sales| ==> sales[i].product in keys
    ensures multiset(Gathered(sales, keys)) == multiset(Prices(sales, All))
  {
    if sales == [] {
      GatheredEmpty(keys);
    } else {
      var before, s := sales[..|sales| - 1], sales[|sales| - 1];
      assert sales == before + [s];
      GatheredIsEverything(before, keys);
      GatheredSnoc(before, s, keys);
      PricesSnoc(before, s, All);
    }
  }

  function Counts(sales: seq<Sale>, keys: seq<string>): nat {
    if keys == [] then 0
    else Counts(sales, keys[..|keys| - 1]) + Fold(Prices(sales, Product(keys[|keys| - 1]))).count
  }

  function Totals(sales: seq<Sale>, keys: seq<string>): real {
    if keys == [] then 0.0
    else
      Totals(sales, keys[..|keys| - 1]) + TotalOf(Fold(Prices(sales, Product(keys[|keys| - 1]))))
  }

  lemma {:induction false} GatheredAddsUp(sales: seq<Sale>, keys: seq<string>)
    ensures Counts(sales, keys) == |Gathered(sales, keys)| && Totals(sales, keys) == Sum(Gathered(sales, keys))
  {
    if keys != [] {
      hide TotalOf, Fold, Prices, Sum;
      var xs := Prices(sales, Product(keys[|keys| - 1]));
      GatheredAddsUp(sales, keys[..|keys| - 1]);
      FoldIsBatch(xs);
      SumConcat(Gathered(sales, keys[..|keys| - 1]), xs);
    }
  }

  /** Every sale of a product is counted in it, so a listed product is never empty. */
  lemma {:induction false} ProductNotEmpty(sales: seq<Sale>, p: string)
    requires p in Products(sales)
    ensures Prices(sales, Product(p)) != []
  {
    var before, s := sales[..|sales| - 1], sales[|sales| - 1];
    assert sales == before + [s];
    ProductsSnoc(before, s);
    PricesSnoc(before, s, Product(p));
    if s.product != p {
      ProductNotEmpty(before, p);
    }
  }

  /** Counts and totals of the products add up to those of the global scope. */
  lemma ProductsAddUp(sales: seq<Sale>, keys: seq<string>)
    requires Distinct(keys) && forall i :: 0 <= i < |sales| ==> sales[i].product in keys
    ensures var all := Fold(Prices(sales, All));
      all.count == |sales| == Counts(sales, keys) && TotalOf(all) == Totals(sales, keys)
  {
    hide *;
    GatheredIsEverything(sales, keys);
    SumOfPermutation(Gathered(sales, keys), Prices(sales, All));
    GatheredAddsUp(sales, keys);
    FoldIsBatch(Prices(sales, All));
    AllInScope(sales);
  }

  lemma {:induction false} AllInScope(sales: seq<Sale>)
    ensures |Prices(sales, All)| == |sales|
    ensures forall i :: 0 <= i < |sales| ==> Prices(sales, All)[i] == sales[i].price
  {
    if sales != [] {
      AllInScope(sales[..|sales| - 1]);
    }
  }

  lemma {:induction false} InSomeProduct(sales: seq<Sale>, keys: seq<string>, x: real)
    requires x in Gathered(sales, keys)
    ensures exists i :: 0 <= i < |keys| && x in Prices(sales, Product(keys[i]))
  {
    var n := |keys| - 1;
    if x !in Prices(sales, Product(keys[n])) {
      InSomeProduct(sales, keys[..n], x);
      var i :| 0 <= i < n && x in Prices(sales, Product(keys[..n][i]));
      assert keys[i] == keys[..n][i];
    }
  }

  lemma {:induction false} ProductInAll(sales: seq<Sale>, p: string, x: real)
    requires x in Prices(sales, Product(p))
    ensures x in Prices(sales, All)
  {
    var before := sales[..|sales| - 1];
    if x in Prices(before, Product(p)) {
      ProductInAll(before, p, x);
    }
  }

  /** The global extremes are the extremes of the product extremes. */
  lemma ExtremesCombine(sales: seq<Sale>, keys: seq<string>)
    requires sales != [] && Distinct(keys) && (forall i :: 0 <= i < |sales| ==> sales[i].product in keys)
    requires forall i :: 0 <= i < |keys| ==> keys[i] in Products(sales)
    ensures var all := Fold(Prices(sales, All));
      all.minimum.Finite? && all.maximum.Finite? &&
      (forall i :: 0 <= i < |keys| ==>
        var s := Fold(Prices(sales, Product(keys[i])));
        s.minimum.Finite? && s.maximum.Finite? &&
        all.minimum.value <= s.minimum.value && s.maximum.value <= all.maximum.value) &&
      (exists i :: 0 <= i < |keys| && Fold(Prices(sales, Product(keys[i]))).minimum == all.minimum) &&
      (exists i :: 0 <= i < |keys| && Fold(Prices(sales, Product(keys[i]))).maximum == all.maximum)
  {
    var xs := Prices(sales, All);
    AllInScope(sales);
    FoldIsBatch(xs);
    GatheredIsEverything(sales, keys);
    SameMembers(Gathered(sales, keys), xs);
    forall i | 0 <= i < |keys|
      ensures var s := Fold(Prices(sales, Product(keys[i])));
        s.minimum.Finite? && s.maximum.Finite? &&
        Fold(xs).minimum.value <= s.minimum.value && s.maximum.value <= Fold(xs).maximum.value
    {
      ProductWithinAll(sales, keys[i]);
    }
    InSomeProduct(sales, keys, Fold(xs).minimum.value);
    var i :| 0 <= i < |keys| && Fold(xs).minimum.value in Prices(sales, Product(keys[i]));
    FoldIsBatch(Prices(sales, Product(keys[i])));
    InSomeProduct(sales, keys, Fold(xs).maximum.value);
    var j :| 0 <= j < |keys| && Fold(xs).maximum.value in Prices(sales, Product(keys[j]));
    FoldIsBatch(Prices(sales, Product(keys[j])));
  }

  lemma ProductWithinAll(sales: seq<Sale>, p: string)
    requires p in Products(sales)
    ensures var s, all := Fold(Prices(sales, Product(p))), Fold(Prices(sales, All));
      s.minimum.Finite? && s.maximum.Finite? && all.minimum.Finite? && all.maximum.Finite? &&
      all.minimum.value <= s.minimum.value && s.maximum.value <= all.maximum.value
  {
    var xs := Prices(sales, Product(p));
    ProductNotEmpty(sales, p);
    FoldIsBatch(xs);
    ProductInAll(sales, p, Fold(xs).minimum.value);
    ProductInAll(sales, p, Fold(xs).maximum.value);
    FoldIsBatch(Prices(sales, All));
  }

  lemma {:induction false} SumBetween(xs: seq<real>, low: real, high: real)
    requires forall i :: 0 <= i < |xs| ==> low <= xs[i] <= high
    ensures low * |xs| as real <= Sum(xs) <= high * |xs| as real
  {
    if xs != [] {
      var n := |xs| - 1;
      SumBetween(xs[..n], low, high);
      Distribute(n as real, 1.0, low);
      Distribute(n as real, 1.0, high);
    }
  }

  lemma MeanFromBounds(s: Stats, low: real, high: real)
    requires s.count > 0 && low * s.count as real <= TotalOf(s) <= high * s.count as real
    ensures low <= s.mean <= high
  {
    Cancel(low, s.mean, s.count as real);
    Cancel(s.mean, high, s.count as real);
  }

  /** The running average never leaves the range of the observed prices. */
  lemma MeanWithinExtremes(xs: seq<real>)
    requires xs != []
    ensures var s := Fold(xs);
      s.minimum.Finite? && s.maximum.Finite? && s.minimum.value <= s.mean <= s.maximum.value
  {
    hide TotalOf, Fold, Sum;
    FoldIsBatch(xs);
    var s := Fold(xs);
    forall i | 0 <= i < |xs| ensures s.minimum.value <= xs[i] <= s.maximum.value {
      assert xs[i] in xs;
    }
    SumBetween(xs, s.minimum.value, s.maximum.value);
    hide IsLeast, IsGreatest;
    MeanFromBounds(s, s.minimum.value, s.maximum.value);
  }

  function MeanOf(sales: seq<Sale>, p: string): real {
    Fold(Prices(sales, Product(p))).mean
  }

  lemma OneProduct(sales: seq<Sale>, p: string, m: real)
    requires p in Products(sales)
    ensures var s := Fold(Prices(sales, Product(p)));
      s.count > 0 &&
      (MeanOf(sales, p) > m ==> TotalOf(s) > m * s.count as real) &&
      (MeanOf(sales, p) < m ==> TotalOf(s) < m * s.count as real)
  {
    hide Fold, Prices;
    ProductNotEmpty(sales, p);
    FoldIsBatch(Prices(sales, Product(p)));
    var s := Fold(Prices(sales, Product(p)));
    StrictScale(s.mean, m, s.count as real);
  }

  lemma {:induction false} AllOnOneSide(sales: seq<Sale>, keys: seq<string>, m: real)
    requires keys != [] && forall i :: 0 <= i < |keys| ==> keys[i] in Products(sales)
    ensures (forall i :: 0 <= i < |keys| ==> MeanOf(sales, keys[i]) > m) ==>
      Totals(sales, keys) > m * Counts(sales, keys) as real
    ensures (forall i :: 0 <= i < |keys| ==> MeanOf(sales, keys[i]) < m) ==>
      Totals(sales, keys) < m * Counts(sales, keys) as real
  {
    hide Fold, Prices, TotalOf, MeanOf, Products;
    var n := |keys| - 1;
    var s := Fold(Prices(sales, Product(keys[n])));
    OneProduct(sales, keys[n], m);
    var before := keys[..n];
    assert forall i :: 0 <= i < n ==> before[i] == keys[i];
    if before != [] {
      AllOnOneSide(sales, before, m);
    }
    CountsDistribute(Counts(sales, before), s.count, m);
  }

  lemma CountsDistribute(a: nat, b: nat, m: real)
    ensures m * (a + b) as real == m * a as real + m * b as real
  {
    Distribute(a as real, b as real, m);
  }

  lemma StrictScale(a: real, b: real, n: real)
    requires 0.0 < n
    ensures a < b ==> a * n < b * n
    ensures a > b ==> a * n > b * n
  {
    Distribute(a - b, b, n);
    if a < b {
      assert (b - a) * n > 0.0;
    }
    if a > b {
      assert (a - b) * n > 0.0;
    }
  }

  /** The global mean lies between the smallest and the largest product mean. */
  lemma MeanBetweenProductMeans(sales: seq<Sale>, keys: seq<string>)
    requires sales != [] && Distinct(keys) && (forall i :: 0 <= i < |sales| ==> sales[i].product in keys)
    requires forall i :: 0 <= i < |keys| ==> keys[i] in Products(sales)
    ensures var m := Fold(Prices(sales, All)).mean;
      (exists i :: 0 <= i < |keys| && MeanOf(sales, keys[i]) <= m) &&
      (exists i :: 0 <= i < |keys| && m <= MeanOf(sales, keys[i]))
  {
    hide Fold, Prices, Products, Totals, Counts, MeanOf, Distinct;
    assert sales[0].product in keys;
    ProductsAddUp(sales, keys);
    AllOnOneSide(sales, keys, Fold(Prices(sales, All)).mean);
  }

  // ---- rounding ----

  /** `means[i]` is the stored mean after `i` updates; each update lands within `eps` of the exact
      expression on the mean stored before it. */
  predicate NearlyWelford(means: seq<real>, xs: seq<real>, eps: real) {
    |means| == |xs| + 1 && means[0] == 0.0 &&
    forall i :: 0 <= i < |xs| ==> -eps <= Slip(means[i], means[i + 1], xs[i], i) <= eps
  }

  /** How far one stored update is from the exact one. */
  function Slip(mean: real, next: real, x: real, i: nat): real {
    next - (mean + (x - mean) / (i + 1) as real)
  }

  /** The error of the stored mean, scaled by the number of observations. */
  function Drift(mean: real, xs: seq<real>): real {
    mean * |xs| as real - Sum(xs)
  }

  lemma StepArithmetic(mean: real, next: real, x: real, n: nat, sum: real)
    ensures next * (n + 1) as real - (sum + x) == mean * n as real - sum + Slip(mean, next, x, n) * (n + 1) as real
  {
    var k := (n + 1) as real;
    var exact := mean + (x - mean) / k;
    Distribute(mean, (x - mean) / k, k);
    QuotientTimes(x - mean, k);
    assert mean * k == mean * n as real + mean;
    Distribute(next - exact, exact, k);
  }

  lemma DriftStep(mean: real, next: real, xs: seq<real>)
    requires xs != []
    ensures var n := |xs| - 1;
      Drift(next, xs) == Drift(mean, xs[..n]) + Slip(mean, next, xs[n], n) * |xs| as real
  {
    hide Slip;
    var n := |xs| - 1;
    StepArithmetic(mean, next, xs[n], n, Sum(xs[..n]));
  }

  lemma SlipScaled(slip: real, eps: real, k: real)
    requires 0.0 <= k && -eps <= slip <= eps
    ensures -(eps * k) <= slip * k <= eps * k
  {
    assert 0.0 <= (eps - slip) * k && 0.0 <= (slip + eps) * k;
    Distribute(eps - slip, slip, k);
    Distribute(slip + eps, -slip, k);
    assert -slip * k == -(slip * k);
  }

  /** 1 + 2 + ... + n */
  function Triangle(n: nat): real {
    if n == 0 then 0.0 else Triangle(n - 1) + n as real
  }

  lemma {:induction false} TriangleIs(n: nat)
    ensures Triangle(n) == n as real * (n + 1) as real / 2.0
  {
    if n > 0 {
      TriangleIs(n - 1);
      Distribute((n - 1) as real, 2.0, n as real);
    }
  }

  predicate DriftWithin(mean: real, xs: seq<real>, eps: real) {
    -(eps * Triangle(|xs|)) <= Drift(mean, xs) <= eps * Triangle(|xs|)
  }

  lemma DriftStays(mean: real, next: real, xs: seq<real>, eps: real)
    requires xs != [] && 0.0 <= eps
    requires -eps <= Slip(mean, next, xs[|xs| - 1], |xs| - 1) <= eps
    ensures DriftWithin(mean, xs[..|xs| - 1], eps) ==> DriftWithin(next, xs, eps)
    ensures Drift(mean, xs[..|xs| - 1]) == eps * Triangle(|xs| - 1) && Slip(mean, next, xs[|xs| - 1], |xs| - 1) == eps ==>
      Drift(next, xs) == eps * Triangle(|xs|)
  {
    hide Slip, Drift, Triangle;
    var n := |xs| - 1;
    assert |xs[..n]| == n;
    DriftStep(mean, next, xs);
    SlipScaled(Slip(mean, next, xs[n], n), eps, |xs| as real);
    TriangleStep(eps, n);
  }

  lemma {:induction false} DriftBound(means: seq<real>, xs: seq<real>, eps: real)
    requires 0.0 <= eps && NearlyWelford(means, xs, eps)
    ensures DriftWithin(means[|xs|], xs, eps)
  {
    if xs == [] {
      assert Drift(means[0], xs) == 0.0;
    } else {
      hide Slip, DriftWithin;
      var n := |xs| - 1;
      NearlyBefore(means, xs, eps);
      DriftBound(means[..n + 1], xs[..n], eps);
      DriftStays(means[n], means[n + 1], xs, eps);
    }
  }

  lemma TriangleStep(eps: real, n: nat)
    ensures eps * Triangle(n + 1) == eps * Triangle(n) + eps * (n + 1) as real
  {
    Distribute(Triangle(n), (n + 1) as real, eps);
  }

  lemma NearlyBefore(means: seq<real>, xs: seq<real>, eps: real)
    requires xs != [] && NearlyWelford(means, xs, eps)
    ensures NearlyWelford(means[..|xs|], xs[..|xs| - 1], eps)
    ensures -eps <= Slip(means[|xs| - 1], means[|xs|], xs[|xs| - 1], |xs| - 1) <= eps
  {
    hide Slip;
  }

  /** Rounding bound: if every stored update is within `eps` of the exact one, the stored mean is
      within `eps * (n + 1) / 2` of the true average after `n` updates. */
  lemma RoundingBound(means: seq<real>, xs: seq<real>, eps: real)
    requires xs != [] && 0.0 <= eps && NearlyWelford(means, xs, eps)
    ensures var n := |xs|;
      var bound := eps * ((n + 1) as real / 2.0);
      -bound <= means[n] - Sum(xs) / n as real <= bound
  {
    hide Slip, Sum, Drift, DriftWithin;
    DriftBound(means, xs, eps);
    ErrorFromDrift(means[|xs|], xs, eps);
  }

  lemma ErrorFromDrift(mean: real, xs: seq<real>, eps: real)
    requires xs != [] && DriftWithin(mean, xs, eps)
    ensures var bound := eps * ((|xs| + 1) as real / 2.0); -bound <= mean - Sum(xs) / |xs| as real <= bound
  {
    hide Sum;
    var k := |xs| as real;
    var bound := eps * ((|xs| + 1) as real / 2.0);
    var error := mean - Sum(xs) / k;
    TriangleIs(|xs|);
    HalfTimes(eps, k, (|xs| + 1) as real);
    QuotientTimes(Sum(xs), k);
    Distribute(error, Sum(xs) / k, k);
    hide Triangle;
    assert error * k == Drift(mean, xs);
    Cancel(error, bound, k);
    Distribute(bound, -bound, k);
    Cancel(-bound, error, k);
  }

  lemma HalfTimes(eps: real, k: real, m: real)
    ensures eps * (k * m / 2.0) == eps * (m / 2.0) * k
  {
  }

  lemma NearlySnoc(means: seq<real>, xs: seq<real>, eps: real, next: real, x: real)
    requires NearlyWelford(means, xs, eps) && -eps <= Slip(means[|xs|], next, x, |xs|) <= eps
    ensures NearlyWelford(means + [next], xs + [x], eps)
  {
    hide Slip;
    var all, ys := means + [next], xs + [x];
    forall i | 0 <= i < |ys| ensures -eps <= Slip(all[i], all[i + 1], ys[i], i) <= eps {
      assert i < |xs| ==> all[i] == means[i] && all[i + 1] == means[i + 1] && ys[i] == xs[i];
    }
  }

  lemma ErrorOfDrift(mean: real, xs: seq<real>, eps: real)
    requires xs != [] && Drift(mean, xs) == eps * Triangle(|xs|)
    ensures mean - Sum(xs) / |xs| as real == eps * ((|xs| + 1) as real / 2.0)
  {
    hide Sum;
    var k := |xs| as real;
    var error := mean - Sum(xs) / k;
    TriangleIs(|xs|);
    HalfTimes(eps, k, (|xs| + 1) as real);
    QuotientTimes(Sum(xs), k);
    Distribute(error, Sum(xs) / k, k);
    hide Triangle;
    assert error * k == Drift(mean, xs);
    Cancel(error, eps * ((|xs| + 1) as real / 2.0), k);
  }

  /** The bound is attained: slipping up by `eps` every time drifts by exactly that much, so an
      error that is fixed per update does grow with the stream. */
  lemma RoundingBoundAttained(xs: seq<real>, eps: real) returns (means: seq<real>)
    requires xs != [] && 0.0 <= eps
    ensures NearlyWelford(means, xs, eps)
    ensures means[|xs|] - Sum(xs) / |xs| as real == eps * ((|xs| + 1) as real / 2.0)
  {
    hide Drift, Sum, Slip;
    means := SlippingUp(xs, eps);
    ErrorOfDrift(means[|xs|], xs, eps);
  }

  lemma SlipUp(mean: real, x: real, n: nat, eps: real) returns (next: real)
    ensures Slip(mean, next, x, n) == eps
  {
    next := mean + (x - mean) / (n + 1) as real + eps;
  }

  lemma {:induction false} SlippingUp(xs: seq<real>, eps: real) returns (means: seq<real>)
    requires 0.0 <= eps
    ensures NearlyWelford(means, xs, eps)
    ensures Drift(means[|xs|], xs) == eps * Triangle(|xs|)
  {
    if xs == [] {
      means := [0.0];
      assert Drift(means[0], xs) == 0.0;
    } else {
      hide Slip, Drift, Triangle;
      var n := |xs| - 1;
      var before := SlippingUp(xs[..n], eps);
      var next := SlipUp(before[n], xs[n], n, eps);
      means := before + [next];
      NearlySnoc(before, xs[..n], eps, next, xs[n]);
      assert xs[..n] + [xs[n]] == xs;
      DriftStays(before[n], next, xs, eps);
    }
  }

  /** Every mean that slips by at most `eps` per update ends within `b` of the true average. */
  ghost predicate StaysWithin(xs: seq<real>, eps: real, b: real)
    requires xs != []
  {
    forall means :: NearlyWelford(means, xs, eps) ==> -b <= means[|xs|] - Sum(xs) / |xs| as real <= b
  }

  /** How far the running mean can be off after `n` updates: by `eps * (n + 1) / 2`, and no less. */
  lemma RoundingBoundExactly(xs: seq<real>, eps: real, b: real)
    requires xs != [] && 0.0 <= eps
    ensures StaysWithin(xs, eps, b) <==> eps * ((|xs| + 1) as real / 2.0) <= b
  {
    hide Slip, Sum;
    if eps * ((|xs| + 1) as real / 2.0) <= b {
      forall means | NearlyWelford(means, xs, eps) ensures -b <= means[|xs|] - Sum(xs) / |xs| as real <= b {
        RoundingBound(means, xs, eps);
      }
    } else {
      var means := RoundingBoundAttained(xs, eps);
    }
  }

  /** `b` bounds the error for streams of every length. */
  ghost predicate AlwaysWithin(eps: real, b: real) {
    forall xs: seq<real> :: xs != [] ==> StaysWithin(xs, eps, b)
  }

  /** One bound for streams of every length exists only if no update is ever off. */
  lemma BoundedForeverExactly(eps: real)
    requires 0.0 <= eps
    ensures (exists b: real :: AlwaysWithin(eps, b)) <==> eps == 0.0
  {
    hide StaysWithin;
    if eps == 0.0 {
      forall xs: seq<real> | xs != [] ensures StaysWithin(xs, eps, 0.0) {
        RoundingBoundExactly(xs, eps, 0.0);
      }
      assert AlwaysWithin(eps, 0.0);
    } else if b: real :| AlwaysWithin(eps, b) {
      var xs := Outgrows(eps, b);
      RoundingBoundExactly(xs, eps, b);
    }
  }

  /** A stream long enough for the error to pass `b`. */
  lemma Outgrows(eps: real, b: real) returns (xs: seq<real>)
    requires 0.0 < eps
    ensures xs != [] && b < eps * ((|xs| + 1) as real / 2.0)
  {
    var steps := 2.0 * b / eps;
    var n: nat := if 0.0 <= steps then steps.Floor + 1 else 1;
    xs := seq(n, _ => 1.0);
    QuotientTimes(2.0 * b, eps);
    CompareScaled(steps, (n + 1) as real, eps);
    if eps * (n + 1) as real <= eps * steps {
      assert false;
    }
    HalfTimes(eps, 1.0, (n + 1) as real);
  }
}
