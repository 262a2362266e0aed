/** Truncated exponential backoff with jitter (retry.py), over exact reals. */
module Retry {
  import opened Reals

  datatype RetryPolicy = RetryPolicy(
    maxAttempts: int, initial: real, multiplier: real, cap: real, jitter: real)

  const DEFAULTS := RetryPolicy(4, 0.2, 2.0, 5.0, 0.2)

  /** `__post_init__` accepts the policy. */
  predicate WellFormed(p: RetryPolicy) {
    1 <= p.maxAttempts && 0.0 <= p.initial && 1.0 <= p.multiplier &&
    p.initial <= p.cap && 0.0 <= p.jitter <= 1.0
  }

  /** What `__post_init__` refuses, check by check. */
  lemma RefusedExactly(p: RetryPolicy)
    ensures !WellFormed(p) <==>
      p.maxAttempts < 1 || p.initial < 0.0 || p.multiplier < 1.0 || p.cap < p.initial || p.jitter < 0.0 || 1.0 < p.jitter
  {
  }

  predicate ShouldRetry(p: RetryPolicy, attempt: int) {
    attempt < p.maxAttempts
  }

  function Power(m: real, n: nat): real {
    if n == 0 then 1.0 else m * Power(m, n - 1)
  }

  /** The exponential before the ceiling is applied; `attempt` is 1-based. */
  function Uncapped(p: RetryPolicy, attempt: nat): real
    requires 1 <= attempt
  {
    p.initial * Power(p.multiplier, attempt - 1)
  }

  function Base(p: RetryPolicy, attempt: nat): real
    requires 1 <= attempt
  {
    if p.cap < Uncapped(p, attempt) then p.cap else Uncapped(p, attempt)
  }

  function Spread(p: RetryPolicy, attempt: nat): real
    requires 1 <= attempt
  {
    Base(p, attempt) * p.jitter
  }

  /** What `uniform(-spread, spread)` may return. */
  predicate Draw(p: RetryPolicy, attempt: nat, x: real)
    requires 1 <= attempt
  {
    -Spread(p, attempt) <= x <= Spread(p, attempt)
  }

  /** `backoff_for`, with `x` the value drawn. */
  function Backoff(p: RetryPolicy, attempt: nat, x: real): real
    requires 1 <= attempt
  {
    if p.jitter == 0.0 then Base(p, attempt)
    else if 0.0 < Base(p, attempt) + x then Base(p, attempt) + x
    else 0.0
  }

  // ---- the base ----

  lemma {:induction false} PowerAtLeastOne(m: real, n: nat)
    requires 1.0 <= m
    ensures 1.0 <= Power(m, n)
  {
    if n > 0 {
      PowerAtLeastOne(m, n - 1);
      Scale(1.0, m, Power(m, n - 1));
    }
  }

  predicate Grown(m: real, x: real, y: real) {
    y == m * x
  }

  lemma UncappedGrows(p: RetryPolicy, a: nat)
    requires WellFormed(p) && 1 <= a
    ensures 0.0 <= Uncapped(p, a) <= Uncapped(p, a + 1)
    ensures Grown(p.multiplier, Uncapped(p, a), Uncapped(p, a + 1))
  {
    PowerAtLeastOne(p.multiplier, a - 1);
    Scale(0.0, p.initial, Power(p.multiplier, a - 1));
    Scale(1.0, p.multiplier, Uncapped(p, a));
    assert Power(p.multiplier, a) == p.multiplier * Power(p.multiplier, a - 1);
  }

  /** For every legal policy the unjittered pause never shrinks, and once at the cap it stays there. */
  lemma {:induction false} BaseIsMonotone(p: RetryPolicy, a: nat, b: nat)
    requires WellFormed(p) && 1 <= a <= b
    ensures 0.0 <= Base(p, a) <= Base(p, b) <= p.cap
    ensures Base(p, a) == p.cap ==> Base(p, b) == p.cap
    ensures Uncapped(p, a) <= Uncapped(p, b)
    decreases b - a
  {
    UncappedGrows(p, a);
    if a < b {
      BaseIsMonotone(p, a + 1, b);
    }
  }

  // ---- one pause ----

  lemma SpreadBelowBase(p: RetryPolicy, a: nat)
    requires WellFormed(p) && 1 <= a
    ensures 0.0 <= Spread(p, a) <= Base(p, a)
    ensures p.jitter == 0.0 ==> Spread(p, a) == 0.0
  {
    BaseIsMonotone(p, a, a);
    Scale(0.0, p.jitter, Base(p, a));
    Scale(p.jitter, 1.0, Base(p, a));
  }

  /** Every pause lies in the jitter band around its base, and the clamp at zero never bites. */
  lemma PauseWithinBand(p: RetryPolicy, a: nat, x: real)
    requires WellFormed(p) && 1 <= a && Draw(p, a, x)
    ensures 0.0 <= Base(p, a) * (1.0 - p.jitter) <= Backoff(p, a, x) <= Base(p, a) * (1.0 + p.jitter)
    ensures Backoff(p, a, x) == Base(p, a) + x
  {
    SpreadBelowBase(p, a);
    Around(Base(p, a), p.jitter);
  }

  // ---- pauses lengthen ----

  /** Whatever is drawn, the pause after attempt `b` is no shorter than the one after attempt `a`. */
  ghost predicate NeverShorter(p: RetryPolicy, a: nat, b: nat)
    requires 1 <= a && 1 <= b
  {
    forall x, y :: Draw(p, a, x) && Draw(p, b, y) ==> Backoff(p, a, x) <= Backoff(p, b, y)
  }

  /** The longest pause around `base` is no longer than the shortest around `next`. */
  predicate BandsInOrder(base: real, next: real, j: real) {
    base + base * j <= next - next * j
  }

  /** For any two attempts, below the cap, at it or across it: the later pause is the longer under
      every draw if and only if the bands around the two bases do not overlap. */
  lemma LengthensExactly(p: RetryPolicy, a: nat, b: nat)
    requires WellFormed(p) && 1 <= a && 1 <= b
    ensures NeverShorter(p, a, b) <==> BandsInOrder(Base(p, a), Base(p, b), p.jitter)
  {
    hide Power, Uncapped, Base;
    SpreadBelowBase(p, a);
    SpreadBelowBase(p, b);
    assert Draw(p, a, Spread(p, a)) && Draw(p, b, -Spread(p, b));
    PauseWithinBand(p, a, Spread(p, a));
    PauseWithinBand(p, b, -Spread(p, b));
    if Base(p, a) + Spread(p, a) <= Base(p, b) - Spread(p, b) {
      forall x, y | Draw(p, a, x) && Draw(p, b, y) ensures Backoff(p, a, x) <= Backoff(p, b, y) {
        PauseWithinBand(p, a, x);
        PauseWithinBand(p, b, y);
      }
    }
  }

  lemma GrowthAgainstJitter(base: real, next: real, m: real, j: real)
    requires 0.0 <= base && next == m * base
    ensures BandsInOrder(base, next, j) <==> base == 0.0 || 1.0 + j <= m * (1.0 - j)
  {
    Around(base, j);
    Around(next, j);
    Regroup(m, base, 1.0 - j);
    if base != 0.0 {
      CompareScaled(1.0 + j, m * (1.0 - j), base);
    }
  }

  lemma BelowCap(p: RetryPolicy, a: nat)
    requires WellFormed(p) && 1 <= a && Uncapped(p, a + 1) <= p.cap
    ensures 0.0 <= Base(p, a) && Base(p, a + 1) == p.multiplier * Base(p, a)
    ensures Base(p, a) == 0.0 <==> p.initial == 0.0
  {
    UncappedGrows(p, a);
    PowerAtLeastOne(p.multiplier, a - 1);
    if p.initial != 0.0 {
      PositiveProduct(p.initial, Power(p.multiplier, a - 1));
    }
  }

  /** Below the cap, pauses lengthen under every draw if and only if the growth outruns the jitter. */
  lemma LengthensBelowCap(p: RetryPolicy, a: nat)
    requires WellFormed(p) && 1 <= a && Uncapped(p, a + 1) <= p.cap
    ensures NeverShorter(p, a, a + 1) <==> p.initial == 0.0 || 1.0 + p.jitter <= p.multiplier * (1.0 - p.jitter)
  {
    hide *;
    BelowCap(p, a);
    LengthensExactly(p, a, a + 1);
    GrowthAgainstJitter(Base(p, a), Base(p, a + 1), p.multiplier, p.jitter);
  }

  lemma EqualBands(base: real, j: real)
    requires 0.0 <= base && 0.0 <= j
    ensures BandsInOrder(base, base, j) <==> base == 0.0 || j == 0.0
  {
    if base != 0.0 && j != 0.0 {
      PositiveProduct(base, j);
    }
  }

  /** At the cap they need not: two capped pauses lengthen under every draw only without jitter. */
  lemma LengthensAtCap(p: RetryPolicy, a: nat)
    requires WellFormed(p) && 1 <= a && Base(p, a) == p.cap
    ensures NeverShorter(p, a, a + 1) <==> p.jitter == 0.0 || p.cap == 0.0
  {
    hide Base, BandsInOrder, NeverShorter;
    LengthensExactly(p, a, a + 1);
    BaseIsMonotone(p, a, a + 1);
    EqualBands(p.cap, p.jitter);
  }

  // ---- the whole of one call ----

  /** The first `k` capped bases. */
  function Bases(p: RetryPolicy, k: nat): (r: seq<real>)
    ensures |r| == k && forall i :: 0 <= i < k ==> r[i] == Base(p, i + 1)
  {
    seq(k, i requires 0 <= i => Base(p, i + 1))
  }

  /** The pauses one call takes: after attempt `i + 1`, drawn from the policy. */
  ghost predicate PausesOf(p: RetryPolicy, pauses: seq<real>) {
    forall i :: 0 <= i < |pauses| ==> DrawnPause(p, i + 1, pauses[i])
  }

  ghost predicate DrawnPause(p: RetryPolicy, a: nat, pause: real)
    requires 1 <= a
  {
    exists x :: Draw(p, a, x) && pause == Backoff(p, a, x)
  }

  predicate NeverShrink(pauses: seq<real>) {
    forall i, j :: 0 <= i < j < |pauses| ==> pauses[i] <= pauses[j]
  }

  /** The bands around the first `k` bases follow one another without overlap. */
  predicate BandsAscend(p: RetryPolicy, k: nat) {
    forall a :: 1 <= a < k ==> BandsInOrder(Base(p, a), Base(p, a + 1), p.jitter)
  }

  lemma {:induction false} PausesAscend(p: RetryPolicy, pauses: seq<real>, i: nat, j: nat)
    requires WellFormed(p) && PausesOf(p, pauses) && BandsAscend(p, |pauses|) && i <= j < |pauses|
    ensures pauses[i] <= pauses[j]
    decreases j
  {
    if i < j {
      hide WellFormed, Draw, Backoff, Base, BandsInOrder;
      PausesAscend(p, pauses, i, j - 1);
      LengthensExactly(p, j, j + 1);
      assert DrawnPause(p, j, pauses[j - 1]) && DrawnPause(p, j + 1, pauses[j]);
    }
  }

  /** The longest pause after attempt `a`, the shortest after every other. */
  function Squeezed(p: RetryPolicy, k: nat, a: nat): (r: seq<real>)
    ensures |r| == k
    ensures forall i :: 0 <= i < k ==> r[i] == Backoff(p, i + 1, if i + 1 == a then Spread(p, a) else -Spread(p, i + 1))
  {
    seq(k, i requires 0 <= i => Backoff(p, i + 1, if i + 1 == a then Spread(p, a) else -Spread(p, i + 1)))
  }

  lemma SqueezedIsDrawn(p: RetryPolicy, k: nat, a: nat)
    requires WellFormed(p)
    ensures PausesOf(p, Squeezed(p, k, a))
  {
    hide Base, Backoff;
    forall i | 0 <= i < k ensures DrawnPause(p, i + 1, Squeezed(p, k, a)[i]) {
      SpreadBelowBase(p, i + 1);
      assert Draw(p, i + 1, if i + 1 == a then Spread(p, a) else -Spread(p, i + 1));
    }
  }

  /** The pauses of one call never shrink, whatever is drawn, if and only if the bands ascend. */
  lemma CallLengthensExactly(p: RetryPolicy, k: nat)
    requires WellFormed(p)
    ensures (forall pauses :: PausesOf(p, pauses) && |pauses| == k ==> NeverShrink(pauses)) <==> BandsAscend(p, k)
  {
    hide *;
    if BandsAscend(p, k) {
      forall pauses | PausesOf(p, pauses) && |pauses| == k ensures NeverShrink(pauses) {
        PausesNeverShrink(p, pauses);
      }
    } else {
      var a := SomeOverlap(p, k);
      SqueezedIsDrawn(p, k, a);
      SqueezedShrinks(p, k, a);
    }
  }

  lemma PausesNeverShrink(p: RetryPolicy, pauses: seq<real>)
    requires WellFormed(p) && PausesOf(p, pauses) && BandsAscend(p, |pauses|)
    ensures NeverShrink(pauses)
  {
    hide WellFormed, PausesOf, BandsAscend;
    forall i, j | 0 <= i < j < |pauses| ensures pauses[i] <= pauses[j] {
      PausesAscend(p, pauses, i, j);
    }
  }

  lemma SomeOverlap(p: RetryPolicy, k: nat) returns (a: nat)
    requires !BandsAscend(p, k)
    ensures 1 <= a < k && !BandsInOrder(Base(p, a), Base(p, a + 1), p.jitter)
  {
    hide BandsInOrder, Base;
    a :| 1 <= a < k && !BandsInOrder(Base(p, a), Base(p, a + 1), p.jitter);
  }

  lemma SqueezedShrinks(p: RetryPolicy, k: nat, a: nat)
    requires WellFormed(p) && 1 <= a < k && !BandsInOrder(Base(p, a), Base(p, a + 1), p.jitter)
    ensures !NeverShrink(Squeezed(p, k, a))
  {
    hide Base, Backoff;
    SpreadBelowBase(p, a);
    SpreadBelowBase(p, a + 1);
    PauseWithinBand(p, a, Spread(p, a));
    PauseWithinBand(p, a + 1, -Spread(p, a + 1));
    assert Squeezed(p, k, a)[a - 1] > Squeezed(p, k, a)[a];
  }

  /** While the exponential stays below the cap and growth outruns jitter, no call ever pauses for
      less than it did before. */
  lemma CallLengthensBelowCap(p: RetryPolicy, pauses: seq<real>)
    requires WellFormed(p) && PausesOf(p, pauses) && 1.0 + p.jitter <= p.multiplier * (1.0 - p.jitter)
    requires pauses == [] || Uncapped(p, |pauses|) <= p.cap
    ensures NeverShrink(pauses)
  {
    hide Base, BandsInOrder, WellFormed, Uncapped, PausesOf, NeverShrink, NeverShorter;
    forall a | 1 <= a < |pauses| ensures BandsInOrder(Base(p, a), Base(p, a + 1), p.jitter) {
      BaseIsMonotone(p, a + 1, |pauses|);
      LengthensBelowCap(p, a);
      LengthensExactly(p, a, a + 1);
    }
    CallLengthensExactly(p, |pauses|);
  }

  function Scaled(xs: seq<real>, factor: real): (r: seq<real>)
    ensures |r| == |xs| && forall i :: 0 <= i < |xs| ==> r[i] == xs[i] * factor
  {
    seq(|xs|, i requires 0 <= i < |xs| => xs[i] * factor)
  }

  lemma {:induction false} SumScaled(xs: seq<real>, factor: real)
    ensures Sum(Scaled(xs, factor)) == Sum(xs) * factor
  {
    if xs != [] {
      var n := |xs| - 1;
      forall i | 0 <= i < n ensures Scaled(xs[..n], factor)[i] == Scaled(xs, factor)[..n][i] {
        assert xs[..n][i] == xs[i];
      }
      assert Scaled(xs[..n], factor) == Scaled(xs, factor)[..n];
      SumScaled(xs[..n], factor);
      Distribute(Sum(xs[..n]), xs[n], factor);
    }
  }

  lemma {:induction false} SumBelow(xs: seq<real>, ys: seq<real>)
    requires |xs| == |ys| && forall i :: 0 <= i < |xs| ==> xs[i] <= ys[i]
    ensures Sum(xs) <= Sum(ys)
  {
    if xs != [] {
      SumBelow(xs[..|xs| - 1], ys[..|ys| - 1]);
    }
  }

  lemma {:induction false} BoundedSum(xs: seq<real>, cap: real)
    requires forall i :: 0 <= i < |xs| ==> 0.0 <= xs[i] <= cap
    ensures 0.0 <= Sum(xs) <= |xs| as real * cap
  {
    if xs != [] {
      var n := |xs| - 1;
      BoundedSum(xs[..n], cap);
      Distribute(n as real, 1.0, cap);
    }
  }

  /** Pause by pause, between `f` and `g` times the base. */
  ghost predicate Within(bases: seq<real>, pauses: seq<real>, f: real, g: real) {
    |bases| == |pauses| &&
    forall i :: 0 <= i < |bases| ==> Scaled(bases, f)[i] <= pauses[i] <= Scaled(bases, g)[i]
  }

  lemma BandSums(bases: seq<real>, pauses: seq<real>, f: real, g: real)
    requires Within(bases, pauses, f, g)
    ensures Sum(bases) * f <= Sum(pauses) <= Sum(bases) * g
  {
    hide Sum;
    SumBelow(Scaled(bases, f), pauses);
    SumBelow(pauses, Scaled(bases, g));
    SumScaled(bases, f);
    SumScaled(bases, g);
  }

  lemma PausesWithin(p: RetryPolicy, pauses: seq<real>)
    requires WellFormed(p) && PausesOf(p, pauses)
    ensures Within(Bases(p, |pauses|), pauses, 1.0 - p.jitter, 1.0 + p.jitter)
  {
    hide Base, Spread, DrawnPause, WellFormed;
    var bases := Bases(p, |pauses|);
    forall i | 0 <= i < |bases|
      ensures Scaled(bases, 1.0 - p.jitter)[i] <= pauses[i] <= Scaled(bases, 1.0 + p.jitter)[i]
    {
      PauseInBand(p, i + 1, pauses[i]);
    }
  }

  lemma BasesBounded(p: RetryPolicy, k: nat)
    requires WellFormed(p)
    ensures 0.0 <= Sum(Bases(p, k)) <= k as real * p.cap
  {
    hide *;
    forall i | 0 <= i < k ensures 0.0 <= Bases(p, k)[i] <= p.cap {
      BaseIsMonotone(p, i + 1, i + 1);
    }
    BoundedSum(Bases(p, k), p.cap);
  }

  /** One call sleeps within the jitter band of its summed bases, at most `k` times the cap plus jitter. */
  lemma TotalWithinBand(p: RetryPolicy, pauses: seq<real>)
    requires WellFormed(p) && PausesOf(p, pauses)
    ensures var sum := Sum(Bases(p, |pauses|));
      sum * (1.0 - p.jitter) <= Sum(pauses) <= sum * (1.0 + p.jitter) &&
      0.0 <= sum <= |pauses| as real * p.cap
  {
    hide *;
    PausesWithin(p, pauses);
    BandSums(Bases(p, |pauses|), pauses, 1.0 - p.jitter, 1.0 + p.jitter);
    BasesBounded(p, |pauses|);
  }

  lemma PauseInBand(p: RetryPolicy, a: nat, pause: real)
    requires WellFormed(p) && 1 <= a && DrawnPause(p, a, pause)
    ensures Base(p, a) * (1.0 - p.jitter) <= pause <= Base(p, a) * (1.0 + p.jitter)
    ensures 0.0 <= Base(p, a) <= p.cap
  {
    var x :| Draw(p, a, x) && pause == Backoff(p, a, x);
    PauseWithinBand(p, a, x);
    BaseIsMonotone(p, a, a);
  }

  /** How many of the first `k` bases are still below or at the cap. */
  function Crossover(p: RetryPolicy, k: nat): (x: nat)
    ensures x <= k
  {
    if k == 0 then 0
    else if Uncapped(p, k) <= p.cap then k
    else Crossover(p, k - 1)
  }

  lemma {:induction false} CrossoverSplits(p: RetryPolicy, k: nat, a: nat)
    requires WellFormed(p) && 1 <= a <= k
    ensures Base(p, a) == if a <= Crossover(p, k) then Uncapped(p, a) else p.cap
  {
    if Uncapped(p, k) <= p.cap {
      BaseIsMonotone(p, a, k);
    } else if a < k {
      CrossoverSplits(p, k - 1, a);
    }
  }

  lemma {:induction false} GeometricSum(xs: seq<real>, m: real, next: real)
    requires xs != [] && Grown(m, xs[|xs| - 1], next)
    requires forall i :: 0 < i < |xs| ==> Grown(m, xs[i - 1], xs[i])
    ensures Sum(xs) * (m - 1.0) == next - xs[0]
  {
    var n := |xs| - 1;
    if n == 0 {
      assert Sum(xs) == xs[0];
      Around(xs[0], m);
    } else {
      var before, last := xs[..n], xs[n];
      assert Grown(m, xs[n - 1], xs[n]);
      GeometricSum(before, m, last);
      Distribute(Sum(before), last, m - 1.0);
      Around(last, m);
    }
  }

  lemma {:induction false} ConstantSum(xs: seq<real>, x: real)
    requires forall i :: 0 <= i < |xs| ==> xs[i] == x
    ensures Sum(xs) == |xs| as real * x
  {
    if xs != [] {
      ConstantSum(xs[..|xs| - 1], x);
      Distribute((|xs| - 1) as real, 1.0, x);
    }
  }

  lemma {:induction false} ConstantTail(xs: seq<real>, x: nat, cap: real)
    requires x <= |xs| && forall i :: x <= i < |xs| ==> xs[i] == cap
    ensures Sum(xs) == Sum(xs[..x]) + (|xs| - x) as real * cap
  {
    if x == |xs| {
      assert xs[..x] == xs;
    } else {
      var n := |xs| - 1;
      assert xs[..n][..x] == xs[..x];
      ConstantTail(xs[..n], x, cap);
      Distribute((n - x) as real, 1.0, cap);
    }
  }

  lemma {:induction false} UncappedWithoutGrowth(p: RetryPolicy, a: nat)
    requires p.multiplier == 1.0 && 1 <= a
    ensures Uncapped(p, a) == p.initial
  {
    OnesPower(a - 1);
  }

  lemma {:induction false} OnesPower(n: nat)
    ensures Power(1.0, n) == 1.0
  {
    if n > 0 {
      OnesPower(n - 1);
    }
  }

  lemma FirstUncapped(p: RetryPolicy)
    ensures Uncapped(p, 1) == p.initial
  {
  }

  lemma PrefixIsGeometric(p: RetryPolicy, x: nat)
    requires WellFormed(p) && forall a :: 1 <= a <= x ==> Base(p, a) == Uncapped(p, a)
    ensures Sum(Bases(p, x)) * (p.multiplier - 1.0) == Uncapped(p, x + 1) - p.initial
  {
    var xs := Bases(p, x);
    FirstUncapped(p);
    if x == 0 {
      assert Sum(xs) == 0.0;
    } else {
      hide *;
      forall i | 0 < i < x ensures Grown(p.multiplier, xs[i - 1], xs[i]) {
        UncappedGrows(p, i);
      }
      UncappedGrows(p, x);
      GeometricSum(xs, p.multiplier, Uncapped(p, x + 1));
    }
  }

  lemma PrefixIsConstant(p: RetryPolicy, x: nat)
    requires p.multiplier == 1.0 && forall a :: 1 <= a <= x ==> Base(p, a) == Uncapped(p, a)
    ensures Sum(Bases(p, x)) == x as real * p.initial
  {
    hide *;
    var xs := Bases(p, x);
    forall i | 0 <= i < x ensures xs[i] == p.initial {
      UncappedWithoutGrowth(p, i + 1);
    }
    ConstantSum(xs, p.initial);
  }

  lemma TailIsLinear(p: RetryPolicy, x: nat, k: nat)
    requires x <= k && forall a :: x < a <= k ==> Base(p, a) == p.cap
    ensures Sum(Bases(p, k)) == Sum(Bases(p, x)) + (k - x) as real * p.cap
  {
    hide Base;
    assert Bases(p, k)[..x] == Bases(p, x);
    ConstantTail(Bases(p, k), x, p.cap);
  }

  /** Closed form: a geometric prefix up to the crossover, where the next exponential would pass
      the cap, then a linear tail at the cap. */
  lemma BasesClosedForm(p: RetryPolicy, k: nat)
    requires WellFormed(p)
    ensures var x := Crossover(p, k);
      var prefix := Sum(Bases(p, x));
      Sum(Bases(p, k)) == prefix + (k - x) as real * p.cap &&
      prefix * (p.multiplier - 1.0) == Uncapped(p, x + 1) - p.initial &&
      (p.multiplier == 1.0 ==> prefix == x as real * p.initial) &&
      (x < k ==> p.cap < Uncapped(p, x + 1))
  {
    hide *;
    var x := Crossover(p, k);
    forall a | 1 <= a <= k ensures Base(p, a) == if a <= x then Uncapped(p, a) else p.cap {
      CrossoverSplits(p, k, a);
    }
    TailIsLinear(p, x, k);
    PrefixIsGeometric(p, x);
    if p.multiplier == 1.0 {
      PrefixIsConstant(p, x);
    }
    CrossoverIsFirst(p, k);
  }

  lemma {:induction false} CrossoverIsFirst(p: RetryPolicy, k: nat)
    ensures Crossover(p, k) < k ==> p.cap < Uncapped(p, Crossover(p, k) + 1)
  {
    if k != 0 && p.cap < Uncapped(p, k) && Crossover(p, k) < k - 1 {
      CrossoverIsFirst(p, k - 1);
    }
  }

  /** Every pause as long as it can be. */
  lemma LongestPauses(p: RetryPolicy, k: nat) returns (pauses: seq<real>)
    requires WellFormed(p)
    ensures PausesOf(p, pauses) && |pauses| == k && Sum(pauses) == Sum(Bases(p, k)) * (1.0 + p.jitter)
  {
    hide Base, DrawnPause, WellFormed, Sum;
    pauses := Scaled(Bases(p, k), 1.0 + p.jitter);
    forall i | 0 <= i < k ensures DrawnPause(p, i + 1, pauses[i]) {
      LongestPause(p, i + 1, pauses[i]);
    }
    SumScaled(Bases(p, k), 1.0 + p.jitter);
  }

  lemma LongestPause(p: RetryPolicy, a: nat, pause: real)
    requires WellFormed(p) && 1 <= a && pause == Base(p, a) * (1.0 + p.jitter)
    ensures DrawnPause(p, a, pause)
  {
    hide Base;
    SpreadBelowBase(p, a);
    Around(Base(p, a), p.jitter);
    assert Draw(p, a, Spread(p, a));
    PauseWithinBand(p, a, Spread(p, a));
  }

  /** Which policies are safe under a limit such as the poll interval, with no upper bound on attempts
      or on the cap: every call that pauses `k` times stays below it if and only if the longest does. */
  lemma CallStaysBelowExactly(p: RetryPolicy, k: nat, limit: real)
    requires WellFormed(p)
    ensures (forall pauses :: PausesOf(p, pauses) && |pauses| == k ==> Sum(pauses) < limit) <==>
      Sum(Bases(p, k)) * (1.0 + p.jitter) < limit
  {
    hide *;
    if Sum(Bases(p, k)) * (1.0 + p.jitter) < limit {
      forall pauses | PausesOf(p, pauses) && |pauses| == k ensures Sum(pauses) < limit {
        TotalWithinBand(p, pauses);
      }
    } else {
      var pauses := LongestPauses(p, k);
    }
  }

  // ---- the defaults ----

  lemma DefaultBase()
    ensures Base(DEFAULTS, 1) == 0.2 && Base(DEFAULTS, 2) == 0.4 && Base(DEFAULTS, 3) == 0.8
  {
    hide Power, Uncapped;
    FirstUncapped(DEFAULTS);
    UncappedGrows(DEFAULTS, 1);
    UncappedGrows(DEFAULTS, 2);
    assert Uncapped(DEFAULTS, 2) == 2.0 * Uncapped(DEFAULTS, 1);
    assert Uncapped(DEFAULTS, 3) == 2.0 * Uncapped(DEFAULTS, 2);
  }

  lemma DefaultBases()
    ensures Bases(DEFAULTS, 3) == [0.2, 0.4, 0.8]
  {
    DefaultBase();
    var bases := Bases(DEFAULTS, 3);
    assert bases[0] == Base(DEFAULTS, 1) && bases[1] == Base(DEFAULTS, 2) && bases[2] == Base(DEFAULTS, 3);
  }

  lemma SumOfThree(a: real, b: real, c: real)
    ensures Sum([]) == 0.0 && Sum([a]) == a && Sum([a, b]) == a + b && Sum([a, b, c]) == a + b + c
  {
    assert [a][..0] == [] && [a, b][..1] == [a] && [a, b, c][..2] == [a, b];
  }

  /** At the defaults one call pauses at most three times, for at most 1.68 s in all: far below
      the 300 s poll interval, and below the "~9 s" of the architecture notes. */
  lemma DefaultWorstCase(pauses: seq<real>)
    requires PausesOf(DEFAULTS, pauses) && |pauses| < DEFAULTS.maxAttempts
    ensures |pauses| <= 3 && Sum(pauses) <= 1.68 < 300.0
  {
    DefaultBases();
    TotalWithinBand(DEFAULTS, pauses);
    SumOfThree(0.2, 0.4, 0.8);
    var k := |pauses|;
    assert Bases(DEFAULTS, k) == Bases(DEFAULTS, 3)[..k];
    assert [0.2, 0.4, 0.8][..0] == [] && [0.2, 0.4, 0.8][..1] == [0.2] && [0.2, 0.4, 0.8][..2] == [0.2, 0.4];
  }

  /** The bound is reached. */
  lemma DefaultWorstCaseReached()
    ensures exists pauses :: PausesOf(DEFAULTS, pauses) && |pauses| + 1 == DEFAULTS.maxAttempts && Sum(pauses) == 1.68
  {
    DefaultBase();
    var pauses := [0.24, 0.48, 0.96];
    assert Draw(DEFAULTS, 1, 0.04) && Backoff(DEFAULTS, 1, 0.04) == 0.24;
    assert Draw(DEFAULTS, 2, 0.08) && Backoff(DEFAULTS, 2, 0.08) == 0.48;
    assert Draw(DEFAULTS, 3, 0.16) && Backoff(DEFAULTS, 3, 0.16) == 0.96;
    forall i | 0 <= i < |pauses| ensures DrawnPause(DEFAULTS, i + 1, pauses[i]) {
      assert i == 0 || i == 1 || i == 2;
    }
    SumOfThree(0.24, 0.48, 0.96);
  }

  /** More attempts with the default ratios reach the cap, and there a pause can be shorter than the
      one before it. */
  lemma CappedPausesCanShrink()
    ensures var p := DEFAULTS.(maxAttempts := 8);
      WellFormed(p) && exists pauses :: PausesOf(p, pauses) && |pauses| == 7 && pauses[6] < pauses[5]
  {
    var p := DEFAULTS.(maxAttempts := 8);
    assert Power(2.0, 5) == 32.0 && Power(2.0, 6) == 64.0;
    assert Base(p, 6) == 5.0 && Base(p, 7) == 5.0;
    hide Power, Uncapped, Base;
    SqueezedIsDrawn(p, 7, 6);
    SpreadBelowBase(p, 7);
    var pauses := Squeezed(p, 7, 6);
    assert pauses[5] == 6.0 && pauses[6] == 4.0;
  }

  /** The defaults do lengthen under every draw across all their pauses. */
  lemma DefaultsLengthen(a: nat)
    requires 1 <= a < DEFAULTS.maxAttempts
    ensures NeverShorter(DEFAULTS, a, a + 1)
  {
    hide Power, Uncapped, Base, Spread, Draw, Backoff, NeverShorter;
    FirstUncapped(DEFAULTS);
    UncappedGrows(DEFAULTS, 1);
    UncappedGrows(DEFAULTS, 2);
    UncappedGrows(DEFAULTS, 3);
    assert Uncapped(DEFAULTS, a + 1) <= 1.6;
    LengthensBelowCap(DEFAULTS, a);
  }
}
