/** The three mergeable metric kinds (counter, rate, trend) and the totals of a
    key-indexed store, which do not depend on the order the store is walked in. */
module Aggregates {

  // ----- Kinds -----

  // How one sample becomes a stored value, and how stored values merge.
  datatype Kind<!S, !A> = Kind(unit: A, merge: (A, A) -> A, lift: S -> A)

  ghost predicate Commutes<S, A>(kind: Kind<S, A>, a: A, b: A) {
    kind.merge(a, b) == kind.merge(b, a)
  }

  ghost predicate Associates<S, A>(kind: Kind<S, A>, a: A, b: A, c: A) {
    kind.merge(kind.merge(a, b), c) == kind.merge(a, kind.merge(b, c))
  }

  ghost predicate UnitIsNeutral<S, A>(kind: Kind<S, A>, a: A) {
    kind.merge(a, kind.unit) == a && kind.merge(kind.unit, a) == a
  }

  // Merging is associative and commutative, with `unit` the value of no samples.
  ghost predicate Lawful<S, A(!new)>(kind: Kind<S, A>) {
    && (forall a, b :: Commutes(kind, a, b))
    && (forall a, b, c :: Associates(kind, a, b, c))
    && (forall a :: UnitIsNeutral(kind, a))
  }

  lemma Regroup<S, A(!new)>(kind: Kind<S, A>, a: A, b: A, c: A)
    requires Lawful(kind)
    ensures kind.merge(a, kind.merge(b, c)) == kind.merge(b, kind.merge(a, c))
    ensures kind.merge(kind.merge(a, b), c) == kind.merge(kind.merge(a, c), b)
    ensures kind.merge(kind.merge(a, b), c) == kind.merge(a, kind.merge(b, c))
  {
    assert Associates(kind, a, b, c) && Associates(kind, b, a, c) && Associates(kind, a, c, b);
    assert Commutes(kind, a, b) && Commutes(kind, b, c);
  }

  function AddCounts(a: nat, b: nat): nat { a + b }

  const COUNTER: Kind<nat, nat> := Kind(0, AddCounts, (v: nat) => v)

  datatype Rate = Rate(passes: nat, total: nat)

  function AddRates(a: Rate, b: Rate): Rate { Rate(a.passes + b.passes, a.total + b.total) }

  const RATE: Kind<bool, Rate> := Kind(Rate(0, 0), AddRates, (passed: bool) => Rate(if passed then 1 else 0, 1))

  // A trend's count, sum, extrema and histogram.  `NoSamples` is the freshly built
  // trend, whose extrema still hold the floating-point sentinels.
  datatype Trend = NoSamples | Samples(count: nat, sum: real, min: real, max: real, hist: multiset<nat>)

  const TREND: Kind<real, Trend> := Kind(NoSamples, MergeTrends, (ms: real) => Record(NoSamples, ms))

  // Largest microsecond value the histogram tracks.
  const TRACKABLE: nat := 3_600_000_000

  // The saturating, truncating cast of milliseconds to whole microseconds.
  function Micros(ms: real): nat {
    if ms <= 0.0 then 0 else (ms * 1000.0).Floor
  }

  // Whole microseconds, cut off below.
  lemma MicrosMeans(ms: real)
    ensures ms > 0.0 ==> Micros(ms) as real <= 1000.0 * ms && 1000.0 * ms < (Micros(ms) + 1) as real
    ensures ms <= 0.0 ==> Micros(ms) == 0
  {
  }

  function HistogramOf(ms: real): multiset<nat> {
    if 1 <= Micros(ms) <= TRACKABLE then multiset{Micros(ms)} else multiset{}
  }

  function Record(t: Trend, ms: real): Trend {
    match t
    case NoSamples => Samples(1, ms, ms, ms, HistogramOf(ms))
    case Samples(count, sum, min, max, hist) =>
      Samples(count + 1, sum + ms, if ms < min then ms else min, if ms > max then ms else max, hist + HistogramOf(ms))
  }

  function MergeTrends(a: Trend, b: Trend): Trend {
    if b.NoSamples? then a
    else if a.NoSamples? then b
    else Samples(a.count + b.count, a.sum + b.sum, if b.min < a.min then b.min else a.min,
                 if b.max > a.max then b.max else a.max, a.hist + b.hist)
  }

  lemma TrendsAssociate(a: Trend, b: Trend, c: Trend)
    ensures MergeTrends(MergeTrends(a, b), c) == MergeTrends(a, MergeTrends(b, c))
    ensures MergeTrends(a, b) == MergeTrends(b, a)
  {
    if a.Samples? && b.Samples? {
      assert a.hist + b.hist == b.hist + a.hist;
      if c.Samples? { assert a.hist + b.hist + c.hist == a.hist + (b.hist + c.hist); }
    }
  }

  lemma KindsLawful()
    ensures Lawful(COUNTER) && Lawful(RATE) && Lawful(TREND)
  {
    forall a, b, c ensures Associates(TREND, a, b, c) { TrendsAssociate(a, b, c); }
    forall a, b ensures Commutes(TREND, a, b) { TrendsAssociate(a, b, NoSamples); }
  }

  function CountOutcome(r: Rate, passed: bool): Rate {
    Rate(if passed then r.passes + 1 else r.passes, r.total + 1)
  }

  lemma CountOutcomeMerges(r: Rate, passed: bool)
    ensures CountOutcome(r, passed) == AddRates(r, RATE.lift(passed))
    ensures CountOutcome(Rate(0, 0), passed) == RATE.lift(passed)
  {
  }

  // Recording is merging in a single sample.
  lemma RecordMerges(t: Trend, ms: real)
    ensures Record(t, ms) == MergeTrends(t, TREND.lift(ms))
  {
  }

  // ----- Sample lists -----

  // A list of samples recorded one by one.
  function Fold<S, A>(kind: Kind<S, A>, xs: seq<S>): A {
    if xs == [] then kind.unit
    else kind.merge(Fold(kind, xs[..|xs| - 1]), kind.lift(xs[|xs| - 1]))
  }

  lemma FoldSnoc<S, A>(kind: Kind<S, A>, xs: seq<S>, y: S)
    ensures Fold(kind, xs + [y]) == kind.merge(Fold(kind, xs), kind.lift(y))
  {
    assert (xs + [y])[..|xs|] == xs;
  }

  // Merging two stored values is recording both sample lists into one.
  lemma {:induction false} MergeIsConcatenation<S, A(!new)>(kind: Kind<S, A>, xs: seq<S>, ys: seq<S>)
    requires Lawful(kind)
    ensures kind.merge(Fold(kind, xs), Fold(kind, ys)) == Fold(kind, xs + ys)
    decreases |ys|
  {
    if ys == [] {
      assert xs + ys == xs;
      assert UnitIsNeutral(kind, Fold(kind, xs));
    } else {
      var y, rest := ys[|ys| - 1], ys[..|ys| - 1];
      MergeIsConcatenation(kind, xs, rest);
      assert xs + ys == (xs + rest) + [y];
      FoldSnoc(kind, xs + rest, y);
      Regroup(kind, Fold(kind, xs), Fold(kind, rest), kind.lift(y));
    }
  }

  // What a trend says about the samples recorded into it.
  ghost predicate Summarises(t: Trend, xs: seq<real>) {
    if xs == [] then t == NoSamples else
      && t.Samples? && t.count == |xs| && t.sum == Sum(xs) && t.hist == Histogram(xs)
      && t.min in xs && t.max in xs && (forall x :: x in xs ==> t.min <= x <= t.max)
  }

  lemma RecordSummarises(t: Trend, xs: seq<real>, y: real)
    requires Summarises(t, xs)
    ensures Summarises(Record(t, y), xs + [y])
  {
    assert (xs + [y])[..|xs|] == xs;
    assert multiset{} + HistogramOf(y) == HistogramOf(y);
  }

  lemma {:induction false} TrendMeaning(xs: seq<real>)
    ensures Summarises(Fold(TREND, xs), xs)
  {
    if xs != [] {
      var y, rest := xs[|xs| - 1], xs[..|xs| - 1];
      assert xs == rest + [y];
      TrendMeaning(rest);
      RecordMerges(Fold(TREND, rest), y);
      RecordSummarises(Fold(TREND, rest), rest, y);
    }
  }

  // The recordable microsecond values of a sample list.
  function Histogram(xs: seq<real>): multiset<nat> {
    if xs == [] then multiset{} else Histogram(xs[..|xs| - 1]) + HistogramOf(xs[|xs| - 1])
  }

  function Sum(xs: seq<real>): real {
    if xs == [] then 0.0 else Sum(xs[..|xs| - 1]) + xs[|xs| - 1]
  }

  // ----- Totals -----

  // Every stored value merged together, in an arbitrary order.
  ghost function Total<S, A(!new)>(kind: Kind<S, A>, m: map<string, A>): A
    decreases |m|
  {
    if m == map[] then kind.unit else
      var k :| k in m;
      kind.merge(m[k], Total(kind, m - {k}))
  }

  // The order does not matter: any key may be taken out first.
  lemma {:induction false} TotalTake<S, A(!new)>(kind: Kind<S, A>, m: map<string, A>, k: string)
    requires Lawful(kind) && k in m
    ensures Total(kind, m) == kind.merge(m[k], Total(kind, m - {k}))
    decreases |m|
  {
    var j :| j in m && Total(kind, m) == kind.merge(m[j], Total(kind, m - {j}));
    if j != k {
      var rest := m - {j} - {k};
      assert rest == m - {k} - {j};
      TotalTake(kind, m - {j}, k);
      TotalTake(kind, m - {k}, j);
      Regroup(kind, m[j], m[k], Total(kind, rest));
    }
  }

  // Merge `d` into the entry at `k`, creating it when absent.
  function Put<S, A>(kind: Kind<S, A>, m: map<string, A>, k: string, d: A): map<string, A> {
    m[k := if k in m then kind.merge(m[k], d) else d]
  }

  lemma TotalPut<S, A(!new)>(kind: Kind<S, A>, m: map<string, A>, k: string, d: A)
    requires Lawful(kind)
    ensures Total(kind, Put(kind, m, k, d)) == kind.merge(Total(kind, m), d)
  {
    var n := Put(kind, m, k, d);
    TotalTake(kind, n, k);
    var rest := m - {k};
    assert n - {k} == rest;
    if k in m {
      TotalTake(kind, m, k);
      Regroup(kind, m[k], d, Total(kind, rest));
    } else {
      assert rest == m;
      assert Commutes(kind, d, Total(kind, m));
    }
  }

  lemma UnionLess<A>(a: map<string, A>, b: map<string, A>, k: string)
    requires a.Keys !! b.Keys && k in a
    ensures (a + b)[k] == a[k] && (a + b) - {k} == (a - {k}) + b
    ensures (a - {k}).Keys == a.Keys - {k}
  {
  }

  lemma {:induction false} TotalUnion<S, A(!new)>(kind: Kind<S, A>, a: map<string, A>, b: map<string, A>)
    requires Lawful(kind) && a.Keys !! b.Keys
    ensures Total(kind, a + b) == kind.merge(Total(kind, a), Total(kind, b))
    decreases a.Keys
  {
    if a == map[] {
      assert a + b == b;
      assert UnitIsNeutral(kind, Total(kind, b));
    } else {
      var k :| k in a;
      var rest := a - {k};
      UnionLess(a, b, k);
      TotalTake(kind, a, k);
      TotalTake(kind, a + b, k);
      TotalUnion(kind, rest, b);
      Regroup(kind, a[k], Total(kind, rest), Total(kind, b));
    }
  }

  lemma TotalOne<S, A(!new)>(kind: Kind<S, A>, m: map<string, A>, k: string)
    requires Lawful(kind) && m.Keys == {k}
    ensures Total(kind, m) == m[k]
  {
    TotalTake(kind, m, k);
    assert m - {k} == map[];
    assert UnitIsNeutral(kind, m[k]);
  }

  // ----- What the folds are -----

  function SumOfCounts(xs: seq<nat>): nat {
    if xs == [] then 0 else SumOfCounts(xs[..|xs| - 1]) + xs[|xs| - 1]
  }

  lemma {:induction false} CounterIsSum(xs: seq<nat>)
    ensures Fold(COUNTER, xs) == SumOfCounts(xs)
  {
    if xs != [] { CounterIsSum(xs[..|xs| - 1]); }
  }

  function Passed(xs: seq<bool>): nat {
    if xs == [] then 0 else Passed(xs[..|xs| - 1]) + if xs[|xs| - 1] then 1 else 0
  }

  lemma {:induction false} RateIsCounts(xs: seq<bool>)
    ensures Fold(RATE, xs) == Rate(Passed(xs), |xs|)
  {
    if xs != [] { RateIsCounts(xs[..|xs| - 1]); }
  }

  // Which values are recorded: whole microseconds from one to the trackable limit.
  lemma HistogramMeans(ms: real, v: nat)
    ensures v in HistogramOf(ms) <==> v == Micros(ms) && 1 <= v <= 3_600_000_000
    ensures |HistogramOf(ms)| <= 1
  {
  }
}
