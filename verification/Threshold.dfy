/** How the threshold engine reads a metric: it merges the snapshot rows whose tags
    include the threshold's.  The merge is compared with the live registry and the log. */
module Thresholds {
  import opened Text
  import opened Selectors
  import opened Aggregates
  import opened Stores
  import opened Registry

  // ----- Merging rows, in any order -----

  lemma HitsGrow<S, A(!new)>(c: Codec, kind: Kind<S, A>, m: map<string, A>, k: string, v: A, q: Query)
    requires Lawful(kind) && k !in m
    ensures Total(kind, Hits(c, m[k := v], q))
         == if Hit(c, q, k) then kind.merge(Total(kind, Hits(c, m, q)), v) else Total(kind, Hits(c, m, q))
    ensures Hits(c, m[k := v], q) != map[] <==> Hit(c, q, k) || Hits(c, m, q) != map[]
  {
    HitsPut(c, kind, m, k, v, q);
    assert m[k := v] == Put(kind, m, k, v);
    if Hit(c, q, k) {
      TotalPut(kind, Hits(c, m, q), k, v);
      assert k in Hits(c, m[k := v], q);
    }
  }

  // Taking row `k` into running sums `b` keeps them the sums of what was merged.
  ghost predicate TakesIn<S, A, R, B>(
      kind: Kind<S, A>, rows: map<string, R>, d: map<string, A>, take: (B, R) -> B, sums: (B, A) -> bool, k: string, b: B, a: A)
  {
    k in rows && k in d && sums(b, a) ==> sums(take(b, rows[k]), kind.merge(a, d[k]))
  }

  // The merge loop: running sums over the rows that answer the query, in any order.
  // `d` holds the derived values the rows report, and `sums` says what running sums
  // stand for which merged value.
  method MergeRows<S, A(!new), R, B(!new)>(
      c: Codec, kind: Kind<S, A>, q: Query, rows: map<string, R>, start: B, take: (B, R) -> B,
      ghost d: map<string, A>, ghost sums: (B, A) -> bool)
    returns (had: bool, acc: B)
    requires Lawful(kind) && rows.Keys == d.Keys && sums(start, kind.unit)
    requires forall k, b, a :: TakesIn(kind, rows, d, take, sums, k, b, a)
    ensures had <==> Hits(c, d, q) != map[]
    ensures sums(acc, Total(kind, Hits(c, d, q)))
  {
    had, acc := false, start;
    var todo := rows.Keys;
    ghost var done: map<string, A> := map[];
    ghost var merged := kind.unit;
    assert Hits(c, done, q) == map[];
    while todo != {}
      invariant todo <= d.Keys && done == d - todo
      invariant had <==> Hits(c, done, q) != map[]
      invariant merged == Total(kind, Hits(c, done, q)) && sums(acc, merged)
      decreases todo
    {
      var k :| k in todo;
      HitsGrow(c, kind, done, k, d[k], q);
      if Hit(c, q, k) {
        assert TakesIn(kind, rows, d, take, sums, k, acc, merged);
        had := true;
        acc := take(acc, rows[k]);
        merged := kind.merge(merged, d[k]);
      }
      todo := todo - {k};
      done := done[k := d[k]];
    }
    assert done == d;
  }

  lemma PerSecondAdds(a: nat, b: nat, secs: real)
    ensures PerSecond(a + b, secs) == PerSecond(a, secs) + PerSecond(b, secs)
    ensures PerSecond(0, secs) == 0.0
  {
  }

  function AddCounterRows(a: CounterRow, b: CounterRow): CounterRow {
    CounterRow(a.value + b.value, a.perSecond + b.perSecond)
  }

  // Values and per-second rates both add up.
  method MergeCounterRows(c: Codec, q: Query, rows: map<string, CounterRow>, ghost d: map<string, nat>, ghost secs: real)
    returns (r: Option<CounterRow>)
    requires rows == CounterRows(d, secs)
    ensures r.None? <==> Hits(c, d, q) == map[]
    ensures r.Some? ==> r.value == CounterRow(Total(COUNTER, Hits(c, d, q)), PerSecond(Total(COUNTER, Hits(c, d, q)), secs))
  {
    ghost var sums := (b: CounterRow, a: nat) => b == CounterRow(a, PerSecond(a, secs));
    forall k, b, a ensures TakesIn(COUNTER, rows, d, AddCounterRows, sums, k, b, a) {
      if k in d { PerSecondAdds(a, d[k], secs); }
    }
    KindsLawful();
    PerSecondAdds(0, 0, secs);
    var had, acc := MergeRows(c, COUNTER, q, rows, CounterRow(0, 0.0), AddCounterRows, d, sums);
    r := if had then Some(acc) else None;
  }

  function AddRateRows(a: Rate, b: RateRow): Rate {
    Rate(a.passes + b.passes, a.total + b.total)
  }

  // Passes and totals add up and the ratio is recomputed.
  method MergeRateRows(c: Codec, q: Query, rows: map<string, RateRow>, ghost d: map<string, Rate>)
    returns (r: Option<RateRow>)
    requires rows == RateRows(d)
    ensures r.None? <==> Hits(c, d, q) == map[]
    ensures r.Some? ==> var t := Total(RATE, Hits(c, d, q)); r.value == RateRow(Ratio(t), t.passes, t.total)
  {
    ghost var sums := (b: Rate, a: Rate) => b == a;
    forall k, b, a ensures TakesIn(RATE, rows, d, AddRateRows, sums, k, b, a) {}
    KindsLawful();
    var had, acc := MergeRows(c, RATE, q, rows, Rate(0, 0), AddRateRows, d, sums);
    r := if had then Some(RateRow(Ratio(acc), acc.passes, acc.total)) else None;
  }

  // A trend with at least one sample, as every recorded trend has.
  ghost predicate Sampled(t: Trend) {
    t.Samples? && t.count >= 1
  }

  ghost predicate AllSampled(m: map<string, Trend>) {
    forall k :: k in m ==> Sampled(m[k])
  }

  // The running sums of the merge loop, before any row and after some.
  datatype TrendSums = TrendSums(count: nat, sum: real, min: Option<real>, max: Option<real>, hist: multiset<nat>)
  {
    // Take one row in: its sum is recovered from average and count.
    function Take(row: TrendStats): TrendSums {
      TrendSums(count + row.count, sum + row.avg * row.count as real,
                if min.None? || row.min < min.value then Some(row.min) else min,
                if max.None? || row.max > max.value then Some(row.max) else max,
                hist + row.hist)
    }

    ghost predicate SumsOf(t: Trend) {
      match t
      case NoSamples => this == TrendSums(0, 0.0, None, None, multiset{})
      case Samples(n, s, lo, hi, h) => this == TrendSums(n, s, Some(lo), Some(hi), h) && n >= 1
    }

    function Report(): TrendStats {
      TrendStats(if count > 0 then sum / count as real else 0.0, if min.None? then 0.0 else min.value,
                 if max.None? then 0.0 else max.value, count, hist)
    }
  }

  lemma AverageTimesCount(t: Trend)
    requires Sampled(t)
    ensures Stats(t).avg * t.count as real == t.sum
  {
  }

  lemma TakeMerges(sums: TrendSums, acc: Trend, t: Trend)
    requires sums.SumsOf(acc) && Sampled(t)
    ensures sums.Take(Stats(t)).SumsOf(MergeTrends(acc, t))
  {
    AverageTimesCount(t);
    assert multiset{} + t.hist == t.hist;
  }

  lemma ReportIsStats(sums: TrendSums, t: Trend)
    requires sums.SumsOf(t)
    ensures sums.Report() == Stats(t)
  {
  }

  function TakeTrendRow(sums: TrendSums, row: TrendStats): TrendSums {
    sums.Take(row)
  }

  // Counts, recovered sums, extrema and histograms merge.
  method MergeTrendRows(c: Codec, q: Query, rows: map<string, TrendStats>, ghost d: map<string, Trend>)
    returns (r: Option<TrendStats>)
    requires rows == TrendRows(d) && AllSampled(d)
    ensures r.None? <==> Hits(c, d, q) == map[]
    ensures r.Some? ==> r.value == Stats(Total(TREND, Hits(c, d, q)))
  {
    ghost var sums := (b: TrendSums, a: Trend) => b.SumsOf(a);
    forall k, b, a ensures TakesIn(TREND, rows, d, TakeTrendRow, sums, k, b, a) {
      if k in d && b.SumsOf(a) { TakeMerges(b, a, d[k]); }
    }
    KindsLawful();
    var had, acc := MergeRows(c, TREND, q, rows, TrendSums(0, 0.0, None, None, multiset{}), TakeTrendRow, d, sums);
    ReportIsStats(acc, Total(TREND, Hits(c, d, q)));
    r := if had then Some(acc.Report()) else None;
  }

  // ----- Trends of a history always hold samples -----

  lemma {:induction false} StoredSampled(c: Codec, log: seq<Sample<real>>)
    ensures AllSampled(Stored(c, TREND, log))
  {
    if log != [] {
      StoredSampled(c, log[..|log| - 1]);
    }
  }

  lemma {:induction false} TotalSampled(m: map<string, Trend>)
    requires m != map[] && AllSampled(m)
    ensures Sampled(Total(TREND, m))
    decreases |m|
  {
    KindsLawful();
    var k :| k in m;
    TotalTake(TREND, m, k);
    if m - {k} != map[] {
      TotalSampled(m - {k});
    }
  }

  lemma DerivedSampled(c: Codec, out: map<string, Trend>, m: map<string, Trend>)
    requires AllSampled(m) && IsDerived(c, TREND, out, m)
    ensures AllSampled(out)
  {
    forall t | t in out ensures Sampled(out[t]) {
      assert DerivedAt(c, TREND, out, m, t);
      TotalSampled(Sources(c, m, t));
    }
  }

  // ----- Tagged thresholds agree with the live value -----

  // For a threshold key with tags, after any writes, what the engine merges from the
  // snapshot is what a live read of the same key merges from the store, and one finds
  // nothing exactly when the other does.
  lemma TaggedThresholdIsLive<S, A(!new)>(c: Codec, kind: Kind<S, A>, log: seq<Sample<S>>, out: map<string, A>, key: string)
    requires Faithful(c) && Lawful(kind) && IsDerived(c, kind, out, Stored(c, kind, log))
    requires c.decode(key).Some? && c.decode(key).value.tags != map[]
    ensures var threshold := Hits(c, out, AtLeast(c.decode(key).value));
            var live := Select(c, Stored(c, kind, log), key);
      Total(kind, threshold) == Total(kind, live) && (threshold == map[] <==> live == map[])
  {
    var m, q := Stored(c, kind, log), c.decode(key).value;
    SelectIsHits(c, m, key);
    DerivedReadsAgree(c, kind, m, q);
    DerivedIsUnique(c, kind, out, DerivedOf(c, kind, m), m);
  }

  // ----- Untagged thresholds: exactly when they agree with the live value -----

  // A single tagged sample is enough for them to differ: the bare name counts it twice.
  lemma OneTaggedSampleCountsTwice(c: Codec, s: Selector, v: nat, out: map<string, nat>)
    requires Faithful(c) && c.good(s) && s.tags != map[]
    requires IsDerived(c, COUNTER, out, Stored(c, COUNTER, [Sample(s, v)]))
    ensures Fold(COUNTER, Matching([Sample(s, v)], AtLeast(Untagged(s.name)))) == v
    ensures Total(COUNTER, Hits(c, out, AtLeast(Untagged(s.name)))) == 2 * v
  {
    var log := [Sample(s, v)];
    assert PrintsBack(c, s);
    OneSample(s, v, AtLeast(Untagged(s.name)));
    OneSample(s, v, TaggedOf(s.name));
    UntaggedCounterAgrees(c, log, out, s.name);
  }

  lemma OneSample(s: Selector, v: nat, q: Query)
    requires q.Wants(s)
    ensures Fold(COUNTER, Matching([Sample(s, v)], q)) == v
  {
    assert [Sample(s, v)][..0] == [];
    assert Matching([Sample(s, v)], q) == [v];
    assert [v][..0] == [];
    assert Fold(COUNTER, [v]) == COUNTER.merge(Fold(COUNTER, []), COUNTER.lift(v));
  }

  // The merged counter exceeds the live one by the tagged total.
  lemma UntaggedCounterAgrees(c: Codec, log: seq<Sample<nat>>, out: map<string, nat>, n: string)
    requires Faithful(c) && GoodLog(c, log) && IsDerived(c, COUNTER, out, Stored(c, COUNTER, log)) && c.good(Untagged(n))
    ensures var merged := Total(COUNTER, Hits(c, out, AtLeast(Untagged(n))));
            var live := Fold(COUNTER, Matching(log, AtLeast(Untagged(n))));
            var tagged := Fold(COUNTER, Matching(log, TaggedOf(n)));
            merged == live + tagged && (merged == live <==> tagged == 0)
  {
    KindsLawful();
    UntaggedSnapshotIsLog(c, COUNTER, log, out, n);
  }

  lemma {:induction false} RateTotal(xs: seq<bool>)
    ensures Fold(RATE, xs).total == |xs| && Fold(RATE, xs).passes <= |xs|
  {
    if xs != [] {
      RateTotal(xs[..|xs| - 1]);
    }
  }

  // A ratio is unchanged by adding `q` in `u` exactly if `q` in `u` is the same ratio,
  // or nothing: by cross-multiplication.
  lemma RatioAdds(p: real, t: real, q: real, u: real)
    requires t > 0.0 && u >= 0.0
    ensures (p + q) / (t + u) == p / t <==> q * t == p * u
  {
    var b := p / t;
    assert b * t == p;
    assert b * (t + u) == p + b * u;
    SameQuotient(p + q, t + u, b);
    Cancel(b * u, q, t);
    assert (b * u) * t == p * u;
  }

  lemma SameQuotient(x: real, k: real, b: real)
    requires k > 0.0
    ensures x / k == b <==> x == b * k
  {
  }

  lemma Cancel(x: real, y: real, t: real)
    requires t > 0.0
    ensures x * t == y * t <==> x == y
  {
  }

  // The merged ratio is the live one exactly if the tagged samples have the same ratio.
  lemma RatioAgreesIff(all: Rate, tagged: Rate)
    requires all.total == 0 ==> tagged == Rate(0, 0)
    ensures Ratio(AddRates(all, tagged)) == Ratio(all) <==> tagged.passes * all.total == all.passes * tagged.total
  {
    if all.total > 0 {
      RatioAdds(all.passes as real, all.total as real, tagged.passes as real, tagged.total as real);
      CastProduct(tagged.passes, all.total);
      CastProduct(all.passes, tagged.total);
    }
  }

  lemma CastProduct(a: nat, b: nat)
    ensures a as real * b as real == (a * b) as real
  {
  }

  function Times(x: real, n: nat): real { x * n as real }

  // The merged average is the live one exactly if the tagged samples have the same
  // average, or there are none.
  lemma AverageAgreesIff(all: Trend, tagged: Trend)
    requires Sampled(all)
    ensures Stats(MergeTrends(all, tagged)).avg == Stats(all).avg <==>
      tagged.NoSamples? || Times(tagged.sum, all.count) == Times(all.sum, tagged.count)
  {
    if tagged.Samples? {
      RatioAdds(all.sum, all.count as real, tagged.sum, tagged.count as real);
    }
  }

  // The merged rate counts agree with the live ones iff no sample carried tags, and the
  // ratio iff the tagged samples pass in the same proportion.
  lemma UntaggedRateAgrees(c: Codec, log: seq<Sample<bool>>, out: map<string, Rate>, n: string)
    requires Faithful(c) && GoodLog(c, log) && IsDerived(c, RATE, out, Stored(c, RATE, log)) && c.good(Untagged(n))
    ensures var merged := Total(RATE, Hits(c, out, AtLeast(Untagged(n))));
            var live, tagged := Fold(RATE, Matching(log, AtLeast(Untagged(n)))), Fold(RATE, Matching(log, TaggedOf(n)));
      && merged == AddRates(live, tagged)
      && (merged == live <==> Matching(log, TaggedOf(n)) == [])
      && (Ratio(merged) == Ratio(live) <==> tagged.passes * live.total == live.passes * tagged.total)
  {
    var all, tagged := Matching(log, AtLeast(Untagged(n))), Matching(log, TaggedOf(n));
    assert Total(RATE, Hits(c, out, AtLeast(Untagged(n)))) == AddRates(Fold(RATE, all), Fold(RATE, tagged)) by {
      KindsLawful();
      UntaggedSnapshotIsLog(c, RATE, log, out, n);
    }
    RateTotal(tagged);
    RateTotal(all);
    RateUnchanged(Fold(RATE, all), Fold(RATE, tagged));
    NoneTagged(log, n);
    RatioAgreesIff(Fold(RATE, all), Fold(RATE, tagged));
  }

  lemma NoneTagged<S>(log: seq<Sample<S>>, n: string)
    ensures Matching(log, AtLeast(Untagged(n))) == [] ==> Matching(log, TaggedOf(n)) == []
  {
    TaggedAreAmongAll(log, n);
    if Matching(log, TaggedOf(n)) != [] {
      assert Matching(log, TaggedOf(n))[0] in Matching(log, AtLeast(Untagged(n)));
    }
  }

  lemma RateUnchanged(x: Rate, y: Rate)
    ensures AddRates(x, y) == x <==> y == Rate(0, 0)
  {
  }

  // The merged trend agrees with the live one iff no sample carried tags, and so does its
  // count; its extrema agree always, its average iff the tagged samples have the same.
  lemma UntaggedTrendAgrees(c: Codec, log: seq<Sample<real>>, out: map<string, Trend>, n: string)
    requires Faithful(c) && GoodLog(c, log) && IsDerived(c, TREND, out, Stored(c, TREND, log)) && c.good(Untagged(n))
    ensures var merged := Total(TREND, Hits(c, out, AtLeast(Untagged(n))));
            var live := Fold(TREND, Matching(log, AtLeast(Untagged(n))));
            var all, tagged := Matching(log, AtLeast(Untagged(n))), Matching(log, TaggedOf(n));
            merged == MergeTrends(live, Fold(TREND, tagged)) && Agreement(merged, live, all, tagged)
  {
    var all, tagged := Matching(log, AtLeast(Untagged(n))), Matching(log, TaggedOf(n));
    assert Total(TREND, Hits(c, out, AtLeast(Untagged(n)))) == MergeTrends(Fold(TREND, all), Fold(TREND, tagged)) by {
      KindsLawful();
      UntaggedSnapshotIsLog(c, TREND, log, out, n);
    }
    AgreementOf(all, tagged, log, n);
  }

  // When each statistic of the twice-counted trend is the live one.
  ghost predicate Agreement(merged: Trend, live: Trend, all: seq<real>, tagged: seq<real>) {
    && (merged == live <==> tagged == [])
    && Stats(merged).min == Stats(live).min && Stats(merged).max == Stats(live).max
    && (Stats(merged).count == Stats(live).count <==> tagged == [])
    && (Stats(merged).avg == Stats(live).avg <==> Times(Sum(tagged), |all|) == Times(Sum(all), |tagged|))
  }

  lemma AgreementOf(all: seq<real>, tagged: seq<real>, log: seq<Sample<real>>, n: string)
    requires all == Matching(log, AtLeast(Untagged(n))) && tagged == Matching(log, TaggedOf(n))
    ensures Agreement(MergeTrends(Fold(TREND, all), Fold(TREND, tagged)), Fold(TREND, all), all, tagged)
  {
    TaggedAreAmongAll(log, n);
    TrendMeaning(all);
    TrendMeaning(tagged);
    NoneTagged(log, n);
    CountedTwice(Fold(TREND, all), all, Fold(TREND, tagged), tagged);
    AveragedTwice(Fold(TREND, all), all, Fold(TREND, tagged), tagged);
  }

  lemma AveragedTwice(whole: Trend, all: seq<real>, again: Trend, part: seq<real>)
    requires Summarises(whole, all) && Summarises(again, part) && (all == [] ==> part == [])
    ensures var twice := MergeTrends(whole, again);
      && (Stats(twice).count == Stats(whole).count <==> part == [])
      && (Stats(twice).avg == Stats(whole).avg <==> Times(Sum(part), |all|) == Times(Sum(all), |part|))
  {
    NothingTimes(all, part);
    if all != [] {
      assert Sampled(whole) && whole.count == |all| && whole.sum == Sum(all);
      assert part != [] ==> again.Samples? && again.count == |part| && again.sum == Sum(part);
      AverageAgreesIff(whole, again);
    }
  }

  lemma NothingTimes(all: seq<real>, part: seq<real>)
    ensures part == [] ==> Times(Sum(part), |all|) == Times(Sum(all), |part|)
  {
  }

  lemma CountedTwice(whole: Trend, all: seq<real>, again: Trend, part: seq<real>)
    requires Summarises(whole, all) && Summarises(again, part)
    requires forall x :: x in part ==> x in all
    ensures var twice := MergeTrends(whole, again);
      && (twice == whole <==> part == [])
      && Stats(twice).min == Stats(whole).min && Stats(twice).max == Stats(whole).max
  {
    if part != [] {
      assert part[0] in part;
      assert again.min in all && again.max in all;
    }
  }

  lemma {:induction false} TaggedAreAmongAll<S>(log: seq<Sample<S>>, n: string)
    ensures forall x :: x in Matching(log, TaggedOf(n)) ==> x in Matching(log, AtLeast(Untagged(n)))
  {
    if log != [] {
      TaggedAreAmongAll(log[..|log| - 1], n);
    }
  }

  // ----- The lookup behind the merges -----

  // Canonical equality of a threshold key and a stored name, or plain equality.
  predicate NamesMatch(c: Codec, key: string, stored: string) {
    || key == stored
    || (c.decode(key).Some? && c.decode(stored).Some? && c.encode(c.decode(key).value) == c.encode(c.decode(stored).value))
  }

  // For a key that parses, the name lookup finds nothing the merge had not found.
  lemma LookupAddsNothing(c: Codec, key: string, stored: string)
    requires Faithful(c) && c.decode(key).Some? && NamesMatch(c, key, stored)
    ensures Hit(c, AtLeast(c.decode(key).value), stored)
  {
    assert ReadsGood(c, key) && PrintsBack(c, c.decode(key).value);
    if key != stored {
      assert ReadsGood(c, stored) && PrintsBack(c, c.decode(stored).value);
    }
  }
}
