/** The metrics registry: in-place maps of counters, rates and trends, their live
    subset reads, and the snapshot handed to thresholds and the summary. */
module Registry {
  import opened Text
  import opened Selectors
  import opened CanonicalKeys
  import opened Aggregates
  import opened Stores

  // ----- One trend, updated in place -----

  // `None` extrema stand for the floating-point sentinels of a fresh trend.
  class TrendMetric {
    var count: nat
    var sum: real
    var min: Option<real>
    var max: Option<real>
    var hist: multiset<nat>

    ghost predicate Valid()
      reads this
    {
      && (count == 0 <==> min.None?) && (count == 0 <==> max.None?)
      && (count == 0 ==> sum == 0.0 && hist == multiset{})
    }

    ghost function View(): Trend
      reads this
      requires Valid()
    {
      if count == 0 then NoSamples else Samples(count, sum, min.value, max.value, hist)
    }

    constructor ()
      ensures Valid() && View() == NoSamples
    {
      count, sum, min, max, hist := 0, 0.0, None, None, multiset{};
    }

    method Record(ms: real)
      requires Valid()
      modifies this
      ensures Valid() && View() == Aggregates.Record(old(View()), ms)
    {
      count := count + 1;
      sum := sum + ms;
      if min.None? || ms < min.value { min := Some(ms); }
      if max.None? || ms > max.value { max := Some(ms); }
      hist := hist + HistogramOf(ms);
      assert multiset{} + HistogramOf(ms) == HistogramOf(ms);
    }

    method Merge(other: TrendMetric)
      requires Valid() && other.Valid() && other != this
      modifies this
      ensures Valid() && View() == MergeTrends(old(View()), old(other.View()))
    {
      if other.count == 0 { return; }
      count := count + other.count;
      sum := sum + other.sum;
      if min.None? || other.min.value < min.value { min := other.min; }
      if max.None? || other.max.value > max.value { max := other.max; }
      hist := hist + other.hist;
    }
  }

  // ----- Reported values -----

  // Trend statistics; the histogram stands for the percentiles read from it.
  datatype TrendStats = TrendStats(avg: real, min: real, max: real, count: nat, hist: multiset<nat>)

  function Stats(t: Trend): TrendStats {
    if t.NoSamples? || t.count == 0 then TrendStats(0.0, 0.0, 0.0, 0, multiset{})
    else TrendStats(t.sum / t.count as real, t.min, t.max, t.count, t.hist)
  }

  function Ratio(r: Rate): real {
    if r.total > 0 then r.passes as real / r.total as real else 0.0
  }

  function PerSecond(value: nat, secs: real): real {
    if secs > 0.0 then value as real / secs else 0.0
  }

  // Spread over the run: times its length it is the value again, and zero without one.
  lemma PerSecondMeans(value: nat, secs: real)
    ensures secs > 0.0 ==> PerSecond(value, secs) * secs == value as real
    ensures secs <= 0.0 ==> PerSecond(value, secs) == 0.0
  {
  }

  datatype CounterRow = CounterRow(value: nat, perSecond: real)
  datatype RateRow = RateRow(ratio: real, passes: nat, total: nat)

  // One row per derived entry.  The engine lists the rows sorted by name; nothing
  // that reads them depends on the order.
  datatype Snapshot = Snapshot(
    counters: map<string, CounterRow>,
    rates: map<string, RateRow>,
    trends: map<string, TrendStats>)

  function CounterRows(d: map<string, nat>, secs: real): map<string, CounterRow> {
    map k | k in d :: CounterRow(d[k], PerSecond(d[k], secs))
  }

  function RateRows(d: map<string, Rate>): map<string, RateRow> {
    map k | k in d :: RateRow(Ratio(d[k]), d[k].passes, d[k].total)
  }

  function TrendRows(d: map<string, Trend>): map<string, TrendStats> {
    map k | k in d :: Stats(d[k])
  }

  // ----- The registry -----

  // A live read: merge every stored entry that answers the query, in any order.
  method MergeSelected<S, A(!new)>(c: Codec, kind: Kind<S, A>, m: map<string, A>, query: string)
    returns (found: bool, total: A)
    requires Lawful(kind)
    ensures found <==> Select(c, m, query) != map[]
    ensures total == Total(kind, Select(c, m, query))
  {
    found, total := false, kind.unit;
    var todo := m.Keys;
    ghost var done: map<string, A> := map[];
    assert Select(c, done, query) == map[];
    while todo != {}
      invariant todo <= m.Keys && done == m - todo
      invariant found <==> Select(c, done, query) != map[]
      invariant total == Total(kind, Select(c, done, query))
      decreases todo
    {
      var k :| k in todo;
      SelectGrows(c, kind, done, k, m[k], query);
      if StoredMatches(c, k, query) {
        total := kind.merge(total, m[k]);
        found := true;
      }
      todo := todo - {k};
      done := done[k := m[k]];
    }
    assert done == m;
  }

  lemma SelectGrows<S, A(!new)>(c: Codec, kind: Kind<S, A>, m: map<string, A>, k: string, v: A, query: string)
    requires Lawful(kind) && k !in m
    ensures Total(kind, Select(c, m[k := v], query))
         == if StoredMatches(c, k, query) then kind.merge(Total(kind, Select(c, m, query)), v) else Total(kind, Select(c, m, query))
    ensures Select(c, m[k := v], query) != map[] <==> StoredMatches(c, k, query) || Select(c, m, query) != map[]
  {
    var before, after := Select(c, m, query), Select(c, m[k := v], query);
    if StoredMatches(c, k, query) {
      assert after == before[k := v];
      assert k in after;
      TotalPut(kind, before, k, v);
    } else {
      assert after == before;
    }
  }

  class MetricsRegistry {
    const keys: Codec
    var counters: map<string, nat>
    var rates: map<string, Rate>
    var trends: map<string, Trend>

    // The samples written so far, one log per kind.
    ghost var counterLog: seq<Sample<nat>>
    ghost var rateLog: seq<Sample<bool>>
    ghost var trendLog: seq<Sample<real>>

    // The maps hold what the logs say.
    ghost predicate Valid()
      reads this
    {
      && keys == SELECTORS
      && counters == Stored(keys, COUNTER, counterLog)
      && rates == Stored(keys, RATE, rateLog)
      && trends == Stored(keys, TREND, trendLog)
    }

    constructor ()
      ensures Valid() && counterLog == [] && rateLog == [] && trendLog == []
    {
      keys := SELECTORS;
      counters, rates, trends := map[], map[], map[];
      counterLog, rateLog, trendLog := [], [], [];
    }

    method CounterAddTagged(name: string, value: nat, tags: seq<Pair>)
      requires Valid()
      modifies this`counters, this`counterLog
      ensures Valid() && counterLog == old(counterLog) + [Sample(Selector(name, Insertions(tags)), value)]
    {
      var key := CanonicalKey(name, tags);
      if key in counters {
        counters := counters[key := counters[key] + value];
      } else {
        counters := counters[key := value];
      }
      ghost var x := Sample(Selector(name, Insertions(tags)), value);
      StoredSnoc(keys, COUNTER, counterLog, x);
      counterLog := counterLog + [x];
    }

    method RateAddTagged(name: string, passed: bool, tags: seq<Pair>)
      requires Valid()
      modifies this`rates, this`rateLog
      ensures Valid() && rateLog == old(rateLog) + [Sample(Selector(name, Insertions(tags)), passed)]
    {
      var key := CanonicalKey(name, tags);
      ghost var x := Sample(Selector(name, Insertions(tags)), passed);
      PutOutcome(rates, key, passed);
      StoredSnoc(keys, RATE, rateLog, x);
      rates := rates[key := CountOutcome(if key in rates then rates[key] else Rate(0, 0), passed)];
      rateLog := rateLog + [x];
    }

    method TrendAddTagged(name: string, ms: real, tags: seq<Pair>)
      requires Valid()
      modifies this`trends, this`trendLog
      ensures Valid() && trendLog == old(trendLog) + [Sample(Selector(name, Insertions(tags)), ms)]
    {
      var key := CanonicalKey(name, tags);
      ghost var x := Sample(Selector(name, Insertions(tags)), ms);
      PutRecord(trends, key, ms);
      StoredSnoc(keys, TREND, trendLog, x);
      trends := trends[key := Record(if key in trends then trends[key] else NoSamples, ms)];
      trendLog := trendLog + [x];
    }

    // The count over every logged sample of the query's name that carries its tags.
    method CounterGet(query: string) returns (n: nat)
      requires Valid()
      ensures n == Fold(COUNTER, Under(keys, counterLog, Answers(keys, query)))
      ensures GoodLog(keys, counterLog) && keys.decode(query).Some?
          ==> n == Fold(COUNTER, Matching(counterLog, AtLeast(keys.decode(query).value)))
    {
      KindsLawful();
      SelectorsFaithful();
      var _, total := MergeSelected(keys, COUNTER, counters, query);
      LiveReadIsLog(keys, COUNTER, counterLog, query);
      n := total;
    }

    method RateGet(query: string) returns (ratio: real, passes: nat, total: nat)
      requires Valid()
      ensures Rate(passes, total) == Fold(RATE, Under(keys, rateLog, Answers(keys, query))) && ratio == Ratio(Rate(passes, total))
      ensures GoodLog(keys, rateLog) && keys.decode(query).Some?
          ==> Rate(passes, total) == Fold(RATE, Matching(rateLog, AtLeast(keys.decode(query).value)))
    {
      KindsLawful();
      SelectorsFaithful();
      var _, r := MergeSelected(keys, RATE, rates, query);
      LiveReadIsLog(keys, RATE, rateLog, query);
      ratio, passes, total := Ratio(r), r.passes, r.total;
    }

    method TrendStatsOf(query: string) returns (r: Option<TrendStats>)
      requires Valid()
      ensures var xs := Under(keys, trendLog, Answers(keys, query));
        r == if xs == [] then None else Some(Stats(Fold(TREND, xs)))
      ensures GoodLog(keys, trendLog) && keys.decode(query).Some?
          ==> var xs := Matching(trendLog, AtLeast(keys.decode(query).value));
              r == if xs == [] then None else Some(Stats(Fold(TREND, xs)))
    {
      KindsLawful();
      SelectorsFaithful();
      var found, t := MergeSelected(keys, TREND, trends, query);
      LiveReadIsLog(keys, TREND, trendLog, query);
      r := if found then Some(Stats(t)) else None;
    }

    // The snapshot rows of the derived entries.
    method TakeSnapshot(secs: real)
      returns (snap: Snapshot, ghost dc: map<string, nat>, ghost dr: map<string, Rate>, ghost dt: map<string, Trend>)
      requires Valid()
      ensures IsDerived(keys, COUNTER, dc, counters) && snap.counters == CounterRows(dc, secs)
      ensures IsDerived(keys, RATE, dr, rates) && snap.rates == RateRows(dr)
      ensures IsDerived(keys, TREND, dt, trends) && snap.trends == TrendRows(dt)
    {
      KindsLawful();
      SelectorsFaithful();
      var c := Derive(keys, COUNTER, counters);
      var r := Derive(keys, RATE, rates);
      var t := Derive(keys, TREND, trends);
      dc, dr, dt := c, r, t;
      snap := Snapshot(CounterRows(c, secs), RateRows(r), TrendRows(t));
    }
  }

  // Counting an outcome in place, and recording a value in place, are merges.
  lemma PutOutcome(m: map<string, Rate>, k: string, passed: bool)
    ensures m[k := CountOutcome(if k in m then m[k] else Rate(0, 0), passed)] == Put(RATE, m, k, RATE.lift(passed))
  {
    if k in m { CountOutcomeMerges(m[k], passed); }
  }

  lemma PutRecord(m: map<string, Trend>, k: string, ms: real)
    ensures m[k := Record(if k in m then m[k] else NoSamples, ms)] == Put(TREND, m, k, TREND.lift(ms))
  {
    if k in m { RecordMerges(m[k], ms); }
  }

  lemma StoredSnoc<S, A>(c: Codec, kind: Kind<S, A>, log: seq<Sample<S>>, x: Sample<S>)
    ensures Stored(c, kind, log + [x]) == Put(kind, Stored(c, kind, log), c.encode(x.at), kind.lift(x.value))
  {
    assert (log + [x])[..|log|] == log;
  }

  // Live reads by query text, of whatever was written, are folds over the samples logged
  // under the answering keys; after well-formed writes those are the samples asked for.
  lemma LiveReadIsLog<S, A(!new)>(c: Codec, kind: Kind<S, A>, log: seq<Sample<S>>, query: string)
    requires Faithful(c) && Lawful(kind)
    ensures var xs, m := Under(c, log, Answers(c, query)), Select(c, Stored(c, kind, log), query);
      && Total(kind, m) == Fold(kind, xs) && (m == map[] <==> xs == [])
      && (GoodLog(c, log) && c.decode(query).Some? ==> xs == Matching(log, AtLeast(c.decode(query).value)))
  {
    ReadIsLog(c, kind, log, Answers(c, query));
    HitsAreWhere(c, Stored(c, kind, log), TaggedOf(""), query);
    if GoodLog(c, log) && c.decode(query).Some? {
      UnderIsMatching(c, log, AtLeast(c.decode(query).value));
      AnswersAreReads(c, log, query);
    }
  }

  // What one more well-formed write does to a read, after any writes: it grows by the
  // sample exactly if the sample has the query's name and each of its pairs.
  lemma WriteReads<S, A(!new)>(c: Codec, kind: Kind<S, A>, log: seq<Sample<S>>, x: Sample<S>, query: string)
    requires Faithful(c) && Lawful(kind) && c.good(x.at) && c.decode(query).Some?
    ensures var q := c.decode(query).value;
            var before, after := Select(c, Stored(c, kind, log), query), Select(c, Stored(c, kind, log + [x]), query);
      Total(kind, after) ==
        if x.at.name == q.name && x.at.tags + q.tags == x.at.tags then kind.merge(Total(kind, before), kind.lift(x.value))
        else Total(kind, before)
  {
    var p := Answers(c, query);
    var xs := Under(c, log, p);
    IncludesIff(c.decode(query).value, x.at);
    assert PrintsBack(c, x.at);
    LiveReadIsLog(c, kind, log, query);
    LiveReadIsLog(c, kind, log + [x], query);
    UnderSnoc(c, log, x, p);
    FoldSnoc(kind, xs, x.value);
  }

  lemma UnderSnoc<S>(c: Codec, log: seq<Sample<S>>, x: Sample<S>, p: string -> bool)
    ensures Under(c, log + [x], p) == if p(c.encode(x.at)) then Under(c, log, p) + [x.value] else Under(c, log, p)
  {
    assert (log + [x])[..|log|] == log;
  }

  // A write whose value under a queried key differs, or that lacks the key, or has another
  // name, is not read.
  lemma OtherWritesAreNotRead<S, A(!new)>(c: Codec, kind: Kind<S, A>, log: seq<Sample<S>>, x: Sample<S>, query: string, key: string)
    requires Faithful(c) && Lawful(kind) && c.good(x.at) && c.decode(query).Some?
    requires var q := c.decode(query).value;
      x.at.name != q.name || (key in q.tags && (key !in x.at.tags || x.at.tags[key] != q.tags[key]))
    ensures Total(kind, Select(c, Stored(c, kind, log + [x]), query)) == Total(kind, Select(c, Stored(c, kind, log), query))
  {
    var q := c.decode(query).value;
    WriteReads(c, kind, log, x, query);
    if key in q.tags { assert (x.at.tags + q.tags)[key] == q.tags[key]; }
  }

  lemma {:induction false} AnswersAreReads<S>(c: Codec, log: seq<Sample<S>>, query: string)
    requires Faithful(c) && GoodLog(c, log) && c.decode(query).Some?
    ensures Under(c, log, Answers(c, query)) == Under(c, log, Reads(c, AtLeast(c.decode(query).value)))
  {
    if log != [] {
      AnswersAreReads(c, log[..|log| - 1], query);
      assert PrintsBack(c, log[|log| - 1].at);
    }
  }

  // ----- What the reported values are -----

  ghost predicate IsMinimum(v: real, xs: seq<real>) { v in xs && forall x :: x in xs ==> v <= x }
  ghost predicate IsMaximum(v: real, xs: seq<real>) { v in xs && forall x :: x in xs ==> x <= v }

  // `avg` is the mean of `n` numbers that sum to `sum`.
  ghost predicate IsMean(avg: real, n: nat, sum: real) { avg * n as real == sum }

  lemma DivTimes(x: real, n: nat)
    requires n > 0
    ensures IsMean(x / n as real, n, x)
  {
  }

  // The statistics of a list of samples.
  ghost predicate Describes(t: TrendStats, xs: seq<real>) {
    t.count == |xs| && t.hist == Histogram(xs) && IsMinimum(t.min, xs) && IsMaximum(t.max, xs) && IsMean(t.avg, |xs|, Sum(xs))
  }

  lemma StatsDescribe(xs: seq<real>)
    requires xs != []
    ensures Describes(Stats(Fold(TREND, xs)), xs)
  {
    TrendMeaning(xs);
    DivTimes(Sum(xs), |xs|);
  }

  lemma RatioDescribes(xs: seq<bool>)
    requires xs != []
    ensures IsMean(Ratio(Fold(RATE, xs)), |xs|, Passed(xs) as real)
  {
    RateIsCounts(xs);
    DivTimes(Passed(xs) as real, |xs|);
  }

  // A rate that took no sample reports zero.
  lemma NoSamplesRatio(r: Rate)
    ensures r.total == 0 ==> Ratio(r) == 0.0
    ensures Fold(RATE, []).total == 0
  {
  }

  // A count per second, spread over the run.
  ghost predicate IsPerSecond(v: real, secs: real, count: nat) {
    if secs > 0.0 then v * secs == count as real else v == 0.0
  }
}
