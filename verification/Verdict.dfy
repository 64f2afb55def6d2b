/** The value a threshold compares: the statistic picked from the merged trend, else
    counter, else rate, else a gauge of that name.  For a key with tags it is a function
    of the log, and the one the summary shows. */
module Verdicts {
  import opened Text
  import opened Selectors
  import opened Aggregates
  import opened Stores
  import opened Registry
  import opened Thresholds
  import opened Summaries

  datatype Stat = Count | PerSec | Avg | Min | Max | Med | Percentile(p: real) | Value

  // A quantile of a histogram that holds something, in milliseconds.
  type Quantiles = (multiset<nat>, real) -> real

  function PercentileOf(quantile: Quantiles, hist: multiset<nat>, p: real): real {
    if hist == multiset{} then 0.0 else quantile(hist, p)
  }

  function TrendStat(quantile: Quantiles, t: TrendStats, stat: Stat): real {
    match stat
    case Min => t.min
    case Max => t.max
    case Med => PercentileOf(quantile, t.hist, 50.0)
    case Percentile(p) => PercentileOf(quantile, t.hist, p)
    case Count => t.count as real
    case _ => t.avg
  }

  function CounterStat(value: nat, perSecond: real, stat: Stat): real {
    if stat.PerSec? then perSecond else value as real
  }

  function RateStat(ratio: real, total: int, stat: Stat): real {
    if stat.Count? then total as real else ratio
  }

  function ReadStat(quantile: Quantiles, m: SummaryMetric, stat: Stat): real {
    match m
    case TrendMetric(t) => TrendStat(quantile, t, stat)
    case CounterMetric(value, perSecond) => CounterStat(value, perSecond, stat)
    case RateMetric(ratio, passes, fails) => RateStat(ratio, passes + fails, stat)
    case GaugeMetric(value, min, max) => GaugeStat(Gauge("", value, min, max), stat)
  }

  // ----- Gauges, listed in name order -----

  function GaugeStat(g: Gauge, stat: Stat): real {
    match stat
    case Min => g.min
    case Max => g.max
    case _ => g.value
  }

  // The first gauge whose name matches, or zero.
  function FirstGauge(c: Codec, key: string, gauges: seq<Gauge>, stat: Stat): real {
    if gauges == [] then 0.0
    else if NamesMatch(c, key, gauges[0].name) then GaugeStat(gauges[0], stat)
    else FirstGauge(c, key, gauges[1..], stat)
  }

  method FindGauge(c: Codec, key: string, gauges: seq<Gauge>, stat: Stat) returns (v: real)
    ensures v == FirstGauge(c, key, gauges, stat)
  {
    for i := 0 to |gauges|
      invariant FirstGauge(c, key, gauges, stat) == FirstGauge(c, key, gauges[i..], stat)
    {
      assert gauges[i..][1..] == gauges[i + 1..];
      if NamesMatch(c, key, gauges[i].name) { return GaugeStat(gauges[i], stat); }
    }
    return 0.0;
  }

  // ----- Resolving a statistic -----

  // What is found for a key: the merged sub-metric of a key that parses, and the entry
  // stored under literally that text for one that does not.
  ghost function FoundFor(c: Codec, key: string, d: Derived): Option<SummaryMetric> {
    match c.decode(key)
    case Some(q) => SubMetric(c, q, d)
    case None => Report(Own(d.trends, key), Own(d.counters, key), Own(d.rates, key), d.secs)
  }

  function Own<A>(m: map<string, A>, key: string): Option<A> {
    if key in m then Some(m[key]) else None
  }

  ghost function Resolved(c: Codec, quantile: Quantiles, key: string, stat: Stat, d: Derived, gauges: seq<Gauge>): real {
    var m := FoundFor(c, key, d);
    if m.Some? then ReadStat(quantile, m.value, stat) else FirstGauge(c, key, gauges, stat)
  }

  // The name lookup behind the merges: a row under a matching name, if there is one.
  ghost predicate IsLookup<R(!new)>(c: Codec, key: string, rows: map<string, R>, r: Option<R>) {
    match r
    case None => forall k :: k in rows ==> !NamesMatch(c, key, k)
    case Some(row) => exists k :: k in rows && NamesMatch(c, key, k) && rows[k] == row
  }

  method Lookup<R(!new)>(c: Codec, key: string, rows: map<string, R>) returns (r: Option<R>)
    ensures IsLookup(c, key, rows, r)
  {
    var todo := rows.Keys;
    while todo != {}
      invariant todo <= rows.Keys && forall k :: k in rows && k !in todo ==> !NamesMatch(c, key, k)
      decreases todo
    {
      var k :| k in todo;
      if NamesMatch(c, key, k) { return Some(rows[k]); }
      todo := todo - {k};
    }
    return None;
  }

  // For a key that does not parse, only the literally equal name matches.
  lemma LiteralLookup<R(!new)>(c: Codec, key: string, rows: map<string, R>, r: Option<R>)
    requires c.decode(key).None? && IsLookup(c, key, rows, r)
    ensures r == Own(rows, key)
  {
    assert NamesMatch(c, key, key);
  }

  // For a key that parses and merged nothing, no name matches either.
  lemma EmptyLookup<A, R(!new)>(c: Codec, key: string, d: map<string, A>, rows: map<string, R>, r: Option<R>)
    requires Faithful(c) && c.decode(key).Some? && rows.Keys == d.Keys && IsLookup(c, key, rows, r)
    requires Hits(c, d, AtLeast(c.decode(key).value)) == map[]
    ensures r.None?
  {
    forall k | k in rows ensures !NamesMatch(c, key, k) {
      assert k !in Hits(c, d, AtLeast(c.decode(key).value));
      if NamesMatch(c, key, k) { LookupAddsNothing(c, key, k); }
    }
  }

  function FirstOf(t: Option<TrendStats>, n: Option<CounterRow>, r: Option<RateRow>): Option<SummaryMetric> {
    if t.Some? then Some(TrendMetric(t.value)) else if n.Some? then Some(OfCounter(n.value))
    else if r.Some? then Some(OfRate(r.value)) else None
  }

  lemma LiteralIsFound(c: Codec, key: string, d: Derived, t: Option<TrendStats>, n: Option<CounterRow>, r: Option<RateRow>)
    requires c.decode(key).None?
    requires IsLookup(c, key, d.Rows().trends, t) && IsLookup(c, key, d.Rows().counters, n) && IsLookup(c, key, d.Rows().rates, r)
    ensures FirstOf(t, n, r) == FoundFor(c, key, d)
  {
    LiteralLookup(c, key, d.Rows().trends, t);
    LiteralLookup(c, key, d.Rows().counters, n);
    LiteralLookup(c, key, d.Rows().rates, r);
  }

  lemma NothingMoreIsFound(c: Codec, key: string, d: Derived, t: Option<TrendStats>, n: Option<CounterRow>, r: Option<RateRow>)
    requires Faithful(c) && c.decode(key).Some? && FoundFor(c, key, d).None?
    requires IsLookup(c, key, d.Rows().trends, t) && IsLookup(c, key, d.Rows().counters, n) && IsLookup(c, key, d.Rows().rates, r)
    ensures FirstOf(t, n, r).None?
  {
    EmptyLookup(c, key, d.trends, d.Rows().trends, t);
    EmptyLookup(c, key, d.counters, d.Rows().counters, n);
    EmptyLookup(c, key, d.rates, d.Rows().rates, r);
  }

  // The three merges of a threshold key, all made before any is looked at; a key that
  // does not parse merges nothing.
  method MergeAll(c: Codec, q: Option<Selector>, snap: Snapshot, ghost d: Derived)
    returns (t: Option<TrendStats>, n: Option<CounterRow>, r: Option<RateRow>)
    requires snap == d.Rows() && AllSampled(d.trends)
    ensures q.None? ==> t.None? && n.None? && r.None?
    ensures q.Some? ==> FirstOf(t, n, r) == SubMetric(c, q.value, d)
  {
    t, n, r := None, None, None;
    if q.Some? {
      t := MergeTrendRows(c, AtLeast(q.value), snap.trends, d.trends);
      n := MergeCounterRows(c, AtLeast(q.value), snap.counters, d.counters, d.secs);
      r := MergeRateRows(c, AtLeast(q.value), snap.rates, d.rates);
    }
  }

  // The statistic of the first kind there is.
  method PickStat(quantile: Quantiles, t: Option<TrendStats>, n: Option<CounterRow>, r: Option<RateRow>, stat: Stat)
    returns (v: Option<real>)
    ensures var m := FirstOf(t, n, r); v == if m.Some? then Some(ReadStat(quantile, m.value, stat)) else None
  {
    if t.Some? { return Some(TrendStat(quantile, t.value, stat)); }
    if n.Some? { return Some(CounterStat(n.value.value, n.value.perSecond, stat)); }
    if r.Some? { return Some(RateStat(r.value.ratio, r.value.total, stat)); }
    return None;
  }

  // Merge first, then look the name up, then try the gauges.
  method ResolveStat(c: Codec, quantile: Quantiles, key: string, stat: Stat, snap: Snapshot, gauges: seq<Gauge>, ghost d: Derived)
    returns (v: real)
    requires Faithful(c) && snap == d.Rows() && AllSampled(d.trends)
    ensures v == Resolved(c, quantile, key, stat, d, gauges)
  {
    var mt, mn, mr := MergeAll(c, c.decode(key), snap, d);
    var merged := PickStat(quantile, mt, mn, mr, stat);
    if merged.Some? { return merged.value; }
    var t := Lookup(c, key, snap.trends);
    var n := Lookup(c, key, snap.counters);
    var r := Lookup(c, key, snap.rates);
    if c.decode(key).Some? { NothingMoreIsFound(c, key, d, t, n, r); } else { LiteralIsFound(c, key, d, t, n, r); }
    var found := PickStat(quantile, t, n, r, stat);
    if found.Some? { return found.value; }
    v := FindGauge(c, key, gauges, stat);
  }

  // ----- Verdicts against the log -----

  // What the log says about a tagged selector.
  function LogReport(q: Selector, cl: seq<Sample<nat>>, rl: seq<Sample<bool>>, tl: seq<Sample<real>>, secs: real): Option<SummaryMetric> {
    Report(Logged(TREND, Matching(tl, AtLeast(q))), Logged(COUNTER, Matching(cl, AtLeast(q))),
           Logged(RATE, Matching(rl, AtLeast(q))), secs)
  }

  // A threshold on a tagged key compares the statistic of exactly the samples logged
  // under at least its tags.
  lemma TaggedStatIsLog(c: Codec, quantile: Quantiles, d: Derived, gauges: seq<Gauge>,
                        cl: seq<Sample<nat>>, rl: seq<Sample<bool>>, tl: seq<Sample<real>>, key: string, stat: Stat)
    requires Faithful(c) && Reflects(c, d, cl, rl, tl)
    requires c.decode(key).Some? && c.decode(key).value.tags != map[]
    ensures var m := LogReport(c.decode(key).value, cl, rl, tl, d.secs);
      Resolved(c, quantile, key, stat, d, gauges)
        == if m.Some? then ReadStat(quantile, m.value, stat) else FirstGauge(c, key, gauges, stat)
  {
    SubMetricIsLog(c, d, cl, rl, tl, c.decode(key).value);
  }

  // What the value of a statistic is, on the samples: of a trend if there is one, else of
  // a counter, else of a rate.
  ghost predicate IsTrendStat(quantile: Quantiles, v: real, stat: Stat, xs: seq<real>) {
    match stat
    case Min => IsMinimum(v, xs)
    case Max => IsMaximum(v, xs)
    case Count => v == |xs| as real
    case Med => v == if Histogram(xs) == multiset{} then 0.0 else quantile(Histogram(xs), 50.0)
    case Percentile(p) => v == if Histogram(xs) == multiset{} then 0.0 else quantile(Histogram(xs), p)
    case Avg => IsMean(v, |xs|, Sum(xs))
    case Value => IsMean(v, |xs|, Sum(xs))
    case PerSec => IsMean(v, |xs|, Sum(xs))
  }

  ghost predicate IsCounterStat(v: real, stat: Stat, ns: seq<nat>, secs: real) {
    if stat == PerSec then IsPerSecond(v, secs, SumOfCounts(ns)) else v == SumOfCounts(ns) as real
  }

  ghost predicate IsRateStat(v: real, stat: Stat, bs: seq<bool>) {
    if stat == Count then v == |bs| as real else IsMean(v, |bs|, Passed(bs) as real)
  }

  ghost predicate IsStat(quantile: Quantiles, v: real, stat: Stat, ts: seq<real>, ns: seq<nat>, bs: seq<bool>, secs: real) {
    if ts != [] then IsTrendStat(quantile, v, stat, ts)
    else if ns != [] then IsCounterStat(v, stat, ns, secs)
    else IsRateStat(v, stat, bs)
  }

  lemma ShownStat(quantile: Quantiles, m: SummaryMetric, stat: Stat, ts: seq<real>, ns: seq<nat>, bs: seq<bool>, secs: real)
    requires Shows(m, ts, ns, bs, secs)
    ensures IsStat(quantile, ReadStat(quantile, m, stat), stat, ts, ns, bs, secs)
  {
  }

  // A threshold on a tagged key with samples compares that value of the samples logged
  // under at least its tags.
  lemma TaggedStatMeans(c: Codec, quantile: Quantiles, d: Derived, gauges: seq<Gauge>,
                        cl: seq<Sample<nat>>, rl: seq<Sample<bool>>, tl: seq<Sample<real>>, key: string, stat: Stat)
    requires Faithful(c) && Reflects(c, d, cl, rl, tl)
    requires c.decode(key).Some? && c.decode(key).value.tags != map[]
    ensures var q := AtLeast(c.decode(key).value);
            var ts, ns, bs := Matching(tl, q), Matching(cl, q), Matching(rl, q);
      ts != [] || ns != [] || bs != [] ==> IsStat(quantile, Resolved(c, quantile, key, stat, d, gauges), stat, ts, ns, bs, d.secs)
  {
    var q := AtLeast(c.decode(key).value);
    var ts, ns, bs := Matching(tl, q), Matching(cl, q), Matching(rl, q);
    TaggedStatIsLog(c, quantile, d, gauges, cl, rl, tl, key, stat);
    ReportShows(ts, ns, bs, d.secs);
    if ts != [] || ns != [] || bs != [] {
      ShownStat(quantile, LogReport(c.decode(key).value, cl, rl, tl, d.secs).value, stat, ts, ns, bs, d.secs);
    }
  }

  // A gauge answers with its own value, least and greatest; without one the answer is zero.
  lemma {:induction false} GaugeMeans(c: Codec, key: string, gauges: seq<Gauge>, i: nat)
    requires i <= |gauges| && forall j :: 0 <= j < i ==> !NamesMatch(c, key, gauges[j].name)
    requires i < |gauges| ==> NamesMatch(c, key, gauges[i].name)
    ensures i == |gauges| ==> forall stat :: FirstGauge(c, key, gauges, stat) == 0.0
    ensures i < |gauges| ==>
      && FirstGauge(c, key, gauges, Min) == gauges[i].min && FirstGauge(c, key, gauges, Max) == gauges[i].max
      && forall stat :: stat != Min && stat != Max ==> FirstGauge(c, key, gauges, stat) == gauges[i].value
  {
    if i > 0 { GaugeMeans(c, key, gauges[1..], i - 1); }
  }

  // And it is the number the summary shows under the canonical form of the key.
  lemma ThresholdSeesTheSummary(c: Codec, quantile: Quantiles, d: Derived, gauges: seq<Gauge>,
                                thresholds: seq<string>, always: Selector, key: string, stat: Stat)
    requires Faithful(c) && c.good(always) && always.tags != map[]
    requires key in thresholds && c.decode(key).Some? && c.decode(key).value.tags != map[]
    requires FoundFor(c, key, d).Some?
    ensures var table, name := Table(c, d.Rows(), gauges, Some(thresholds), always, d), c.encode(c.decode(key).value);
      name in table && Resolved(c, quantile, key, stat, d, gauges) == ReadStat(quantile, table[name], stat)
  {
    var targets := Targeted(c, thresholds, always);
    TargetedAre(c, thresholds, always);
    OverlayHolds(c, PassThrough(d.Rows(), gauges, Filter(c, Some(thresholds), targets)), targets, d, c.decode(key).value);
  }
}
