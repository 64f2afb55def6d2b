/** The end-of-run summary: untagged aggregates, the tagged sub-metrics a threshold
    asks for, and the values both carry. */
module Summaries {
  import opened Text
  import opened Selectors
  import opened Aggregates
  import opened Stores
  import opened Registry
  import opened Thresholds

  datatype SummaryMetric =
    | CounterMetric(count: nat, perSecond: real)
    | RateMetric(ratio: real, passes: nat, fails: int)
    | TrendMetric(stats: TrendStats)
    | GaugeMetric(value: real, min: real, max: real)

  datatype Gauge = Gauge(name: string, value: real, min: real, max: real)

  function OfCounter(r: CounterRow): SummaryMetric { CounterMetric(r.value, r.perSecond) }
  function OfGauge(g: Gauge): SummaryMetric { GaugeMetric(g.value, g.min, g.max) }
  function OfRate(r: RateRow): SummaryMetric { RateMetric(r.ratio, r.passes, r.total - r.passes) }

  // The derived maps a snapshot reports, with the run length in seconds.
  datatype Derived = Derived(counters: map<string, nat>, rates: map<string, Rate>, trends: map<string, Trend>, secs: real)
  {
    function Rows(): Snapshot {
      Snapshot(CounterRows(counters, secs), RateRows(rates), TrendRows(trends))
    }
  }

  // What is reported: the trend if there is one, else the counter, else the rate.
  function Report(trend: Option<Trend>, counter: Option<nat>, rate: Option<Rate>, secs: real): Option<SummaryMetric> {
    if trend.Some? then Some(TrendMetric(Stats(trend.value)))
    else if counter.Some? then Some(CounterMetric(counter.value, PerSecond(counter.value, secs)))
    else if rate.Some? then Some(RateMetric(Ratio(rate.value), rate.value.passes, rate.value.total - rate.value.passes))
    else None
  }

  // The merged value of the entries found, and of the samples logged.
  ghost function Found<S, A(!new)>(kind: Kind<S, A>, m: map<string, A>): Option<A> {
    if m == map[] then None else Some(Total(kind, m))
  }

  function Logged<S(==), A>(kind: Kind<S, A>, xs: seq<S>): Option<A> {
    if xs == [] then None else Some(Fold(kind, xs))
  }

  // The sub-metric a selector denotes: the first kind with an answering entry.
  ghost function SubMetric(c: Codec, target: Selector, d: Derived): Option<SummaryMetric> {
    Report(Found(TREND, Hits(c, d.trends, AtLeast(target))),
           Found(COUNTER, Hits(c, d.counters, AtLeast(target))),
           Found(RATE, Hits(c, d.rates, AtLeast(target))), d.secs)
  }

  method SynthesizeSubsetMetric(c: Codec, target: Selector, snap: Snapshot, ghost d: Derived)
    returns (r: Option<SummaryMetric>)
    requires snap == d.Rows() && AllSampled(d.trends)
    ensures r == SubMetric(c, target, d)
  {
    var trend := MergeTrendRows(c, AtLeast(target), snap.trends, d.trends);
    if trend.Some? { return Some(TrendMetric(trend.value)); }
    var counter := MergeCounterRows(c, AtLeast(target), snap.counters, d.counters, d.secs);
    if counter.Some? { return Some(OfCounter(counter.value)); }
    var rate := MergeRateRows(c, AtLeast(target), snap.rates, d.rates);
    if rate.Some? { return Some(OfRate(rate.value)); }
    return None;
  }

  // ----- The metrics table -----

  // Untagged names are always shown; tagged ones when there is no filter or it allows them.
  predicate Shown(name: string, filter: Option<set<string>>) {
    '{' !in name || filter.None? || name in filter.value
  }

  function GaugeRows(gauges: seq<Gauge>, filter: Option<set<string>>): map<string, SummaryMetric> {
    if gauges == [] then map[] else
      var last, before := gauges[|gauges| - 1], GaugeRows(gauges[..|gauges| - 1], filter);
      if Shown(last.name, filter) then before[last.name := OfGauge(last)] else before
  }

  lemma {:induction false} GaugeRowsShown(gauges: seq<Gauge>, filter: Option<set<string>>, k: string)
    ensures k in GaugeRows(gauges, filter) <==> Shown(k, filter) && exists i :: 0 <= i < |gauges| && gauges[i].name == k
  {
    if gauges != [] {
      GaugeRowsShown(gauges[..|gauges| - 1], filter, k);
    }
  }

  // The pass-through rows; a later kind overwrites an earlier one of the same name.
  function PassThrough(snap: Snapshot, gauges: seq<Gauge>, filter: Option<set<string>>): map<string, SummaryMetric> {
    (map k | k in snap.counters && Shown(k, filter) :: OfCounter(snap.counters[k]))
    + GaugeRows(gauges, filter)
    + (map k | k in snap.rates && Shown(k, filter) :: OfRate(snap.rates[k]))
    + (map k | k in snap.trends && Shown(k, filter) :: TrendMetric(snap.trends[k]))
  }

  lemma PassThroughShows(snap: Snapshot, gauges: seq<Gauge>, filter: Option<set<string>>, k: string)
    ensures k in PassThrough(snap, gauges, filter) ==> Shown(k, filter)
  {
    GaugeRowsShown(gauges, filter, k);
  }

  // The selectors whose sub-metrics are synthesised: every tagged threshold key, and
  // the sub-metric that is always tracked.
  function Targeted(c: Codec, keys: seq<string>, always: Selector): seq<Selector> {
    if keys == [] then [always] else
      var s := c.decode(keys[0]);
      (if s.Some? && s.value.tags != map[] then [s.value] else []) + Targeted(c, keys[1..], always)
  }

  lemma {:induction false} TargetedAre(c: Codec, keys: seq<string>, always: Selector)
    requires Faithful(c) && c.good(always) && always.tags != map[]
    ensures forall s :: s in Targeted(c, keys, always) ==> c.good(s) && s.tags != map[]
    ensures forall k :: k in keys && c.decode(k).Some? && c.decode(k).value.tags != map[]
                ==> c.decode(k).value in Targeted(c, keys, always)
    ensures always in Targeted(c, keys, always)
  {
    if keys != [] {
      TargetedAre(c, keys[1..], always);
      assert ReadsGood(c, keys[0]);
      assert keys == [keys[0]] + keys[1..];
    }
  }

  // Encodings of tagged selectors tell the selectors apart and are never bare names.
  lemma EncodingsApart(c: Codec, s: Selector, t: Selector)
    requires Faithful(c) && c.good(s) && c.good(t)
    ensures c.encode(s) == c.encode(t) ==> s == t
    ensures s.tags != map[] ==> '{' in c.encode(s)
  {
    assert PrintsBack(c, s) && PrintsBack(c, t);
  }

  // Each target's sub-metric written over the table, in order.
  ghost function Overlay(c: Codec, base: map<string, SummaryMetric>, targets: seq<Selector>, d: Derived): map<string, SummaryMetric> {
    if targets == [] then base else
      var last := targets[|targets| - 1];
      var before := Overlay(c, base, targets[..|targets| - 1], d);
      var r := SubMetric(c, last, d);
      if r.Some? then before[c.encode(last) := r.value] else before
  }

  // Every targeted sub-metric ends up in the table with its merged value.
  lemma {:induction false} OverlayHolds(c: Codec, base: map<string, SummaryMetric>, targets: seq<Selector>, d: Derived, s: Selector)
    requires Faithful(c) && s in targets && SubMetric(c, s, d).Some? && forall t :: t in targets ==> c.good(t)
    ensures var m := Overlay(c, base, targets, d);
      c.encode(s) in m && m[c.encode(s)] == SubMetric(c, s, d).value
  {
    var last, rest := targets[|targets| - 1], targets[..|targets| - 1];
    assert targets == rest + [last];
    EncodingsApart(c, s, last);
    if s != last {
      OverlayHolds(c, base, rest, d, s);
    }
  }

  // Bare names keep their pass-through row, and nothing else tagged is added.
  lemma {:induction false} OverlayKeeps(c: Codec, base: map<string, SummaryMetric>, targets: seq<Selector>, d: Derived, k: string)
    requires Faithful(c) && forall t :: t in targets ==> c.good(t) && t.tags != map[]
    ensures var m := Overlay(c, base, targets, d);
      && ('{' !in k ==> (k in m <==> k in base) && (k in base ==> m[k] == base[k]))
      && (k in m ==> k in base || exists s :: s in targets && k == c.encode(s))
  {
    if targets != [] {
      var last, rest := targets[|targets| - 1], targets[..|targets| - 1];
      assert targets == rest + [last];
      EncodingsApart(c, last, last);
      OverlayKeeps(c, base, rest, d, k);
    }
  }

  function Filter(c: Codec, thresholds: Option<seq<string>>, targets: seq<Selector>): Option<set<string>> {
    if thresholds.Some? then Some(set s | s in targets :: c.encode(s)) else None
  }

  function KeysOf(thresholds: Option<seq<string>>): seq<string> {
    if thresholds.Some? then thresholds.value else []
  }

  // The whole metrics table of a summary.
  ghost function Table(c: Codec, snap: Snapshot, gauges: seq<Gauge>, thresholds: Option<seq<string>>, always: Selector, d: Derived): map<string, SummaryMetric> {
    var targets := Targeted(c, KeysOf(thresholds), always);
    Overlay(c, PassThrough(snap, gauges, Filter(c, thresholds, targets)), targets, d)
  }

  lemma OverlaySnoc(c: Codec, base: map<string, SummaryMetric>, targets: seq<Selector>, s: Selector, d: Derived)
    ensures var before, r := Overlay(c, base, targets, d), SubMetric(c, s, d);
      Overlay(c, base, targets + [s], d) == if r.Some? then before[c.encode(s) := r.value] else before
  {
    assert (targets + [s])[..|targets|] == targets;
  }

  // Fill in the table: pass-through rows, then every synthesised sub-metric over them.
  method BuildMetrics(c: Codec, snap: Snapshot, gauges: seq<Gauge>, thresholds: Option<seq<string>>, always: Selector, ghost d: Derived)
    returns (metrics: map<string, SummaryMetric>)
    requires snap == d.Rows() && AllSampled(d.trends)
    ensures metrics == Table(c, snap, gauges, thresholds, always, d)
  {
    var targets := Targeted(c, KeysOf(thresholds), always);
    metrics := PassThrough(snap, gauges, Filter(c, thresholds, targets));
    ghost var base := metrics;
    for i := 0 to |targets|
      invariant metrics == Overlay(c, base, targets[..i], d)
    {
      OverlaySnoc(c, base, targets[..i], targets[i], d);
      assert targets[..i + 1] == targets[..i] + [targets[i]];
      var synth := SynthesizeSubsetMetric(c, targets[i], snap, d);
      if synth.Some? {
        metrics := metrics[c.encode(targets[i]) := synth.value];
      }
    }
    assert targets[..|targets|] == targets;
  }

  // With thresholds given, every tagged entry of the table was asked for.
  lemma OnlyTargetedAreShown(c: Codec, snap: Snapshot, gauges: seq<Gauge>, keys: seq<string>, always: Selector, d: Derived, k: string)
    requires Faithful(c) && c.good(always) && always.tags != map[]
    requires '{' in k && k in Table(c, snap, gauges, Some(keys), always, d)
    ensures exists s :: s in Targeted(c, keys, always) && k == c.encode(s)
  {
    var targets := Targeted(c, keys, always);
    TargetedAre(c, keys, always);
    PassThroughShows(snap, gauges, Filter(c, Some(keys), targets), k);
    OverlayKeeps(c, PassThrough(snap, gauges, Filter(c, Some(keys), targets)), targets, d, k);
  }

  // ----- Agreement with the log -----

  // A history of writes, and the derived maps a snapshot took of it.
  ghost predicate Reflects(c: Codec, d: Derived, cl: seq<Sample<nat>>, rl: seq<Sample<bool>>, tl: seq<Sample<real>>) {
    && GoodLog(c, cl) && GoodLog(c, rl) && GoodLog(c, tl)
    && IsDerived(c, COUNTER, d.counters, Stored(c, COUNTER, cl))
    && IsDerived(c, RATE, d.rates, Stored(c, RATE, rl))
    && IsDerived(c, TREND, d.trends, Stored(c, TREND, tl))
  }

  lemma FoundIsLogged<S, A(!new)>(c: Codec, kind: Kind<S, A>, log: seq<Sample<S>>, out: map<string, A>, q: Selector)
    requires Faithful(c) && Lawful(kind) && GoodLog(c, log) && IsDerived(c, kind, out, Stored(c, kind, log))
    requires q.tags != map[]
    ensures Found(kind, Hits(c, out, AtLeast(q))) == Logged(kind, Matching(log, AtLeast(q)))
  {
    TaggedSnapshotIsLog(c, kind, log, out, q);
    UnderIsMatching(c, log, AtLeast(q));
  }

  // For a tagged selector the summary reports the fold over the matching log entries.
  lemma SubMetricIsLog(c: Codec, d: Derived, cl: seq<Sample<nat>>, rl: seq<Sample<bool>>, tl: seq<Sample<real>>, q: Selector)
    requires Faithful(c) && Reflects(c, d, cl, rl, tl) && q.tags != map[]
    ensures SubMetric(c, q, d)
         == Report(Logged(TREND, Matching(tl, AtLeast(q))), Logged(COUNTER, Matching(cl, AtLeast(q))),
                   Logged(RATE, Matching(rl, AtLeast(q))), d.secs)
  {
    KindsLawful();
    FoundIsLogged(c, TREND, tl, d.trends, q);
    FoundIsLogged(c, COUNTER, cl, d.counters, q);
    FoundIsLogged(c, RATE, rl, d.rates, q);
  }

  // Every tagged threshold key shows, in the table, what was logged under its tags.
  lemma TableReportsLog(c: Codec, d: Derived, cl: seq<Sample<nat>>, rl: seq<Sample<bool>>, tl: seq<Sample<real>>,
                        gauges: seq<Gauge>, thresholds: seq<string>, always: Selector, key: string)
    requires Faithful(c) && Reflects(c, d, cl, rl, tl) && c.good(always) && always.tags != map[]
    requires key in thresholds && c.decode(key).Some? && c.decode(key).value.tags != map[]
    ensures var q := c.decode(key).value;
            var report := Report(Logged(TREND, Matching(tl, AtLeast(q))), Logged(COUNTER, Matching(cl, AtLeast(q))),
                                 Logged(RATE, Matching(rl, AtLeast(q))), d.secs);
            var table := Table(c, d.Rows(), gauges, Some(thresholds), always, d);
            report.Some? ==> c.encode(q) in table && table[c.encode(q)] == report.value
  {
    var q := c.decode(key).value;
    var targets := Targeted(c, thresholds, always);
    TargetedAre(c, thresholds, always);
    SubMetricIsLog(c, d, cl, rl, tl, q);
    if SubMetric(c, q, d).Some? {
      OverlayHolds(c, PassThrough(d.Rows(), gauges, Filter(c, Some(thresholds), targets)), targets, d, q);
    }
  }

  // What a sub-metric shows of the samples it was made of, trends first, then counts, then
  // outcomes.
  ghost predicate Shows(m: SummaryMetric, ts: seq<real>, ns: seq<nat>, bs: seq<bool>, secs: real) {
    if ts != [] then m.TrendMetric? && Describes(m.stats, ts)
    else if ns != [] then m.CounterMetric? && m.count == SumOfCounts(ns) && IsPerSecond(m.perSecond, secs, SumOfCounts(ns))
    else m.RateMetric? && m.passes == Passed(bs) && m.fails == |bs| - Passed(bs) && IsMean(m.ratio, |bs|, Passed(bs) as real)
  }

  lemma ReportShows(ts: seq<real>, ns: seq<nat>, bs: seq<bool>, secs: real)
    ensures var m := Report(Logged(TREND, ts), Logged(COUNTER, ns), Logged(RATE, bs), secs);
      && (m.Some? <==> ts != [] || ns != [] || bs != [])
      && (m.Some? ==> Shows(m.value, ts, ns, bs, secs))
  {
    if ts != [] {
      StatsDescribe(ts);
    } else if ns != [] {
      CounterIsSum(ns);
      PerSecondMeans(SumOfCounts(ns), secs);
    } else if bs != [] {
      RateIsCounts(bs);
      RatioDescribes(bs);
    }
  }

  // Every tagged threshold key with samples shows them in the table.
  lemma TableShowsSamples(c: Codec, d: Derived, cl: seq<Sample<nat>>, rl: seq<Sample<bool>>, tl: seq<Sample<real>>,
                          gauges: seq<Gauge>, thresholds: seq<string>, always: Selector, key: string)
    requires Faithful(c) && Reflects(c, d, cl, rl, tl) && c.good(always) && always.tags != map[]
    requires key in thresholds && c.decode(key).Some? && c.decode(key).value.tags != map[]
    ensures var q := c.decode(key).value;
            var ts, ns, bs := Matching(tl, AtLeast(q)), Matching(cl, AtLeast(q)), Matching(rl, AtLeast(q));
            var table := Table(c, d.Rows(), gauges, Some(thresholds), always, d);
      ts != [] || ns != [] || bs != [] ==> c.encode(q) in table && Shows(table[c.encode(q)], ts, ns, bs, d.secs)
  {
    var q := c.decode(key).value;
    TableReportsLog(c, d, cl, rl, tl, gauges, thresholds, always, key);
    ReportShows(Matching(tl, AtLeast(q)), Matching(cl, AtLeast(q)), Matching(rl, AtLeast(q)), d.secs);
  }

  // For a bare name the pass-through rows report the same folds, counted once.
  lemma PassThroughIsLog(c: Codec, d: Derived, cl: seq<Sample<nat>>, rl: seq<Sample<bool>>, tl: seq<Sample<real>>, n: string)
    requires Faithful(c) && Reflects(c, d, cl, rl, tl) && c.good(Untagged(n))
    ensures var rows, q := d.Rows(), AtLeast(Untagged(n));
      && (n in rows.counters <==> Matching(cl, q) != [])
      && (n in rows.rates <==> Matching(rl, q) != [])
      && (n in rows.trends <==> Matching(tl, q) != [])
      && (n in rows.counters ==> rows.counters[n].value == Fold(COUNTER, Matching(cl, q)))
      && (n in rows.rates ==> Rate(rows.rates[n].passes, rows.rates[n].total) == Fold(RATE, Matching(rl, q)))
      && (n in rows.trends ==> rows.trends[n] == Stats(Fold(TREND, Matching(tl, q))))
  {
    KindsLawful();
    UntaggedSnapshotIsLog(c, COUNTER, cl, d.counters, n);
    UntaggedSnapshotIsLog(c, RATE, rl, d.rates, n);
    UntaggedSnapshotIsLog(c, TREND, tl, d.trends, n);
  }

  ghost predicate LastGauge(gauges: seq<Gauge>, n: string, i: int) {
    0 <= i < |gauges| && gauges[i].name == n && forall j :: i < j < |gauges| ==> gauges[j].name != n
  }

  lemma {:induction false} GaugeRowIsLast(gauges: seq<Gauge>, filter: Option<set<string>>, n: string, i: int)
    requires LastGauge(gauges, n, i) && Shown(n, filter)
    ensures n in GaugeRows(gauges, filter)
    ensures GaugeRows(gauges, filter)[n] == GaugeMetric(gauges[i].value, gauges[i].min, gauges[i].max)
    decreases |gauges|
  {
    var front := gauges[..|gauges| - 1];
    if i < |gauges| - 1 {
      assert gauges[|gauges| - 1].name != n && front[i] == gauges[i];
      GaugeRowIsLast(front, filter, n, i);
    }
  }

  ghost predicate NoGauge(gauges: seq<Gauge>, n: string) {
    forall i :: 0 <= i < |gauges| ==> gauges[i].name != n
  }

  // What a bare name shows: its trend, else its rate, else its last gauge, else its counter.
  ghost predicate ShowsBare(table: map<string, SummaryMetric>, rows: Snapshot, gauges: seq<Gauge>, n: string) {
    if n in rows.trends then n in table && table[n] == TrendMetric(rows.trends[n])
    else if n in rows.rates then
      n in table && table[n] == RateMetric(rows.rates[n].ratio, rows.rates[n].passes, rows.rates[n].total - rows.rates[n].passes)
    else
      && (forall i :: LastGauge(gauges, n, i) ==> n in table && table[n] == GaugeMetric(gauges[i].value, gauges[i].min, gauges[i].max))
      && (NoGauge(gauges, n) && n in rows.counters ==>
            n in table && table[n] == CounterMetric(rows.counters[n].value, rows.counters[n].perSecond))
  }

  lemma PassThroughShowsBare(rows: Snapshot, gauges: seq<Gauge>, filter: Option<set<string>>, n: string)
    requires '{' !in n
    ensures ShowsBare(PassThrough(rows, gauges, filter), rows, gauges, n)
  {
    GaugeRowsShown(gauges, filter, n);
    forall i | LastGauge(gauges, n, i)
      ensures n in GaugeRows(gauges, filter) && GaugeRows(gauges, filter)[n] == GaugeMetric(gauges[i].value, gauges[i].min, gauges[i].max)
    {
      GaugeRowIsLast(gauges, filter, n, i);
    }
  }

  lemma BareNameInTable(c: Codec, d: Derived, gauges: seq<Gauge>, thresholds: Option<seq<string>>, always: Selector, n: string)
    requires Faithful(c) && c.good(always) && always.tags != map[] && '{' !in n
    ensures ShowsBare(Table(c, d.Rows(), gauges, thresholds, always, d), d.Rows(), gauges, n)
  {
    var targets := Targeted(c, KeysOf(thresholds), always);
    TargetedAre(c, KeysOf(thresholds), always);
    var base := PassThrough(d.Rows(), gauges, Filter(c, thresholds, targets));
    PassThroughShowsBare(d.Rows(), gauges, Filter(c, thresholds, targets), n);
    OverlayKeeps(c, base, targets, d, n);
    SameBare(base, Overlay(c, base, targets, d), d.Rows(), gauges, n);
  }

  lemma SameBare(base: map<string, SummaryMetric>, table: map<string, SummaryMetric>, rows: Snapshot, gauges: seq<Gauge>, n: string)
    requires ShowsBare(base, rows, gauges, n) && (n in base ==> n in table && table[n] == base[n])
    ensures ShowsBare(table, rows, gauges, n)
  {
  }

  // Reported failures are the failed samples, so the subtraction never underflows.
  lemma {:induction false} FailsAreFailures(xs: seq<bool>)
    ensures var r := Fold(RATE, xs); r.total - r.passes == |Failures(xs)|
  {
    if xs != [] {
      FailsAreFailures(xs[..|xs| - 1]);
    }
  }

  function Failures(xs: seq<bool>): seq<bool> {
    if xs == [] then []
    else if xs[|xs| - 1] then Failures(xs[..|xs| - 1])
    else Failures(xs[..|xs| - 1]) + [false]
  }
}
