/** What a threshold on a bare metric name compares.  The snapshot lists the untagged
    aggregate beside its tagged sources and the merge takes both, so tagged samples are
    in it twice; statistic by statistic, exactly when that still is the live value. */
module BareVerdicts {
  import opened Text
  import opened Selectors
  import opened Aggregates
  import opened Stores
  import opened Registry
  import opened Thresholds
  import opened Summaries
  import opened Verdicts

  // The samples of one name, and those of them that carry tags.
  function All<S>(log: seq<Sample<S>>, n: string): seq<S> { Matching(log, AtLeast(Untagged(n))) }
  function Tagged<S>(log: seq<Sample<S>>, n: string): seq<S> { Matching(log, TaggedOf(n)) }

  // ----- What is merged -----

  function Twice<S(==), A>(kind: Kind<S, A>, all: seq<S>, tagged: seq<S>): Option<A> {
    if all == [] then None else Some(kind.merge(Fold(kind, all), Fold(kind, tagged)))
  }

  function TwiceReport(n: string, cl: seq<Sample<nat>>, rl: seq<Sample<bool>>, tl: seq<Sample<real>>, secs: real): Option<SummaryMetric> {
    Report(Twice(TREND, All(tl, n), Tagged(tl, n)), Twice(COUNTER, All(cl, n), Tagged(cl, n)),
           Twice(RATE, All(rl, n), Tagged(rl, n)), secs)
  }

  lemma FoundIsTwice<S, A(!new)>(c: Codec, kind: Kind<S, A>, log: seq<Sample<S>>, out: map<string, A>, n: string)
    requires Faithful(c) && Lawful(kind) && GoodLog(c, log) && IsDerived(c, kind, out, Stored(c, kind, log))
    requires c.good(Untagged(n))
    ensures Found(kind, Hits(c, out, AtLeast(Untagged(n)))) == Twice(kind, All(log, n), Tagged(log, n))
  {
    UntaggedSnapshotIsLog(c, kind, log, out, n);
    UntaggedFound(c, kind, log, out, n);
  }

  lemma UntaggedFound<S, A(!new)>(c: Codec, kind: Kind<S, A>, log: seq<Sample<S>>, out: map<string, A>, n: string)
    requires Faithful(c) && Lawful(kind) && GoodLog(c, log) && IsDerived(c, kind, out, Stored(c, kind, log))
    requires c.good(Untagged(n))
    ensures Hits(c, out, AtLeast(Untagged(n))) == map[] <==> All(log, n) == []
  {
    var m := Stored(c, kind, log);
    StoredIsCanonical(c, kind, log);
    GoodReadIsLog(c, kind, log, AtLeast(Untagged(n)));
    DerivedUntagged(c, kind, out, m, n);
    if n in out {
      UntaggedDecodes(c, n);
      assert n in Hits(c, out, AtLeast(Untagged(n)));
    } else {
      NothingDerived(c, kind, out, m, n);
    }
  }

  // A threshold on a bare name compares the statistic of its samples with the tagged
  // ones counted twice.
  lemma BareStatIsLog(c: Codec, quantile: Quantiles, d: Derived, gauges: seq<Gauge>,
                      cl: seq<Sample<nat>>, rl: seq<Sample<bool>>, tl: seq<Sample<real>>, key: string, stat: Stat)
    requires Faithful(c) && Reflects(c, d, cl, rl, tl)
    requires c.decode(key).Some? && c.decode(key).value.tags == map[]
    ensures var m := TwiceReport(c.decode(key).value.name, cl, rl, tl, d.secs);
      Resolved(c, quantile, key, stat, d, gauges)
        == if m.Some? then ReadStat(quantile, m.value, stat) else FirstGauge(c, key, gauges, stat)
  {
    var n := c.decode(key).value.name;
    assert c.decode(key).value == Untagged(n) && ReadsGood(c, key);
    KindsLawful();
    FoundIsTwice(c, TREND, tl, d.trends, n);
    FoundIsTwice(c, COUNTER, cl, d.counters, n);
    FoundIsTwice(c, RATE, rl, d.rates, n);
  }

  // That is: the value of the statistic on all samples followed by the tagged ones again.
  lemma BareStatMeans(c: Codec, quantile: Quantiles, d: Derived, gauges: seq<Gauge>,
                      cl: seq<Sample<nat>>, rl: seq<Sample<bool>>, tl: seq<Sample<real>>, key: string, stat: Stat)
    requires Faithful(c) && Reflects(c, d, cl, rl, tl)
    requires c.decode(key).Some? && c.decode(key).value.tags == map[]
    ensures var n := c.decode(key).value.name;
      All(tl, n) != [] || All(cl, n) != [] || All(rl, n) != [] ==>
        IsStat(quantile, Resolved(c, quantile, key, stat, d, gauges), stat,
               All(tl, n) + Tagged(tl, n), All(cl, n) + Tagged(cl, n), All(rl, n) + Tagged(rl, n), d.secs)
  {
    var n := c.decode(key).value.name;
    var ts, ns, bs := All(tl, n) + Tagged(tl, n), All(cl, n) + Tagged(cl, n), All(rl, n) + Tagged(rl, n);
    BareStatIsLog(c, quantile, d, gauges, cl, rl, tl, key, stat);
    TwiceIsLogged(n, cl, rl, tl, d.secs);
    ReportShows(ts, ns, bs, d.secs);
    if ts != [] || ns != [] || bs != [] {
      ShownStat(quantile, TwiceReport(n, cl, rl, tl, d.secs).value, stat, ts, ns, bs, d.secs);
    }
  }

  lemma TwiceIsLogged(n: string, cl: seq<Sample<nat>>, rl: seq<Sample<bool>>, tl: seq<Sample<real>>, secs: real)
    ensures TwiceReport(n, cl, rl, tl, secs)
         == Report(Logged(TREND, All(tl, n) + Tagged(tl, n)), Logged(COUNTER, All(cl, n) + Tagged(cl, n)),
                   Logged(RATE, All(rl, n) + Tagged(rl, n)), secs)
  {
    KindsLawful();
    TwiceIsOnce(TREND, tl, n);
    TwiceIsOnce(COUNTER, cl, n);
    TwiceIsOnce(RATE, rl, n);
  }

  lemma TwiceIsOnce<S, A(!new)>(kind: Kind<S, A>, log: seq<Sample<S>>, n: string)
    requires Lawful(kind)
    ensures Twice(kind, All(log, n), Tagged(log, n)) == Logged(kind, All(log, n) + Tagged(log, n))
  {
    NoneTagged(log, n);
    MergeIsConcatenation(kind, All(log, n), Tagged(log, n));
  }

  // ----- Percentiles by nearest rank -----

  // How many recorded values lie below `v`.
  function CountBelow(h: multiset<nat>, v: nat): nat {
    if v == 0 then 0 else CountBelow(h, v - 1) + h[v - 1]
  }

  function Share(p: real): real { if p < 0.0 then 0.0 else if p > 100.0 then 1.0 else p / 100.0 }

  // `v` is the recorded value at the rank of quantile `q`.
  ghost predicate IsQuantile(h: multiset<nat>, q: real, v: nat) {
    && v in h
    && (CountBelow(h, v) == 0 || CountBelow(h, v) as real < Rank(q, |h|))
    && Rank(q, |h|) <= CountBelow(h, v + 1) as real
  }

  function Rank(q: real, n: nat): real { q * n as real }

  ghost predicate RanksAt(quantile: Quantiles, h: multiset<nat>, p: real) {
    h != multiset{} ==> exists v: nat :: IsQuantile(h, Share(p), v) && quantile(h, p) == v as real / 1000.0
  }

  // The quantile of a histogram is the value at the nearest rank, in milliseconds.
  ghost predicate NearestRank(quantile: Quantiles) {
    forall h, p :: RanksAt(quantile, h, p)
  }

  lemma {:induction false} CountBelowGrows(h: multiset<nat>, v: nat, w: nat)
    requires v <= w
    ensures CountBelow(h, v) <= CountBelow(h, w)
    decreases w
  {
    if v < w { CountBelowGrows(h, v, w - 1); }
  }

  lemma QuantileUnique(h: multiset<nat>, q: real, v: nat, w: nat)
    requires IsQuantile(h, q, v) && IsQuantile(h, q, w)
    ensures v == w
  {
    if v + 1 <= w { CountBelowGrows(h, v + 1, w); }
    if w + 1 <= v { CountBelowGrows(h, w + 1, v); }
  }

  lemma {:induction false} CountBelowAdds(g: multiset<nat>, h: multiset<nat>, v: nat)
    ensures CountBelow(g + h, v) == CountBelow(g, v) + CountBelow(h, v)
  {
    if v > 0 { CountBelowAdds(g, h, v - 1); }
  }

  // Counting every value twice moves no quantile.
  lemma DoublingKeepsQuantile(h: multiset<nat>, q: real, v: nat)
    requires IsQuantile(h, q, v)
    ensures IsQuantile(h + h, q, v)
  {
    CountBelowAdds(h, h, v);
    CountBelowAdds(h, h, v + 1);
    assert |h + h| == 2 * |h|;
    RankDoubles(q, |h|);
  }

  lemma RankDoubles(q: real, n: nat)
    ensures Rank(q, 2 * n) == 2.0 * Rank(q, n)
  {
  }

  // ----- Every histogram has its quantiles -----

  lemma {:induction false} CountBelowOne(x: nat, v: nat)
    ensures CountBelow(multiset{x}, v) == if x < v then 1 else 0
  {
    if v > 0 { CountBelowOne(x, v - 1); }
  }

  // Some bound has every recorded value below it.
  lemma {:induction false} AllBelow(h: multiset<nat>) returns (v: nat)
    ensures CountBelow(h, v) == |h|
    decreases |h|
  {
    if h == multiset{} {
      v := 0;
    } else {
      var x :| x in h;
      var rest := h - multiset{x};
      var w := AllBelow(rest);
      v := if w > x then w else x + 1;
      assert h == rest + multiset{x};
      CountBelowAdds(rest, multiset{x}, v);
      CountBelowOne(x, v);
      CountBelowGrows(rest, w, v);
      CountBelowBounded(rest, v);
    }
  }

  lemma {:induction false} CountBelowBounded(h: multiset<nat>, v: nat)
    ensures CountBelow(h, v) <= |h|
    decreases |h|
  {
    if h == multiset{} {
      NoneBelow(v);
    } else {
      var x :| x in h;
      var rest := h - multiset{x};
      assert h == rest + multiset{x};
      CountBelowAdds(rest, multiset{x}, v);
      CountBelowOne(x, v);
      CountBelowBounded(rest, v);
    }
  }

  lemma {:induction false} NoneBelow(v: nat)
    ensures CountBelow(multiset{}, v) == 0
  {
    if v > 0 { NoneBelow(v - 1); }
  }

  // The value at a rank, searched downwards from a bound that is high enough.
  lemma {:induction false} FindRank(h: multiset<nat>, q: real, top: nat) returns (v: nat)
    requires CountBelow(h, top) >= 1 && Rank(q, |h|) <= CountBelow(h, top) as real
    ensures IsQuantile(h, q, v)
    decreases top
  {
    if CountBelow(h, top - 1) >= 1 && Rank(q, |h|) <= CountBelow(h, top - 1) as real {
      v := FindRank(h, q, top - 1);
    } else {
      v := top - 1;
    }
  }

  lemma QuantileExists(h: multiset<nat>, p: real) returns (v: nat)
    requires h != multiset{}
    ensures IsQuantile(h, Share(p), v)
  {
    var top := AllBelow(h);
    assert |h| >= 1;
    RankAtMost(Share(p), |h|);
    v := FindRank(h, Share(p), top);
  }

  // Inside 0 to 100 a percentile is its share; at the ends it is the least and the
  // greatest recorded value.
  lemma PercentileEnds(h: multiset<nat>, p: real, v: nat)
    requires IsQuantile(h, Share(p), v)
    ensures 0.0 <= p <= 100.0 ==> Share(p) * 100.0 == p
    ensures p <= 0.0 ==> forall w: nat :: w in h ==> v <= w
    ensures p >= 100.0 ==> forall w: nat :: w in h ==> w <= v
  {
    if p <= 0.0 { LeastHasNoneBelow(h, v); }
    if p >= 100.0 { GreatestHasAllBelow(h, v); }
  }

  lemma LeastHasNoneBelow(h: multiset<nat>, v: nat)
    requires IsQuantile(h, 0.0, v)
    ensures forall w: nat :: w in h ==> v <= w
  {
    assert Rank(0.0, |h|) == 0.0;
    forall w: nat | w in h ensures v <= w {
      if w < v { CountBelowGrows(h, w + 1, v); }
    }
  }

  lemma GreatestHasAllBelow(h: multiset<nat>, v: nat)
    requires IsQuantile(h, 1.0, v)
    ensures forall w: nat :: w in h ==> w <= v
  {
    assert Rank(1.0, |h|) == |h| as real;
    forall w: nat | w in h ensures w <= v {
      if v < w {
        CountBelowGrows(h, v + 1, w);
        CountBelowBounded(h, w + 1);
      }
    }
  }

  lemma SomeQuantile(h: multiset<nat>, p: real)
    requires h != multiset{}
    ensures exists v: nat :: IsQuantile(h, Share(p), v)
  {
    var v := QuantileExists(h, p);
  }

  lemma RankAtMost(q: real, n: nat)
    requires 0.0 <= q <= 1.0
    ensures Rank(q, n) <= n as real
  {
    assert (1.0 - q) * n as real >= 0.0;
  }

  ghost function ExactQuantile(h: multiset<nat>, p: real): real {
    if exists v: nat :: IsQuantile(h, Share(p), v) then
      var v: nat :| IsQuantile(h, Share(p), v);
      v as real / 1000.0
    else 0.0
  }

  // So there is a nearest-rank quantile.
  lemma ExactIsNearestRank()
    ensures NearestRank(ExactQuantile)
  {
    forall h, p ensures RanksAt(ExactQuantile, h, p) {
      if h != multiset{} { var v := QuantileExists(h, p); }
    }
  }

  // ----- Percentiles of a merged histogram -----

  // The live percentile of a histogram that holds something.
  ghost function LiveValue(h: multiset<nat>, p: real): (v: nat)
    requires h != multiset{}
    ensures IsQuantile(h, Share(p), v)
  {
    SomeQuantile(h, p);
    var v: nat :| IsQuantile(h, Share(p), v);
    v
  }

  // The rank of quantile `q` among both histograms falls on the values `v`: fewer values
  // of both lie below `v` than the two ranks together, and at least as many up to `v`.
  ghost predicate RankFallsOn(h: multiset<nat>, again: multiset<nat>, q: real, v: nat) {
    var below, upTo := CountBelow(h, v) + CountBelow(again, v), CountBelow(h, v + 1) + CountBelow(again, v + 1);
    var rank := Rank(q, |h|) + Rank(q, |again|);
    (below == 0 || (below as real) < rank) && rank <= upTo as real
  }

  lemma RankAdds(q: real, m: nat, n: nat)
    ensures Rank(q, m + n) == Rank(q, m) + Rank(q, n)
  {
  }

  lemma MergedQuantileIff(h: multiset<nat>, again: multiset<nat>, q: real, v: nat)
    requires v in h
    ensures IsQuantile(h + again, q, v) <==> RankFallsOn(h, again, q, v)
  {
    CountBelowAdds(h, again, v);
    CountBelowAdds(h, again, v + 1);
    assert |h + again| == |h| + |again|;
    RankAdds(q, |h|, |again|);
  }

  // The live percentile stays the percentile when `again` is counted once more.
  ghost predicate SameRank(h: multiset<nat>, again: multiset<nat>, p: real) {
    h == multiset{} || RankFallsOn(h, again, Share(p), LiveValue(h, p))
  }

  lemma PercentileAgreesIff(quantile: Quantiles, h: multiset<nat>, again: multiset<nat>, p: real)
    requires NearestRank(quantile) && (h == multiset{} ==> again == multiset{})
    ensures PercentileOf(quantile, h + again, p) == PercentileOf(quantile, h, p) <==> SameRank(h, again, p)
  {
    if h != multiset{} {
      var v := LiveValue(h, p);
      assert v in h + again;
      var w := QuantileValue(quantile, h, p);
      var x := QuantileValue(quantile, h + again, p);
      QuantileUnique(h, Share(p), v, w);
      MergedQuantileIff(h, again, Share(p), v);
      if IsQuantile(h + again, Share(p), v) { QuantileUnique(h + again, Share(p), v, x); }
    }
  }

  lemma QuantileValue(quantile: Quantiles, h: multiset<nat>, p: real) returns (v: nat)
    requires NearestRank(quantile) && h != multiset{}
    ensures IsQuantile(h, Share(p), v) && PercentileOf(quantile, h, p) == v as real / 1000.0
  {
    assert RanksAt(quantile, h, p);
    v :| IsQuantile(h, Share(p), v) && quantile(h, p) == v as real / 1000.0;
  }

  // If the tagged samples have the same percentile as all of them, it survives.
  lemma EqualPercentilesSurvive(h: multiset<nat>, again: multiset<nat>, p: real)
    requires h != multiset{} && again != multiset{} && LiveValue(h, p) == LiveValue(again, p)
    ensures SameRank(h, again, p)
  {
  }

  // ----- Statistic by statistic -----

  ghost predicate TrendAgrees(stat: Stat, all: seq<real>, tagged: seq<real>) {
    AgreesBy(stat, tagged == [], SameMean(all, tagged), Histogram(all), Histogram(tagged))
  }

  // By what decides: nothing tagged, equal means, or the ranks in the histograms.
  ghost predicate AgreesBy(stat: Stat, none: bool, means: bool, h: multiset<nat>, again: multiset<nat>) {
    match stat
    case Min => true
    case Max => true
    case Count => none
    case Med => SameRank(h, again, 50.0)
    case Percentile(p) => SameRank(h, again, p)
    case _ => means
  }

  ghost predicate SameMean(all: seq<real>, tagged: seq<real>) {
    Times(Sum(tagged), |all|) == Times(Sum(all), |tagged|)
  }

  ghost predicate CounterAgrees(stat: Stat, tagged: nat, secs: real) {
    tagged == 0 || (stat.PerSec? && secs <= 0.0)
  }

  ghost predicate RateAgrees(stat: Stat, all: Rate, tagged: Rate) {
    if stat.Count? then tagged.total == 0 else tagged.passes * all.total == all.passes * tagged.total
  }

  // The condition under which a bare name sees its live value: by the first kind that
  // has samples of the name.
  ghost predicate BareAgrees(stat: Stat, n: string, cl: seq<Sample<nat>>, rl: seq<Sample<bool>>, tl: seq<Sample<real>>, secs: real) {
    if All(tl, n) != [] then TrendAgrees(stat, All(tl, n), Tagged(tl, n))
    else if All(cl, n) != [] then CounterAgrees(stat, Fold(COUNTER, Tagged(cl, n)), secs)
    else RateAgrees(stat, Fold(RATE, All(rl, n)), Fold(RATE, Tagged(rl, n)))
  }

  lemma {:induction false} NoHistogram(xs: seq<real>)
    ensures Histogram(xs) == multiset{} <==> forall x :: x in xs ==> HistogramOf(x) == multiset{}
  {
    if xs != [] {
      NoHistogram(xs[..|xs| - 1]);
      assert xs == xs[..|xs| - 1] + [xs[|xs| - 1]];
      assert Histogram(xs) == multiset{} <==> Histogram(xs[..|xs| - 1]) == multiset{} && HistogramOf(xs[|xs| - 1]) == multiset{} by {
        EmptySum(Histogram(xs[..|xs| - 1]), HistogramOf(xs[|xs| - 1]));
      }
    }
  }

  lemma EmptySum(g: multiset<nat>, h: multiset<nat>)
    ensures g + h == multiset{} <==> g == multiset{} && h == multiset{}
  {
    assert |g + h| == |g| + |h|;
  }

  lemma TrendStatAgreesIff(quantile: Quantiles, stat: Stat, log: seq<Sample<real>>, n: string)
    requires NearestRank(quantile) && All(log, n) != []
    ensures var all, tagged := All(log, n), Tagged(log, n);
      TrendStat(quantile, Stats(MergeTrends(Fold(TREND, all), Fold(TREND, tagged))), stat) == TrendStat(quantile, Stats(Fold(TREND, all)), stat)
      <==> TrendAgrees(stat, all, tagged)
  {
    var all, tagged := All(log, n), Tagged(log, n);
    AgreementOf(all, tagged, log, n);
    HistogramsMerge(all, tagged);
    HistogramOfNone(all, tagged, log, n);
    StatAgreesIff(quantile, stat, Stats(MergeTrends(Fold(TREND, all), Fold(TREND, tagged))), Stats(Fold(TREND, all)),
                  tagged == [], SameMean(all, tagged), Histogram(all), Histogram(tagged));
  }

  lemma HistogramOfNone(all: seq<real>, tagged: seq<real>, log: seq<Sample<real>>, n: string)
    requires all == All(log, n) && tagged == Tagged(log, n)
    ensures Histogram(all) == multiset{} ==> Histogram(tagged) == multiset{}
  {
    NoHistogram(all);
    NoHistogram(tagged);
    TaggedAreAmongAll(log, n);
  }

  lemma StatAgreesIff(quantile: Quantiles, stat: Stat, merged: TrendStats, live: TrendStats,
                      none: bool, means: bool, h: multiset<nat>, again: multiset<nat>)
    requires NearestRank(quantile) && (h == multiset{} ==> again == multiset{})
    requires live.hist == h && merged.hist == h + again && merged.min == live.min && merged.max == live.max
    requires (merged.count == live.count <==> none) && (merged.avg == live.avg <==> means)
    ensures TrendStat(quantile, merged, stat) == TrendStat(quantile, live, stat) <==> AgreesBy(stat, none, means, h, again)
  {
    match stat
    case Med => PercentileAgreesIff(quantile, h, again, 50.0);
    case Percentile(p) => PercentileAgreesIff(quantile, h, again, p);
    case _ =>
  }

  lemma HistogramsMerge(all: seq<real>, tagged: seq<real>)
    requires all != []
    ensures Stats(Fold(TREND, all)).hist == Histogram(all)
    ensures Stats(MergeTrends(Fold(TREND, all), Fold(TREND, tagged))).hist == Histogram(all) + Histogram(tagged)
  {
    TrendMeaning(all);
    TrendMeaning(tagged);
    assert Histogram(all) + multiset{} == Histogram(all);
  }

  lemma CounterStatAgreesIff(stat: Stat, live: nat, tagged: nat, secs: real)
    ensures CounterStat(live + tagged, PerSecond(live + tagged, secs), stat) == CounterStat(live, PerSecond(live, secs), stat)
      <==> CounterAgrees(stat, tagged, secs)
  {
    PerSecondAdds(live, tagged, secs);
    PerSecondIsZero(tagged, secs);
  }

  lemma PerSecondIsZero(v: nat, secs: real)
    ensures PerSecond(v, secs) == 0.0 <==> v == 0 || secs <= 0.0
  {
    if secs > 0.0 { SameQuotient(v as real, secs, 0.0); }
  }

  lemma RateStatAgreesIff(stat: Stat, all: Rate, tagged: Rate)
    requires all.total == 0 ==> tagged == Rate(0, 0)
    ensures var merged := AddRates(all, tagged);
      RateStat(Ratio(merged), merged.total, stat) == RateStat(Ratio(all), all.total, stat) <==> RateAgrees(stat, all, tagged)
  {
    RatioAgreesIff(all, tagged);
  }

  // ----- The whole condition -----

  // A threshold on a bare name with samples compares the live value exactly if:
  // for a trend, always for its extrema, with no tagged sample for its count, with equal
  // averages for its average, with the live value at the merged rank for a percentile;
  // for a counter, with a tagged total of zero; for a rate, with the tagged samples
  // passing in the same proportion.
  lemma BareStatAgreesIff(c: Codec, quantile: Quantiles, d: Derived, gauges: seq<Gauge>,
                          cl: seq<Sample<nat>>, rl: seq<Sample<bool>>, tl: seq<Sample<real>>, key: string, stat: Stat)
    requires Faithful(c) && NearestRank(quantile) && Reflects(c, d, cl, rl, tl)
    requires c.decode(key).Some? && c.decode(key).value.tags == map[]
    ensures var n := c.decode(key).value.name; var live := LogReport(Untagged(n), cl, rl, tl, d.secs);
      live.Some? ==>
        (Resolved(c, quantile, key, stat, d, gauges) == ReadStat(quantile, live.value, stat) <==> BareAgrees(stat, n, cl, rl, tl, d.secs))
  {
    var n := c.decode(key).value.name;
    BareStatIsLog(c, quantile, d, gauges, cl, rl, tl, key, stat);
    ReportsAgreeIff(quantile, stat, n, cl, rl, tl, d.secs);
  }

  // The two reports have the same statistic exactly under the condition.
  ghost predicate ReportsAgree(quantile: Quantiles, stat: Stat, live: Option<SummaryMetric>, merged: Option<SummaryMetric>, agrees: bool) {
    && (live.Some? <==> merged.Some?)
    && (live.Some? ==> (ReadStat(quantile, merged.value, stat) == ReadStat(quantile, live.value, stat) <==> agrees))
  }

  lemma TrendReport(quantile: Quantiles, stat: Stat, live: Trend, merged: Trend, agrees: bool,
                    n: Option<nat>, m: Option<nat>, r: Option<Rate>, s: Option<Rate>, secs: real)
    requires TrendStat(quantile, Stats(merged), stat) == TrendStat(quantile, Stats(live), stat) <==> agrees
    ensures ReportsAgree(quantile, stat, Report(Some(live), n, r, secs), Report(Some(merged), m, s, secs), agrees)
  {
  }

  lemma CounterReport(quantile: Quantiles, stat: Stat, live: nat, tagged: nat, r: Option<Rate>, s: Option<Rate>, secs: real)
    ensures ReportsAgree(quantile, stat, Report(None, Some(live), r, secs), Report(None, Some(live + tagged), s, secs),
                         CounterAgrees(stat, tagged, secs))
  {
    CounterStatAgreesIff(stat, live, tagged, secs);
  }

  lemma RateReport(quantile: Quantiles, stat: Stat, live: Rate, tagged: Rate, secs: real)
    requires live.total > 0
    ensures ReportsAgree(quantile, stat, Report(None, None, Some(live), secs), Report(None, None, Some(AddRates(live, tagged)), secs),
                         RateAgrees(stat, live, tagged))
  {
    RateStatAgreesIff(stat, live, tagged);
  }

  lemma ReportsAgreeIff(quantile: Quantiles, stat: Stat, n: string,
                        cl: seq<Sample<nat>>, rl: seq<Sample<bool>>, tl: seq<Sample<real>>, secs: real)
    requires NearestRank(quantile)
    ensures ReportsAgree(quantile, stat, LogReport(Untagged(n), cl, rl, tl, secs), TwiceReport(n, cl, rl, tl, secs),
                         BareAgrees(stat, n, cl, rl, tl, secs))
  {
    if All(tl, n) != [] {
      TrendStatAgreesIff(quantile, stat, tl, n);
      TrendReport(quantile, stat, Fold(TREND, All(tl, n)), MergeTrends(Fold(TREND, All(tl, n)), Fold(TREND, Tagged(tl, n))),
                  TrendAgrees(stat, All(tl, n), Tagged(tl, n)),
                  Logged(COUNTER, All(cl, n)), Twice(COUNTER, All(cl, n), Tagged(cl, n)),
                  Logged(RATE, All(rl, n)), Twice(RATE, All(rl, n), Tagged(rl, n)), secs);
    } else if All(cl, n) != [] {
      CounterReport(quantile, stat, Fold(COUNTER, All(cl, n)), Fold(COUNTER, Tagged(cl, n)),
                    Logged(RATE, All(rl, n)), Twice(RATE, All(rl, n), Tagged(rl, n)), secs);
    } else if All(rl, n) != [] {
      RateTotal(All(rl, n));
      RateReport(quantile, stat, Fold(RATE, All(rl, n)), Fold(RATE, Tagged(rl, n)), secs);
    }
  }

  // With every sample of the name tagged, everything but a count is the live value.
  lemma AllTaggedAgrees(stat: Stat, n: string,
                        cl: seq<Sample<nat>>, rl: seq<Sample<bool>>, tl: seq<Sample<real>>, secs: real)
    requires !stat.Count? && All(tl, n) == Tagged(tl, n) && All(rl, n) == Tagged(rl, n)
    requires All(tl, n) == [] ==> All(cl, n) == []
    ensures BareAgrees(stat, n, cl, rl, tl, secs)
  {
    var h := Histogram(All(tl, n));
    if (stat.Med? || stat.Percentile?) && h != multiset{} {
      EqualPercentilesSurvive(h, h, if stat.Med? then 50.0 else stat.p);
    }
  }

  // One tagged pass beside one untagged failure: the live ratio is a half, the compared
  // one two thirds.
  lemma RatioReallyDiffers(c: Codec, quantile: Quantiles, d: Derived, gauges: seq<Gauge>, s: Selector)
    requires Faithful(c) && c.good(s) && s.tags != map[]
    requires Reflects(c, d, [], [Sample(s, true), Sample(Untagged(s.name), false)], [])
    ensures var rl := [Sample(s, true), Sample(Untagged(s.name), false)];
      && Ratio(Fold(RATE, All(rl, s.name))) == 1.0 / 2.0
      && Resolved(c, quantile, s.name, Value, d, gauges) == 2.0 / 3.0
  {
    var rl := [Sample(s, true), Sample(Untagged(s.name), false)];
    assert PrintsBack(c, s);
    UntaggedDecodes(c, s.name);
    TwoSamples(s);
    FoldTwo(All(rl, s.name));
    FoldOne(Tagged(rl, s.name));
    BareStatIsLog(c, quantile, d, gauges, [], rl, [], s.name, Value);
  }

  lemma TwoSamples(s: Selector)
    requires s.tags != map[]
    ensures var rl := [Sample(s, true), Sample(Untagged(s.name), false)];
      && All(rl, s.name) == [true, false] && Tagged(rl, s.name) == [true]
  {
    var x, y := Sample(s, true), Sample(Untagged(s.name), false);
    BothMatch(x, y, AtLeast(Untagged(s.name)));
    OneMatches(x, y, TaggedOf(s.name));
  }

  lemma BothMatch<S>(x: Sample<S>, y: Sample<S>, q: Query)
    requires q.Wants(x.at) && q.Wants(y.at)
    ensures Matching([x, y], q) == [x.value, y.value]
  {
    FirstMatches(x, q);
    assert [x, y] == [x] + [y];
    MatchSnoc([x], y, q);
  }

  lemma OneMatches<S>(x: Sample<S>, y: Sample<S>, q: Query)
    requires q.Wants(x.at) && !q.Wants(y.at)
    ensures Matching([x, y], q) == [x.value]
  {
    FirstMatches(x, q);
    assert [x, y] == [x] + [y];
    MatchSnoc([x], y, q);
  }

  lemma FirstMatches<S>(x: Sample<S>, q: Query)
    requires q.Wants(x.at)
    ensures Matching([x], q) == [x.value]
  {
    var none: seq<Sample<S>> := [];
    assert [x] == none + [x];
    MatchSnoc(none, x, q);
  }

  lemma FoldLast(xs: seq<bool>)
    requires xs != []
    ensures Fold(RATE, xs) == CountOutcome(Fold(RATE, xs[..|xs| - 1]), xs[|xs| - 1])
  {
    CountOutcomeMerges(Fold(RATE, xs[..|xs| - 1]), xs[|xs| - 1]);
  }

  lemma FoldOne(xs: seq<bool>)
    requires |xs| == 1 && xs[0]
    ensures Fold(RATE, xs) == Rate(1, 1)
  {
    var none := xs[..0];
    assert none == [] && Fold(RATE, none) == Rate(0, 0);
    FoldLast(xs);
  }

  lemma FoldTwo(xs: seq<bool>)
    requires |xs| == 2 && xs[0] && !xs[1]
    ensures Fold(RATE, xs) == Rate(1, 2)
  {
    var one := xs[..1];
    FoldOne(one);
    FoldLast(xs);
  }

  lemma MatchSnoc<S>(log: seq<Sample<S>>, x: Sample<S>, q: Query)
    ensures Matching(log + [x], q) == if q.Wants(x.at) then Matching(log, q) + [x.value] else Matching(log, q)
  {
    assert (log + [x])[..|log|] == log;
  }

  // ----- A percentile that differs -----

  // Three values at one second below a fourth at two: the 70th percentile is one second,
  // and two seconds once the fourth is counted again.
  lemma SeventiethMoves(h: multiset<nat>, again: multiset<nat>)
    requires h == multiset{1000} + multiset{1000} + multiset{1000} + multiset{2000} && again == multiset{2000}
    ensures IsQuantile(h, Share(70.0), 1000) && IsQuantile(h + again, Share(70.0), 2000)
  {
    CountFour(1000, 2000, 1000);
    CountFour(1000, 2000, 1001);
    CountFour(1000, 2000, 2000);
    CountFour(1000, 2000, 2001);
    CountBelowAdds(h, again, 2000);
    CountBelowAdds(h, again, 2001);
    CountBelowOne(2000, 2000);
    CountBelowOne(2000, 2001);
    assert |h| == 4 && |h + again| == 5;
  }

  lemma CountFour(x: nat, y: nat, v: nat)
    ensures CountBelow(multiset{x} + multiset{x} + multiset{x} + multiset{y}, v)
         == 3 * (if x < v then 1 else 0) + if y < v then 1 else 0
  {
    var one := multiset{x};
    CountBelowOne(x, v);
    CountBelowOne(y, v);
    CountBelowAdds(one, one, v);
    CountBelowAdds(one + one, one, v);
    CountBelowAdds(one + one + one, multiset{y}, v);
  }

  // The histogram of a list is that of its front and of its last sample.
  lemma HistogramSnoc(xs: seq<real>, y: real)
    ensures Histogram(xs + [y]) == Histogram(xs) + HistogramOf(y)
  {
    assert (xs + [y])[..|xs|] == xs;
  }

  lemma HistogramOfFour(x: real, y: real)
    ensures Histogram([x, x, x, y]) == HistogramOf(x) + HistogramOf(x) + HistogramOf(x) + HistogramOf(y)
    ensures Histogram([y]) == HistogramOf(y)
  {
    var none: seq<real> := [];
    var one, two, three := none + [x], none + [x] + [x], none + [x] + [x] + [x];
    HistogramSnoc(none, x);
    HistogramSnoc(one, x);
    HistogramSnoc(two, x);
    HistogramSnoc(three, y);
    HistogramSnoc(none, y);
    assert three + [y] == [x, x, x, y] && none + [y] == [y];
    assert multiset{} + HistogramOf(x) == HistogramOf(x) && multiset{} + HistogramOf(y) == HistogramOf(y);
  }

  // Three untagged samples of a second and a tagged one of two: the live 70th percentile
  // is one second, the compared one two.
  lemma PercentileReallyDiffers(quantile: Quantiles, all: seq<real>, tagged: seq<real>)
    requires NearestRank(quantile) && all == [1.0, 1.0, 1.0, 2.0] && tagged == [2.0]
    ensures PercentileOf(quantile, Histogram(all), 70.0) == 1.0
    ensures PercentileOf(quantile, Histogram(all) + Histogram(tagged), 70.0) == 2.0
  {
    HistogramOfFour(1.0, 2.0);
    MicrosOfSeconds();
    var h, again := Histogram(all), Histogram(tagged);
    SeventiethMoves(h, again);
    var v := QuantileValue(quantile, h, 70.0);
    var w := QuantileValue(quantile, h + again, 70.0);
    QuantileUnique(h, Share(70.0), v, 1000);
    QuantileUnique(h + again, Share(70.0), w, 2000);
  }

  lemma BarePercentileDiffers(c: Codec, quantile: Quantiles, d: Derived, gauges: seq<Gauge>,
                              cl: seq<Sample<nat>>, rl: seq<Sample<bool>>, tl: seq<Sample<real>>, key: string)
    requires Faithful(c) && NearestRank(quantile) && Reflects(c, d, cl, rl, tl)
    requires c.decode(key).Some? && c.decode(key).value.tags == map[]
    requires var n := c.decode(key).value.name; All(tl, n) == [1.0, 1.0, 1.0, 2.0] && Tagged(tl, n) == [2.0]
    ensures TrendStat(quantile, Stats(Fold(TREND, All(tl, c.decode(key).value.name))), Percentile(70.0)) == 1.0
    ensures Resolved(c, quantile, key, Percentile(70.0), d, gauges) == 2.0
  {
    var n := c.decode(key).value.name;
    PercentileReallyDiffers(quantile, All(tl, n), Tagged(tl, n));
    HistogramsMerge(All(tl, n), Tagged(tl, n));
    BareStatIsLog(c, quantile, d, gauges, cl, rl, tl, key, Percentile(70.0));
  }

  lemma MicrosOfSeconds()
    ensures HistogramOf(1.0) == multiset{1000} && HistogramOf(2.0) == multiset{2000}
  {
    assert Micros(1.0) == 1000 && Micros(2.0) == 2000;
  }
}
