# A verified model of the load engine's hard core

This project models three connected parts of the k6-compatible load-testing engine in
Dafny and proves what they promise over every run or every input.

**The executor pool as concurrent protocols.** `Arrival.dfy` is the arrival-rate
coordinator with its idle queue, idle channel and per-VU dispatch channels;
`SharedIterations.dfy` the budget claimed by compare-and-swap; `RampingVus.dfy` the watch
channel with its stop token. Each is a step relation in which coordinator, VU, death, stop
and shutdown steps interleave freely; invariants are proved inductive and the results are
about every state of every run. `Pacing.dfy` is the coordinator's own loop and the arrival
curve it follows, `Paced.dfy` the protocol driven by that curve.

**The tagged metric engine.** `Text.dfy`, `Selector.dfy`, `Accepted.dfy` and
`CanonicalKey.dfy` are the selector syntax, its printer, the accepted language and the fast
key builder. `Aggregate.dfy`, `Store.dfy` and
`Registry.dfy` are counters, rates and trends keyed by full tag sets. The specification is
a plain log of samples: live reads, snapshots, threshold merges (`Threshold.dfy`), the
summary (`Summary.dfy`) and the values thresholds compare (`Verdict.dfy`, `BareVerdict.dfy`)
are all related to folds over that log. `Ticks.dfy` is the
threshold evaluator over time, `Groups.dfy` the tree of groups and checks.

**Control and bounded resources.** `Control.dfy` (pause, resume, stop against a waiting
starter), `Lifecycle.dfy` (setup data against shutdown), `Console.dfy` with `Utf8.dfy` (the
bounded console queue), `Backpressure.dfy` (the in-flight limit). `Duration.dfy` is the
duration parser. `Counting.dfy` holds what the protocols share.

Reading notes:

- Code that updates state in place is a class or a method with loops, proved against a
  function; code that runs concurrently is a state machine over its atomic steps. A
  critical section is several steps wherever another party can act in between.
- The metric theory is stated for any *faithful* way of writing selectors as keys
  (`Stores.Faithful`); `Stores.SelectorsFaithful` shows that the engine's syntax is one.
  The duration theory is stated for any *regular* token reader; `Durations.K6IsRegular`
  shows that the engine's is one.
- Hash-map iteration is modelled as taking any remaining key, so results hold for every
  order. A histogram is the multiset of recorded microsecond values. Floating-point numbers
  are reals.

Some promises turn out not to hold as stated; each has its failing inputs and its exact
condition:

- A selector does not survive print and parse unless it is well formed
  (`Selectors.CommaBreaksRoundTrip`, `Selectors.RoundTrip`).
- A threshold on a bare metric name compares its samples with the tagged ones counted
  twice, because the snapshot lists the untagged aggregate beside its tagged sources and
  the merge takes both (`BareVerdicts.BareStatIsLog`). Counts differ from the live value as
  soon as a tagged sample counts (`Thresholds.OneTaggedSampleCountsTwice`); a ratio or an
  average differs exactly if the tagged samples have another mean than all samples
  (`BareVerdicts.RatioReallyDiffers`); a percentile by the counts around it
  (`BareVerdicts.BarePercentileDiffers`); extrema never differ
  (`BareVerdicts.BareStatAgreesIff`).
- The lanes of a run do not always sum to its arrivals or its budget. A VU stopped before
  its first iteration still evaluates the script's module scope, and a hard stop that finds
  it waiting there counts an interruption for no arrival and no claim
  (`Arrival.StrayHappens`, `SharedIterations.StrayExceedsBudget`); once the senders are
  dropped that can happen exactly while such a VU is left (`Arrival.StrayFollowsIff`). Without
  VUs a budget is reported nowhere (`SharedIterations.NoVusReportNothing`). The pools for
  which the lanes of every finished run sum to the budget are exactly one VU with a budget,
  and no VU with none (`SharedIterations.BudgetIsMetIff`).
- The dropped lane of shared-iterations is not the iterations that never started: it also
  holds those that died with their VU (`SharedIterations.DeadIterationIsDropped`,
  `SharedIterations.UnclaimedIsReportedIff`).
- Check paths do not identify checks (`Groups.SeparatorInNameCollides`,
  `Groups.ColonInNameCollides`, `Groups.SharedCheckPath`, `Groups.CollidesIffNotPlain`).
- A duration in nanoseconds does not always parse back to itself
  (`Durations.OddNanosecondsAreLost`, `Durations.NanosecondsRoundTrip`).
- The console can strand a record that is neither written nor counted
  (`Console.StrandingRun`, `Console.StrandsIffSending`).
- The setup data can change after the lifecycle was closed by timeout
  (`Lifecycles.LateStoreHappens`, `Lifecycles.TimeoutFreezesIff`).

One comment in the code says more than it does, and one constant has an edge. The
snapshot's comment lists one projection per tag among the derived entries;
`derive_targets` emits only the entry itself and the untagged aggregate, and so does the
model. The ramp controller's starting sentinel equals a possible count, so a first count of
2^32 - 1 is never broadcast (`RampingVus.ChannelFollowsSchedule`,
`RampingVus.SentinelIsNotBroadcast`).

## Model

| member | source | states |
|---|---|---|
| `Selectors.ParseSelector` | crates/k6-core/src/selector.rs:102-205 | the parsing loop with its early returns computes the parse function on every text, error cases included |
| `Selectors.ParseIsWellFormed` | crates/k6-core/src/selector.rs:102-205 | whatever parses has a trimmed, non-empty, unreserved name and keys, and comma-free values |
| `Selectors.RenderingParses` | crates/k6-core/src/selector.rs:102-205 | every rendering of a selector, with any white space around its pieces and its tags in any order, parses to that selector |
| `Selectors.UntaggedParses` | crates/k6-core/src/selector.rs:102-130 | a bare name with any surrounding white space parses to the untagged selector |
| `Selectors.BareNameIsRead` | crates/k6-core/src/selector.rs:76-130 | a bare name is refused for its braces, else for a colon or a comma, and for nothing else |
| `Text.SpacesAreWhiteSpace` | crates/k6-core/src/selector.rs:103-105 | what is trimmed are the code points of the Unicode White_Space property |
| `AcceptedTexts.AcceptedIsWritten` | crates/k6-core/src/selector.rs:102-205 | every text that parses is a bare name, a name with blank braces, or a rendering of its result |
| `AcceptedTexts.AcceptedIff` | crates/k6-core/src/selector.rs:102-205 | the accepted language: a text parses to a selector exactly if it is one of its spellings |
| `Selectors.CanonicalParses` | crates/k6-core/src/selector.rs:211-217 | parsing the canonical form of a well-formed selector gives it back |
| `Selectors.RoundTrip` | crates/k6-core/src/selector.rs:102-217 | print and parse undo each other exactly for the well-formed selectors |
| `Selectors.CanonicalIdempotent` | crates/k6-core/src/selector.rs:211-217 | canonicalising a parsed selector and parsing again changes nothing |
| `Selectors.CanonicalInjective` | crates/k6-core/src/selector.rs:211-217 | two well-formed selectors with one canonical form are equal |
| `Selectors.CommaBreaksRoundTrip` | crates/k6-core/src/selector.rs:211-217 | a comma in a tag value makes the printed selector parse as a different one: a whole family of inputs that do not round-trip |
| `CanonicalKeys.StableSortCorrect` | crates/k6-core/src/metrics.rs:226-268 | the stable sort orders the keys and keeps the tag map, so the pair that wins a duplicated key is the same |
| `Text.BelowMeans` | crates/k6-core/src/metrics.rs:226-240 | keys are ordered by the first character that differs, the smaller first, a proper prefix first |
| `CanonicalKeys.KeptIsCanonical` | crates/k6-core/src/metrics.rs:226-268 | keeping the last pair of each run of equal keys lists the tag map in key order |
| `CanonicalKeys.TagSuffix` | crates/k6-core/src/metrics.rs:226-268 | the fast suffix loop writes, for every tag list with duplicates anywhere, the tag part that the selector printer writes for the last-wins map |
| `CanonicalKeys.CanonicalKey` | crates/k6-core/src/metrics.rs:270-280 | the fast storage key is the canonical form of the selector built by insertion |
| `CanonicalKeys.SplitForSink` | crates/k6-core/src/metrics.rs:197-214 | the splitting loop computes the split function, short bodies, pairs without a colon and the panic included |
| `CanonicalKeys.SinkPanicsIff` | crates/k6-core/src/metrics.rs:197-214 | the splitter panics exactly on a braced key whose last character takes several bytes |
| `CanonicalKeys.SinkPanicsInsideACharacter` | crates/k6-core/src/metrics.rs:203-208 | that is where one byte before the end lies inside a character of the key |
| `CanonicalKeys.SinkRecovers` | crates/k6-core/src/metrics.rs:197-214 | the linear scan recovers name and tags from every canonical key without separators in the wrong place |
| `CanonicalKeys.SinkAgreesWithParser` | crates/k6-core/src/metrics.rs:197-214 | on canonical keys the scan and the full parser give the same name and tags |
| `Aggregates.KindsLawful` | crates/k6-core/src/metrics.rs:302-345 | counter, rate and trend merges are associative and commutative with a neutral value |
| `Aggregates.RecordMerges` | crates/k6-core/src/metrics.rs:453-526 | recording one value is merging in a one-sample trend |
| `Aggregates.MergeIsConcatenation` | crates/k6-core/src/metrics.rs:513-526 | merging two stored values equals recording both sample lists into one |
| `Aggregates.TrendMeaning` | crates/k6-core/src/metrics.rs:453-475 | a trend holds the number, the sum, the least and greatest element and the histogram of the samples recorded into it |
| `Aggregates.CounterIsSum` | crates/k6-core/src/metrics.rs:302-312 | a counter holds the sum of what was added |
| `Aggregates.RateIsCounts` | crates/k6-core/src/metrics.rs:336-345 | a rate holds how many outcomes passed, and how many there were |
| `Aggregates.MicrosMeans` | crates/k6-core/src/metrics.rs:470-473 | milliseconds are cut down to whole microseconds, negative ones to zero |
| `Aggregates.HistogramMeans` | crates/k6-core/src/metrics.rs:470-473 | a sample is recorded as its microseconds if these lie between one and the trackable limit |
| `Aggregates.TotalTake` | crates/k6-core/src/metrics.rs:1037-1071 | a merge over a map does not depend on which key is taken first |
| `Aggregates.TotalPut` | crates/k6-core/src/metrics.rs:1037-1071 | merging a value into any entry adds it once to the total |
| `Stores.SelectorsFaithful` | crates/k6-core/src/metrics.rs:175-190 | the selector syntax is a faithful key codec: keys of good selectors read back, and only tagged ones contain a brace |
| `Stores.StoredIsCanonical` | crates/k6-core/src/metrics.rs:672-684 | after any history of well-formed writes every stored key is canonical |
| `Stores.ReadIsLog` | crates/k6-core/src/metrics.rs:672-845 | after any history of writes, well formed or not, the entries under any choice of keys merge exactly the samples logged under those keys |
| `Stores.UnderIsMatching` | crates/k6-core/src/metrics.rs:179-190 | after well-formed writes the samples under the keys a query reads are the samples of its name with at least its tags |
| `Stores.IncludesIff` | crates/k6-core/src/metrics.rs:179-190 | a sample answers a query exactly if it has the name and the query's tags change nothing in its own |
| `Stores.GoodReadIsLog` | crates/k6-core/src/metrics.rs:179-190 | for well-formed writes a read is the fold over exactly the samples asked for, and finds nothing iff there are none |
| `Stores.UnparseableReadsNothing` | crates/k6-core/src/metrics.rs:179-190 | a query text that does not parse reads nothing from a canonical store |
| `Stores.DeriveOne` | crates/k6-core/src/metrics.rs:1037-1047 | one stored value is merged into each of its targets |
| `Stores.Derive` | crates/k6-core/src/metrics.rs:1037-1071 | in any iteration order every snapshot entry is the total of the stored entries that map to it, each once |
| `Stores.DerivedIsUnique` | crates/k6-core/src/metrics.rs:1037-1071 | two derivations of one store, in whatever iteration orders, give the same entries |
| `Stores.DerivedTagged` | crates/k6-core/src/metrics.rs:1024-1036 | a tagged snapshot entry is the stored one |
| `Stores.DerivedUntagged` | crates/k6-core/src/metrics.rs:1024-1036 | the untagged snapshot entry is the total over every stored entry of its name |
| `Stores.TaggedHitsAgree` | crates/k6-core/src/metrics.rs:1024-1071 | for a selector with tags a snapshot holds exactly the entries a live read merges |
| `Stores.UntaggedMergeCountsTwice` | crates/k6-core/src/thresholds.rs:262-273 | merging a snapshot for a bare name gives the live total merged once more with its tagged entries |
| `Stores.DerivedReadsAgree` | crates/k6-core/src/metrics.rs:1024-1071 | whatever keys a store holds, a query with tags merges the same from the store and from what is derived from it |
| `Stores.TaggedSnapshotIsLog` | crates/k6-core/src/thresholds.rs:262-273 | after any writes, well formed or not, the snapshot merge for a tagged selector is the fold over the samples under the keys it reads, and finds nothing iff there are none |
| `Stores.UntaggedSnapshotIsLog` | crates/k6-core/src/metrics.rs:1024-1071 | for a bare name the derived entry is the fold over the log, and the snapshot merge that fold plus the tagged samples again |
| `Registry.TrendMetric.Record` | crates/k6-core/src/metrics.rs:453-475 | updating the fields in place records one value |
| `Registry.TrendMetric.Merge` | crates/k6-core/src/metrics.rs:513-526 | updating the fields in place merges another trend, with no effect if it is empty |
| `Registry.MergeSelected` | crates/k6-core/src/metrics.rs:714-723 | a live read in any iteration order merges the matching entries and says whether there were any |
| `Registry.LiveReadIsLog` | crates/k6-core/src/metrics.rs:714-845 | a live read by any query text, after any writes, is the fold over the samples logged under the answering keys; after well-formed writes those are the samples asked for |
| `Registry.WriteReads` | crates/k6-core/src/metrics.rs:179-190 | one more write grows a read by its sample exactly if it has the query's name and each of its pairs, and leaves it unchanged otherwise |
| `Registry.OtherWritesAreNotRead` | crates/k6-core/src/metrics.rs:179-190 | a write under another name, without a queried key, or with another value under it is not read |
| `Registry.StatsDescribe` | crates/k6-core/src/metrics.rs:476-503 | trend statistics: the number, the least and greatest, and the mean of the samples |
| `Registry.PerSecondMeans` | crates/k6-core/src/metrics.rs:947-957 | the reported rate times the length of the run is the count |
| `Registry.MetricsRegistry.CounterAddTagged` | crates/k6-core/src/metrics.rs:680-712 | a tagged counter write keeps the store equal to the log with the sample appended |
| `Registry.MetricsRegistry.RateAddTagged` | crates/k6-core/src/metrics.rs:757-787 | a tagged rate write keeps the store equal to the log with the sample appended |
| `Registry.MetricsRegistry.TrendAddTagged` | crates/k6-core/src/metrics.rs:809-829 | a tagged trend write keeps the store equal to the log with the sample appended |
| `Registry.MetricsRegistry.CounterGet` | crates/k6-core/src/metrics.rs:714-723 | the counter read is the sum of the samples logged under the answering keys, whatever was written; after well-formed writes of exactly those with the name and at least the tags |
| `Registry.MetricsRegistry.RateGet` | crates/k6-core/src/metrics.rs:789-807 | passes, total and ratio over exactly those samples |
| `Registry.MetricsRegistry.TrendStatsOf` | crates/k6-core/src/metrics.rs:831-845 | the statistics of exactly those samples, or nothing when there are none |
| `Registry.MetricsRegistry.TakeSnapshot` | crates/k6-core/src/metrics.rs:920-1010 | snapshot rows report the derived entries of each kind |
| `Thresholds.MergeRows` | crates/k6-core/src/thresholds.rs:302-395 | the merge loop, in any order of rows, ends with running sums of the total over the matching entries |
| `Thresholds.MergeCounterRows` | crates/k6-core/src/thresholds.rs:352-369 | the merged counter and its per-second rate are those of the total of the matching entries |
| `Thresholds.MergeRateRows` | crates/k6-core/src/thresholds.rs:371-395 | merged passes, total and ratio are those of the total of the matching entries |
| `Thresholds.MergeTrendRows` | crates/k6-core/src/thresholds.rs:302-350 | count, average, extrema and histogram merged from rows are those of the merged trends |
| `Thresholds.StoredSampled` | crates/k6-core/src/metrics.rs:809-829 | no stored trend is ever empty |
| `Thresholds.DerivedSampled` | crates/k6-core/src/metrics.rs:1049-1059 | no snapshot trend is ever empty |
| `Thresholds.TaggedThresholdIsLive` | crates/k6-core/src/thresholds.rs:262-395 | for a threshold key with tags the engine merges from the snapshot exactly what a live read of the key returns, after any writes |
| `Thresholds.UntaggedCounterAgrees` | crates/k6-core/src/thresholds.rs:262-273 | for a bare name the merged counter is the live value plus the tagged total, so they agree iff that total is zero |
| `Thresholds.UntaggedRateAgrees` | crates/k6-core/src/thresholds.rs:371-395 | for a bare name the merged rate is live plus tagged counts; the counts agree iff no sample carried tags, the ratio iff the tagged samples pass in the same proportion |
| `Thresholds.UntaggedTrendAgrees` | crates/k6-core/src/thresholds.rs:302-350 | for a bare name the trend and its count agree iff no sample carried tags, its average iff the tagged samples have the same average, its extrema always |
| `Thresholds.OneTaggedSampleCountsTwice` | crates/k6-core/src/thresholds.rs:262-273 | a log of one tagged sample on which the bare name is merged to twice its live value |
| `Thresholds.LookupAddsNothing` | crates/k6-core/src/thresholds.rs:244-256 | for a key that parses, the name lookup finds nothing the subset merge had not found |
| `Summaries.SynthesizeSubsetMetric` | crates/k6-core/src/summary.rs:275-419 | the synthesised sub-metric is the merged trend, else counter, else rate of the matching entries |
| `Summaries.BuildMetrics` | crates/k6-core/src/summary.rs:110-253 | the table is the filtered counter, gauge, rate and trend rows, later kinds over earlier, with every targeted sub-metric written over them |
| `Summaries.BareNameInTable` | crates/k6-core/src/summary.rs:157-253 | a bare name shows its trend, else its rate, else (with no gauge of the name) its counter, whatever is targeted |
| `Summaries.TargetedAre` | crates/k6-core/src/summary.rs:119-141 | every tagged threshold key and the always-tracked sub-metric are targeted, and only tagged selectors are |
| `Summaries.OverlayHolds` | crates/k6-core/src/summary.rs:239-253 | every targeted sub-metric with data ends in the table with its merged value, whatever is written after it |
| `Summaries.OverlayKeeps` | crates/k6-core/src/summary.rs:239-253 | bare names keep their pass-through row and no other tagged entry is added |
| `Summaries.OnlyTargetedAreShown` | crates/k6-core/src/summary.rs:119-253 | with thresholds given every tagged entry of the table was asked for |
| `Summaries.SubMetricIsLog` | crates/k6-core/src/summary.rs:275-419 | for a tagged selector the synthesised entry is the fold over the matching log |
| `Summaries.TableReportsLog` | crates/k6-core/src/summary.rs:110-253 | every tagged threshold key shows in the table what was logged under its tags |
| `Summaries.TableShowsSamples` | crates/k6-core/src/summary.rs:110-253 | every tagged threshold key with samples shows, in the table, their number, extrema, mean, sum, and passes and failures |
| `Summaries.PassThroughIsLog` | crates/k6-core/src/summary.rs:157-237 | for a bare name the pass-through rows are the folds over the log, each sample counted once |
| `Summaries.FailsAreFailures` | crates/k6-core/src/summary.rs:193-211 | total minus passes is the number of failed samples, so the subtraction never underflows |
| `Verdicts.FindGauge` | crates/k6-core/src/thresholds.rs:528-541 | the gauge lookup reads the first gauge with a matching name, or zero |
| `Verdicts.Lookup` | crates/k6-core/src/thresholds.rs:462-466 | the name lookup returns a row under a matching name, or nothing when none matches |
| `Verdicts.NothingMoreIsFound` | crates/k6-core/src/thresholds.rs:462-524 | for a key that parses the three name lookups behind the merges never find anything |
| `Verdicts.MergeAll` | crates/k6-core/src/thresholds.rs:397-410 | the three eager merges of a key are the trend, counter and rate of its sub-metric, and nothing for a key that does not parse |
| `Verdicts.ResolveStat` | crates/k6-core/src/thresholds.rs:397-544 | the value compared is the statistic of the merged trend, else counter, else rate, of the literally stored entry if the key does not parse, else of a gauge |
| `Verdicts.TaggedStatIsLog` | crates/k6-core/src/thresholds.rs:397-460 | a threshold on a tagged key compares the statistic of exactly the samples logged under at least its tags |
| `Verdicts.TaggedStatMeans` | crates/k6-core/src/thresholds.rs:397-460 | for each statistic, what a threshold on a tagged key compares is: the least, greatest, number, mean or percentile of the samples, the sum or sum per second of the counts, the share of the outcomes that passed |
| `Verdicts.GaugeMeans` | crates/k6-core/src/thresholds.rs:528-544 | a gauge answers with its own value, least and greatest, and zero stands for no gauge |
| `Verdicts.ThresholdSeesTheSummary` | crates/k6-core/src/thresholds.rs:397-460 | a threshold on a tagged key compares the number the summary shows under the canonical form of the key |
| `BareVerdicts.BareStatIsLog` | crates/k6-core/src/thresholds.rs:397-460 | a threshold on a bare name compares the statistic of its samples with the tagged ones counted twice |
| `BareVerdicts.BareStatMeans` | crates/k6-core/src/thresholds.rs:397-460 | for each statistic, the same of all samples followed by the tagged ones again |
| `BareVerdicts.PercentileAgreesIff` | crates/k6-core/src/thresholds.rs:423-443 | a nearest-rank percentile is unchanged by merging exactly if the counts of both histograms below and up to the live value enclose the sum of their ranks |
| `BareVerdicts.EqualPercentilesSurvive` | crates/k6-core/src/thresholds.rs:423-443 | if the tagged samples have the same percentile as all of them, it survives merging |
| `BareVerdicts.DoublingKeepsQuantile` | crates/k6-core/src/thresholds.rs:423-443 | counting every recorded value twice moves no quantile |
| `BareVerdicts.ExactIsNearestRank` | crates/k6-core/src/metrics.rs:480-489 | every histogram has a value at the rank of every percentile |
| `BareVerdicts.PercentileEnds` | crates/k6-core/src/metrics.rs:535-545 | percentiles are clamped: at or below 0 the least recorded value, at or above 100 the greatest |
| `BareVerdicts.BareStatAgreesIff` | crates/k6-core/src/thresholds.rs:397-460 | statistic by statistic, exactly when a threshold on a bare name compares the live value: extrema always, counts with nothing tagged, averages and ratios with tagged samples of the same mean, percentiles by the counts around the live value |
| `BareVerdicts.AllTaggedAgrees` | crates/k6-core/src/thresholds.rs:397-460 | with every sample of the name tagged all statistics but counts and counter totals are the live ones |
| `BareVerdicts.RatioReallyDiffers` | crates/k6-core/src/thresholds.rs:371-395 | one tagged pass beside one untagged failure: two thirds is compared where the live ratio is a half |
| `BareVerdicts.BarePercentileDiffers` | crates/k6-core/src/thresholds.rs:423-443 | three untagged samples of one unit and a tagged one of two: the compared 70th percentile is two where the live one is one |
| `Ticks.SharedKey` | crates/k6-core/src/thresholds.rs:210-212 | exactly which metric and expression pairs share a state key |
| `Ticks.PlainMetricsKeepApart` | crates/k6-core/src/thresholds.rs:210-212 | configured thresholds on such metrics never share a state |
| `Ticks.PlainKeysDiffer` | crates/k6-core/src/thresholds.rs:210-212 | state keys tell apart all metrics free of a double colon that do not end in a colon |
| `Ticks.Evaluator.UpdateStates` | crates/k6-core/src/thresholds.rs:156-208 | the two loops update every state, then abort iff some abort-on-fail threshold is overdue |
| `Ticks.Evaluator.Evaluate` | crates/k6-core/src/thresholds.rs:156-208 | over the ticks of a whole run, a tick aborts iff some abort-on-fail threshold has failed without a break for at least its delay |
| `Ticks.ObservedAt` | crates/k6-core/src/thresholds.rs:156-208 | each configured pair is observed once per tick, whatever its position and repetitions |
| `Ticks.OrderIsIrrelevant` | crates/k6-core/src/thresholds.rs:156-208 | two listings of the same thresholds leave the same states |
| `Ticks.FailingSinceIsStreakStart` | crates/k6-core/src/thresholds.rs:156-208 | over any run of ticks failing-since is the time of the first tick of the current unbroken failing streak |
| `Ticks.AbortIffStreakOutlastsDelay` | crates/k6-core/src/thresholds.rs:156-208 | a tick aborts iff the streak of some abort-on-fail threshold has lasted at least its delay |
| `Groups.SegmentsAreGood` | crates/k6-core/src/metrics.rs:162-167 | splitting a group path gives pieces that are not empty and hold no separator |
| `Groups.PathSplitsBack` | crates/k6-core/src/metrics.rs:97-167 | the path built for an address splits back to that address |
| `Groups.NavigateVisits` | crates/k6-core/src/metrics.rs:97-112 | a walk creates missing nodes on the way, acts on the last one and touches nothing else |
| `Groups.NodesStoreTheirPath` | crates/k6-core/src/metrics.rs:97-112 | in every reachable tree a node stores the path of its address |
| `Groups.NodesAreNamed` | crates/k6-core/src/metrics.rs:84-112 | in every reachable tree a node is named by the last piece of its address |
| `Groups.NodePathsAreAddresses` | crates/k6-core/src/metrics.rs:97-167 | stored paths split back to addresses, so distinct nodes have distinct paths |
| `Groups.ChecksAreTallied` | crates/k6-core/src/metrics.rs:855-898 | reading a check returns exactly the counts recorded under the same split path |
| `Groups.TreeTotalIsOutcomes` | crates/k6-core/src/metrics.rs:855-870 | the passes and evaluations over the whole tree are those of the recorded outcomes |
| `Groups.CheckRecorder.RecordCheck` | crates/k6-core/src/metrics.rs:1124-1127 | recording a check appends one call to the history and keeps tree and aggregate rate views of it |
| `Groups.CheckRecorder.RegisterGroup` | crates/k6-core/src/metrics.rs:899-909 | registering a group appends one call that counts nothing and keeps both views; the root needs no walk |
| `Groups.CheckRecorder.SummaryTree` | crates/k6-core/src/summary.rs:74-100 | the converted tree of the recorder has the aggregate rate as its sums |
| `Groups.CheckRecorder.CheckGet` | crates/k6-core/src/metrics.rs:871-898 | the loop down the tree returns the tally of the recorded calls with the same split path and name |
| `Groups.CountKeepsConsistent` | crates/k6-core/src/metrics.rs:1124-1127 | every recorded call keeps tree and aggregate rate reflections of the same calls |
| `Groups.TreeMatchesAggregate` | crates/k6-core/src/metrics.rs:1124-1127 | with the recorder as sole writer the sums over the tree equal the aggregate rate, also after conversion |
| `Groups.ConversionKeepsAddresses` | crates/k6-core/src/summary.rs:74-100 | conversion to the summary tree commutes with looking up an address |
| `Groups.ConvertedTree` | crates/k6-core/src/summary.rs:74-100 | the converted tree has each group with its name and path, and each check with its name, path and recorded passes and failures |
| `Groups.ConversionKeepsTotals` | crates/k6-core/src/summary.rs:74-100 | conversion keeps every additive total |
| `Groups.ConvertedCheckPath` | crates/k6-core/src/summary.rs:74-100 | a converted check carries the path of its address and name |
| `Groups.SharedCheckPath` | crates/k6-core/src/summary.rs:74-100 | exactly when two checks, at any two reachable addresses, share a path |
| `Groups.PlainNamesKeepApart` | crates/k6-core/src/summary.rs:74-100 | checks whose names hold no separator and no leading colon have distinct paths, whatever their groups are called |
| `Groups.CollidesIffNotPlain` | crates/k6-core/src/summary.rs:74-100 | a name can be taken for a check of a deeper or colon-ended group exactly if it holds the separator or starts with a colon |
| `Groups.ColonInNameCollides` | crates/k6-core/src/summary.rs:74-100 | a name with a leading colon shares its path with a check of the sibling group that ends in a colon |
| `Groups.ColonInGroupCollides` | crates/k6-core/src/summary.rs:74-100 | a group that ends in a colon collides with a group that starts with one |
| `Groups.SeparatorInNameCollides` | crates/k6-core/src/summary.rs:74-100 | a check name that holds the separator shares its path with a check one group deeper |
| `Arrival.StepKeepsTokens` | crates/k6-js/src/pool.rs:725-747 | every step keeps each VU one token: queued once, one message, running or about to report |
| `Arrival.StepKeepsConserved` | crates/k6-js/src/pool.rs:1057-1089 | every step keeps arrivals = dropped + tallied + in flight + lost |
| `Arrival.EveryStateKeepsInv` | crates/k6-js/src/pool.rs:725-1113 | the invariants hold in every state of every interleaving of coordinator, VU, death and stop steps |
| `Arrival.FireIsAlwaysEnabled` | crates/k6-js/src/pool.rs:1071-1089 | the coordinator never indexes outside the sender list |
| `Arrival.LanesSumToArrivals` | crates/k6-js/src/pool.rs:781-887 | the four lanes of a finished run are the arrivals fired, less those lost with degraded VUs, plus interruptions of VUs stopped before their first iteration; exactly the arrivals with no degraded VU and no hard stop |
| `Arrival.LanesCountSteps` | crates/k6-js/src/pool.rs:725-887 | over any run each lane counts its own steps: iterations completed, errored, interrupted, and arrivals sent to nobody |
| `Arrival.ArrivalIsServed` | crates/k6-js/src/pool.rs:1071-1089 | an arrival whose turn falls on a parked VU can be served by it with any outcome, after which the VU is queued again and nothing else has changed |
| `Arrival.StrayFollowsIff` | crates/k6-js/src/vu_sched.rs:412-440 | once the senders are dropped an interruption without an arrival can still be counted exactly if some VU was never resumed and holds no dispatch |
| `Arrival.StrayHappens` | crates/k6-js/src/vu_sched.rs:412-440 | a finished run with one interruption and no arrival |
| `Arrival.ClosedDescends` | crates/k6-js/src/pool.rs:725-747 | once the senders are dropped every step but the hard stop reduces the remaining work |
| `Arrival.ClosedFinishes` | crates/k6-js/src/pool.rs:725-747 | from every state with the senders dropped and the hard stop raised the run finishes within its remaining work |
| `Arrival.DropsAreStarvation` | crates/k6-js/src/pool.rs:1071-1089 | if no VU dies while parked, an arrival is dropped exactly when it finds the idle queue empty |
| `Arrival.QueueIsBounded` | crates/k6-js/src/pool.rs:1015-1068 | the idle queue never outgrows the pool and each dispatch channel holds at most one message |
| `Arrival.OnlyIdleAreDispatched` | crates/k6-js/src/pool.rs:1071-1089 | the VU at the front of the queue is waiting with an empty channel or dead, so no busy VU is dispatched |
| `Pacing.ExpectedArrivals` | crates/k6-core/src/executor/arrival.rs:76-90 | the loop over the timeline, stopping at the first segment not begun, computes the area divided by the time unit |
| `Pacing.AreaIsIntegralOfRate` | crates/k6-core/src/executor/arrival.rs:76-107 | between any two points of a segment the area is their distance times the mean of the interpolated rates: the exact integral |
| `Pacing.CurveInside` | crates/k6-core/src/executor/arrival.rs:28-90 | inside a stage the curve is the trapezoids of the stages before it and that of the rate climbed so far |
| `Pacing.ClimbedMeans` | crates/k6-core/src/executor/arrival.rs:95-107 | the rate inside a stage starts at the previous target, ends at its own, and climbs in proportion |
| `Pacing.AreaAscends` | crates/k6-core/src/executor/arrival.rs:76-90 | the arrival integral is nonnegative and never decreases |
| `Pacing.AreaAtEnd` | crates/k6-core/src/executor/arrival.rs:28-90 | past its end the curve has accumulated the trapezoid of every stage |
| `Pacing.CurveIsIntegral` | crates/k6-core/src/executor/arrival.rs:28-90 | the curve of any schedule with nonnegative rates and durations is an arrival integral |
| `Pacing.WholeRunCount` | crates/k6-core/src/executor/arrival.rs:61-90 | at the total duration the curve is the summed trapezoids over the time unit |
| `Pacing.ServeAccounts` | crates/k6-js/src/pool.rs:1071-1089 | serving k arrivals pops the front of the queue, counts each once, and sends or drops each |
| `Pacing.FireIsServe` | crates/k6-js/src/pool.rs:1071-1089 | one arrival of the concurrent protocol is one arrival served at the coordinator's desk |
| `PacedArrivals.FiresAreServe` | crates/k6-js/src/pool.rs:1071-1089 | any number of arrivals fired in a row are as many served at the desk |
| `PacedArrivals.NeverAheadOfCurve` | crates/k6-js/src/pool.rs:1053-1106 | in every interleaving the arrivals fired never run ahead of the curve and are at its whole part whenever nothing is due |
| `PacedArrivals.LanesAreTheCurve` | crates/k6-js/src/pool.rs:1053-1113 | a finished, started, uncancelled run with no degraded VU and no hard stop has completed + dropped + errored + interrupted equal to the whole part of the expected arrivals at the end |
| `PacedArrivals.LanesAreTheTrapezoids` | crates/k6-core/src/executor/arrival.rs:28-90 | with the engine's curve that is the whole part of the summed trapezoids of the stages |
| `PacedArrivals.ScheduleCanEnd` | crates/k6-js/src/pool.rs:1053-1113 | from every state in which the coordinator paces, some run ends the schedule with exactly the whole part of the curve fired |
| `Pacing.Coordinator.CatchUp` | crates/k6-js/src/pool.rs:1071-1089 | the catch-up loop ends with dispatched at the floor of the target, having served exactly the due arrivals in order |
| `Pacing.PassesAccount` | crates/k6-js/src/pool.rs:1056-1106 | over any number of passes every arrival is sent or dropped |
| `Pacing.Coordinator.DoPass` | crates/k6-js/src/pool.rs:1062-1089 | one time around takes the idle reports in and serves exactly the due arrivals |
| `Pacing.Coordinator.Run` | crates/k6-js/src/pool.rs:1046-1106 | nothing happens without a ready VU; for any integral and nondecreasing wake times, dispatched is the floor of the target after each pass and floor(expected(total)) at the end of an uncancelled run |
| `SharedIterations.StepKeepsClaimed` | crates/k6-js/src/pool.rs:432-454 | every load, swap or failed swap keeps budget plus claims equal to the total, with no underflow |
| `SharedIterations.StepKeepsAccounted` | crates/k6-js/src/pool.rs:432-454 | every step keeps claims = tallied + running + lost |
| `SharedIterations.EveryStateKeepsInv` | crates/k6-js/src/pool.rs:432-454 | the invariants hold in every interleaving, spurious swap failures and deaths included |
| `SharedIterations.LanesSumToBudget` | crates/k6-js/src/pool.rs:406-481 | with a VU and no hard stop the four lanes sum to the budget in every state, whatever died; without VUs every lane is zero |
| `SharedIterations.LanesCountSteps` | crates/k6-js/src/pool.rs:432-481 | over any run each reported lane counts its own steps, and the drop is the budget less these |
| `SharedIterations.BudgetIsMetIff` | crates/k6-js/src/pool.rs:406-481 | the lanes of every finished run sum to the budget exactly for a single VU with a budget, and for neither VU nor budget |
| `SharedIterations.NoVusReportNothing` | crates/k6-js/src/pool.rs:406-409 | without VUs a budget is reported in no lane |
| `SharedIterations.DroppedIsUnclaimed` | crates/k6-js/src/pool.rs:470-481 | with a VU and no hard stop the reported drop of a finished run is the unclaimed budget exactly if no iteration died with its VU |
| `SharedIterations.UnclaimedIsReportedIff` | crates/k6-js/src/pool.rs:406-481 | the reported drop is always the unclaimed budget exactly if there is no budget |
| `SharedIterations.DeadIterationIsDropped` | crates/k6-js/src/pool.rs:470-481 | for every pool and budget a finished run in which a started iteration is reported as dropped |
| `SharedIterations.StrayExceedsBudget` | crates/k6-js/src/pool.rs:470-481 | for two or more VUs, and for one without a budget, a finished run that reports more than the budget |
| `SharedIterations.HaltedFinishes` | crates/k6-js/src/pool.rs:432-454 | from every state with the run halted and the hard stop raised a run to the end exists, stale swaps and all |
| `SharedIterations.UndisturbedRunsEverything` | crates/k6-js/src/pool.rs:432-454 | a run that is neither stopped nor degraded runs its whole budget |
| `SharedIterations.ClaimsAreDistinct` | crates/k6-js/src/pool.rs:441-452 | no two claims take the same unit of the budget |
| `RampingVus.RampingControl.SetActive` | crates/k6-js/src/pool.rs:506-518 | the shared gauge moves by the change of the control's own flag and no more |
| `RampingVus.RampingControl.Drop` | crates/k6-js/src/pool.rs:520-524 | dropping a control takes its contribution back |
| `RampingVus.StepKeepsPlaced` | crates/k6-js/src/pool.rs:526-556 | every step keeps VUs that have seen every change parked only if unwanted and running only if wanted |
| `RampingVus.SettledRunsTheWanted` | crates/k6-js/src/pool.rs:483-489 | in a settled state a VU runs exactly if its index is below the desired count, and the gauge is the number of VUs wanted |
| `RampingVus.EveryStateKeepsInv` | crates/k6-js/src/pool.rs:506-618 | the invariants hold in every state of every run |
| `RampingVus.NoLostWakeup` | crates/k6-js/src/pool.rs:526-556 | a parked VU below the desired count has an unseen change or a cancelled stop token, and a step that wakes it; a closed sender implies stop |
| `RampingVus.GaugeIsExact` | crates/k6-js/src/pool.rs:506-524 | the gauge equals the number of active controls, never underflows, covers the running VUs and is zero once all controls are dropped |
| `RampingVus.StopIsPrompt` | crates/k6-js/src/pool.rs:526-556 | in any run after the stop every VU begins at most one more iteration, and only one past its look at the stop token |
| `RampingVus.ChannelFollowsSchedule` | crates/k6-js/src/pool.rs:596-618 | the channel shows the last count read from the schedule, except a first read equal to the sentinel |
| `RampingVus.SentinelIsNotBroadcast` | crates/k6-js/src/pool.rs:600-612 | a schedule that starts at the largest count is read and never broadcast |
| `RampingVus.StoppedDescends` | crates/k6-js/src/pool.rs:526-556 | once the run is stopped every step of a VU reduces the remaining work |
| `RampingVus.StoppedFinishes` | crates/k6-js/src/pool.rs:526-556 | from every reachable stopped state with the hard stop raised every control is dropped within the remaining work |
| `RampingVus.IterationsAreConserved` | crates/k6-js/src/pool.rs:526-556 | every iteration begun is tallied or lost with a degraded VU; interruptions before the first iteration come on top and take a hard stop |
| `RampingVus.LanesCountSteps` | crates/k6-js/src/pool.rs:526-635 | over any run each lane counts its own steps |
| `RampingVus.EndsOnlyIf` | crates/k6-js/src/pool.rs:526-556 | a VU ends only by the stop, by dying or interrupted, and never comes round again |
| `RampingVus.ComesRound` | crates/k6-js/src/pool.rs:526-556 | after its boundary a VU that is not stopped runs again if wanted and parks if not |
| `RampingVus.VusDieAnywhere` | crates/k6-js/src/pool.rs:526-556 | a VU can be lost at any point of its loop, and takes only a running iteration with it |
| `RampingVus.StrayHappens` | crates/k6-js/src/vu_sched.rs:412-440 | a run with one interruption and no iteration begun |
| `RampingVus.PollBroadcastsChanges` | crates/k6-js/src/pool.rs:600-612 | a count is broadcast exactly if it differs from the last one, and then every VU has an unseen change |
| `RampingVus.ControllerNeverWaits` | crates/k6-js/src/pool.rs:595-612 | the controller reads any count or stops exactly while it drives, then leaves; the hard stop comes at any time |
| `RampingVus.StoppedBroadcastsNothing` | crates/k6-js/src/pool.rs:595-612 | after the stop no step changes the broadcast count |
| `Controls.Control.HandlePatch` | crates/k6-core/src/control.rs:197-244 | the whole effect and reply of a PATCH: stop overrides, a resume takes effect before a refused scaling |
| `Controls.ReplyMeans` | crates/k6-core/src/control.rs:205-241 | exactly which PATCH is refused, and why |
| `Controls.StoppedMeansAccepted` | crates/k6-core/src/control.rs:205-212 | in every run stopped is set exactly when a stop PATCH was accepted before |
| `Controls.EndShowsStop` | crates/k6-core/src/control.rs:116-122 | a run that ends shows status 10 exactly if a stop was accepted before, else 9 |
| `Controls.PatchDoesItsEffect` | crates/k6-core/src/control.rs:197-244 | the separate steps of a PATCH, run to the end, have exactly its whole effect |
| `Controls.EveryStateKeepsInv` | crates/k6-core/src/control.rs:96-244 | the invariants hold in every interleaving of PATCH requests, the starter and outside cancellation |
| `Controls.PausedChangesOnce` | crates/k6-core/src/control.rs:213-233 | paused never becomes true again and at most one PATCH changes it |
| `Controls.StopIsComplete` | crates/k6-core/src/control.rs:205-212 | stopped is permanent and implies both tokens are cancelled whenever the lock is free |
| `Controls.StopIsNeverLost` | crates/k6-core/src/control.rs:96-112 | once stopped or cancelled before its look, the starter can never return true |
| `Controls.TrueMeansResumedAndNotStopped` | crates/k6-core/src/control.rs:96-112 | a starter that returned true decided before any stop and found the run resumed |
| `Controls.NoLostWakeup` | crates/k6-core/src/control.rs:96-112 | after a resume a starter about to sleep has a permit and a sleeping one was woken; it always has a step once the run is settled |
| `Controls.LeftAlone` | crates/k6-core/src/control.rs:96-112 | left alone, a run that is not paused starts and one that is sleeps |
| `Controls.ResumeWakes` | crates/k6-core/src/control.rs:213-224 | a resume wakes a sleeping starter and lets it start |
| `Controls.CancelWakes` | crates/k6-core/src/control.rs:109-110 | a cancellation makes a sleeping starter give up |
| `Controls.StarterFinishes` | crates/k6-core/src/control.rs:96-112 | once settled every step of the starter brings it closer to its answer and no other step moves it away |
| `Controls.LockHoldersGoOn` | crates/k6-core/src/control.rs:114-124 | a PATCH holding the lock is never held up, and a status change needs only the free lock |
| `Lifecycles.AtMostOneLateStore` | crates/k6-core/src/control.rs:135-166 | after the shutdown's cancellation at most one write of the setup data happens |
| `Lifecycles.QuietIsFrozen` | crates/k6-core/src/control.rs:135-166 | with the shutdown begun and nobody past its last check the data never changes |
| `Lifecycles.ClosedIsFrozen` | crates/k6-core/src/control.rs:157-160 | once the shutdown has held the lock the setup data never changes again |
| `Lifecycles.TimeoutFreezesIff` | crates/k6-core/src/control.rs:157-160 | when the shutdown gave up waiting a write can still follow iff somebody is past its last check |
| `Lifecycles.LateStoreHappens` | crates/k6-core/src/control.rs:157-166 | a run in which a write lands after the shutdown returned |
| `Lifecycles.LateEntrantIsRefused` | crates/k6-core/src/control.rs:135-166 | a hook or PUT that takes the lock after the cancellation leaves everything as it was |
| `Lifecycles.FreeLockIsTaken` | crates/k6-core/src/control.rs:135-166 | with the lock free the shutdown takes it and ends, the setup data left alone |
| `Lifecycles.PutStores` | crates/k6-core/src/control.rs:161-166 | an undisturbed PUT stores what it was given |
| `Lifecycles.HookStoresSetup` | crates/k6-core/src/control.rs:135-156 | an undisturbed setup hook stores its result, a teardown or failing hook nothing |
| `Lifecycles.HoldersAreNotInterrupted` | crates/k6-core/src/control.rs:135-166 | nobody but its holder lets go of the lifecycle lock |
| `Lifecycles.NoDataBeforeWrite` | crates/k6-core/src/control.rs:132-156 | until the first write there is no setup data |
| `Utf8.Truncate` | crates/k6-core/src/console.rs:65-73 | a long message is cut to the longest prefix within the bound that ends between characters, at most three bytes short of it and still valid text |
| `Utf8.TruncatedText` | crates/k6-core/src/console.rs:65-73 | the kept bytes of a text are those of its first characters, as many as fit |
| `Utf8.ContinuationIsLow` | crates/k6-core/src/console.rs:69-71 | the boundary test on bytes is the one on signed bytes |
| `Utf8.CutsAreValid` | crates/k6-core/src/console.rs:67-73 | a string cut at a character boundary is two strings |
| `Console.StepKeepsInv` | crates/k6-core/src/console.rs:65-219 | every producer, worker and shutdown step keeps order, counts, wakefulness and provenance |
| `Console.EmitsAreConserved` | crates/k6-core/src/console.rs:65-219 | finished emits = written + write errors + dropped + queued + being written + stranded |
| `Console.CountersAreSteps` | crates/k6-core/src/console.rs:65-219 | over any run each counter counts its own steps, every emit begun has returned or is under way, and the worker is woken at most once |
| `Console.ProducersNeverWait` | crates/k6-core/src/console.rs:65-92 | a producer always has its next step |
| `Console.RefusedIff` | crates/k6-core/src/console.rs:84-86 | a record is refused exactly when the queue is full or its receiving end is gone |
| `Console.WritesAreInOrder` | crates/k6-core/src/console.rs:164-181 | the worker handles the records in the order the queue accepted them |
| `Console.StrandedSawOpen` | crates/k6-core/src/console.rs:84-85 | only producers that saw the queue open before it closed can strand a record |
| `Console.QuiescentDrainIsComplete` | crates/k6-core/src/console.rs:200-219 | with producers quiescent at the close and the worker gone, every accepted record was written or counted as an error, in order |
| `Console.WorkerNeverSticks` | crates/k6-core/src/console.rs:164-208 | after the wake-up the worker always has a step until it is gone |
| `Console.WorkerDrains` | crates/k6-core/src/console.rs:164-181 | once closed the worker, with the shutdown's wake-up, empties the queue and leaves without any producer's help |
| `Console.StrandsIffSending` | crates/k6-core/src/console.rs:84-85 | from the moment of the close a record can still be stranded iff some producer is between its look and its send |
| `Console.StrandingRun` | crates/k6-core/src/console.rs:84-85 | a run that strands a record nobody counts |
| `Backpressure.StepKeepsInv` | crates/k6-core/src/backpressure.rs:48-98 | every take, count, uncount and release keeps the permits and the counter in balance |
| `Backpressure.InFlightIsBounded` | crates/k6-core/src/backpressure.rs:48-98 | in every state 0 <= counter <= permits held <= max, and held + available = max |
| `Backpressure.TrySucceedsIff` | crates/k6-core/src/backpressure.rs:67-76 | a try succeeds exactly while fewer permits than the limit are held |
| `Backpressure.QuietCounterIsExact` | crates/k6-core/src/backpressure.rs:48-98 | with no task between its two steps the counter is the permits held, and all permits come back |
| `Durations.ScanAll` | crates/k6-core/src/config.rs:214-266 | the nested scanning loops compute the exact nanoseconds or the first error |
| `Durations.ParseDuration` | crates/k6-core/src/config.rs:191-272 | the parser with all its early exits computes the parse function on every text |
| `Durations.ScanAdds` | crates/k6-core/src/config.rs:214-266 | scanning a concatenation gives the sum |
| `Durations.ParseAdds` | crates/k6-core/src/config.rs:191-272 | a concatenation of two unit-bearing strings is accepted, its exact nanoseconds are the sum, and only the sum is rounded |
| `Durations.UnitBearingParses` | crates/k6-core/src/config.rs:191-272 | a unit-bearing string is accepted as it stands and rounded once |
| `Durations.PrintedParses` | crates/k6-core/src/config.rs:191-272 | any printed list of amounts with known units parses to their total, rounded |
| `Durations.NanosecondsAreThemselves` | crates/k6-core/src/config.rs:255-264 | n nanoseconds parse to n |
| `Durations.MicrosAreNanos` | crates/k6-core/src/config.rs:255-264 | n microseconds, written either way, parse as 1000 n nanoseconds |
| `Durations.MillisAreMicros` | crates/k6-core/src/config.rs:255-264 | n milliseconds parse as 1000 n microseconds |
| `Durations.SecondsAreMillis` | crates/k6-core/src/config.rs:255-264 | n seconds parse as 1000 n milliseconds |
| `Durations.MinutesAreSeconds` | crates/k6-core/src/config.rs:255-264 | n minutes parse as 60 n seconds |
| `Durations.HoursAreMinutes` | crates/k6-core/src/config.rs:255-264 | n hours parse as 60 n minutes |
| `Durations.DaysAreHours` | crates/k6-core/src/config.rs:255-264 | n days parse as 24 n hours |
| `Durations.PointMoves` | crates/k6-core/src/config.rs:218-234 | moving the decimal point one digit to the right makes ten times the value |
| `Durations.FractionParses` | crates/k6-core/src/config.rs:214-266 | a decimal fraction of any unit parses to its worth |
| `Durations.TenthsOfSeconds` | crates/k6-core/src/config.rs:214-266 | seconds with one decimal are as many hundreds of milliseconds as the number without its point |
| `Durations.BareFractionIsMillis` | crates/k6-core/src/config.rs:205-213 | a bare number with one point is milliseconds |
| `Durations.PointAloneIsRefused` | crates/k6-core/src/config.rs:205-213 | a point alone is no number |
| `Durations.TwoPointsAreRefused` | crates/k6-core/src/config.rs:205-252 | a number ends before its second point and then has no unit |
| `Durations.OneCharacterUnit` | crates/k6-core/src/config.rs:236-264 | a character that is no letter is no unit, and of the single letters four are known |
| `Durations.NanosecondsParse` | crates/k6-core/src/config.rs:232-256 | a whole number of nanoseconds is read into the nearest double, ties to even, and saturates at 64 bits |
| `Durations.NanosecondsRoundTrip` | crates/k6-core/src/config.rs:232-272 | a 64-bit duration printed in nanoseconds parses back to itself exactly if it has at most 53 significant bits or is the largest one |
| `Durations.SmallNanosecondsRoundTrip` | crates/k6-core/src/config.rs:232-272 | every duration up to 2^53 nanoseconds parses back to itself |
| `Durations.OddNanosecondsAreLost` | crates/k6-core/src/config.rs:232-272 | 2^53 + 1 nanoseconds parse back one short |
| `Durations.TiesGoToEven` | crates/k6-core/src/config.rs:232-234 | between two doubles the even one is taken, below and above |
| `Durations.BareNumberIsMillis` | crates/k6-core/src/config.rs:201-204 | a bare whole number is milliseconds, or out of range beyond 64 bits |

## Left out

- `RateLimiter`: its permit is released at once, so the documented requests-per-second bound does not hold for the code; nothing is claimed about it.
- HTTP, TLS, DNS and WebSocket clients, QuickJS, coroutine stacks: outside code; of an iteration only its three-way outcome is kept, and of the script's module scope only that it may wait for something.
- `constant-vus` and `per-vu-iterations` executors: no shared state beyond the tallies, so only easy members.
- `VuRampSchedule` interpolation and the watchdog's polling: the wanted count and the hard stop are free inputs of the protocols.
- Relaxed memory ordering: atomic operations are single steps in one total order.
- Floating-point rounding, infinities and NaN: arithmetic is exact, so a duration too large for a float saturates here where the code reports it out of range, and catch-up comparisons are exact.
- Durations.PrintedParses: exact arithmetic; the double a number is read into, exact up to 2^53, is modelled for one whole number of nanoseconds (`Durations.NanosecondsParse`), not for fractions, larger units or sums of several.
- Histogram bucket rounding and the fixed-percentile fallback: the histogram is the multiset of recorded values; a quantile is a parameter, nearest rank where a result needs more, and zero for an empty histogram.
- Setting gauges, metric units and per-group durations: no merge law to prove; a snapshot's gauges are a list.
- Parsing and comparing threshold expressions: a tick takes the set of failing pairs as input.
- REST routing, JSON bodies, error texts, taints, md5 ids, text formatting of the summary, output plugins: plumbing; a PATCH enters already parsed.
- Pacing.ExpectedArrivals: a time unit of zero, which the code accepts, is left out; its target is infinite and its catch-up loop never ends.
- Pacing.CurveIsIntegral: left out for a time unit of zero, as above.
- Pacing.WholeRunCount: left out for a time unit of zero, as above.
- PacedArrivals.LanesAreTheTrapezoids: left out for a time unit of zero, as above.
- Raw counter, rate and trend adds under keys no tagged write produces: live reads and tagged thresholds are stated for every tagged write, well formed or not; bare names and the summary for well-formed ones.
- Registry.MetricsRegistry.TakeSnapshot: rows are maps, where the code lists them sorted by name, because nothing that reads them depends on the order.
- Registry.MetricsRegistry.TrendAddTagged: the map holds trend values rather than references to `TrendMetric` objects, whose in-place updates are proved separately in `Registry.TrendMetric`.
- Summaries.BuildMetrics: the always-tracked `http_req_duration{expected_response:true}` is a parameter, any good tagged selector.
- Groups.CheckRecorder.RecordCheck: children are replaced on the way down rather than updated through a mutable reference; the aggregate rate is one untagged entry.
- Counters wrap at 64 bits in the code; here they are unbounded, because a wrap would need 2^64 events.
- Console: a queue of capacity zero (a rendezvous channel) and a panicking writer are not modelled; the engine always uses capacity 1024.
- Timeouts, sleep lengths and deadlines are steps that may be taken at any moment, so nothing is said about how long a run takes.
- Utf8.Truncate: overlong and out-of-range encodings count as valid input too, so the result covers more inputs than the code can receive.
