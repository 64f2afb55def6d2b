/** The periodic threshold evaluator: per-threshold failing streaks kept across ticks,
    and the decision to abort the run. */
module Ticks {
  import opened Text

  datatype Threshold = Threshold(expression: string, abortOnFail: bool, delay: nat)

  // One configured threshold of one metric.  The engine walks a hash map of lists; a
  // tick here may list the same entries in any order, with repetitions.
  datatype Entry = Entry(metric: string, threshold: Threshold)
  {
    function Pair(): (string, string) { (metric, threshold.expression) }
    function Key(): string { StateKey(metric, threshold.expression) }
  }

  datatype State = State(lastFailed: bool, failingSince: Option<int>)

  datatype Decision = Continue | Abort

  // ----- State keys -----

  function StateKey(metric: string, expression: string): string {
    Joint(metric, expression)
  }

  // Exactly when two metric/expression pairs share a state key (shorter metric first).
  lemma SharedKey(m: string, e: string, n: string, f: string)
    requires |m| <= |n|
    ensures StateKey(m, e) == StateKey(n, f) <==>
      || (m == n && e == f)
      || (n == m + ":" && e == ":" + f)
      || (|n| >= |m| + 2 && n[..|m|] == m && n[|m|] == n[|m| + 1] == ':' && e == Joint(n[|m| + 2..], f))
  {
    SharedJoint(m, e, n, f);
  }

  // A metric key that cannot be confused with another.
  ghost predicate Plain(metric: string) {
    && (metric == "" || metric[|metric| - 1] != ':')
    && forall i :: 0 <= i < |metric| - 1 ==> !(metric[i] == ':' && metric[i + 1] == ':')
  }

  lemma PlainKeysDiffer(m: string, e: string, n: string, f: string)
    requires Plain(m) && Plain(n) && StateKey(m, e) == StateKey(n, f)
    ensures m == n && e == f
  {
    if |m| <= |n| {
      SharedKey(m, e, n, f);
    } else {
      SharedKey(n, f, m, e);
    }
  }

  // No two configured thresholds share a key.
  ghost predicate KeysApart(entries: seq<Entry>) {
    forall i, j :: 0 <= i < |entries| && 0 <= j < |entries| && entries[i].Key() == entries[j].Key()
      ==> entries[i].Pair() == entries[j].Pair()
  }

  lemma PlainMetricsKeepApart(entries: seq<Entry>)
    requires forall i :: 0 <= i < |entries| ==> Plain(entries[i].metric)
    ensures KeysApart(entries)
  {
    forall i, j | 0 <= i < |entries| && 0 <= j < |entries| && entries[i].Key() == entries[j].Key()
      ensures entries[i].Pair() == entries[j].Pair()
    {
      PlainKeysDiffer(entries[i].metric, entries[i].threshold.expression, entries[j].metric, entries[j].threshold.expression);
    }
  }

  // ----- One tick -----

  function Lookup(states: map<string, State>, key: string): State {
    if key in states then states[key] else State(false, None)
  }

  // A failing evaluation starts a streak or continues one; a passing one ends it.
  function Observe(s: State, failed: bool, now: int): State {
    State(failed, if !failed then None else if s.failingSince.None? then Some(now) else s.failingSince)
  }

  // Phase one over the entries in the listed order.
  function Observed(states: map<string, State>, entries: seq<Entry>, failing: set<(string, string)>, now: int): map<string, State> {
    if entries == [] then states else
      var e := entries[|entries| - 1];
      var before := Observed(states, entries[..|entries| - 1], failing, now);
      before[e.Key() := Observe(Lookup(before, e.Key()), e.Pair() in failing, now)]
  }

  function Elapsed(now: int, since: int): nat {
    if now >= since then now - since else 0
  }

  // An abort-on-fail threshold whose streak has outlasted its grace period.
  predicate Overdue(e: Entry, states: map<string, State>, now: int) {
    && e.threshold.abortOnFail && e.Key() in states && states[e.Key()].failingSince.Some?
    && Elapsed(now, states[e.Key()].failingSince.value) >= e.threshold.delay
  }

  ghost predicate AnyOverdue(entries: seq<Entry>, states: map<string, State>, now: int) {
    exists i :: 0 <= i < |entries| && Overdue(entries[i], states, now)
  }

  class Evaluator {
    var states: map<string, State>
    ghost var run: seq<Tick>   // the ticks so far

    // The states are what the ticks so far left behind.
    ghost predicate Valid()
      reads this
    {
      states == StatesAfter(run)
    }

    constructor ()
      ensures Valid() && run == []
    {
      states, run := map[], [];
    }

    // One tick: abort exactly if some abort-on-fail threshold has failed without a break
    // for at least its delay.
    method Evaluate(entries: seq<Entry>, failing: set<(string, string)>, now: int) returns (d: Decision)
      requires Valid()
      modifies this
      ensures Valid() && run == old(run) + [Tick(entries, failing, now)]
      ensures SteadyRun(run) && TimesAscend(run) ==> (d.Abort? <==> StreakOutlasts(run))
    {
      DecisionIsStreak(run, Tick(entries, failing, now));
      d := UpdateStates(entries, failing, now);
      run := run + [Tick(entries, failing, now)];
    }

    // Update every state from one snapshot's verdicts, then decide.
    method UpdateStates(entries: seq<Entry>, failing: set<(string, string)>, now: int) returns (d: Decision)
      modifies this`states
      ensures states == Observed(old(states), entries, failing, now)
      ensures d.Abort? <==> AnyOverdue(entries, states, now)
    {
      for i := 0 to |entries|
        invariant states == Observed(old(states), entries[..i], failing, now)
      {
        assert entries[..i + 1][..i] == entries[..i];
        var e := entries[i];
        var failed := e.Pair() in failing;
        var s := Lookup(states, e.Key()).(lastFailed := failed);
        if failed {
          if s.failingSince.None? { s := s.(failingSince := Some(now)); }
        } else {
          s := s.(failingSince := None);
        }
        states := states[e.Key() := s];
      }
      assert entries[..|entries|] == entries;
      var abort := false;
      for i := 0 to |entries|
        invariant abort <==> exists j :: 0 <= j < i && Overdue(entries[j], states, now)
      {
        if Overdue(entries[i], states, now) { abort := true; }
      }
      d := if abort then Abort else Continue;
    }
  }

  // Repetitions of a pair are harmless: observing twice at one instant is observing once.
  lemma ObserveTwice(s: State, failed: bool, now: int)
    ensures Observe(Observe(s, failed, now), failed, now) == Observe(s, failed, now)
  {
  }

  // Each configured pair is observed once, whatever the order.
  lemma {:induction false} ObservedAt(states: map<string, State>, entries: seq<Entry>, failing: set<(string, string)>, now: int, i: nat)
    requires KeysApart(entries) && i < |entries|
    ensures var e := entries[i];
      && e.Key() in Observed(states, entries, failing, now)
      && Observed(states, entries, failing, now)[e.Key()] == Observe(Lookup(states, e.Key()), e.Pair() in failing, now)
  {
    var n, e := |entries| - 1, entries[i];
    var rest, last := entries[..n], entries[n];
    if last.Key() != e.Key() {
      ObservedAt(states, rest, failing, now, i);
    } else if exists j :: 0 <= j < n && rest[j].Key() == e.Key() {
      var j :| 0 <= j < n && rest[j].Key() == e.Key();
      ObservedAt(states, rest, failing, now, j);
      assert entries[j].Pair() == e.Pair();
      ObserveTwice(Lookup(states, e.Key()), e.Pair() in failing, now);
    } else {
      ObservedElsewhere(states, rest, failing, now, e.Key());
    }
  }

  lemma {:induction false} ObservedElsewhere(
      states: map<string, State>, entries: seq<Entry>, failing: set<(string, string)>, now: int, key: string)
    requires forall i :: 0 <= i < |entries| ==> entries[i].Key() != key
    ensures key in Observed(states, entries, failing, now) <==> key in states
    ensures key in states ==> Observed(states, entries, failing, now)[key] == states[key]
  {
    if entries != [] {
      ObservedElsewhere(states, entries[..|entries| - 1], failing, now, key);
    }
  }

  function Pairs(entries: seq<Entry>): set<(string, string)> {
    set e | e in entries :: e.Pair()
  }

  // Two listings of the same thresholds update the states alike.
  lemma OrderIsIrrelevant(states: map<string, State>, a: seq<Entry>, b: seq<Entry>, failing: set<(string, string)>, now: int)
    requires KeysApart(a) && KeysApart(b) && Pairs(a) == Pairs(b)
    ensures Observed(states, a, failing, now) == Observed(states, b, failing, now)
  {
    var x, y := Observed(states, a, failing, now), Observed(states, b, failing, now);
    forall k
      ensures k in x <==> k in y
      ensures k in x ==> x[k] == y[k]
    {
      if i :| 0 <= i < |a| && a[i].Key() == k {
        assert a[i].Pair() in Pairs(b);
        var j :| 0 <= j < |b| && b[j].Pair() == a[i].Pair();
        ObservedAt(states, a, failing, now, i);
        ObservedAt(states, b, failing, now, j);
      } else {
        forall j | 0 <= j < |b| ensures b[j].Key() != k {
          assert b[j].Pair() in Pairs(a);
        }
        ObservedElsewhere(states, a, failing, now, k);
        ObservedElsewhere(states, b, failing, now, k);
      }
    }
  }

  // ----- Runs of ticks -----

  // What one tick saw: its listing of the thresholds, the pairs that failed, the time.
  datatype Tick = Tick(entries: seq<Entry>, failing: set<(string, string)>, now: int)

  function StatesAfter(run: seq<Tick>): map<string, State> {
    if run == [] then map[] else
      var t := run[|run| - 1];
      Observed(StatesAfter(run[..|run| - 1]), t.entries, t.failing, t.now)
  }

  // Every tick lists the same thresholds, under keys that stay apart.
  ghost predicate SteadyRun(run: seq<Tick>) {
    && (forall i :: 0 <= i < |run| ==> KeysApart(run[i].entries))
    && (forall i, j :: 0 <= i < |run| && 0 <= j < |run| ==> Pairs(run[i].entries) == Pairs(run[j].entries))
  }

  ghost predicate TimesAscend(run: seq<Tick>) {
    forall i, j :: 0 <= i <= j < |run| ==> run[i].now <= run[j].now
  }

  predicate FailsThroughout(run: seq<Tick>, pair: (string, string), j: nat) {
    forall i :: j <= i < |run| ==> pair in run[i].failing
  }

  // The current unbroken failing streak of a pair began at tick `j`.
  predicate StreakFrom(run: seq<Tick>, pair: (string, string), j: nat) {
    && j < |run| && FailsThroughout(run, pair, j)
    && (j > 0 ==> pair !in run[j - 1].failing)
  }

  lemma StreakUnique(run: seq<Tick>, pair: (string, string), i: nat, j: nat)
    requires StreakFrom(run, pair, i) && StreakFrom(run, pair, j)
    ensures i == j
  {
  }

  // A streak before the last tick goes on while the pair keeps failing.
  lemma StreakExtends(run: seq<Tick>, t: Tick, pair: (string, string), j: nat)
    requires StreakFrom(run, pair, j) && pair in t.failing
    ensures StreakFrom(run + [t], pair, j)
  {
    var now := run + [t];
    forall i | j <= i < |now| ensures pair in now[i].failing {
      if i < |run| { assert now[i] == run[i]; }
    }
    if j > 0 { assert now[j - 1] == run[j - 1]; }
  }

  lemma PairListed(entries: seq<Entry>, pair: (string, string)) returns (i: nat)
    requires pair in Pairs(entries)
    ensures i < |entries| && entries[i].Pair() == pair
  {
    var e :| e in entries && e.Pair() == pair;
    i :| 0 <= i < |entries| && entries[i] == e;
  }

  // The recorded state of a pair after a run: failing since the start of its streak.
  ghost predicate TracksStreak(s: State, run: seq<Tick>, pair: (string, string))
    requires run != []
  {
    && (s.lastFailed <==> pair in run[|run| - 1].failing)
    && (s.failingSince.Some? <==> s.lastFailed)
    && (s.lastFailed ==> exists j: nat :: StreakFrom(run, pair, j) && s.failingSince == Some(run[j].now))
  }

  lemma FirstTickTracks(t: Tick, pair: (string, string))
    ensures TracksStreak(Observe(State(false, None), pair in t.failing, t.now), [t], pair)
  {
    if pair in t.failing { assert StreakFrom([t], pair, 0); }
  }

  lemma NextTickTracks(s: State, run: seq<Tick>, t: Tick, pair: (string, string))
    requires run != [] && TracksStreak(s, run, pair)
    ensures TracksStreak(Observe(s, pair in t.failing, t.now), run + [t], pair)
  {
    var now := run + [t];
    if pair in t.failing && s.lastFailed {
      var j: nat :| StreakFrom(run, pair, j) && s.failingSince == Some(run[j].now);
      StreakExtends(run, t, pair, j);
      assert now[j] == run[j];
    } else if pair in t.failing {
      assert now[|run| - 1] == run[|run| - 1] && now[|run|] == t;
      assert StreakFrom(now, pair, |run|);
    }
  }

  // `failing_since` is the time of the first tick of the current failing streak.
  lemma {:induction false} FailingSinceIsStreakStart(run: seq<Tick>, pair: (string, string))
    requires run != [] && SteadyRun(run) && pair in Pairs(run[0].entries)
    ensures StateKey(pair.0, pair.1) in StatesAfter(run)
    ensures TracksStreak(StatesAfter(run)[StateKey(pair.0, pair.1)], run, pair)
  {
    var n := |run| - 1;
    var rest, t, key := run[..n], run[n], StateKey(pair.0, pair.1);
    assert run == rest + [t];
    assert Pairs(t.entries) == Pairs(run[0].entries);
    var i := PairListed(t.entries, pair);
    assert t.entries[i].Key() == key;
    ObservedAt(StatesAfter(rest), t.entries, t.failing, t.now, i);
    if rest == [] {
      FirstTickTracks(t, pair);
    } else {
      assert SteadyRun(rest) by {
        assert forall k :: 0 <= k < n ==> rest[k] == run[k];
      }
      FailingSinceIsStreakStart(rest, pair);
      NextTickTracks(StatesAfter(rest)[key], rest, t, pair);
    }
  }

  // At the last tick the streak of some abort-on-fail threshold has lasted its delay.
  ghost predicate StreakOutlasts(run: seq<Tick>)
    requires run != []
  {
    var t := run[|run| - 1];
    exists i: nat :: i < |t.entries| && t.entries[i].threshold.abortOnFail && Outlasts(run, t, t.entries[i])
  }

  ghost predicate Outlasts(run: seq<Tick>, t: Tick, e: Entry) {
    exists j: nat :: StreakFrom(run, e.Pair(), j) && t.now - run[j].now >= e.threshold.delay
  }

  // The last tick aborts iff some abort-on-fail threshold's streak outlasted its delay.
  lemma AbortIffStreakOutlastsDelay(run: seq<Tick>)
    requires run != [] && SteadyRun(run) && TimesAscend(run)
    ensures var t := run[|run| - 1];
      AnyOverdue(t.entries, StatesAfter(run), t.now) <==> StreakOutlasts(run)
  {
    var t := run[|run| - 1];
    forall i: nat | i < |t.entries|
      ensures Overdue(t.entries[i], StatesAfter(run), t.now) <==> t.entries[i].threshold.abortOnFail && Outlasts(run, t, t.entries[i])
    {
      OverdueMeans(run, i);
    }
  }

  // One more tick: the states it leaves, and what its decision means.
  lemma DecisionIsStreak(before: seq<Tick>, t: Tick)
    ensures StatesAfter(before + [t]) == Observed(StatesAfter(before), t.entries, t.failing, t.now)
    ensures SteadyRun(before + [t]) && TimesAscend(before + [t]) ==>
      (AnyOverdue(t.entries, Observed(StatesAfter(before), t.entries, t.failing, t.now), t.now) <==> StreakOutlasts(before + [t]))
  {
    var run := before + [t];
    assert run[..|before|] == before;
    if SteadyRun(run) && TimesAscend(run) { AbortIffStreakOutlastsDelay(run); }
  }

  lemma OverdueMeans(run: seq<Tick>, i: nat)
    requires run != [] && SteadyRun(run) && TimesAscend(run) && i < |run[|run| - 1].entries|
    ensures var t := run[|run| - 1]; var e := t.entries[i];
      Overdue(e, StatesAfter(run), t.now) <==>
        e.threshold.abortOnFail && exists j: nat :: StreakFrom(run, e.Pair(), j) && t.now - run[j].now >= e.threshold.delay
  {
    var t := run[|run| - 1];
    var e := t.entries[i];
    assert e.Pair() in Pairs(t.entries) && Pairs(t.entries) == Pairs(run[0].entries);
    FailingSinceIsStreakStart(run, e.Pair());
    var s := StatesAfter(run)[e.Key()];
    if s.lastFailed {
      var j: nat :| StreakFrom(run, e.Pair(), j) && s.failingSince == Some(run[j].now);
      forall k: nat | StreakFrom(run, e.Pair(), k) ensures k == j {
        StreakUnique(run, e.Pair(), j, k);
      }
    } else {
      assert forall k: nat :: StreakFrom(run, e.Pair(), k) ==> FailsThroughout(run, e.Pair(), k);
    }
  }
}
