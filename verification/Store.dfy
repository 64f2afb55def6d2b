/** The store keyed by full tag sets.  Every write goes to one canonical key; live
    subset reads, derived snapshot entries and the merges over a snapshot are all
    related to the plain log of samples.  The theory holds for any faithful way of
    writing selectors as keys; the engine's own syntax is one. */
module Stores {
  import opened Text
  import opened Selectors
  import opened Aggregates

  // ----- Keys -----

  // How selectors are written as storage keys and read back.
  datatype Codec = Codec(good: Selector -> bool, encode: Selector -> string, decode: string -> Option<Selector>)

  ghost predicate PrintsBack(c: Codec, s: Selector) {
    && (c.good(s) ==> c.decode(c.encode(s)) == Some(s) && c.good(Untagged(s.name)))
    && (c.good(s) ==> ('{' in c.encode(s) <==> s.tags != map[]))
    && (s.tags == map[] <==> c.encode(s) == s.name)
  }

  ghost predicate ReadsGood(c: Codec, k: string) {
    c.decode(k).Some? ==> c.good(c.decode(k).value)
  }

  ghost predicate Faithful(c: Codec) {
    (forall s :: PrintsBack(c, s)) && (forall k :: ReadsGood(c, k))
  }

  function Untagged(n: string): Selector {
    Selector(n, map[])
  }

  function ParseOption(k: string): Option<Selector> {
    var r := Parse(k);
    if r.Ok? then Some(r.value) else None
  }

  // The engine's codec: the selector printer and parser.
  const SELECTORS := Codec(WellFormed, Canonical, ParseOption)

  lemma SelectorsFaithful()
    ensures Faithful(SELECTORS)
  {
    forall s ensures PrintsBack(SELECTORS, s) {
      if WellFormed(s) {
        CanonicalParses(s);
        NoReserved(s.name, '{');
      }
      assert s.tags == map[] || Canonical(s)[|s.name|] == '{';
    }
    forall k ensures ReadsGood(SELECTORS, k) {
      if ParseOption(k).Some? { ParseIsWellFormed(k); }
    }
  }

  // ----- The log, the specification of the store -----

  // One recorded sample: the metric name with its full tag set, and the value.
  datatype Sample<+S> = Sample(at: Selector, value: S)

  ghost predicate GoodLog<S>(c: Codec, log: seq<Sample<S>>) {
    forall i :: 0 <= i < |log| ==> c.good(log[i].at)
  }

  // `q` asks for the samples of its name that carry at least its tags.
  predicate Includes(q: Selector, s: Selector) {
    s.name == q.name && forall k :: k in q.tags ==> k in s.tags && s.tags[k] == q.tags[k]
  }

  // That is: the sample's name is the query's, and the query's tags change nothing in the
  // sample's.
  lemma IncludesIff(q: Selector, s: Selector)
    ensures Includes(q, s) <==> s.name == q.name && s.tags + q.tags == s.tags
  {
    if s.tags + q.tags == s.tags {
      forall k | k in q.tags ensures k in s.tags && s.tags[k] == q.tags[k] {
        assert (s.tags + q.tags)[k] == q.tags[k];
      }
    }
  }

  // A subset query, or every tagged entry of one name.
  datatype Query = AtLeast(sel: Selector) | TaggedOf(name: string)
  {
    predicate Wants(s: Selector) {
      match this
      case AtLeast(sel) => Includes(sel, s)
      case TaggedOf(name) => s.name == name && s.tags != map[]
    }
  }

  // The values of the logged samples a query wants, in the order they were recorded.
  function Matching<S>(log: seq<Sample<S>>, q: Query): seq<S> {
    if log == [] then [] else
      var rest, last := Matching(log[..|log| - 1], q), log[|log| - 1];
      if q.Wants(last.at) then rest + [last.value] else rest
  }

  // ----- The store -----

  function Stored<S, A>(c: Codec, kind: Kind<S, A>, log: seq<Sample<S>>): map<string, A> {
    if log == [] then map[] else
      var last := log[|log| - 1];
      Put(kind, Stored(c, kind, log[..|log| - 1]), c.encode(last.at), kind.lift(last.value))
  }

  // A key that writes some selector, as every tagged write produces.
  ghost predicate IsCanonical(c: Codec, k: string) {
    c.decode(k).Some? && c.encode(c.decode(k).value) == k
  }

  ghost predicate CanonicalKeyed<A>(c: Codec, m: map<string, A>) {
    forall k :: k in m ==> IsCanonical(c, k)
  }

  lemma {:induction false} StoredIsCanonical<S, A>(c: Codec, kind: Kind<S, A>, log: seq<Sample<S>>)
    requires Faithful(c) && GoodLog(c, log)
    ensures CanonicalKeyed(c, Stored(c, kind, log))
  {
    if log != [] {
      StoredIsCanonical(c, kind, log[..|log| - 1]);
      assert PrintsBack(c, log[|log| - 1].at);
    }
  }

  // ----- Live reads -----

  // Whether a stored key answers a query text; byte equality when either is unparseable.
  predicate StoredMatches(c: Codec, stored: string, query: string) {
    var q, s := c.decode(query), c.decode(stored);
    if q.None? || s.None? then stored == query else Includes(q.value, s.value)
  }

  function Select<A>(c: Codec, m: map<string, A>, query: string): map<string, A> {
    map k | k in m && StoredMatches(c, k, query) :: m[k]
  }

  // Whether a stored key is readable and answers a parsed query.
  predicate Hit(c: Codec, q: Query, stored: string) {
    c.decode(stored).Some? && q.Wants(c.decode(stored).value)
  }

  function Hits<A>(c: Codec, m: map<string, A>, q: Query): map<string, A> {
    map k | k in m && Hit(c, q, k) :: m[k]
  }

  lemma SelectIsHits<A>(c: Codec, m: map<string, A>, query: string)
    requires c.decode(query).Some?
    ensures Select(c, m, query) == Hits(c, m, AtLeast(c.decode(query).value))
  {
    assert forall k :: k in m ==> (StoredMatches(c, k, query) <==> Hit(c, AtLeast(c.decode(query).value), k));
  }

  lemma HitsPut<S, A>(c: Codec, kind: Kind<S, A>, m: map<string, A>, k: string, d: A, q: Query)
    ensures Hits(c, Put(kind, m, k, d), q)
         == if Hit(c, q, k) then Put(kind, Hits(c, m, q), k, d) else Hits(c, m, q)
  {
  }

  // The entries under the keys that satisfy `p`, and the values logged under such keys.
  function Where<A>(m: map<string, A>, p: string -> bool): map<string, A> {
    map k | k in m && p(k) :: m[k]
  }

  function Under<S>(c: Codec, log: seq<Sample<S>>, p: string -> bool): seq<S> {
    if log == [] then [] else
      var rest, last := Under(c, log[..|log| - 1], p), log[|log| - 1];
      if p(c.encode(last.at)) then rest + [last.value] else rest
  }

  lemma WherePut<S, A>(kind: Kind<S, A>, m: map<string, A>, k: string, d: A, p: string -> bool)
    ensures Where(Put(kind, m, k, d), p) == if p(k) then Put(kind, Where(m, p), k, d) else Where(m, p)
  {
  }

  // The store refines the log: after any history of writes, well formed or not, the
  // entries under any choice of keys merge exactly the samples logged under those keys.
  lemma {:induction false} ReadIsLog<S, A(!new)>(c: Codec, kind: Kind<S, A>, log: seq<Sample<S>>, p: string -> bool)
    requires Lawful(kind)
    ensures Total(kind, Where(Stored(c, kind, log), p)) == Fold(kind, Under(c, log, p))
    ensures Where(Stored(c, kind, log), p) == map[] <==> Under(c, log, p) == []
  {
    if log == [] {
      assert Where(Stored(c, kind, log), p) == map[];
    } else {
      var rest, last := log[..|log| - 1], log[|log| - 1];
      ReadIsLog(c, kind, rest, p);
      GrowRead(c, kind, Stored(c, kind, rest), c.encode(last.at), last.value, Under(c, rest, p), p);
    }
  }

  lemma GrowRead<S, A(!new)>(c: Codec, kind: Kind<S, A>, m: map<string, A>, key: string, v: S, xs: seq<S>, p: string -> bool)
    requires Lawful(kind) && Total(kind, Where(m, p)) == Fold(kind, xs) && (Where(m, p) == map[] <==> xs == [])
    ensures var now, ys := Where(Put(kind, m, key, kind.lift(v)), p), if p(key) then xs + [v] else xs;
      Total(kind, now) == Fold(kind, ys) && (now == map[] <==> ys == [])
  {
    WherePut(kind, m, key, kind.lift(v), p);
    if p(key) {
      TotalPut(kind, Where(m, p), key, kind.lift(v));
      FoldSnoc(kind, xs, v);
      assert key in Put(kind, Where(m, p), key, kind.lift(v));
    }
  }

  // The keys that answer a query text, and those that answer a parsed query.
  function Answers(c: Codec, query: string): string -> bool { (k: string) => StoredMatches(c, k, query) }
  function Reads(c: Codec, q: Query): string -> bool { (k: string) => Hit(c, q, k) }

  lemma HitsAreWhere<A>(c: Codec, m: map<string, A>, q: Query, query: string)
    ensures Hits(c, m, q) == Where(m, Reads(c, q)) && Select(c, m, query) == Where(m, Answers(c, query))
  {
  }

  // For well-formed writes the samples under the keys a query reads are the samples it
  // asks for.
  lemma {:induction false} UnderIsMatching<S>(c: Codec, log: seq<Sample<S>>, q: Query)
    requires Faithful(c) && GoodLog(c, log)
    ensures Under(c, log, Reads(c, q)) == Matching(log, q)
  {
    if log != [] {
      UnderIsMatching(c, log[..|log| - 1], q);
      assert PrintsBack(c, log[|log| - 1].at);
    }
  }

  lemma GoodReadIsLog<S, A(!new)>(c: Codec, kind: Kind<S, A>, log: seq<Sample<S>>, q: Query)
    requires Faithful(c) && Lawful(kind) && GoodLog(c, log)
    ensures Total(kind, Hits(c, Stored(c, kind, log), q)) == Fold(kind, Matching(log, q))
    ensures Hits(c, Stored(c, kind, log), q) == map[] <==> Matching(log, q) == []
  {
    ReadIsLog(c, kind, log, Reads(c, q));
    HitsAreWhere(c, Stored(c, kind, log), q, "");
    UnderIsMatching(c, log, q);
  }

  // A query text that does not parse reads nothing from a canonical store.
  lemma UnparseableReadsNothing<A>(c: Codec, m: map<string, A>, query: string)
    requires CanonicalKeyed(c, m) && c.decode(query).None?
    ensures Select(c, m, query) == map[]
  {
    assert forall k :: k in m ==> IsCanonical(c, k) && !StoredMatches(c, k, query);
  }

  // ----- Snapshot derivation -----

  // The snapshot entries one stored key contributes to: itself, and for a tagged
  // key the untagged aggregate of its name.
  function Targets(c: Codec, stored: string): seq<string> {
    match c.decode(stored)
    case None => [stored]
    case Some(s) => if s.tags == map[] then [c.encode(s)] else [c.encode(s), s.name]
  }

  function Sources<A>(c: Codec, m: map<string, A>, t: string): map<string, A> {
    map k | k in m && t in Targets(c, k) :: m[k]
  }

  // Each target holds the total of the stored entries that map to it, once each.
  ghost predicate IsDerived<S, A(!new)>(c: Codec, kind: Kind<S, A>, out: map<string, A>, m: map<string, A>) {
    forall t :: DerivedAt(c, kind, out, m, t)
  }

  ghost predicate DerivedAt<S, A(!new)>(c: Codec, kind: Kind<S, A>, out: map<string, A>, m: map<string, A>, t: string) {
    && (t in out <==> Sources(c, m, t) != map[])
    && (t in out ==> out[t] == Total(kind, Sources(c, m, t)))
  }

  function PutAll<S, A>(kind: Kind<S, A>, out: map<string, A>, targets: seq<string>, v: A): map<string, A>
    decreases |targets|
  {
    if targets == [] then out
    else PutAll(kind, Put(kind, out, targets[0], v), targets[1..], v)
  }

  lemma SourcesGrow<A>(c: Codec, m: map<string, A>, k: string, v: A, t: string)
    requires k !in m
    ensures Sources(c, m[k := v], t) == if t in Targets(c, k) then Sources(c, m, t)[k := v] else Sources(c, m, t)
    ensures k !in Sources(c, m, t)
  {
  }

  // Distinct targets each absorb the value once.
  lemma {:induction false} PutAllAt<S, A>(kind: Kind<S, A>, out: map<string, A>, targets: seq<string>, v: A, t: string)
    requires forall i, j :: 0 <= i < j < |targets| ==> targets[i] != targets[j]
    ensures var now := PutAll(kind, out, targets, v);
      && (t in now <==> t in out || t in targets)
      && (t in targets ==> now[t] == Put(kind, out, t, v)[t])
      && (t in out && t !in targets ==> now[t] == out[t])
    decreases |targets|
  {
    if targets != [] {
      assert targets == [targets[0]] + targets[1..];
      PutAllAt(kind, Put(kind, out, targets[0], v), targets[1..], v, t);
    }
  }

  lemma TargetsDistinct(c: Codec, k: string)
    requires Faithful(c)
    ensures forall i, j :: 0 <= i < j < |Targets(c, k)| ==> Targets(c, k)[i] != Targets(c, k)[j]
  {
    if c.decode(k).Some? { assert PrintsBack(c, c.decode(k).value); }
  }

  lemma DerivedAtGrows<S, A(!new)>(
      c: Codec, kind: Kind<S, A>, out: map<string, A>, m: map<string, A>, k: string, v: A, t: string)
    requires Faithful(c) && Lawful(kind) && DerivedAt(c, kind, out, m, t) && k !in m
    ensures DerivedAt(c, kind, PutAll(kind, out, Targets(c, k), v), m[k := v], t)
  {
    TargetsDistinct(c, k);
    PutAllAt(kind, out, Targets(c, k), v, t);
    SourcesGrow(c, m, k, v, t);
    if t in Targets(c, k) {
      assert k in Sources(c, m[k := v], t);
      TotalPut(kind, Sources(c, m, t), k, v);
      assert UnitIsNeutral(kind, v);
    }
  }

  lemma DerivedGrows<S, A(!new)>(c: Codec, kind: Kind<S, A>, out: map<string, A>, m: map<string, A>, k: string, v: A)
    requires Faithful(c) && Lawful(kind) && IsDerived(c, kind, out, m) && k !in m
    ensures IsDerived(c, kind, PutAll(kind, out, Targets(c, k), v), m[k := v])
  {
    var now, grown := PutAll(kind, out, Targets(c, k), v), m[k := v];
    forall t ensures DerivedAt(c, kind, now, grown, t) {
      assert DerivedAt(c, kind, out, m, t);
      DerivedAtGrows(c, kind, out, m, k, v, t);
    }
  }

  lemma NothingToDerive<S, A(!new)>(c: Codec, kind: Kind<S, A>)
    ensures IsDerived(c, kind, map[], map[])
  {
    var empty: map<string, A> := map[];
    forall t ensures DerivedAt(c, kind, empty, empty, t) {
      assert Sources(c, empty, t) == empty;
    }
  }

  // One stored entry goes to each of its targets.
  method DeriveOne<S, A(!new)>(kind: Kind<S, A>, before: map<string, A>, targets: seq<string>, v: A)
    returns (out: map<string, A>)
    ensures out == PutAll(kind, before, targets, v)
  {
    out := before;
    for i := 0 to |targets|
      invariant PutAll(kind, before, targets, v) == PutAll(kind, out, targets[i..], v)
    {
      assert targets[i..][1..] == targets[i + 1..];
      out := Put(kind, out, targets[i], v);
    }
  }

  // The derivation loop, over the stored entries in any order.
  method Derive<S, A(!new)>(c: Codec, kind: Kind<S, A>, stored: map<string, A>) returns (out: map<string, A>)
    requires Faithful(c) && Lawful(kind)
    ensures IsDerived(c, kind, out, stored)
  {
    out := map[];
    var todo := stored.Keys;
    ghost var done: map<string, A> := map[];
    NothingToDerive(c, kind);
    while todo != {}
      invariant todo <= stored.Keys && done == stored - todo
      invariant IsDerived(c, kind, out, done)
      decreases todo
    {
      var k :| k in todo;
      DerivedGrows(c, kind, out, done, k, stored[k]);
      out := DeriveOne(kind, out, Targets(c, k), stored[k]);
      todo := todo - {k};
      done := done[k := stored[k]];
    }
    assert done == stored;
  }

  // Two walks over one store, in whatever orders, derive the same entries.
  lemma DerivedIsUnique<S, A(!new)>(c: Codec, kind: Kind<S, A>, a: map<string, A>, b: map<string, A>, m: map<string, A>)
    requires IsDerived(c, kind, a, m) && IsDerived(c, kind, b, m)
    ensures a == b
  {
    forall t
      ensures t in a <==> t in b
      ensures t in a ==> a[t] == b[t]
    {
      assert DerivedAt(c, kind, a, m, t) && DerivedAt(c, kind, b, m, t);
    }
  }

  // ----- A snapshot of a canonical store -----

  lemma CanonicalTargets(c: Codec, k: string, t: string)
    requires IsCanonical(c, k)
    ensures var s := c.decode(k).value; t in Targets(c, k) <==> t == k || (s.tags != map[] && t == s.name)
  {
  }

  // A good name on its own reads as the untagged selector.
  lemma UntaggedDecodes(c: Codec, n: string)
    requires Faithful(c) && c.good(Untagged(n))
    ensures c.encode(Untagged(n)) == n && c.decode(n) == Some(Untagged(n))
  {
    assert PrintsBack(c, Untagged(n));
  }

  lemma NameDecodes(c: Codec, k: string)
    requires Faithful(c) && c.decode(k).Some?
    ensures var n := c.decode(k).value.name; c.encode(Untagged(n)) == n && c.decode(n) == Some(Untagged(n))
  {
    assert ReadsGood(c, k) && PrintsBack(c, c.decode(k).value);
    UntaggedDecodes(c, c.decode(k).value.name);
  }

  lemma UntaggedCanonical(c: Codec, k: string)
    requires Faithful(c) && IsCanonical(c, k) && c.decode(k).value.tags == map[]
    ensures c.decode(k).value == Untagged(k)
  {
    assert PrintsBack(c, c.decode(k).value);
  }

  // Only a tagged key itself targets a tagged key.
  lemma TaggedSources<A>(c: Codec, m: map<string, A>, t: string)
    requires Faithful(c) && CanonicalKeyed(c, m) && c.decode(t).Some? && c.decode(t).value.tags != map[]
    ensures Sources(c, m, t) == if t in m then map[t := m[t]] else map[]
  {
    forall k | k in m ensures t in Targets(c, k) <==> t == k {
      CanonicalTargets(c, k, t);
      NameDecodes(c, k);
    }
  }

  // Derived tagged entries are the stored ones.
  lemma DerivedTagged<S, A(!new)>(c: Codec, kind: Kind<S, A>, out: map<string, A>, m: map<string, A>, t: string)
    requires Faithful(c) && Lawful(kind) && CanonicalKeyed(c, m) && IsDerived(c, kind, out, m)
    requires c.decode(t).Some? && c.decode(t).value.tags != map[]
    ensures t in out <==> t in m
    ensures t in out ==> out[t] == m[t]
  {
    assert DerivedAt(c, kind, out, m, t);
    TaggedSources(c, m, t);
    if t in m {
      TotalOne(kind, map[t := m[t]], t);
    }
  }

  // Everything of a name targets the bare name.
  lemma UntaggedSources<A>(c: Codec, m: map<string, A>, n: string)
    requires Faithful(c) && CanonicalKeyed(c, m) && c.good(Untagged(n))
    ensures Sources(c, m, n) == Hits(c, m, AtLeast(Untagged(n)))
  {
    UntaggedDecodes(c, n);
    forall k | k in m ensures n in Targets(c, k) <==> Hit(c, AtLeast(Untagged(n)), k) {
      CanonicalTargets(c, k, n);
      if c.decode(k).value.tags == map[] { UntaggedCanonical(c, k); }
    }
  }

  // The derived untagged entry is the total over every stored entry of its name.
  lemma DerivedUntagged<S, A(!new)>(c: Codec, kind: Kind<S, A>, out: map<string, A>, m: map<string, A>, n: string)
    requires Faithful(c) && CanonicalKeyed(c, m) && IsDerived(c, kind, out, m) && c.good(Untagged(n))
    ensures n in out <==> Hits(c, m, AtLeast(Untagged(n))) != map[]
    ensures n in out ==> out[n] == Total(kind, Hits(c, m, AtLeast(Untagged(n))))
  {
    assert DerivedAt(c, kind, out, m, n);
    UntaggedSources(c, m, n);
  }

  // A derived entry comes from a stored one of the same name, and is canonical too.
  lemma DerivedComesFrom<S, A(!new)>(c: Codec, kind: Kind<S, A>, out: map<string, A>, m: map<string, A>, t: string)
    returns (k: string)
    requires Faithful(c) && CanonicalKeyed(c, m) && IsDerived(c, kind, out, m) && t in out
    ensures k in m && IsCanonical(c, t) && c.decode(t).value.name == c.decode(k).value.name
  {
    assert DerivedAt(c, kind, out, m, t);
    k :| k in Sources(c, m, t);
    CanonicalTargets(c, k, t);
    NameDecodes(c, k);
  }

  // ----- Snapshot against live -----

  // For a selector with tags the snapshot holds exactly the entries a live read merges.
  lemma TaggedHitsAgree<S, A(!new)>(c: Codec, kind: Kind<S, A>, out: map<string, A>, m: map<string, A>, q: Selector)
    requires Faithful(c) && Lawful(kind) && CanonicalKeyed(c, m) && IsDerived(c, kind, out, m) && q.tags != map[]
    ensures Hits(c, out, AtLeast(q)) == Hits(c, m, AtLeast(q))
  {
    var x :| x in q.tags;
    forall k | Hit(c, AtLeast(q), k)
      ensures k in out <==> k in m
      ensures k in out ==> out[k] == m[k]
    {
      assert x in c.decode(k).value.tags;
      DerivedTagged(c, kind, out, m, k);
    }
  }

  lemma UntaggedHitAt<S, A(!new)>(c: Codec, kind: Kind<S, A>, out: map<string, A>, m: map<string, A>, n: string, k: string)
    requires Faithful(c) && Lawful(kind) && CanonicalKeyed(c, m) && IsDerived(c, kind, out, m) && k != n
    ensures k in out && Hit(c, AtLeast(Untagged(n)), k) <==> k in Hits(c, m, TaggedOf(n))
    ensures k in Hits(c, m, TaggedOf(n)) ==> out[k] == m[k]
  {
    if c.decode(k).Some? && c.decode(k).value.tags != map[] {
      DerivedTagged(c, kind, out, m, k);
    } else if k in out {
      var _ := DerivedComesFrom(c, kind, out, m, k);
      UntaggedCanonical(c, k);
    }
  }

  // An untagged selector meets the derived aggregate beside its tagged sources.
  lemma UntaggedHits<S, A(!new)>(c: Codec, kind: Kind<S, A>, out: map<string, A>, m: map<string, A>, n: string)
    requires Faithful(c) && Lawful(kind) && CanonicalKeyed(c, m) && IsDerived(c, kind, out, m)
    requires c.good(Untagged(n)) && n in out
    ensures n !in Hits(c, m, TaggedOf(n))
    ensures Hits(c, out, AtLeast(Untagged(n))) == map[n := out[n]] + Hits(c, m, TaggedOf(n))
  {
    UntaggedDecodes(c, n);
    forall k | k != n
      ensures k in out && Hit(c, AtLeast(Untagged(n)), k) <==> k in Hits(c, m, TaggedOf(n))
      ensures k in Hits(c, m, TaggedOf(n)) ==> out[k] == m[k]
    {
      UntaggedHitAt(c, kind, out, m, n, k);
    }
  }

  // So its merge over the snapshot counts the tagged samples a second time.
  lemma UntaggedMergeCountsTwice<S, A(!new)>(c: Codec, kind: Kind<S, A>, out: map<string, A>, m: map<string, A>, n: string)
    requires Faithful(c) && Lawful(kind) && CanonicalKeyed(c, m) && IsDerived(c, kind, out, m) && c.good(Untagged(n))
    ensures Total(kind, Hits(c, out, AtLeast(Untagged(n))))
         == kind.merge(Total(kind, Hits(c, m, AtLeast(Untagged(n)))), Total(kind, Hits(c, m, TaggedOf(n))))
  {
    DerivedUntagged(c, kind, out, m, n);
    if n in out {
      UntaggedHits(c, kind, out, m, n);
      var own := map[n := out[n]];
      TotalUnion(kind, own, Hits(c, m, TaggedOf(n)));
      TotalOne(kind, own, n);
    } else {
      NothingDerived(c, kind, out, m, n);
      assert UnitIsNeutral(kind, kind.unit);
    }
  }

  lemma NothingDerived<S, A(!new)>(c: Codec, kind: Kind<S, A>, out: map<string, A>, m: map<string, A>, n: string)
    requires Faithful(c) && CanonicalKeyed(c, m) && IsDerived(c, kind, out, m)
    requires Hits(c, m, AtLeast(Untagged(n))) == map[]
    ensures Hits(c, out, AtLeast(Untagged(n))) == map[] && Hits(c, m, TaggedOf(n)) == map[]
  {
    forall k | k in m ensures !Hit(c, AtLeast(Untagged(n)), k) {
      assert k !in Hits(c, m, AtLeast(Untagged(n)));
    }
    forall t | t in out ensures !Hit(c, AtLeast(Untagged(n)), t) {
      var k := DerivedComesFrom(c, kind, out, m, t);
      assert IsCanonical(c, k);
    }
  }

  // ----- Snapshot against the log -----

  // One entry more: what a query with tags reads from the snapshot grows by it exactly if
  // the entry is readable and wanted.
  lemma DerivedReadGrows<S, A(!new)>(c: Codec, kind: Kind<S, A>, out: map<string, A>, k: string, v: A, q: Selector)
    requires Faithful(c) && Lawful(kind) && q.tags != map[]
    ensures var now, read := Hits(c, PutAll(kind, out, Targets(c, k), v), AtLeast(q)), Hits(c, out, AtLeast(q));
      now == if Hit(c, AtLeast(q), k) then Put(kind, read, c.encode(c.decode(k).value), v) else read
  {
    match c.decode(k)
    case None => PutUnread(c, kind, out, k, v, q);
    case Some(s) =>
      assert ReadsGood(c, k) && PrintsBack(c, s);
      var own := Put(kind, out, c.encode(s), v);
      HitsPut(c, kind, out, c.encode(s), v, AtLeast(q));
      NameDecodes(c, k);
      if s.tags != map[] {
        assert Targets(c, k)[1..] == [s.name];
        PutUnread(c, kind, own, s.name, v, q);
      }
  }

  lemma PutUnread<S, A(!new)>(c: Codec, kind: Kind<S, A>, out: map<string, A>, t: string, v: A, q: Selector)
    requires !Hit(c, AtLeast(q), t)
    ensures Hits(c, PutAll(kind, out, [t], v), AtLeast(q)) == Hits(c, out, AtLeast(q))
  {
    assert PutAll(kind, out, [t], v) == Put(kind, out, t, v);
    HitsPut(c, kind, out, t, v, AtLeast(q));
  }

  // The entries derived from a store, as one value.
  ghost function DerivedOf<S, A(!new)>(c: Codec, kind: Kind<S, A>, m: map<string, A>): map<string, A>
    decreases |m|
  {
    if m == map[] then map[] else
      var k :| k in m;
      PutAll(kind, DerivedOf(c, kind, m - {k}), Targets(c, k), m[k])
  }

  // What a query merges is the same from a store and from what is derived from it.
  ghost predicate ReadsAlike<S, A(!new)>(c: Codec, kind: Kind<S, A>, out: map<string, A>, m: map<string, A>, q: Query) {
    && Total(kind, Hits(c, out, q)) == Total(kind, Hits(c, m, q))
    && (Hits(c, out, q) == map[] <==> Hits(c, m, q) == map[])
  }

  // So it is for a query with tags, whatever keys the store holds.
  lemma {:induction false} DerivedReadsAgree<S, A(!new)>(c: Codec, kind: Kind<S, A>, m: map<string, A>, q: Selector)
    requires Faithful(c) && Lawful(kind) && q.tags != map[]
    ensures IsDerived(c, kind, DerivedOf(c, kind, m), m) && ReadsAlike(c, kind, DerivedOf(c, kind, m), m, AtLeast(q))
    decreases |m|
  {
    if m == map[] {
      NothingToDerive(c, kind);
    } else {
      var k :| k in m && DerivedOf(c, kind, m) == PutAll(kind, DerivedOf(c, kind, m - {k}), Targets(c, k), m[k]);
      var rest := m - {k};
      var out := DerivedOf(c, kind, rest);
      assert m == rest[k := m[k]];
      DerivedReadsAgree(c, kind, rest, q);
      DerivedGrows(c, kind, out, rest, k, m[k]);
      ReadsStayAlike(c, kind, out, rest, k, m[k], q);
    }
  }

  lemma ReadsStayAlike<S, A(!new)>(c: Codec, kind: Kind<S, A>, out: map<string, A>, m: map<string, A>, k: string, v: A, q: Selector)
    requires Faithful(c) && Lawful(kind) && q.tags != map[] && k !in m && ReadsAlike(c, kind, out, m, AtLeast(q))
    ensures ReadsAlike(c, kind, PutAll(kind, out, Targets(c, k), v), m[k := v], AtLeast(q))
  {
    DerivedReadGrows(c, kind, out, k, v, q);
    HitsPut(c, kind, m, k, v, AtLeast(q));
    assert Put(kind, m, k, v) == m[k := v];
    if Hit(c, AtLeast(q), k) {
      BothGrow(kind, Hits(c, out, AtLeast(q)), c.encode(c.decode(k).value), Hits(c, m, AtLeast(q)), k, v);
    }
  }

  lemma BothGrow<S, A(!new)>(kind: Kind<S, A>, a: map<string, A>, j: string, b: map<string, A>, k: string, v: A)
    requires Lawful(kind) && Total(kind, a) == Total(kind, b)
    ensures Total(kind, Put(kind, a, j, v)) == Total(kind, Put(kind, b, k, v))
    ensures Put(kind, a, j, v) != map[] && Put(kind, b, k, v) != map[]
  {
    TotalPut(kind, a, j, v);
    TotalPut(kind, b, k, v);
    assert j in Put(kind, a, j, v) && k in Put(kind, b, k, v);
  }

  // After any writes, well formed or not, what the snapshot merges for a tagged selector is
  // what the store holds for it, hence the fold over the samples under the keys it reads.
  lemma TaggedSnapshotIsLog<S, A(!new)>(c: Codec, kind: Kind<S, A>, log: seq<Sample<S>>, out: map<string, A>, q: Selector)
    requires Faithful(c) && Lawful(kind) && IsDerived(c, kind, out, Stored(c, kind, log)) && q.tags != map[]
    ensures Total(kind, Hits(c, out, AtLeast(q))) == Total(kind, Hits(c, Stored(c, kind, log), AtLeast(q)))
    ensures Total(kind, Hits(c, out, AtLeast(q))) == Fold(kind, Under(c, log, Reads(c, AtLeast(q))))
    ensures Hits(c, out, AtLeast(q)) == map[] <==> Under(c, log, Reads(c, AtLeast(q))) == []
  {
    var m := Stored(c, kind, log);
    DerivedReadsAgree(c, kind, m, q);
    DerivedIsUnique(c, kind, out, DerivedOf(c, kind, m), m);
    ReadIsLog(c, kind, log, Reads(c, AtLeast(q)));
    HitsAreWhere(c, m, AtLeast(q), "");
  }

  // For a bare name it is that fold merged with the name's tagged samples again.
  lemma UntaggedSnapshotIsLog<S, A(!new)>(c: Codec, kind: Kind<S, A>, log: seq<Sample<S>>, out: map<string, A>, n: string)
    requires Faithful(c) && Lawful(kind) && GoodLog(c, log) && IsDerived(c, kind, out, Stored(c, kind, log))
    requires c.good(Untagged(n))
    ensures Total(kind, Hits(c, out, AtLeast(Untagged(n))))
         == kind.merge(Fold(kind, Matching(log, AtLeast(Untagged(n)))), Fold(kind, Matching(log, TaggedOf(n))))
    ensures n in out <==> Matching(log, AtLeast(Untagged(n))) != []
    ensures n in out ==> out[n] == Fold(kind, Matching(log, AtLeast(Untagged(n))))
  {
    var m := Stored(c, kind, log);
    StoredIsCanonical(c, kind, log);
    UntaggedMergeCountsTwice(c, kind, out, m, n);
    GoodReadIsLog(c, kind, log, AtLeast(Untagged(n)));
    GoodReadIsLog(c, kind, log, TaggedOf(n));
    DerivedUntagged(c, kind, out, m, n);
  }
}
