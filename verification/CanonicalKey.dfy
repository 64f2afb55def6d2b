/** The storage keys of the hot path: the tag suffix built by sorting and
    de-duplicating a tag list, and the linear scan that takes a key apart again
    for the event stream.  Both agree with the selector printer. */
module CanonicalKeys {
  import opened Text
  import opened Selectors
  import Utf8

  type Pair = (string, string)

  // ----- The tag map a list of pairs denotes -----

  // Insertion in order, so a later pair with the same key wins.
  function Insertions(tags: seq<Pair>): map<string, string> {
    if tags == [] then map[]
    else
      var last := tags[|tags| - 1];
      Insertions(tags[..|tags| - 1])[last.0 := last.1]
  }

  lemma {:induction false} InsertionsAppend(a: seq<Pair>, b: seq<Pair>)
    ensures Insertions(a + b) == Insertions(a) + Insertions(b)
    decreases |b|
  {
    if b == [] {
      assert a + b == a;
    } else {
      var t := a + b;
      assert t[|t| - 1] == b[|b| - 1] && t[..|t| - 1] == a + b[..|b| - 1];
      InsertionsAppend(a, b[..|b| - 1]);
    }
  }

  lemma {:induction false} InsertionsKeys(tags: seq<Pair>, k: string)
    ensures k in Insertions(tags) <==> exists i :: 0 <= i < |tags| && tags[i].0 == k
  {
    if tags != [] {
      var n := |tags| - 1;
      InsertionsKeys(tags[..n], k);
      assert forall i :: 0 <= i < n ==> tags[..n][i] == tags[i];
      assert tags[n].0 == k || (k in Insertions(tags) <==> k in Insertions(tags[..n]));
    }
  }

  // The last pair carrying a key decides its value.
  lemma {:induction false} InsertionsLast(tags: seq<Pair>, j: nat)
    requires j < |tags| && forall i :: j < i < |tags| ==> tags[i].0 != tags[j].0
    ensures tags[j].0 in Insertions(tags) && Insertions(tags)[tags[j].0] == tags[j].1
  {
    if j < |tags| - 1 {
      assert tags[..|tags| - 1][j] == tags[j];
      InsertionsLast(tags[..|tags| - 1], j);
    }
  }

  // ----- The stable sort by key -----

  predicate KeysAscend(r: seq<Pair>) {
    forall i, j :: 0 <= i < j < |r| ==> r[i].0 == r[j].0 || Below(r[i].0, r[j].0)
  }

  // Position of the first pair whose key is not below `k`.
  function InsertAt(k: string, r: seq<Pair>): (i: nat)
    ensures i <= |r| && (forall j :: 0 <= j < i ==> Below(r[j].0, k)) && (i < |r| ==> !Below(r[i].0, k))
  {
    if r == [] || !Below(r[0].0, k) then 0 else 1 + InsertAt(k, r[1..])
  }

  function Insert(p: Pair, r: seq<Pair>): seq<Pair> {
    var i := InsertAt(p.0, r);
    r[..i] + [p] + r[i..]
  }

  // Equal keys keep their input order: each pair goes before the later ones.
  function StableSort(tags: seq<Pair>): seq<Pair> {
    if tags == [] then [] else Insert(tags[0], StableSort(tags[1..]))
  }

  lemma InsertAscends(p: Pair, r: seq<Pair>)
    requires KeysAscend(r)
    ensures KeysAscend(Insert(p, r))
  {
    var at := InsertAt(p.0, r);
    forall j | at <= j < |r| ensures p.0 == r[j].0 || Below(p.0, r[j].0) {
      BelowTotal(p.0, r[at].0);
      if at < j && Below(p.0, r[at].0) && p.0 != r[j].0 && r[at].0 != r[j].0 {
        BelowTransitive(p.0, r[at].0, r[j].0);
      }
    }
    var s := Insert(p, r);
    assert forall i :: 0 <= i < |s| ==> s[i] == if i < at then r[i] else if i == at then p else r[i - 1];
  }

  // An entry moves past a map that does not hold its key.
  lemma MoveEntry(k: string, v: string, a: map<string, string>, b: map<string, string>)
    requires k !in a
    ensures a + map[k := v] + b == map[k := v] + (a + b)
  {
  }

  lemma InsertKeepsMap(p: Pair, r: seq<Pair>)
    ensures Insertions(Insert(p, r)) == Insertions([p] + r)
  {
    var i := InsertAt(p.0, r);
    var a, b := r[..i], r[i..];
    assert r == a + b;
    InsertionsAppend([p], r);
    InsertionsAppend(a, b);
    InsertionsAppend(a + [p], b);
    InsertionsAppend(a, [p]);
    BelowIrreflexive(p.0);
    InsertionsKeys(a, p.0);
    assert Insertions([p]) == map[p.0 := p.1] by {
      assert [p][..0] == [];
    }
    MoveEntry(p.0, p.1, Insertions(a), Insertions(b));
  }

  // Sorting changes neither the map nor which pair wins, and it orders the keys.
  lemma {:induction false} StableSortCorrect(tags: seq<Pair>)
    ensures KeysAscend(StableSort(tags)) && |StableSort(tags)| == |tags|
    ensures Insertions(StableSort(tags)) == Insertions(tags)
  {
    if tags != [] {
      StableSortCorrect(tags[1..]);
      var r := StableSort(tags[1..]);
      InsertAscends(tags[0], r);
      InsertKeepsMap(tags[0], r);
      InsertionsAppend([tags[0]], r);
      InsertionsAppend([tags[0]], tags[1..]);
      assert tags == [tags[0]] + tags[1..];
    }
  }

  // ----- Emitting the last pair of each run -----

  // Pair `j` is written unless a later pair shares its key.
  predicate Keep(sorted: seq<Pair>, j: nat)
    requires j < |sorted|
  {
    !(j + 1 < |sorted| && sorted[j + 1].0 == sorted[j].0)
  }

  function Kept(sorted: seq<Pair>, n: nat): seq<Pair>
    requires n <= |sorted|
  {
    if n == 0 then []
    else if Keep(sorted, n - 1) then Kept(sorted, n - 1) + [sorted[n - 1]]
    else Kept(sorted, n - 1)
  }

  function KeysOf(pairs: seq<Pair>): seq<string> {
    seq(|pairs|, i requires 0 <= i < |pairs| => pairs[i].0)
  }

  function TextsOf(pairs: seq<Pair>): seq<string> {
    seq(|pairs|, i requires 0 <= i < |pairs| => PairText(pairs[i].0, pairs[i].1))
  }

  lemma AscendSnoc(kept: seq<Pair>, p: Pair)
    requires Ascending(KeysOf(kept)) && forall q :: q in kept ==> Below(q.0, p.0)
    ensures Ascending(KeysOf(kept + [p]))
  {
    var ks, now := KeysOf(kept), KeysOf(kept + [p]);
    forall i, j | 0 <= i < j < |now| ensures Below(now[i], now[j]) {
      assert kept[i] in kept && now[i] == ks[i];
      if j < |kept| { assert now[j] == ks[j]; }
    }
  }

  lemma {:induction false} KeptAscends(sorted: seq<Pair>, n: nat)
    requires KeysAscend(sorted) && n <= |sorted|
    ensures Ascending(KeysOf(Kept(sorted, n)))
    ensures n < |sorted| ==> forall p :: p in Kept(sorted, n) ==> Below(p.0, sorted[n].0)
  {
    if n > 0 {
      KeptAscends(sorted, n - 1);
      var before := Kept(sorted, n - 1);
      if Keep(sorted, n - 1) {
        AscendSnoc(before, sorted[n - 1]);
      }
      if n < |sorted| {
        forall p | p in Kept(sorted, n) ensures Below(p.0, sorted[n].0) {
          if p in before && sorted[n - 1].0 != sorted[n].0 {
            BelowTransitive(p.0, sorted[n - 1].0, sorted[n].0);
          }
        }
      }
    }
  }

  lemma {:induction false} KeptMembers(sorted: seq<Pair>, n: nat)
    requires n <= |sorted|
    ensures forall p :: p in Kept(sorted, n) <==> exists j :: 0 <= j < n && Keep(sorted, j) && sorted[j] == p
  {
    if n > 0 {
      KeptMembers(sorted, n - 1);
    }
  }

  // A kept pair is the winner of its key.
  lemma KeptWins(sorted: seq<Pair>, j: nat)
    requires KeysAscend(sorted) && j < |sorted| && Keep(sorted, j)
    ensures sorted[j].0 in Insertions(sorted) && Insertions(sorted)[sorted[j].0] == sorted[j].1
  {
    forall i | j < i < |sorted| ensures sorted[i].0 != sorted[j].0 {
      KeepIsLast(sorted, j, i);
    }
    InsertionsLast(sorted, j);
  }

  lemma KeepIsLast(sorted: seq<Pair>, j: nat, i: nat)
    requires KeysAscend(sorted) && j < i < |sorted| && Keep(sorted, j)
    ensures sorted[i].0 != sorted[j].0
  {
    if j + 1 < i && sorted[i].0 == sorted[j].0 {
      BelowTransitive(sorted[j].0, sorted[j + 1].0, sorted[j].0);
      BelowIrreflexive(sorted[j].0);
    }
  }

  // Every key that occurs has a last occurrence, which is kept.
  lemma {:induction false} KeyIsKept(sorted: seq<Pair>, i: nat) returns (j: nat)
    requires i < |sorted|
    ensures i <= j < |sorted| && sorted[j].0 == sorted[i].0 && Keep(sorted, j)
    decreases |sorted| - i
  {
    j := i;
    if !Keep(sorted, i) {
      j := KeyIsKept(sorted, i + 1);
    }
  }

  lemma KeptKeys(sorted: seq<Pair>)
    requires KeysAscend(sorted)
    ensures forall k :: k in KeysOf(Kept(sorted, |sorted|)) <==> k in Insertions(sorted).Keys
  {
    var kept := Kept(sorted, |sorted|);
    var ks := KeysOf(kept);
    KeptMembers(sorted, |sorted|);
    forall k | k in ks ensures k in Insertions(sorted) {
      var i :| 0 <= i < |ks| && ks[i] == k;
      assert kept[i] in kept;
      var j :| 0 <= j < |sorted| && Keep(sorted, j) && sorted[j] == kept[i];
      KeptWins(sorted, j);
    }
    forall k | k in Insertions(sorted) ensures k in ks {
      InsertionsKeys(sorted, k);
      var i :| 0 <= i < |sorted| && sorted[i].0 == k;
      var j := KeyIsKept(sorted, i);
      assert sorted[j] in kept;
      var m :| 0 <= m < |kept| && kept[m] == sorted[j];
      assert ks[m] == k;
    }
  }

  lemma KeptValues(sorted: seq<Pair>, i: nat)
    requires KeysAscend(sorted) && i < |Kept(sorted, |sorted|)|
    ensures var p := Kept(sorted, |sorted|)[i];
      p.0 in Insertions(sorted) && Insertions(sorted)[p.0] == p.1
  {
    var kept := Kept(sorted, |sorted|);
    KeptMembers(sorted, |sorted|);
    assert kept[i] in kept;
    var j :| 0 <= j < |sorted| && Keep(sorted, j) && sorted[j] == kept[i];
    KeptWins(sorted, j);
  }

  // What the loop keeps is the map's sorted listing.
  lemma KeptIsCanonical(sorted: seq<Pair>)
    requires KeysAscend(sorted)
    ensures TextsOf(Kept(sorted, |sorted|)) == PairTexts(SortedKeys(Insertions(sorted).Keys), Insertions(sorted))
  {
    var kept, m := Kept(sorted, |sorted|), Insertions(sorted);
    KeptAscends(sorted, |sorted|);
    KeptKeys(sorted);
    SortedKeysUnique(m.Keys, KeysOf(kept));
    forall i | 0 <= i < |kept| ensures kept[i].0 in m && m[kept[i].0] == kept[i].1 {
      KeptValues(sorted, i);
    }
    TextsOfPairs(kept, m);
  }

  // Pairs that carry the map's values are written as the map's listing writes their keys.
  lemma TextsOfPairs(pairs: seq<Pair>, m: map<string, string>)
    requires forall i :: 0 <= i < |pairs| ==> pairs[i].0 in m && m[pairs[i].0] == pairs[i].1
    requires forall k :: k in KeysOf(pairs) ==> k in m
    ensures TextsOf(pairs) == PairTexts(KeysOf(pairs), m)
  {
    var ks := KeysOf(pairs);
    var a, b := TextsOf(pairs), PairTexts(ks, m);
    forall i | 0 <= i < |pairs| ensures a[i] == b[i] {
      assert ks[i] == pairs[i].0;
    }
  }

  // ----- The hot-path builder -----

  // Sort, then write the last pair of each run of equal keys into a buffer.
  method TagSuffix(tags: seq<Pair>) returns (out: string)
    ensures out == TagText(Insertions(tags))
  {
    if tags == [] { return ""; }
    var sorted := StableSort(tags);
    out := "{";
    var first := true;
    for i := 0 to |sorted|
      invariant first <==> Kept(sorted, i) == []
      invariant out == "{" + Join(TextsOf(Kept(sorted, i)), ',')
    {
      if i + 1 < |sorted| && sorted[i + 1].0 == sorted[i].0 {
        continue;
      }
      assert Kept(sorted, i + 1) == Kept(sorted, i) + [sorted[i]];
      out := Emit(out, first, sorted[i], Kept(sorted, i));
      first := false;
    }
    SuffixIsTagText(tags, sorted);
    out := out + "}";
  }

  // Write one more pair.
  method Emit(before: string, first: bool, p: Pair, ghost kept: seq<Pair>) returns (out: string)
    requires (first <==> kept == []) && before == "{" + Join(TextsOf(kept), ',')
    ensures out == "{" + Join(TextsOf(kept + [p]), ',')
  {
    EmitStep(kept, p);
    out := before;
    if !first {
      out := out + ",";
    }
    out := out + p.0;
    out := out + ":";
    out := out + p.1;
  }

  lemma SuffixIsTagText(tags: seq<Pair>, sorted: seq<Pair>)
    requires tags != [] && sorted == StableSort(tags)
    ensures "{" + Join(TextsOf(Kept(sorted, |sorted|)), ',') + "}" == TagText(Insertions(tags))
  {
    StableSortCorrect(tags);
    KeptIsCanonical(sorted);
    InsertionsLast(tags, |tags| - 1);
  }

  lemma EmitStep(kept: seq<Pair>, p: Pair)
    ensures kept == [] ==> "{" + Join(TextsOf(kept + [p]), ',') == "{" + Join(TextsOf(kept), ',') + p.0 + ":" + p.1
    ensures kept != [] ==> "{" + Join(TextsOf(kept + [p]), ',') == "{" + Join(TextsOf(kept), ',') + "," + p.0 + ":" + p.1
  {
    assert TextsOf(kept + [p]) == TextsOf(kept) + [PairText(p.0, p.1)];
    if kept != [] {
      JoinSnoc(TextsOf(kept), PairText(p.0, p.1), ',');
    }
  }

  method CanonicalKey(name: string, tags: seq<Pair>) returns (key: string)
    ensures key == Canonical(Selector(name, Insertions(tags)))
  {
    var suffix := TagSuffix(tags);
    if suffix == "" {
      key := name;
    } else {
      key := name + suffix;
    }
  }

  // ----- The sink splitter -----

  function SinkPairs(pairs: seq<string>, tags: map<string, string>): map<string, string> {
    if pairs == [] then tags else
      var colon := IndexOf(pairs[0], ':');
      SinkPairs(pairs[1..], if colon < |pairs[0]| then tags[pairs[0][..colon] := pairs[0][colon + 1..]] else tags)
  }

  // A character that takes one byte.
  predicate OneByte(c: char) { c as int < 0x80 }

  // Name and tags of a key, without validation.  The key is cut one byte before its end,
  // which panics (`None`) inside a longer last character.
  function SinkSplit(key: string): Option<(string, map<string, string>)> {
    var brace := IndexOf(key, '{');
    if brace == |key| then Some((key, map[]))
    else if !OneByte(key[|key| - 1]) then None
    else if |key| - 1 <= brace + 1 then Some((key[..brace], map[]))
    else Some((key[..brace], SinkPairs(Split(key[brace + 1..|key| - 1], ','), map[])))
  }

  // The splitter as written: one scan over the comma-separated body.
  method SplitForSink(key: string) returns (r: Option<(string, map<string, string>)>)
    ensures r == SinkSplit(key)
  {
    var brace := IndexOf(key, '{');
    if brace == |key| { return Some((key, map[])); }
    var name := key[..brace];
    if !OneByte(key[|key| - 1]) { return None; }
    var end := |key| - 1;
    if end <= brace + 1 { return Some((name, map[])); }
    var tags := map[];
    var body := Split(key[brace + 1..end], ',');
    for i := 0 to |body|
      invariant SinkPairs(body, map[]) == SinkPairs(body[i..], tags)
    {
      assert body[i..][1..] == body[i + 1..];
      var pair := body[i];
      var colon := IndexOf(pair, ':');
      if colon < |pair| {
        tags := tags[pair[..colon] := pair[colon + 1..]];
      }
    }
    return Some((name, tags));
  }

  // The splitter panics exactly on a braced key whose last character takes several bytes,
  // so never on a canonical key.
  lemma SinkPanicsIff(key: string)
    ensures SinkSplit(key).None? <==> '{' in key && !OneByte(key[|key| - 1])
  {
    IndexOfAbsent(key, '{');
  }

  function Scalars(text: string): seq<Utf8.Scalar> {
    seq(|text|, i requires 0 <= i < |text| => text[i] as int)
  }

  // Which is where one byte before the end falls inside a character.
  lemma SinkPanicsInsideACharacter(key: string)
    ensures var bytes := Utf8.Bytes(Scalars(key));
      SinkSplit(key).None? <==> '{' in key && bytes != [] && !Utf8.IsCharBoundary(bytes, |bytes| - 1)
  {
    SinkPanicsIff(key);
    if '{' in key {
      var last := |key| - 1;
      var c := key[last] as int;
      assert Scalars(key) == Scalars(key[..last]) + [c];
      Utf8.BytesAppend(Scalars(key[..last]), [c]);
      assert Utf8.Bytes([c]) == Utf8.Encode(c) + Utf8.Bytes([]);
      Utf8.EncodedStarts(c, []);
      assert Utf8.Encode(c) + [] == Utf8.Encode(c);
    }
  }

  // Enough for the splitter: no separator where it would be mistaken for one.
  ghost predicate SinkSafe(s: Selector) {
    && '{' !in s.name
    && forall k :: k in s.tags ==> ':' !in k && ',' !in k && ',' !in s.tags[k]
  }

  lemma WellFormedIsSinkSafe(s: Selector)
    requires WellFormed(s)
    ensures SinkSafe(s)
  {
    NoReserved(s.name, '{');
    forall k | k in s.tags ensures ':' !in k && ',' !in k {
      NoReserved(k, ':');
      NoReserved(k, ',');
    }
  }

  lemma {:induction false} SinkReadsPairs(ks: seq<string>, tags: map<string, string>, acc: map<string, string>)
    requires forall k :: k in ks ==> k in tags && ':' !in k
    ensures SinkPairs(PairTexts(ks, tags), acc) == EntryMap(PlainEntries(ks, tags), acc)
  {
    if ks != [] {
      var k, v := ks[0], tags[ks[0]];
      var pair := PairText(k, v);
      IndexOfPrefix(k, ':', v);
      assert pair[..|k|] == k && pair[|k| + 1..] == v;
      assert PairTexts(ks, tags)[1..] == PairTexts(ks[1..], tags);
      assert PlainEntries(ks, tags)[1..] == PlainEntries(ks[1..], tags);
      assert ks[0] in ks;
      SinkReadsPairs(ks[1..], tags, acc[k := v]);
    }
  }

  lemma PairTextsHaveNoComma(ks: seq<string>, tags: map<string, string>)
    requires forall k :: k in ks ==> k in tags && ',' !in k && ',' !in tags[k]
    ensures forall i :: 0 <= i < |ks| ==> ',' !in PairTexts(ks, tags)[i]
  {
    forall i | 0 <= i < |ks| ensures ',' !in PairTexts(ks, tags)[i] {
      assert ks[i] in ks;
    }
  }

  // What stands between the braces.
  function TagBody(tags: map<string, string>): string {
    Join(PairTexts(SortedKeys(tags.Keys), tags), ',')
  }

  lemma SinkReadsTags(tags: map<string, string>)
    requires tags != map[] && SinkSafe(Selector("", tags))
    ensures var inner := TagBody(tags);
      inner != "" && SinkPairs(Split(inner, ','), map[]) == tags
  {
    var ks := SortedKeys(tags.Keys);
    var texts := PairTexts(ks, tags);
    var k :| k in tags;
    assert k in ks;
    assert texts[0][|ks[0]|] == ':';
    JoinKeeps(texts, ',', ':');
    PairTextsHaveNoComma(ks, tags);
    SplitJoin(texts, ',');
    SinkReadsPairs(ks, tags, map[]);
    PlainEntriesMap(tags);
  }

  lemma SinkSplitsBraces(name: string, inner: string, key: string)
    requires '{' !in name && inner != "" && key == name + "{" + (inner + "}")
    ensures SinkSplit(key) == Some((name, SinkPairs(Split(inner, ','), map[])))
  {
    IndexOfPrefix(name, '{', inner + "}");
    BraceSlices(name, inner, key);
  }

  // The scan recovers name and tags from every canonical key.
  lemma SinkRecovers(s: Selector)
    requires SinkSafe(s)
    ensures SinkSplit(Canonical(s)) == Some((s.name, s.tags))
  {
    if s.tags == map[] {
      assert Canonical(s) == s.name;
      IndexOfAbsent(s.name, '{');
    } else {
      var inner := TagBody(s.tags);
      var key := s.name + ("{" + inner + "}");
      assert key == s.name + "{" + (inner + "}");
      SinkReadsTags(s.tags);
      SinkSplitsBraces(s.name, inner, key);
    }
  }

  // For well-formed selectors the fast scan and the full parser agree.
  lemma SinkAgreesWithParser(s: Selector)
    requires WellFormed(s)
    ensures var r := SinkSplit(Canonical(s)); r.Some? && Parse(Canonical(s)) == Ok(Selector(r.value.0, r.value.1))
  {
    WellFormedIsSinkSafe(s);
    SinkRecovers(s);
    CanonicalParses(s);
  }
}
