/** Structural metric references, `name{k1:v1,k2:v2}`: parsing, the canonical
    printed form, and the proof that the two undo each other. */
module Selectors {
  import opened Text

  datatype Selector = Selector(name: string, tags: map<string, string>)

  datatype ParseError =
    | EmptyName
    | UnbalancedBraces
    | InvalidName(name: string)
    | MalformedTagPair(diagnostic: string)

  datatype Result<+T> = Ok(value: T) | Err(error: ParseError)

  predicate Reserved(c: char) {
    c == '{' || c == '}' || c == ':' || c == ','
  }

  // Reserved in a name or a tag key.
  predicate HasReserved(s: string) {
    exists i :: 0 <= i < |s| && Reserved(s[i])
  }

  // ----- Printing -----

  function PairText(k: string, v: string): string {
    k + ":" + v
  }

  function PairTexts(ks: seq<string>, tags: map<string, string>): seq<string>
    requires forall k :: k in ks ==> k in tags
  {
    seq(|ks|, i requires 0 <= i < |ks| => PairText(ks[i], tags[ks[i]]))
  }

  // The `{k1:v1,k2:v2}` part, empty for an untagged selector.
  function TagText(tags: map<string, string>): string {
    if tags == map[] then "" else "{" + Join(PairTexts(SortedKeys(tags.Keys), tags), ',') + "}"
  }

  function Canonical(s: Selector): string {
    s.name + TagText(s.tags)
  }

  // ----- Parsing -----

  // One `key:value` pair, already trimmed, against the tags read so far.
  function ParsePair(pair: string, tags: map<string, string>): Result<map<string, string>> {
    var colon := IndexOf(pair, ':');
    if pair == "" || colon == |pair| then Err(MalformedTagPair(pair)) else
      var key := Trim(pair[..colon]);
      var value := Trim(pair[colon + 1..]);
      if key == "" || HasReserved(key) || ',' in value then Err(MalformedTagPair(pair))
      else if key in tags then Err(MalformedTagPair("duplicate key: " + key))
      else Ok(tags[key := value])
  }

  function ParsePairs(pairs: seq<string>, tags: map<string, string>): Result<map<string, string>> {
    if pairs == [] then Ok(tags) else
      var r := ParsePair(Trim(pairs[0]), tags);
      if r.Err? then r else ParsePairs(pairs[1..], r.value)
  }

  function ParseTags(inner: string): Result<map<string, string>> {
    if Trim(inner) == "" then Ok(map[]) else ParsePairs(Split(inner, ','), map[])
  }

  // A trimmed selector text whose first `{` is at `open`.
  function ParseTagged(s: string, open: nat): Result<Selector>
    requires open < |s| && s[open] == '{'
  {
    var name := Trim(s[..open]);
    var close := LastIndexOf(s, '}');
    if name == "" then Err(EmptyName)
    else if HasReserved(name) then Err(InvalidName(name))
    else if close.None? || close.value < open || Trim(s[close.value + 1..]) != "" then Err(UnbalancedBraces)
    else
      assert s[close.value] == '}';
      var tags := ParseTags(s[open + 1..close.value]);
      if tags.Err? then Err(tags.error) else Ok(Selector(name, tags.value))
  }

  function Parse(input: string): Result<Selector> {
    var s := Trim(input);
    var open := IndexOf(s, '{');
    if s == "" then Err(EmptyName)
    else if open < |s| then ParseTagged(s, open)
    else if '}' in s then Err(UnbalancedBraces)
    else if HasReserved(s) then Err(InvalidName(s))
    else Ok(Selector(s, map[]))
  }

  // The parser as written: the tag pairs are read in a loop with early returns.
  method ParseSelector(input: string) returns (r: Result<Selector>)
    ensures r == Parse(input)
  {
    var s := Trim(input);
    if s == "" { return Err(EmptyName); }
    var open := IndexOf(s, '{');
    if open == |s| {
      if '}' in s { return Err(UnbalancedBraces); }
      if HasReserved(s) { return Err(InvalidName(s)); }
      return Ok(Selector(s, map[]));
    }
    var name := Trim(s[..open]);
    if name == "" { return Err(EmptyName); }
    if HasReserved(name) { return Err(InvalidName(name)); }
    var close := LastIndexOf(s, '}');
    if close.None? { return Err(UnbalancedBraces); }
    if close.value < open { return Err(UnbalancedBraces); }
    if Trim(s[close.value + 1..]) != "" { return Err(UnbalancedBraces); }
    assert s[open] == '{' && s[close.value] == '}';
    var inner := s[open + 1..close.value];
    if Trim(inner) == "" { return Ok(Selector(name, map[])); }
    var tags := ReadPairs(Split(inner, ','));
    return if tags.Err? then Err(tags.error) else Ok(Selector(name, tags.value));
  }

  // The tag pairs, up to the first that is malformed.
  method ReadPairs(pairs: seq<string>) returns (r: Result<map<string, string>>)
    ensures r == ParsePairs(pairs, map[])
  {
    var tags := map[];
    for i := 0 to |pairs|
      invariant ParsePairs(pairs, map[]) == ParsePairs(pairs[i..], tags)
    {
      assert pairs[i..][1..] == pairs[i + 1..];
      var next := ParsePair(Trim(pairs[i]), tags);
      if next.Err? { return Err(next.error); }
      tags := next.value;
    }
    return Ok(tags);
  }

  // A bare name is refused for its braces, else for a colon or a comma, and for nothing
  // else.
  lemma BareNameIsRead(s: string)
    requires s != "" && Trimmed(s) && '{' !in s
    ensures Parse(s) == if '}' in s then Err(UnbalancedBraces) else if ':' in s || ',' in s then Err(InvalidName(s))
                        else Ok(Selector(s, map[]))
  {
    TrimOfTrimmed(s);
    IndexOfAbsent(s, '{');
  }

  // ----- Well-formed selectors -----

  predicate GoodName(s: string) {
    s != "" && Trimmed(s) && !HasReserved(s)
  }

  predicate GoodValue(s: string) {
    Trimmed(s) && ',' !in s
  }

  predicate GoodTags(tags: map<string, string>) {
    forall k :: k in tags ==> GoodName(k) && GoodValue(tags[k])
  }

  predicate WellFormed(s: Selector) {
    GoodName(s.name) && GoodTags(s.tags)
  }

  lemma ParsePairGood(pair: string, tags: map<string, string>)
    requires GoodTags(tags) && ParsePair(pair, tags).Ok?
    ensures GoodTags(ParsePair(pair, tags).value)
  {
    var colon := IndexOf(pair, ':');
    var _, _ := TrimSplits(pair[..colon]);
    var _, _ := TrimSplits(pair[colon + 1..]);
  }

  lemma {:induction false} ParsePairsGood(pairs: seq<string>, tags: map<string, string>)
    requires GoodTags(tags) && ParsePairs(pairs, tags).Ok?
    ensures GoodTags(ParsePairs(pairs, tags).value)
  {
    if pairs != [] {
      ParsePairGood(Trim(pairs[0]), tags);
      ParsePairsGood(pairs[1..], ParsePair(Trim(pairs[0]), tags).value);
    }
  }

  // Whatever the parser accepts is well formed.
  lemma ParseIsWellFormed(input: string)
    requires Parse(input).Ok?
    ensures WellFormed(Parse(input).value)
  {
    var s := Trim(input);
    var _, _ := TrimSplits(input);
    var open := IndexOf(s, '{');
    if open < |s| { TaggedIsWellFormed(s, open); }
  }

  lemma TaggedIsWellFormed(s: string, open: nat)
    requires open < |s| && s[open] == '{' && ParseTagged(s, open).Ok?
    ensures WellFormed(ParseTagged(s, open).value)
  {
    var _, _ := TrimSplits(s[..open]);
    ParseTagsGood(s[open + 1..LastIndexOf(s, '}').value]);
  }

  lemma ParseTagsGood(inner: string)
    requires ParseTags(inner).Ok?
    ensures GoodTags(ParseTags(inner).value)
  {
    if Trim(inner) != "" { ParsePairsGood(Split(inner, ','), map[]); }
  }

  // ----- Every rendering parses -----

  // A tag pair as a user may write it, with white space around its pieces.
  datatype Entry = Entry(key: string, value: string, pad0: string, pad1: string, pad2: string, pad3: string)
  {
    ghost predicate Good() {
      GoodName(key) && GoodValue(value) && Blank(pad0) && Blank(pad1) && Blank(pad2) && Blank(pad3)
    }
    function Render(): string {
      pad0 + key + pad1 + ":" + pad2 + value + pad3
    }
  }

  ghost predicate GoodEntries(entries: seq<Entry>) {
    && (forall i :: 0 <= i < |entries| ==> entries[i].Good())
    && (forall i, j :: 0 <= i < j < |entries| ==> entries[i].key != entries[j].key)
  }

  function Renders(entries: seq<Entry>): seq<string> {
    seq(|entries|, i requires 0 <= i < |entries| => entries[i].Render())
  }

  function EntryMap(entries: seq<Entry>, tags: map<string, string>): map<string, string> {
    if entries == [] then tags else EntryMap(entries[1..], tags[entries[0].key := entries[0].value])
  }

  lemma NoReserved(s: string, c: char)
    requires Reserved(c) && !HasReserved(s)
    ensures c !in s
  {
  }

  lemma BlankHasNo(s: string, c: char)
    requires Blank(s) && Reserved(c)
    ensures c !in s
  {
  }

  // A trimmed pair text whose key side carries trailing white space only.
  lemma PairCoreParses(key: string, pad1: string, tail: string, value: string, tags: map<string, string>)
    requires GoodName(key) && Blank(pad1) && GoodValue(value) && Trim(tail) == value && key !in tags
    ensures ParsePair((key + pad1) + ":" + tail, tags) == Ok(tags[key := value])
  {
    var keyText := key + pad1;
    NoReserved(key, ':');
    BlankHasNo(pad1, ':');
    IndexOfPrefix(keyText, ':', tail);
    var pair := keyText + ":" + tail;
    assert pair[..|keyText|] == keyText && pair[|keyText| + 1..] == tail;
    TrimPad("", key, pad1);
    assert keyText == "" + key + pad1;
  }

  // What is left of the value side once the whole pair is trimmed.
  function ValueTail(e: Entry): string {
    if e.value == "" then "" else e.pad2 + e.value
  }

  lemma TrimRendered(e: Entry)
    requires e.Good()
    ensures Trim(e.Render()) == (e.key + e.pad1) + ":" + ValueTail(e)
  {
    var core := (e.key + e.pad1) + ":" + ValueTail(e);
    var rest := if e.value == "" then e.pad2 + e.pad3 else e.pad3;
    PairEnds(e.key, e.pad1, ValueTail(e));
    if e.value != "" { assert ValueTail(e)[|ValueTail(e)| - 1] == e.value[|e.value| - 1]; }
    RenderSplits(e);
    TrimPad(e.pad0, core, rest);
  }

  // A pair text begins as its key does and ends as its value side, or in the colon.
  lemma PairEnds(key: string, pad: string, tail: string)
    requires key != []
    ensures var pair := (key + pad) + ":" + tail;
      pair[0] == key[0] && pair[|pair| - 1] == if tail == [] then ':' else tail[|tail| - 1]
  {
  }

  lemma RenderSplits(e: Entry)
    ensures e.Render()
         == e.pad0 + ((e.key + e.pad1) + ":" + ValueTail(e)) + if e.value == "" then e.pad2 + e.pad3 else e.pad3
  {
  }

  lemma RenderedPairParses(e: Entry, tags: map<string, string>)
    requires e.Good() && e.key !in tags
    ensures ParsePair(Trim(e.Render()), tags) == Ok(tags[e.key := e.value])
  {
    TrimRendered(e);
    TrimPad(e.pad2, e.value, "");
    assert e.pad2 + e.value + "" == e.pad2 + e.value;
    assert Trim(ValueTail(e)) == e.value;
    PairCoreParses(e.key, e.pad1, ValueTail(e), e.value, tags);
  }

  lemma {:induction false} RenderedPairsParse(entries: seq<Entry>, tags: map<string, string>)
    requires GoodEntries(entries) && forall e :: e in entries ==> e.key !in tags
    ensures ParsePairs(Renders(entries), tags) == Ok(EntryMap(entries, tags))
  {
    if entries != [] {
      RenderedPairParses(entries[0], tags);
      assert Renders(entries)[1..] == Renders(entries[1..]);
      RenderedPairsParse(entries[1..], tags[entries[0].key := entries[0].value]);
    }
  }

  lemma RenderHasNoComma(e: Entry)
    requires e.Good()
    ensures ',' !in e.Render()
  {
    NoReserved(e.key, ',');
    BlankHasNo(e.pad0, ',');
    BlankHasNo(e.pad1, ',');
    BlankHasNo(e.pad2, ',');
    BlankHasNo(e.pad3, ',');
  }

  lemma {:induction false} JoinKeeps(parts: seq<string>, c: char, d: char)
    requires exists i :: 0 <= i < |parts| && d in parts[i]
    ensures d in Join(parts, c)
  {
    if |parts| > 1 && d !in parts[0] {
      var i :| 0 <= i < |parts| && d in parts[i];
      assert parts[1..][i - 1] == parts[i];
      JoinKeeps(parts[1..], c, d);
    }
  }

  lemma NotAllBlank(s: string, c: char)
    requires c in s && !IsSpace(c)
    ensures Trim(s) != ""
  {
    var a, b := TrimSplits(s);
  }

  // A tagged selector as written: name, tag text, and white space around both.
  function Braced(a: string, name: string, n1: string, inner: string, b: string): string {
    a + (name + n1 + "{" + inner + "}") + b
  }

  lemma BraceSlices(head: string, inner: string, s: string)
    requires s == head + "{" + (inner + "}")
    ensures |s| == |head| + |inner| + 2 && s[|head|] == '{'
    ensures s[..|head|] == head && s[|head| + 1..|s| - 1] == inner && s[|s|..] == ""
    ensures LastIndexOf(s, '}') == Some(|s| - 1)
  {
    assert s == (head + "{" + inner) + "}";
    LastIndexOfEnd(head + "{" + inner, '}');
  }

  lemma TaggedParses(name: string, n1: string, inner: string, s: string)
    requires GoodName(name) && Blank(n1) && ParseTags(inner).Ok?
    requires s == (name + n1) + "{" + (inner + "}")
    ensures |name + n1| < |s| && s[|name + n1|] == '{'
    ensures ParseTagged(s, |name + n1|) == Ok(Selector(name, ParseTags(inner).value))
  {
    BraceSlices(name + n1, inner, s);
    assert Trim(name + n1) == name by {
      TrimPad("", name, n1);
      assert "" + name + n1 == name + n1;
    }
    assert Trim("") == "";
  }

  lemma BracedParses(a: string, name: string, n1: string, inner: string, b: string)
    requires GoodName(name) && Blank(a) && Blank(n1) && Blank(b) && ParseTags(inner).Ok?
    ensures Parse(Braced(a, name, n1, inner, b)) == Ok(Selector(name, ParseTags(inner).value))
  {
    var head := name + n1;
    var s := head + "{" + (inner + "}");
    assert name + n1 + "{" + inner + "}" == s;
    assert Trimmed(s) by {
      assert s[0] == name[0] && s[|s| - 1] == '}';
    }
    TrimPad(a, s, b);
    assert '{' !in head by {
      NoReserved(name, '{');
      BlankHasNo(n1, '{');
    }
    IndexOfPrefix(head, '{', inner + "}");
    TaggedParses(name, n1, inner, s);
  }

  lemma RenderedTagsParse(entries: seq<Entry>)
    requires entries != [] && GoodEntries(entries)
    ensures ParseTags(Join(Renders(entries), ',')) == Ok(EntryMap(entries, map[]))
  {
    var parts := Renders(entries);
    var e := entries[0];
    assert parts[0] == e.Render();
    assert parts[0][|e.pad0| + |e.key| + |e.pad1|] == ':';
    JoinKeeps(parts, ',', ':');
    NotAllBlank(Join(parts, ','), ':');
    forall i | 0 <= i < |parts| ensures ',' !in parts[i] {
      RenderHasNoComma(entries[i]);
    }
    SplitJoin(parts, ',');
    RenderedPairsParse(entries, map[]);
  }

  // Any spacing and any tag order parse to the same selector.
  lemma RenderingParses(name: string, entries: seq<Entry>, a: string, n1: string, b: string)
    requires GoodName(name) && entries != [] && GoodEntries(entries)
    requires Blank(a) && Blank(n1) && Blank(b)
    ensures Parse(Braced(a, name, n1, Join(Renders(entries), ','), b))
         == Ok(Selector(name, EntryMap(entries, map[])))
  {
    RenderedTagsParse(entries);
    BracedParses(a, name, n1, Join(Renders(entries), ','), b);
  }

  lemma UntaggedParses(name: string, a: string, b: string)
    requires GoodName(name) && Blank(a) && Blank(b)
    ensures Parse(a + name + b) == Ok(Selector(name, map[]))
  {
    TrimPad(a, name, b);
    NoReserved(name, '{');
    NoReserved(name, '}');
    IndexOfAbsent(name, '{');
  }

  // ----- The round trip -----

  function PlainEntries(ks: seq<string>, tags: map<string, string>): seq<Entry>
    requires forall k :: k in ks ==> k in tags
  {
    seq(|ks|, i requires 0 <= i < |ks| => Entry(ks[i], tags[ks[i]], "", "", "", ""))
  }

  lemma {:induction false} EntryMapKeeps(entries: seq<Entry>, tags: map<string, string>, k: string)
    requires k in tags && forall e :: e in entries ==> e.key != k
    ensures k in EntryMap(entries, tags) && EntryMap(entries, tags)[k] == tags[k]
  {
    if entries != [] {
      EntryMapKeeps(entries[1..], tags[entries[0].key := entries[0].value], k);
    }
  }

  lemma {:induction false} EntryMapAt(entries: seq<Entry>, tags: map<string, string>, i: nat)
    requires forall i, j :: 0 <= i < j < |entries| ==> entries[i].key != entries[j].key
    requires i < |entries|
    ensures entries[i].key in EntryMap(entries, tags) && EntryMap(entries, tags)[entries[i].key] == entries[i].value
  {
    var next := tags[entries[0].key := entries[0].value];
    if i == 0 {
      EntryMapKeeps(entries[1..], next, entries[0].key);
    } else {
      EntryMapAt(entries[1..], next, i - 1);
    }
  }

  lemma {:induction false} EntryMapKeys(entries: seq<Entry>, tags: map<string, string>, k: string)
    requires k in EntryMap(entries, tags)
    ensures k in tags || exists i :: 0 <= i < |entries| && entries[i].key == k
  {
    if entries != [] {
      var next := tags[entries[0].key := entries[0].value];
      EntryMapKeys(entries[1..], next, k);
      if k !in next {
        var i :| 0 <= i < |entries[1..]| && entries[1..][i].key == k;
        assert entries[i + 1].key == k;
      }
    }
  }

  lemma PlainEntriesMap(tags: map<string, string>)
    ensures EntryMap(PlainEntries(SortedKeys(tags.Keys), tags), map[]) == tags
  {
    var ks := SortedKeys(tags.Keys);
    var entries := PlainEntries(ks, tags);
    var m := EntryMap(entries, map[]);
    forall i, j | 0 <= i < j < |entries| ensures entries[i].key != entries[j].key {
      BelowIrreflexive(ks[i]);
    }
    forall k | k in tags ensures k in m && m[k] == tags[k] {
      var i :| 0 <= i < |ks| && ks[i] == k;
      EntryMapAt(entries, map[], i);
    }
    forall k | k in m ensures k in tags {
      EntryMapKeys(entries, map[], k);
    }
  }

  lemma PlainRenders(ks: seq<string>, tags: map<string, string>)
    requires forall k :: k in ks ==> k in tags
    ensures Renders(PlainEntries(ks, tags)) == PairTexts(ks, tags)
  {
    var a, b := Renders(PlainEntries(ks, tags)), PairTexts(ks, tags);
    forall i | 0 <= i < |ks| ensures a[i] == b[i] {
      assert a[i] == "" + ks[i] + "" + ":" + "" + tags[ks[i]] + "";
    }
  }

  lemma PlainEntriesGood(tags: map<string, string>)
    requires GoodTags(tags) && tags != map[]
    ensures var entries := PlainEntries(SortedKeys(tags.Keys), tags); entries != [] && GoodEntries(entries)
  {
    var ks := SortedKeys(tags.Keys);
    var entries := PlainEntries(ks, tags);
    forall i, j | 0 <= i < j < |ks| ensures entries[i].key != entries[j].key {
      BelowIrreflexive(ks[i]);
    }
    var k :| k in tags;
    assert k in ks;
    forall i | 0 <= i < |ks| ensures entries[i].Good() {
      assert ks[i] in tags;
    }
  }

  lemma CanonicalIsBraced(s: Selector)
    requires s.tags != map[]
    ensures Canonical(s) == Braced("", s.name, "", Join(PairTexts(SortedKeys(s.tags.Keys), s.tags), ','), "")
  {
    var inner := Join(PairTexts(SortedKeys(s.tags.Keys), s.tags), ',');
    assert s.name + ("{" + inner + "}") == "" + (s.name + "" + "{" + inner + "}") + "";
  }

  lemma CanonicalParses(s: Selector)
    requires WellFormed(s)
    ensures Parse(Canonical(s)) == Ok(s)
  {
    if s.tags == map[] {
      assert "" + s.name + "" == Canonical(s);
      UntaggedParses(s.name, "", "");
    } else {
      var ks := SortedKeys(s.tags.Keys);
      PlainEntriesGood(s.tags);
      PlainEntriesMap(s.tags);
      PlainRenders(ks, s.tags);
      CanonicalIsBraced(s);
      RenderingParses(s.name, PlainEntries(ks, s.tags), "", "", "");
    }
  }

  // Printing and parsing undo each other on exactly the well-formed selectors.
  lemma RoundTrip(s: Selector)
    ensures Parse(Canonical(s)) == Ok(s) <==> WellFormed(s)
  {
    if WellFormed(s) {
      CanonicalParses(s);
    } else if Parse(Canonical(s)) == Ok(s) {
      ParseIsWellFormed(Canonical(s));
    }
  }

  // Canonicalising any accepted text is idempotent.
  lemma CanonicalIdempotent(input: string)
    requires Parse(input).Ok?
    ensures Parse(Canonical(Parse(input).value)) == Parse(input)
  {
    ParseIsWellFormed(input);
    CanonicalParses(Parse(input).value);
  }

  // Distinct well-formed selectors print differently.
  lemma CanonicalInjective(s: Selector, t: Selector)
    requires WellFormed(s) && WellFormed(t) && Canonical(s) == Canonical(t)
    ensures s == t
  {
    CanonicalParses(s);
    CanonicalParses(t);
  }

  lemma OneTagCanonical(name: string, k: string, v: string)
    ensures Canonical(Selector(name, map[k := v])) == Braced("", name, "", PairText(k, v), "")
  {
    var tags := map[k := v];
    SortedKeysUnique(tags.Keys, [k]);
    assert PairTexts([k], tags) == [PairText(k, v)];
    CanonicalIsBraced(Selector(name, tags));
  }

  lemma TwoPlainEntries(k: string, a: string, b: string, c: string)
    requires GoodName(k) && GoodName(b) && GoodValue(a) && GoodValue(c) && k != b
    ensures ParseTags(PairText(k, a + "," + b + ":" + c)) == Ok(map[k := a, b := c])
  {
    var x, y := Entry(k, a, "", "", "", ""), Entry(b, c, "", "", "", "");
    var e := [x, y];
    assert Join(Renders(e), ',') == PairText(k, a + "," + b + ":" + c) by {
      assert Renders(e)[1..] == [y.Render()];
      assert x.Render() == k + ":" + a && y.Render() == b + ":" + c;
    }
    assert EntryMap(e, map[]) == map[k := a, b := c] by {
      assert e[1..] == [y] && [y][1..] == [];
      assert EntryMap(e, map[]) == EntryMap([y], map[k := a]) == EntryMap([], map[k := a][b := c]);
    }
    RenderedTagsParse(e);
  }

  // A comma inside a value breaks the round trip: when what follows it looks like
  // a pair, the printed key reads back as a different, two-tag selector.
  lemma CommaBreaksRoundTrip(name: string, k: string, a: string, b: string, c: string)
    requires GoodName(name) && GoodName(k) && GoodName(b) && GoodValue(a) && GoodValue(c) && k != b
    ensures var s := Selector(name, map[k := a + "," + b + ":" + c]);
      !WellFormed(s) && Parse(Canonical(s)) == Ok(Selector(name, map[k := a, b := c]))
  {
    var value := a + "," + b + ":" + c;
    OneTagCanonical(name, k, value);
    TwoPlainEntries(k, a, b, c);
    BracedParses("", name, "", PairText(k, value), "");
    assert !GoodValue(value) by { assert value[|a|] == ','; }
    assert map[k := value][k] == value;
  }
}
