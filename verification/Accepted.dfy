/** Exactly which texts the selector parser accepts, and as what. */
module AcceptedTexts {
  import opened Text
  import opened Selectors

  // A bare name with white space around it.
  ghost predicate BareText(input: string, s: Selector, a: string, b: string) {
    Blank(a) && Blank(b) && s.tags == map[] && input == a + s.name + b
  }

  // A name with nothing but white space between its braces.
  ghost predicate EmptyBraces(input: string, s: Selector, a: string, n1: string, inner: string, b: string) {
    Blank(a) && Blank(n1) && Blank(inner) && Blank(b) && s.tags == map[] && input == Braced(a, s.name, n1, inner, b)
  }

  // A name with its tags, each written once, in any order and with any spacing.
  ghost predicate TagList(input: string, s: Selector, a: string, n1: string, entries: seq<Entry>, b: string) {
    && Blank(a) && Blank(n1) && Blank(b) && entries != [] && GoodEntries(entries)
    && s.tags == EntryMap(entries, map[]) && input == Braced(a, s.name, n1, Join(Renders(entries), ','), b)
  }

  ghost predicate Writes(input: string, s: Selector) {
    && GoodName(s.name)
    && (|| (exists a, b :: BareText(input, s, a, b))
        || (exists a, n1, inner, b :: EmptyBraces(input, s, a, n1, inner, b))
        || (exists a, n1, entries, b :: TagList(input, s, a, n1, entries, b)))
  }

  // ----- Every accepted text is one of these -----

  lemma BlankTrims(x: string)
    ensures Trim(x) == "" <==> Blank(x)
  {
    if Blank(x) {
      TrimPad(x, "", "");
      assert x + "" + "" == x;
    } else {
      var a, b := TrimSplits(x);
    }
  }

  lemma CutAt(s: string, i: nat, c: char)
    requires i < |s| && s[i] == c
    ensures s == s[..i] + [c] + s[i + 1..]
  {
  }

  // What a pair that parses says.
  lemma PairParts(pair: string, tags: map<string, string>)
    requires ParsePair(pair, tags).Ok?
    ensures var colon := IndexOf(pair, ':');
      && colon < |pair|
      && var key, value := Trim(pair[..colon]), Trim(pair[colon + 1..]);
         && key != "" && !HasReserved(key) && ',' !in value && key !in tags
         && ParsePair(pair, tags).value == tags[key := value]
  {
  }

  // A pair that parses is a rendered entry.
  lemma PairIsEntry(text: string, tags: map<string, string>) returns (e: Entry)
    requires ParsePair(Trim(text), tags).Ok?
    ensures e.Good() && e.Render() == text && e.key !in tags
    ensures ParsePair(Trim(text), tags).value == tags[e.key := e.value]
  {
    var left, right := TrimSplits(text);
    PairParts(Trim(text), tags);
    var pair, colon := Trim(text), IndexOf(Trim(text), ':');
    CutAt(pair, colon, ':');
    e := PiecesAreEntry(text, left, pair[..colon], pair[colon + 1..], right);
  }

  lemma PiecesAreEntry(text: string, left: string, key: string, value: string, right: string) returns (e: Entry)
    requires Blank(left) && Blank(right) && text == left + (key + ":" + value) + right
    requires Trim(key) != "" && !HasReserved(Trim(key)) && ',' !in Trim(value)
    ensures e.Good() && e.Render() == text && e.key == Trim(key) && e.value == Trim(value)
  {
    var k0, k1 := TrimSplits(key);
    var v0, v1 := TrimSplits(value);
    e := Entry(Trim(key), Trim(value), left + k0, k1, v0, v1 + right);
    RenderPieces(e, text, left, k0, k1, v0, v1, right, key, value);
  }

  lemma RenderPieces(e: Entry, text: string, left: string, k0: string, k1: string, v0: string, v1: string, right: string,
                     key: string, value: string)
    requires e == Entry(e.key, e.value, left + k0, k1, v0, v1 + right)
    requires text == left + (key + ":" + value) + right && key == k0 + e.key + k1 && value == v0 + e.value + v1
    ensures e.Render() == text
  {
  }

  ghost predicate FreshKeys(entries: seq<Entry>, tags: map<string, string>) {
    forall i :: 0 <= i < |entries| ==> entries[i].key !in tags
  }

  lemma {:induction false} PairsAreEntries(pairs: seq<string>, tags: map<string, string>) returns (entries: seq<Entry>)
    requires ParsePairs(pairs, tags).Ok?
    ensures GoodEntries(entries) && Renders(entries) == pairs && FreshKeys(entries, tags)
    ensures ParsePairs(pairs, tags).value == EntryMap(entries, tags)
    decreases |pairs|
  {
    if pairs == [] {
      entries := [];
    } else {
      var e := PairIsEntry(pairs[0], tags);
      var rest := PairsAreEntries(pairs[1..], tags[e.key := e.value]);
      entries := [e] + rest;
      assert entries[1..] == rest;
      ConsRenders(e, rest, pairs);
      ConsEntries(e, rest, tags);
    }
  }

  lemma ConsRenders(e: Entry, rest: seq<Entry>, pairs: seq<string>)
    requires pairs != [] && e.Render() == pairs[0] && Renders(rest) == pairs[1..]
    ensures Renders([e] + rest) == pairs
  {
    var all := [e] + rest;
    forall i | 0 <= i < |all| ensures Renders(all)[i] == pairs[i] {
      if i > 0 { assert Renders(rest)[i - 1] == pairs[1..][i - 1]; }
    }
  }

  lemma ConsEntries(e: Entry, rest: seq<Entry>, tags: map<string, string>)
    requires e.Good() && e.key !in tags && GoodEntries(rest) && FreshKeys(rest, tags[e.key := e.value])
    ensures GoodEntries([e] + rest) && FreshKeys([e] + rest, tags)
  {
    var all := [e] + rest;
    forall i | 0 <= i < |all| ensures all[i].Good() && all[i].key !in tags {
      if i > 0 { assert all[i] == rest[i - 1]; }
    }
    forall i, j | 0 <= i < j < |all| ensures all[i].key != all[j].key {
      assert all[j] == rest[j - 1];
      if i > 0 { assert all[i] == rest[i - 1]; }
    }
  }

  lemma {:induction false} JoinSplit(s: string, c: char)
    ensures Join(Split(s, c), c) == s
    decreases |s|
  {
    var i := IndexOf(s, c);
    if i < |s| {
      var head, rest := s[..i], s[i + 1..];
      CutAt(s, i, c);
      SplitCons(head, rest, c);
      JoinSplit(rest, c);
      JoinCons(head, Split(rest, c), c);
    } else {
      assert Split(s, c) == [s];
    }
  }

  lemma NoTail(s: string, close: nat)
    requires close < |s| && Blank(s[close + 1..])
    ensures Trimmed(s) ==> close == |s| - 1
  {
    if close + 1 < |s| {
      assert s[close + 1..][|s| - 1 - (close + 1)] == s[|s| - 1];
    }
  }

  lemma NoLead(lead: string, rest: string)
    requires Blank(lead)
    ensures Trimmed(lead + rest) ==> lead == ""
  {
    if lead != "" { assert (lead + rest)[0] == lead[0]; }
  }

  // The head of a trimmed text keeps only white space behind its trimmed core.
  lemma HeadText(head: string, rest: string) returns (n1: string)
    requires Trimmed(head + rest)
    ensures Blank(n1) && Trimmed(Trim(head)) && head == Trim(head) + n1
  {
    var n0;
    n0, n1 := TrimSplits(head);
    assert head + rest == n0 + (Trim(head) + n1 + rest);
    NoLead(n0, Trim(head) + n1 + rest);
  }

  // A trimmed text that parses with braces ends in the closing one.
  lemma ClosesAtEnd(s: string, open: nat)
    requires Trimmed(s) && open < |s| && s[open] == '{' && ParseTagged(s, open).Ok?
    ensures open < |s| - 1 && s[|s| - 1] == '}'
    ensures var sel := ParseTagged(s, open).value;
      sel.name == Trim(s[..open]) && sel.name != "" && !HasReserved(sel.name) && ParseTags(s[open + 1..|s| - 1]) == Ok(sel.tags)
  {
    var close := TaggedFacts(s, open);
    BlankTrims(s[close + 1..]);
    NoTail(s, close);
  }

  lemma TaggedFacts(s: string, open: nat) returns (close: nat)
    requires open < |s| && s[open] == '{' && ParseTagged(s, open).Ok?
    ensures open < close < |s| && s[close] == '}' && Trim(s[close + 1..]) == ""
    ensures var sel := ParseTagged(s, open).value;
      sel.name == Trim(s[..open]) && sel.name != "" && !HasReserved(sel.name) && ParseTags(s[open + 1..close]) == Ok(sel.tags)
  {
    close := LastIndexOf(s, '}').value;
  }

  lemma TaggedText(s: string, open: nat) returns (n1: string)
    requires Trimmed(s) && open < |s| && s[open] == '{' && ParseTagged(s, open).Ok?
    ensures open < |s| - 1
    ensures var inner, sel := s[open + 1..|s| - 1], ParseTagged(s, open).value;
      && Blank(n1) && GoodName(sel.name) && ParseTags(inner) == Ok(sel.tags)
      && s == sel.name + n1 + "{" + inner + "}"
  {
    ClosesAtEnd(s, open);
    assert s == s[..open] + s[open..];
    n1 := HeadText(s[..open], s[open..]);
    CutBraces(s, open);
  }

  lemma CutBraces(s: string, open: nat)
    requires open < |s| - 1 && s[open] == '{' && s[|s| - 1] == '}'
    ensures s == s[..open] + "{" + s[open + 1..|s| - 1] + "}"
  {
  }

  lemma BracedText(a: string, name: string, n1: string, inner: string, b: string, s: string)
    requires s == name + n1 + "{" + inner + "}"
    ensures a + s + b == Braced(a, name, n1, inner, b)
  {
  }

  lemma AcceptedIsWritten(input: string)
    requires Parse(input).Ok?
    ensures Writes(input, Parse(input).value)
  {
    var a, b := TrimSplits(input);
    var s, sel := Trim(input), Parse(input).value;
    var open := IndexOf(s, '{');
    if open == |s| {
      assert BareText(input, sel, a, b);
    } else {
      var n1 := TaggedText(s, open);
      var inner := s[open + 1..|s| - 1];
      BracedText(a, sel.name, n1, inner, b, s);
      BlankTrims(inner);
      if Trim(inner) == "" {
        assert EmptyBraces(input, sel, a, n1, inner, b);
      } else {
        var entries := PairsAreEntries(Split(inner, ','), map[]);
        JoinSplit(inner, ',');
        assert TagList(input, sel, a, n1, entries, b);
      }
    }
  }

  lemma WrittenIsAccepted(input: string, s: Selector)
    requires Writes(input, s)
    ensures Parse(input) == Ok(s)
  {
    if a, b :| BareText(input, s, a, b) {
      UntaggedParses(s.name, a, b);
    } else if a, n1, inner, b :| EmptyBraces(input, s, a, n1, inner, b) {
      BlankTrims(inner);
      BracedParses(a, s.name, n1, inner, b);
    } else {
      var a, n1, entries, b :| TagList(input, s, a, n1, entries, b);
      RenderingParses(s.name, entries, a, n1, b);
    }
  }

  // The accepted language: a text parses to a selector exactly if it writes it.
  lemma AcceptedIff(input: string, s: Selector)
    ensures Parse(input) == Ok(s) <==> Writes(input, s)
  {
    if Parse(input) == Ok(s) { AcceptedIsWritten(input); }
    if Writes(input, s) { WrittenIsAccepted(input, s); }
  }
}
