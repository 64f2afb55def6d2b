/** The string operations the engine relies on: trimming, searching, splitting,
    joining, and the byte order that `BTreeMap<String, _>` iterates in.  Strings are
    sequences of Unicode scalar values, whose order is the UTF-8 byte order. */
module Text {

  datatype Option<+T> = None | Some(value: T)

  // ----- Trimming -----

  // The Unicode White_Space property, which Rust's `str::trim` uses.
  predicate IsSpace(c: char) {
    var n := c as int;
    || 9 <= n <= 13 || n == 0x20 || n == 0x85 || n == 0xA0 || n == 0x1680
    || 0x2000 <= n <= 0x200A || n == 0x2028 || n == 0x2029 || n == 0x202F
    || n == 0x205F || n == 0x3000
  }

  // The code points of that property, as the Unicode standard lists them.
  const WHITE_SPACE: set<int> := {
    0x9, 0xA, 0xB, 0xC, 0xD, 0x20, 0x85, 0xA0, 0x1680,
    0x2000, 0x2001, 0x2002, 0x2003, 0x2004, 0x2005, 0x2006, 0x2007, 0x2008, 0x2009, 0x200A,
    0x2028, 0x2029, 0x202F, 0x205F, 0x3000 }

  lemma SpacesAreWhiteSpace(c: char)
    ensures IsSpace(c) <==> c as int in WHITE_SPACE
  {
  }

  predicate Blank(s: string) {
    forall i :: 0 <= i < |s| ==> IsSpace(s[i])
  }

  predicate Trimmed(s: string) {
    s == [] || (!IsSpace(s[0]) && !IsSpace(s[|s| - 1]))
  }

  function TrimStart(s: string): string {
    if s != [] && IsSpace(s[0]) then TrimStart(s[1..]) else s
  }

  function TrimEnd(s: string): string {
    if s != [] && IsSpace(s[|s| - 1]) then TrimEnd(s[..|s| - 1]) else s
  }

  function Trim(s: string): string {
    TrimEnd(TrimStart(s))
  }

  lemma {:induction false} TrimEndPad(t: string, b: string)
    requires Blank(b) && (t == [] || !IsSpace(t[|t| - 1]))
    ensures TrimEnd(t + b) == t
    decreases |b|
  {
    if b == [] {
      assert t + b == t;
    } else {
      assert (t + b)[..|t + b| - 1] == t + b[..|b| - 1];
      TrimEndPad(t, b[..|b| - 1]);
    }
  }

  lemma {:induction false} TrimStartPad(a: string, t: string)
    requires Blank(a) && (t == [] || !IsSpace(t[0]))
    ensures TrimStart(a + t) == t
  {
    if a == [] {
      assert a + t == t;
    } else {
      assert (a + t)[1..] == a[1..] + t;
      TrimStartPad(a[1..], t);
    }
  }

  // Trimming removes exactly the surrounding white space.
  lemma TrimPad(a: string, t: string, b: string)
    requires Blank(a) && Blank(b) && Trimmed(t)
    ensures Trim(a + t + b) == t
  {
    if t == [] {
      assert a + t + b == (a + b) + [];
      assert Blank(a + b);
      TrimStartPad(a + b, []);
    } else {
      assert a + t + b == a + (t + b);
      TrimStartPad(a, t + b);
      TrimEndPad(t, b);
    }
  }

  lemma TrimOfTrimmed(t: string)
    requires Trimmed(t)
    ensures Trim(t) == t
  {
    TrimPad([], t, []);
    assert [] + t + [] == t;
  }

  // Every string is its trimmed core between two blanks.
  lemma {:induction false} TrimSplits(s: string) returns (a: string, b: string)
    ensures Blank(a) && Blank(b) && Trimmed(Trim(s)) && s == a + Trim(s) + b
  {
    a := TrimStartSplits(s);
    b := TrimEndSplits(TrimStart(s));
    var t := TrimStart(s);
    assert s == a + (Trim(s) + b);
    if Trim(s) != [] {
      assert t[0] == Trim(s)[0];
    }
  }

  lemma {:induction false} TrimStartSplits(s: string) returns (a: string)
    ensures Blank(a) && s == a + TrimStart(s)
    ensures TrimStart(s) == [] || !IsSpace(TrimStart(s)[0])
  {
    if s != [] && IsSpace(s[0]) {
      var rest := TrimStartSplits(s[1..]);
      a := [s[0]] + rest;
    } else {
      a := [];
    }
  }

  lemma {:induction false} TrimEndSplits(s: string) returns (b: string)
    ensures Blank(b) && s == TrimEnd(s) + b
    ensures TrimEnd(s) == [] || !IsSpace(TrimEnd(s)[|TrimEnd(s)| - 1])
  {
    if s != [] && IsSpace(s[|s| - 1]) {
      var rest := TrimEndSplits(s[..|s| - 1]);
      b := rest + [s[|s| - 1]];
    } else {
      b := [];
    }
  }

  // ----- Searching -----

  // Position of the first `c`, or `|s|` when there is none.
  function IndexOf(s: string, c: char): (r: nat)
    ensures r <= |s| && c !in s[..r] && (r < |s| ==> s[r] == c)
  {
    if s == [] || s[0] == c then 0 else
      var r := IndexOf(s[1..], c);
      assert s[..r + 1] == [s[0]] + s[1..][..r];
      r + 1
  }

  function LastIndexOf(s: string, c: char): (r: Option<nat>)
    ensures r.None? ==> c !in s
    ensures r.Some? ==> r.value < |s| && s[r.value] == c && c !in s[r.value + 1..]
  {
    if s == [] then None
    else if s[|s| - 1] == c then Some(|s| - 1)
    else
      var r := LastIndexOf(s[..|s| - 1], c);
      assert s == s[..|s| - 1] + [s[|s| - 1]];
      assert r.Some? ==> s[r.value + 1..] == s[..|s| - 1][r.value + 1..] + [s[|s| - 1]];
      r
  }

  lemma IndexOfPrefix(a: string, c: char, b: string)
    requires c !in a
    ensures IndexOf(a + [c] + b, c) == |a|
  {
    var s := a + [c] + b;
    assert s[|a|] == c;
    assert forall i :: 0 <= i < |a| ==> s[i] == a[i];
  }

  lemma LastIndexOfEnd(a: string, c: char)
    ensures LastIndexOf(a + [c], c) == Some(|a|)
  {
    var s := a + [c];
    assert s[|s| - 1] == c;
  }

  lemma IndexOfAbsent(s: string, c: char)
    ensures IndexOf(s, c) == |s| <==> c !in s
  {
    var r := IndexOf(s, c);
    if r < |s| {
      assert s[r] in s;
    } else {
      assert s[..r] == s;
    }
  }

  // ----- Splitting and joining -----

  function Split(s: string, c: char): (parts: seq<string>)
    ensures |parts| >= 1
    ensures forall i :: 0 <= i < |parts| ==> c !in parts[i]
    decreases |s|
  {
    var i := IndexOf(s, c);
    if i == |s| then assert s[..i] == s; [s] else [s[..i]] + Split(s[i + 1..], c)
  }

  function Join(parts: seq<string>, c: char): string {
    if parts == [] then [] else if |parts| == 1 then parts[0] else parts[0] + [c] + Join(parts[1..], c)
  }

  // The first piece, the separator, and the rest.
  lemma JoinCons(head: string, rest: seq<string>, c: char)
    requires rest != []
    ensures Join([head] + rest, c) == head + [c] + Join(rest, c)
  {
    var parts := [head] + rest;
    assert parts[0] == head && parts[1..] == rest;
  }

  lemma SplitCons(head: string, rest: string, c: char)
    requires c !in head
    ensures Split(head + [c] + rest, c) == [head] + Split(rest, c)
  {
    var s := head + [c] + rest;
    IndexOfPrefix(head, c, rest);
    assert s[..|head|] == head;
    assert s[|head| + 1..] == rest;
  }

  lemma {:induction false} SplitJoin(parts: seq<string>, c: char)
    requires parts != [] && forall i :: 0 <= i < |parts| ==> c !in parts[i]
    ensures Split(Join(parts, c), c) == parts
  {
    if |parts| == 1 {
      IndexOfAbsent(parts[0], c);
    } else {
      var head, rest := parts[0], parts[1..];
      assert parts == [head] + rest;
      JoinCons(head, rest, c);
      SplitCons(head, Join(rest, c), c);
      SplitJoin(rest, c);
    }
  }

  // Joining after one more part is appended.
  lemma {:induction false} JoinSnoc(parts: seq<string>, p: string, c: char)
    requires parts != []
    ensures Join(parts + [p], c) == Join(parts, c) + [c] + p
  {
    if |parts| == 1 {
      assert parts + [p] == [parts[0], p];
    } else {
      assert (parts + [p])[1..] == parts[1..] + [p];
      JoinSnoc(parts[1..], p, c);
    }
  }

  // ----- Order -----

  // Strict lexicographic order.
  predicate Below(a: string, b: string) {
    b != [] && (a == [] || a[0] < b[0] || (a[0] == b[0] && Below(a[1..], b[1..])))
  }

  // The first place where the two differ decides, the smaller character going first; a
  // proper prefix goes first.
  lemma {:induction false} BelowMeans(a: string, b: string)
    ensures Below(a, b) <==> a < b || exists i: nat :: FirstDifference(a, b, i) && a[i] as int < b[i] as int
    decreases |a|
  {
    if a != [] && b != [] {
      if a[0] == b[0] {
        BelowMeans(a[1..], b[1..]);
        assert a < b <==> a[1..] < b[1..];
        DifferenceShifts(a, b);
      } else {
        assert FirstDifference(a, b, 0);
      }
    }
  }

  ghost predicate FirstDifference(a: string, b: string, i: nat) {
    i < |a| && i < |b| && a[..i] == b[..i] && a[i] != b[i]
  }

  lemma DifferenceShifts(a: string, b: string)
    requires a != [] && b != [] && a[0] == b[0]
    ensures forall i: nat :: FirstDifference(a[1..], b[1..], i) <==> FirstDifference(a, b, i + 1)
    ensures !FirstDifference(a, b, 0)
  {
    forall i: nat ensures FirstDifference(a[1..], b[1..], i) <==> FirstDifference(a, b, i + 1) {
      if i + 1 <= |a| && i + 1 <= |b| {
        assert a[..i + 1] == [a[0]] + a[1..][..i] && b[..i + 1] == [b[0]] + b[1..][..i];
      }
    }
  }

  lemma BelowIrreflexive(a: string)
    ensures !Below(a, a)
  {
  }

  lemma {:induction false} BelowTransitive(a: string, b: string, c: string)
    requires Below(a, b) && Below(b, c)
    ensures Below(a, c)
  {
    if a != [] && a[0] == b[0] == c[0] {
      BelowTransitive(a[1..], b[1..], c[1..]);
    }
  }

  lemma {:induction false} BelowTotal(a: string, b: string)
    ensures a == b || Below(a, b) || Below(b, a)
  {
    if a != [] && b != [] && a[0] == b[0] {
      BelowTotal(a[1..], b[1..]);
      assert a == [a[0]] + a[1..] && b == [b[0]] + b[1..];
    }
  }

  predicate Ascending(ks: seq<string>) {
    forall i, j :: 0 <= i < j < |ks| ==> Below(ks[i], ks[j])
  }

  predicate IsLeast(k: string, ks: set<string>) {
    k in ks && forall x :: x in ks && x != k ==> Below(k, x)
  }

  lemma {:induction false} LeastExists(ks: set<string>)
    requires ks != {}
    ensures exists k :: IsLeast(k, ks)
    decreases |ks|
  {
    var x :| x in ks;
    if ks == {x} {
      assert IsLeast(x, ks);
    } else {
      assert ks == (ks - {x}) + {x};
      LeastExists(ks - {x});
      var m :| IsLeast(m, ks - {x});
      BelowTotal(x, m);
      if Below(m, x) {
        assert IsLeast(m, ks);
      } else {
        forall y | y in ks && y != x ensures Below(x, y) {
          if y != m { BelowTransitive(x, m, y); }
        }
        assert IsLeast(x, ks);
      }
    }
  }

  lemma LeastUnique(ks: set<string>, a: string, b: string)
    requires IsLeast(a, ks) && IsLeast(b, ks)
    ensures a == b
  {
    if a != b {
      BelowTransitive(a, b, a);
      BelowIrreflexive(a);
    }
  }

  function Least(ks: set<string>): (k: string)
    requires ks != {}
    ensures IsLeast(k, ks)
  {
    LeastExists(ks);
    assert forall a, b :: IsLeast(a, ks) && IsLeast(b, ks) ==> a == b by {
      forall a, b | IsLeast(a, ks) && IsLeast(b, ks) ensures a == b { LeastUnique(ks, a, b); }
    }
    var k :| k in ks && IsLeast(k, ks);
    k
  }

  // The keys of a B-tree map in iteration order.
  function SortedKeys(ks: set<string>): (r: seq<string>)
    ensures forall k :: k in r <==> k in ks
    ensures Ascending(r)
    decreases |ks|
  {
    if ks == {} then [] else
      var k := Least(ks);
      [k] + SortedKeys(ks - {k})
  }

  lemma AscendingHeadIsLeast(ks: set<string>, r: seq<string>)
    requires ks != {} && Ascending(r) && forall k :: k in r <==> k in ks
    ensures r != [] && r[0] == Least(ks)
  {
    var k := Least(ks);
    assert k in r;
    if r[0] != k {
      assert r[0] in ks;
      BelowTransitive(k, r[0], k);
      BelowIrreflexive(k);
    }
  }

  lemma AscendingTail(ks: set<string>, r: seq<string>)
    requires r != [] && Ascending(r) && forall k :: k in r <==> k in ks
    ensures forall x :: x in r[1..] <==> x in ks - {r[0]}
  {
    forall x | x in r[1..] ensures x != r[0] {
      var i :| 0 <= i < |r[1..]| && r[1..][i] == x;
      assert Below(r[0], r[i + 1]);
      BelowIrreflexive(r[0]);
    }
    assert r == [r[0]] + r[1..];
  }

  // Only one ascending enumeration of a key set exists.
  lemma {:induction false} SortedKeysUnique(ks: set<string>, r: seq<string>)
    requires Ascending(r) && forall k :: k in r <==> k in ks
    ensures r == SortedKeys(ks)
    decreases |ks|
  {
    assert |r| > 0 ==> r[0] in ks;
    if ks != {} {
      AscendingHeadIsLeast(ks, r);
      AscendingTail(ks, r);
      SortedKeysUnique(ks - {r[0]}, r[1..]);
      assert r == [r[0]] + r[1..];
    }
  }

  // ----- Two strings joined by a double colon -----

  function Joint(left: string, right: string): string {
    left + "::" + right
  }

  // Exactly when two joints are equal (shorter left part first).
  lemma SharedJoint(m: string, e: string, n: string, f: string)
    requires |m| <= |n|
    ensures Joint(m, e) == Joint(n, f) <==>
      || (m == n && e == f)
      || (n == m + ":" && e == ":" + f)
      || (|n| >= |m| + 2 && n[..|m|] == m && n[|m|] == n[|m| + 1] == ':' && e == Joint(n[|m| + 2..], f))
  {
    var a, b := Joint(m, e), Joint(n, f);
    assert a[..|m|] == m && a[|m| + 2..] == e && a[|m|] == ':' && a[|m| + 1] == ':';
    assert b[..|n|] == n && b[|n| + 2..] == f && b[|n|] == ':' && b[|n| + 1] == ':';
    if a == b {
      if |n| == |m| + 1 {
        assert n == b[..|m|] + [b[|m|]];
        assert e == [b[|m| + 2]] + b[|m| + 3..];
      } else if |n| >= |m| + 2 {
        assert n[..|m|] == a[..|m|] && n[|m|] == b[|m|] && n[|m| + 1] == b[|m| + 1];
        assert b[|m| + 2..] == n[|m| + 2..] + "::" + f;
      }
    }
    if n == m + ":" && e == ":" + f {
      assert a == b;
    }
    if |n| >= |m| + 2 && n[..|m|] == m && n[|m|] == n[|m| + 1] == ':' && e == n[|m| + 2..] + "::" + f {
      assert n == m + "::" + n[|m| + 2..];
      assert a == b;
    }
  }
}
