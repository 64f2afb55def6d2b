/** Cutting a message to the console's byte bound without splitting a character. */
module Utf8 {

  newtype Byte = b: int | 0 <= b < 256

  const MAX_MESSAGE_BYTES: nat := 16 * 1024

  predicate IsContinuation(b: Byte) { 0x80 <= b < 0xC0 }

  // How many bytes the character that starts with this byte takes.
  function Width(lead: Byte): nat {
    if lead < 0x80 then 1 else if lead < 0xE0 then 2 else if lead < 0xF0 then 3 else 4
  }

  predicate StartsWithChar(s: seq<Byte>) {
    && s != [] && !IsContinuation(s[0]) && Width(s[0]) <= |s|
    && forall i :: 1 <= i < Width(s[0]) ==> IsContinuation(s[i])
  }

  // A string: whole characters, one after the other.
  predicate Valid(s: seq<Byte>) {
    s == [] || (StartsWithChar(s) && Valid(s[Width(s[0])..]))
  }

  predicate IsCharBoundary(s: seq<Byte>, i: nat) {
    i == 0 || i == |s| || (i < |s| && !IsContinuation(s[i]))
  }

  // A string cut at a boundary is two strings.
  lemma {:induction false} CutsAreValid(s: seq<Byte>, i: nat)
    requires Valid(s) && i <= |s| && IsCharBoundary(s, i)
    ensures Valid(s[..i]) && Valid(s[i..])
    decreases |s|
  {
    if i == 0 {
      assert s[..0] == [] && s[0..] == s;
    } else {
      var w := Width(s[0]);
      var rest := s[w..];
      FirstIsWhole(s, i);
      CutsAreValid(rest, i - w);
      assert rest[i - w..] == s[i..];
      assert s[..i][w..] == rest[..i - w];
      FirstThenRest(s[..i], rest[..i - w]);
    }
  }

  lemma FirstThenRest(s: seq<Byte>, rest: seq<Byte>)
    requires StartsWithChar(s) && s[Width(s[0])..] == rest && Valid(rest)
    ensures Valid(s)
  {
  }

  lemma FirstIsWhole(s: seq<Byte>, i: nat)
    requires StartsWithChar(s) && 0 < i <= |s| && IsCharBoundary(s, i)
    ensures var w := Width(s[0]); w <= i && StartsWithChar(s[..i]) && s[..i][0] == s[0] && IsCharBoundary(s[w..], i - w)
  {
    assert forall j :: 0 <= j < i ==> s[..i][j] == s[j];
  }

  // From any point of a string, a boundary is at most three bytes back.
  lemma {:induction false} BoundaryIsNear(s: seq<Byte>, i: nat) returns (b: nat)
    requires Valid(s) && i <= |s|
    ensures b <= i <= b + 3 && IsCharBoundary(s, b)
    decreases |s|
  {
    if i == |s| {
      b := i;
    } else if i < Width(s[0]) {
      b := 0;
    } else {
      var w := Width(s[0]);
      var c := BoundaryIsNear(s[w..], i - w);
      b := c + w;
      BoundaryShifts(s, w, c);
    }
  }

  lemma BoundaryShifts(s: seq<Byte>, w: nat, c: nat)
    requires w <= |s| && c <= |s| - w && IsCharBoundary(s[w..], c) && (w < |s| ==> !IsContinuation(s[w]))
    ensures IsCharBoundary(s, c + w)
  {
  }

  // Keep the longest prefix of at most the bound that ends between two characters.
  method Truncate(message: seq<Byte>) returns (kept: seq<Byte>, truncated: bool)
    requires Valid(message)
    ensures truncated <==> |message| > MAX_MESSAGE_BYTES
    ensures !truncated ==> kept == message
    ensures |kept| <= MAX_MESSAGE_BYTES && kept <= message && Valid(kept)
    ensures truncated ==> |kept| >= MAX_MESSAGE_BYTES - 3
    ensures IsCharBoundary(message, |kept|)
    ensures forall k :: |kept| < k <= MAX_MESSAGE_BYTES && k <= |message| ==> !IsCharBoundary(message, k)
  {
    truncated := |message| > MAX_MESSAGE_BYTES;
    if !truncated { return message, false; }
    var end := MAX_MESSAGE_BYTES;
    ghost var b := BoundaryIsNear(message, end);
    while !IsCharBoundary(message, end)
      invariant b <= end <= MAX_MESSAGE_BYTES
      invariant forall k :: end < k <= MAX_MESSAGE_BYTES ==> !IsCharBoundary(message, k)
      decreases end
    {
      end := end - 1;
    }
    CutsAreValid(message, end);
    kept := message[..end];
  }

  // ----- Texts and their bytes -----

  // A Unicode scalar value.
  type Scalar = c: int | 0 <= c < 0xD800 || 0xE000 <= c < 0x110000

  function Tail(bits: int): Byte { (0x80 + bits % 0x40) as Byte }

  // The bytes of a character, by section 3 of RFC 3629.
  function Encode(c: Scalar): (e: seq<Byte>)
    ensures 1 <= |e| <= 4
  {
    if c < 0x80 then [c as Byte]
    else if c < 0x800 then [(0xC0 + c / 0x40) as Byte, Tail(c)]
    else if c < 0x10000 then [(0xE0 + c / 0x1000) as Byte, Tail(c / 0x40), Tail(c)]
    else [(0xF0 + c / 0x40000) as Byte, Tail(c / 0x1000), Tail(c / 0x40), Tail(c)]
  }

  function Bytes(text: seq<Scalar>): seq<Byte> {
    if text == [] then [] else Encode(text[0]) + Bytes(text[1..])
  }

  // Each character is its own first one, and its bytes hold no other start.
  lemma EncodedStarts(c: Scalar, rest: seq<Byte>)
    ensures var s := Encode(c) + rest;
      && StartsWithChar(s) && Width(s[0]) == |Encode(c)| && s[|Encode(c)|..] == rest
      && forall i :: 1 <= i < |Encode(c)| ==> IsContinuation(s[i])
  {
  }

  lemma {:induction false} BytesAreValid(text: seq<Scalar>)
    ensures Valid(Bytes(text))
  {
    if text != [] {
      EncodedStarts(text[0], Bytes(text[1..]));
      BytesAreValid(text[1..]);
    }
  }

  lemma {:induction false} BytesAppend(a: seq<Scalar>, b: seq<Scalar>)
    ensures Bytes(a + b) == Bytes(a) + Bytes(b)
    decreases |a|
  {
    if a == [] {
      assert a + b == b;
    } else {
      var rest := a[1..];
      assert (a + b)[0] == a[0] && (a + b)[1..] == rest + b;
      BytesAppend(rest, b);
    }
  }

  // Past the first byte of a character the next boundary is its end.
  lemma BoundaryPastFirst(c: seq<Byte>, rest: seq<Byte>, i: nat)
    requires c != [] && forall j :: 1 <= j < |c| ==> IsContinuation((c + rest)[j])
    requires 0 < i <= |c + rest| && IsCharBoundary(c + rest, i)
    ensures |c| <= i && IsCharBoundary(rest, i - |c|)
  {
    if |c| <= i < |c + rest| { assert (c + rest)[i] == rest[i - |c|]; }
  }

  // A character before a cut text is the longer text cut.
  lemma CutsOneMore(text: seq<Scalar>, j: nat, m: nat)
    requires text != [] && m < |text| && j <= |Bytes(text[1..])| && Bytes(text[1..][..m]) == Bytes(text[1..])[..j]
    ensures Bytes(text[..m + 1]) == Bytes(text)[..|Encode(text[0])| + j]
  {
    var c, rest := Encode(text[0]), Bytes(text[1..]);
    assert text[..m + 1][0] == text[0] && text[..m + 1][1..] == text[1..][..m];
    assert (c + rest)[..|c| + j] == c + rest[..j];
  }

  // The boundaries of a text's bytes are exactly the ends of its first characters.
  lemma {:induction false} BoundaryIsPrefix(text: seq<Scalar>, i: nat) returns (k: nat)
    requires i <= |Bytes(text)| && IsCharBoundary(Bytes(text), i)
    ensures k <= |text| && Bytes(text[..k]) == Bytes(text)[..i] && |Bytes(text[..k])| == i
    decreases |text|
  {
    if i == 0 {
      k := 0;
    } else {
      var c, rest := Encode(text[0]), text[1..];
      EncodedStarts(text[0], Bytes(rest));
      BoundaryPastFirst(c, Bytes(rest), i);
      var m := BoundaryIsPrefix(rest, i - |c|);
      k := m + 1;
      CutsOneMore(text, i - |c|, m);
    }
  }

  lemma PrefixIsBoundary(text: seq<Scalar>, k: nat)
    requires k <= |text|
    ensures |Bytes(text[..k])| <= |Bytes(text)| && IsCharBoundary(Bytes(text), |Bytes(text[..k])|)
  {
    var a, b := text[..k], text[k..];
    assert text == a + b;
    BytesAppend(a, b);
    if b != [] { EncodedStarts(b[0], Bytes(b[1..])); }
  }

  // What a truncated text is: its first characters, as many as fit.
  lemma TruncatedText(text: seq<Scalar>, kept: seq<Byte>) returns (k: nat)
    requires kept <= Bytes(text) && IsCharBoundary(Bytes(text), |kept|) && |kept| <= MAX_MESSAGE_BYTES
    requires forall i :: |kept| < i <= MAX_MESSAGE_BYTES && i <= |Bytes(text)| ==> !IsCharBoundary(Bytes(text), i)
    ensures k <= |text| && kept == Bytes(text[..k])
    ensures k == |text| || |Bytes(text[..k + 1])| > MAX_MESSAGE_BYTES
  {
    k := BoundaryIsPrefix(text, |kept|);
    if k < |text| {
      PrefixIsBoundary(text, k + 1);
      assert text[..k + 1] == text[..k] + [text[k]];
      BytesAppend(text[..k], [text[k]]);
      assert [text[k]][1..] == [];
    }
  }

  // The source's own test of a boundary, on the byte as a signed number.
  lemma ContinuationIsLow(b: Byte)
    ensures IsContinuation(b) <==> (if b as int < 0x80 then b as int else b as int - 0x100) < -0x40
  {
  }

  lemma BoundIsSixteenKilobytes()
    ensures MAX_MESSAGE_BYTES == 16384
  {
  }
}
