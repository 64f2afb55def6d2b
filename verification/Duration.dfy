/** Duration strings such as "1h30m" or "100ms", in exact arithmetic up to the final
    rounding to whole nanoseconds. */
module Durations {
  import opened Text

  datatype Error = Empty | Negative | OutOfRange | InvalidNumber | MissingUnit | UnknownUnit

  datatype Result<+T> = Ok(value: T) | Err(error: Error)

  const TWO64: nat := 0x1_0000_0000_0000_0000
  const MICRO: char := '\U{B5}'

  predicate IsDigit(c: char) { '0' <= c <= '9' }
  predicate IsLetter(c: char) { 'a' <= c <= 'z' || 'A' <= c <= 'Z' }
  predicate IsUnitChar(c: char) { IsLetter(c) || c == MICRO }

  // ----- Numbers -----

  predicate AllDigits(s: string) { forall i :: 0 <= i < |s| ==> IsDigit(s[i]) }

  function Whole(s: string): nat
    requires AllDigits(s)
  {
    if s == [] then 0 else 10 * Whole(s[..|s| - 1]) + (s[|s| - 1] as int - '0' as int)
  }

  function Pow10(n: nat): (p: real)
    ensures p >= 1.0
  {
    if n == 0 then 1.0 else 10.0 * Pow10(n - 1)
  }

  // How many digits, or unit characters, a string starts with.
  function Digits(s: string): (n: nat)
    ensures n <= |s| && AllDigits(s[..n]) && (n < |s| ==> !IsDigit(s[n]))
  {
    if s != [] && IsDigit(s[0]) then 1 + Digits(s[1..]) else 0
  }

  function UnitChars(s: string): (n: nat)
    ensures n <= |s| && (n < |s| ==> !IsUnitChar(s[n])) && forall i :: 0 <= i < n ==> IsUnitChar(s[i])
  {
    if s != [] && IsUnitChar(s[0]) then 1 + UnitChars(s[1..]) else 0
  }

  predicate HasPoint(s: string) { Digits(s) < |s| && s[Digits(s)] == '.' }

  // The digits after the decimal point.
  function FractionLength(s: string): nat
    requires HasPoint(s)
  {
    Digits(s[Digits(s) + 1..])
  }

  function Fraction(s: string): string
    requires HasPoint(s)
  {
    s[Digits(s) + 1..][..FractionLength(s)]
  }

  // The length of the number a string starts with, and its value.
  function NumberLength(s: string): (n: nat)
    ensures n <= |s|
  {
    if HasPoint(s) then Digits(s) + 1 + FractionLength(s) else Digits(s)
  }

  predicate SawDigit(s: string) {
    Digits(s) > 0 || (HasPoint(s) && FractionLength(s) > 0)
  }

  function Number(s: string): real {
    if HasPoint(s) then Whole(s[..Digits(s)]) as real + Tenths(Whole(Fraction(s)), FractionLength(s))
    else Whole(s[..Digits(s)]) as real
  }

  // `n` shifted `places` digits behind the decimal point.
  function Tenths(n: nat, places: nat): real { n as real / Pow10(places) }

  function NanosPer(unit: string): (r: Option<real>)
    ensures r.Some? ==> r.value >= 1.0
  {
    if unit == "ns" then Some(1.0)
    else if unit == "us" || unit == [MICRO, 's'] then Some(1_000.0)
    else if unit == "ms" then Some(1_000_000.0)
    else if unit == "s" then Some(1_000_000_000.0)
    else if unit == "m" then Some(60.0 * 1_000_000_000.0)
    else if unit == "h" then Some(60.0 * 60.0 * 1_000_000_000.0)
    else if unit == "d" then Some(24.0 * 60.0 * 60.0 * 1_000_000_000.0)
    else None
  }

  // ----- One number with its unit -----

  // What a number and a unit are worth.
  datatype Rules = Rules(number: string -> real, nanosPer: string -> Option<real>)

  function K6(): Rules { Rules(Number, NanosPer) }

  function Worth(number: real, nanosPer: real): real { number * nanosPer }

  datatype Token = Token(nanos: real, length: nat)

  // The number and the unit a string starts with.
  datatype Shape = Shape(sawDigit: bool, number: nat, unit: nat)

  function ShapeOf(s: string): (h: Shape)
    ensures h.number + h.unit <= |s| && (h.sawDigit ==> h.number >= 1)
  {
    Shape(SawDigit(s), NumberLength(s), UnitChars(s[NumberLength(s)..]))
  }

  function TokenOf(rules: Rules, s: string, h: Shape): (r: Result<Token>)
    requires h.number + h.unit <= |s|
    ensures r.Ok? ==> r.value.length == h.number + h.unit && h.unit > 0 && h.sawDigit
  {
    var unit := s[h.number..h.number + h.unit];
    if !h.sawDigit then Err(InvalidNumber)
    else if unit == [] then Err(MissingUnit)
    else if rules.nanosPer(unit).None? then Err(UnknownUnit)
    else Ok(Token(Worth(rules.number(s[..h.number]), rules.nanosPer(unit).value), h.number + h.unit))
  }

  function FirstToken(rules: Rules, s: string): (r: Result<Token>)
    ensures r.Ok? ==> 2 <= r.value.length <= |s|
  {
    TokenOf(rules, s, ShapeOf(s))
  }

  function Plus(total: real, r: Result<real>): Result<real> {
    if r.Ok? then Ok(total + r.value) else r
  }

  // Reading the first token of a string; a token is never empty.
  type Reader = string -> Result<Token>

  ghost predicate Advances(read: Reader) { forall s :: AdvancesAt(read, s) }

  ghost predicate AdvancesAt(read: Reader, s: string) {
    read(s).Ok? ==> 1 <= read(s).value.length <= |s|
  }

  // The exact number of nanoseconds: tokens up to the end, or the first error.
  function Scan(read: Reader, s: string): Result<real>
    requires Advances(read)
    decreases |s|
  {
    if s == [] then Ok(0.0) else
    assert AdvancesAt(read, s);
    var first := read(s);
    if first.Err? then Err(first.error) else Plus(first.value.nanos, Scan(read, s[first.value.length..]))
  }

  function ReadK6(s: string): Result<Token> { FirstToken(K6(), s) }

  lemma K6Advances()
    ensures Advances(ReadK6)
  {
    forall s ensures AdvancesAt(ReadK6, s) {}
  }

  // ----- The whole parser -----

  // Rounded half away from zero, and saturated to 64 bits.
  function Rounded(nanos: real): nat
    requires nanos >= 0.0
  {
    var n := (nanos + 0.5).Floor;
    if n < TWO64 then n else TWO64 - 1
  }

  function RoundedResult(r: Result<real>): Result<nat> {
    match r
    case Ok(nanos) => if nanos < 0.0 then Err(OutOfRange) else Ok(Rounded(nanos))
    case Err(e) => Err(e)
  }

  predicate DigitsAndPoints(s: string) { forall i :: 0 <= i < |s| ==> IsDigit(s[i]) || s[i] == '.' }

  function Points(s: string): nat {
    if s == [] then 0 else (if s[0] == '.' then 1 else 0) + Points(s[1..])
  }

  function ParseTrimmed(read: Reader, s: string): Result<nat>
    requires Advances(read)
  {
    if s == [] then Err(Empty)
    else if s[0] == '-' then Err(Negative)
    else if AllDigits(s) then (if Whole(s) < TWO64 then Ok(Whole(s) * 1_000_000) else Err(OutOfRange))
    else if DigitsAndPoints(s) && Points(s) == 1 then
      (if SawDigit(s) then RoundedResult(Ok(Number(s) * 1_000_000.0)) else Err(InvalidNumber))
    else RoundedResult(Scan(read, s))
  }

  function ParseWith(read: Reader, s: string): Result<nat>
    requires Advances(read)
  {
    ParseTrimmed(read, Trim(s))
  }

  function Parse(s: string): Result<nat> {
    K6Advances();
    ParseWith(ReadK6, s)
  }

  // ----- The scanning loops -----

  // Move past the digits at `i`.
  method SkipDigits(s: string, i: nat) returns (j: nat)
    requires i <= |s|
    ensures j == i + Digits(s[i..])
  {
    j := i;
    while j < |s| && IsDigit(s[j])
      invariant i <= j <= |s|
      invariant i + Digits(s[i..]) == j + Digits(s[j..])
    {
      assert s[j..][1..] == s[j + 1..];
      j := j + 1;
    }
  }

  method SkipUnit(s: string, i: nat) returns (j: nat)
    requires i <= |s|
    ensures j == i + UnitChars(s[i..])
  {
    j := i;
    while j < |s| && IsUnitChar(s[j])
      invariant i <= j <= |s|
      invariant i + UnitChars(s[i..]) == j + UnitChars(s[j..])
    {
      assert s[j..][1..] == s[j + 1..];
      j := j + 1;
    }
  }

  method ReadNumber(s: string, start: nat) returns (end: nat, sawDigit: bool)
    requires start < |s|
    ensures end == start + NumberLength(s[start..]) && sawDigit == SawDigit(s[start..])
  {
    end := SkipDigits(s, start);
    sawDigit := end > start;
    PointIsAt(s, start, end);
    if end < |s| && s[end] == '.' {
      var point := end;
      end := SkipDigits(s, point + 1);
      sawDigit := sawDigit || end > point + 1;
    }
  }

  lemma PointIsAt(s: string, start: nat, point: nat)
    requires start <= |s| && point == start + Digits(s[start..])
    ensures HasPoint(s[start..]) <==> point < |s| && s[point] == '.'
    ensures HasPoint(s[start..]) ==> FractionLength(s[start..]) == Digits(s[point + 1..])
  {
    if point < |s| {
      assert s[start..][Digits(s[start..]) + 1..] == s[point + 1..];
    }
  }

  method ReadShape(s: string, start: nat) returns (h: Shape)
    requires start < |s|
    ensures h == ShapeOf(s[start..])
  {
    var i, sawDigit := ReadNumber(s, start);
    assert s[start..][i - start..] == s[i..];
    var end := SkipUnit(s, i);
    h := Shape(sawDigit, i - start, end - i);
  }

  ghost predicate IsK6(read: Reader) { forall s :: IsK6At(read, s) }

  ghost predicate IsK6At(read: Reader, s: string) { read(s) == ReadK6(s) }

  method ReadToken(s: string, start: nat, ghost read: Reader) returns (r: Result<Token>)
    requires start < |s| && IsK6(read)
    ensures r == read(s[start..])
  {
    var shape := ReadShape(s, start);
    assert IsK6At(read, s[start..]);
    r := TokenOf(K6(), s[start..], shape);
  }

  lemma ScanFrom(read: Reader, s: string, i: nat, total: real)
    requires Advances(read) && i < |s|
    ensures var first := read(s[i..]);
      && (first.Ok? ==> 1 <= first.value.length <= |s| - i)
      && Plus(total, Scan(read, s[i..])) ==
           if first.Err? then Err(first.error)
           else Plus(total + first.value.nanos, Scan(read, s[i + first.value.length..]))
  {
    assert AdvancesAt(read, s[i..]);
    var first := read(s[i..]);
    if first.Ok? {
      assert s[i..][first.value.length..] == s[i + first.value.length..];
    }
  }

  method ScanAll(s: string, ghost read: Reader) returns (r: Result<real>)
    requires Advances(read) && IsK6(read)
    ensures r == Scan(read, s)
  {
    var i, total := 0, 0.0;
    assert s[0..] == s;
    while i < |s|
      invariant i <= |s|
      invariant Scan(read, s) == Plus(total, Scan(read, s[i..]))
    {
      ScanFrom(read, s, i, total);
      var token := ReadToken(s, i, read);
      if token.Err? { return Err(token.error); }
      total := total + token.value.nanos;
      i := i + token.value.length;
    }
    return Ok(total);
  }

  method ParseTrimmedText(s: string, ghost read: Reader) returns (r: Result<nat>)
    requires Advances(read) && IsK6(read)
    ensures r == ParseTrimmed(read, s)
  {
    if s == [] { return Err(Empty); }
    if s[0] == '-' { return Err(Negative); }
    if AllDigits(s) {
      return if Whole(s) < TWO64 then Ok(Whole(s) * 1_000_000) else Err(OutOfRange);
    }
    if DigitsAndPoints(s) && Points(s) == 1 {
      return if SawDigit(s) then RoundedResult(Ok(Number(s) * 1_000_000.0)) else Err(InvalidNumber);
    }
    var total := ScanAll(s, read);
    return RoundedResult(total);
  }

  method ParseDuration(text: string) returns (r: Result<nat>)
    ensures r == Parse(text)
  {
    K6Advances();
    forall x ensures IsK6At(ReadK6, x) {}
    r := ParseTrimmedText(Trim(text), ReadK6);
  }

  // ----- Joining two strings -----

  predicate StartsNumber(s: string) { s != [] && (IsDigit(s[0]) || s[0] == '.') }

  lemma {:induction false} DigitsJoin(x: string, y: string)
    requires Digits(x) < |x|
    ensures Digits(x + y) == Digits(x)
    decreases |x|
  {
    if IsDigit(x[0]) {
      assert (x + y)[1..] == x[1..] + y;
      DigitsJoin(x[1..], y);
    }
  }

  lemma {:induction false} UnitCharsJoin(x: string, y: string)
    requires UnitChars(x) < |x| || y == [] || StartsNumber(y)
    ensures UnitChars(x + y) == UnitChars(x)
    decreases |x|
  {
    if x == [] {
      assert x + y == y;
    } else if IsUnitChar(x[0]) {
      assert (x + y)[1..] == x[1..] + y;
      UnitCharsJoin(x[1..], y);
    }
  }

  // A number that ends inside `x` is the number of `x + y`.
  lemma NumberJoin(x: string, y: string)
    requires NumberLength(x) < |x|
    ensures NumberLength(x + y) == NumberLength(x) && SawDigit(x + y) == SawDigit(x)
  {
    var d := Digits(x);
    DigitsJoin(x, y);
    if HasPoint(x) {
      assert (x + y)[d + 1..] == x[d + 1..] + y;
      DigitsJoin(x[d + 1..], y);
    }
  }

  lemma ShapeJoin(x: string, y: string)
    requires ShapeOf(x).unit > 0 && (y == [] || StartsNumber(y))
    ensures ShapeOf(x + y) == ShapeOf(x)
  {
    NumberJoin(x, y);
    UnitJoin(x, y, NumberLength(x));
  }

  lemma UnitJoin(x: string, y: string, n: nat)
    requires n <= |x| && (y == [] || StartsNumber(y))
    ensures UnitChars((x + y)[n..]) == UnitChars(x[n..])
  {
    assert (x + y)[n..] == x[n..] + y;
    UnitCharsJoin(x[n..], y);
  }

  // What the first token does not depend on, and how a string that has one begins and
  // goes on.
  ghost predicate JoinsAt(read: Reader, x: string, y: string) {
    read(x).Ok? && (y == [] || StartsNumber(y)) ==> read(x + y) == read(x)
  }

  ghost predicate BeginsAt(read: Reader, x: string) {
    read(x).Ok? ==> StartsNumber(x) && 1 <= read(x).value.length <= |x| && IsUnitChar(x[read(x).value.length - 1])
  }

  ghost predicate Positive(read: Reader, x: string) {
    read(x).Ok? ==> read(x).value.nanos >= 0.0
  }

  ghost predicate Regular(read: Reader) {
    && Advances(read)
    && (forall x, y :: JoinsAt(read, x, y))
    && (forall x :: BeginsAt(read, x))
    && (forall x :: Positive(read, x))
  }

  // Scanning is additive.
  lemma {:induction false} ScanAdds(read: Reader, x: string, y: string)
    requires Regular(read) && Scan(read, x).Ok? && Scan(read, y).Ok?
    ensures Scan(read, x + y) == Ok(Scan(read, x).value + Scan(read, y).value)
    decreases |x|
  {
    if x == [] {
      assert x + y == y;
    } else {
      var n := FirstJoins(read, x, y);
      ScanAdds(read, x[n..], y);
    }
  }

  lemma FirstJoins(read: Reader, x: string, y: string) returns (n: nat)
    requires Regular(read) && x != [] && Scan(read, x).Ok? && Scan(read, y).Ok?
    ensures 1 <= n <= |x| && Scan(read, x[n..]).Ok?
    ensures var first := read(x).value.nanos;
      && Scan(read, x).value == first + Scan(read, x[n..]).value
      && Scan(read, x + y) == Plus(first, Scan(read, x[n..] + y))
  {
    assert AdvancesAt(read, x) && JoinsAt(read, x, y) && BeginsAt(read, y);
    n := read(x).value.length;
    assert (x + y)[n..] == x[n..] + y;
  }

  // A scanned string begins with a number, ends with a unit, and is not negative.
  lemma {:induction false} ScannedShape(read: Reader, x: string)
    requires Regular(read) && Scan(read, x).Ok?
    ensures Scan(read, x).value >= 0.0
    ensures x != [] ==> StartsNumber(x) && IsUnitChar(x[|x| - 1])
    decreases |x|
  {
    if x != [] {
      assert AdvancesAt(read, x) && BeginsAt(read, x) && Positive(read, x);
      ScannedShape(read, x[read(x).value.length..]);
    }
  }

  // ----- The rules of the engine are regular -----

  lemma K6Begins(x: string)
    ensures BeginsAt(ReadK6, x)
  {
    var h := ShapeOf(x);
    if ReadK6(x).Ok? {
      assert ReadK6(x).value.length == h.number + h.unit;
      assert x[h.number..][h.unit - 1] == x[h.number + h.unit - 1];
    }
  }

  lemma {:induction false} K6Joins(x: string, y: string)
    ensures JoinsAt(ReadK6, x, y)
  {
    if ReadK6(x).Ok? && (y == [] || StartsNumber(y)) {
      ShapeJoin(x, y);
      SameToken(K6(), x, y, ShapeOf(x));
    }
  }

  lemma SameToken(rules: Rules, x: string, y: string, h: Shape)
    requires h.number + h.unit <= |x|
    ensures TokenOf(rules, x + y, h) == TokenOf(rules, x, h)
  {
    assert (x + y)[..h.number] == x[..h.number];
    assert (x + y)[h.number..h.number + h.unit] == x[h.number..h.number + h.unit];
  }

  lemma NumberIsNonneg(s: string)
    ensures Number(s) >= 0.0
  {
    if HasPoint(s) { TenthsIsNonneg(Whole(Fraction(s)), FractionLength(s)); }
  }

  lemma TenthsIsNonneg(n: nat, places: nat)
    ensures Tenths(n, places) >= 0.0
  {
  }

  lemma MulNonneg(a: real, b: real)
    requires a >= 0.0 && b >= 0.0
    ensures a * b >= 0.0
  {
  }

  lemma TokenIsNonneg(rules: Rules, x: string, h: Shape)
    requires h.number + h.unit <= |x| && TokenOf(rules, x, h).Ok?
    requires rules.number(x[..h.number]) >= 0.0
    requires rules.nanosPer(x[h.number..h.number + h.unit]).Some? ==> rules.nanosPer(x[h.number..h.number + h.unit]).value >= 0.0
    ensures TokenOf(rules, x, h).value.nanos >= 0.0
  {
    MulNonneg(rules.number(x[..h.number]), rules.nanosPer(x[h.number..h.number + h.unit]).value);
  }

  lemma K6IsPositive(x: string)
    ensures Positive(ReadK6, x)
  {
    var h := ShapeOf(x);
    if ReadK6(x).Ok? {
      NumberIsNonneg(x[..h.number]);
      TokenIsNonneg(K6(), x, h);
    }
  }

  lemma K6IsRegular()
    ensures Regular(ReadK6)
  {
    K6Advances();
    forall x, y ensures JoinsAt(ReadK6, x, y) { K6Joins(x, y); }
    forall x ensures BeginsAt(ReadK6, x) { K6Begins(x); }
    forall x ensures Positive(ReadK6, x) { K6IsPositive(x); }
  }

  // ----- Whole strings -----

  // A string of one or more numbers with their units.
  ghost predicate UnitBearing(read: Reader, s: string) {
    Advances(read) && s != [] && Scan(read, s).Ok?
  }

  // Such a string is accepted as it stands, and its nanoseconds are rounded once.
  lemma UnitBearingParses(read: Reader, s: string)
    requires Regular(read) && UnitBearing(read, s)
    ensures Scan(read, s).value >= 0.0 && ParseWith(read, s) == Ok(Rounded(Scan(read, s).value))
  {
    ScannedShape(read, s);
    UnitEndIsPlain(s);
  }

  lemma UnitEndIsPlain(s: string)
    requires StartsNumber(s) && IsUnitChar(s[|s| - 1])
    ensures Trim(s) == s && s[0] != '-' && !AllDigits(s) && !DigitsAndPoints(s)
  {
    TrimOfTrimmed(s);
  }

  // Durations add: a concatenation is accepted, its exact nanoseconds are the sum, and
  // only the sum is rounded.
  ghost predicate Adds(read: Reader, x: string, y: string) {
    && UnitBearing(read, x) && UnitBearing(read, y) && UnitBearing(read, x + y)
    && var sum := Scan(read, x).value + Scan(read, y).value;
       Scan(read, x + y) == Ok(sum) && sum >= 0.0 && ParseWith(read, x + y) == Ok(Rounded(sum))
  }

  lemma ReaderAdds(read: Reader, x: string, y: string)
    requires Regular(read) && UnitBearing(read, x) && UnitBearing(read, y)
    ensures Adds(read, x, y)
  {
    ScanAdds(read, x, y);
    UnitBearingParses(read, x + y);
  }

  lemma ParseAdds(x: string, y: string)
    requires UnitBearing(ReadK6, x) && UnitBearing(ReadK6, y)
    ensures Adds(ReadK6, x, y)
  {
    K6IsRegular();
    ReaderAdds(ReadK6, x, y);
  }

  // ----- Printed durations parse back -----

  function Digit(d: nat): (c: char)
    requires d < 10
    ensures IsDigit(c) && c as int - '0' as int == d
  {
    ('0' as int + d) as char
  }

  function Decimal(n: nat): (s: string)
    ensures s != [] && AllDigits(s)
  {
    if n < 10 then [Digit(n)] else Decimal(n / 10) + [Digit(n % 10)]
  }

  lemma {:induction false} DecimalParses(n: nat)
    ensures Whole(Decimal(n)) == n
  {
    var s := Decimal(n);
    if n < 10 {
      assert s[..0] == [];
      assert Whole(s[..0]) == 0;
    } else {
      DecimalParses(n / 10);
      assert s[..|s| - 1] == Decimal(n / 10);
    }
  }

  // One amount with its unit.
  datatype Amount = Amount(count: nat, unit: string)

  predicate KnownUnit(unit: string) { NanosPer(unit).Some? }

  lemma KnownUnitsAreUnitChars(unit: string)
    requires KnownUnit(unit)
    ensures unit != [] && forall i :: 0 <= i < |unit| ==> IsUnitChar(unit[i])
  {
    assert IsUnitChar('n') && IsUnitChar('u') && IsUnitChar('m') && IsUnitChar('s') && IsUnitChar('h') && IsUnitChar('d');
  }

  predicate AllKnown(amounts: seq<Amount>) {
    forall i :: 0 <= i < |amounts| ==> KnownUnit(amounts[i].unit)
  }

  function PerOf(a: Amount): real
    requires KnownUnit(a.unit)
  {
    NanosPer(a.unit).value
  }

  function Print(amounts: seq<Amount>): string {
    if amounts == [] then [] else Decimal(amounts[0].count) + amounts[0].unit + Print(amounts[1..])
  }

  function Nanos(amounts: seq<Amount>): real
    requires AllKnown(amounts)
  {
    if amounts == [] then 0.0
    else Worth(amounts[0].count as real, PerOf(amounts[0])) + Nanos(amounts[1..])
  }

  lemma {:induction false} DigitsOf(d: string, u: string)
    requires AllDigits(d) && (u == [] || !IsDigit(u[0]))
    ensures Digits(d + u) == |d|
    decreases |d|
  {
    if d == [] {
      assert d + u == u;
    } else {
      assert (d + u)[1..] == d[1..] + u;
      DigitsOf(d[1..], u);
    }
  }

  lemma {:induction false} UnitCharsOf(u: string)
    requires forall i :: 0 <= i < |u| ==> IsUnitChar(u[i])
    ensures UnitChars(u) == |u|
  {
    if u != [] { UnitCharsOf(u[1..]); }
  }

  lemma PrintedShape(d: string, u: string)
    requires AllDigits(d) && d != [] && u != [] && forall i :: 0 <= i < |u| ==> IsUnitChar(u[i])
    ensures ShapeOf(d + u) == Shape(true, |d|, |u|)
  {
    DigitsOf(d, u);
    UnitCharsOf(u);
    assert (d + u)[|d|] == u[0];
    assert (d + u)[|d|..] == u;
  }

  lemma NumberOfDecimal(n: nat)
    ensures Number(Decimal(n)) == n as real
  {
    var d := Decimal(n);
    assert d + [] == d && d[..|d|] == d;
    DigitsOf(d, []);
    DecimalParses(n);
  }

  lemma OneAmountReads(rules: Rules, d: string, u: string, h: Shape, number: real, per: real)
    requires h == Shape(true, |d|, |u|) && u != []
    requires rules.number(d) == number && rules.nanosPer(u) == Some(per)
    ensures TokenOf(rules, d + u, h) == Ok(Token(Worth(number, per), |d| + |u|))
  {
    assert (d + u)[..|d|] == d && (d + u)[|d|..|d| + |u|] == u;
  }

  // An amount on its own is read as its worth.
  ghost predicate ReadsAmount(read: Reader, a: Amount) {
    KnownUnit(a.unit) ==>
      read(Decimal(a.count) + a.unit)
        == Ok(Token(Worth(a.count as real, PerOf(a)), |Decimal(a.count)| + |a.unit|))
  }

  lemma K6ReadsAmount(a: Amount)
    ensures ReadsAmount(ReadK6, a)
  {
    if KnownUnit(a.unit) {
      KnownUnitsAreUnitChars(a.unit);
      PrintedShape(Decimal(a.count), a.unit);
      NumberOfDecimal(a.count);
      OneAmountReads(K6(), Decimal(a.count), a.unit, ShapeOf(Decimal(a.count) + a.unit), a.count as real, PerOf(a));
    }
  }

  lemma OneAmountScans(read: Reader, a: Amount)
    requires Advances(read) && KnownUnit(a.unit) && ReadsAmount(read, a)
    ensures Scan(read, Decimal(a.count) + a.unit) == Ok(Worth(a.count as real, PerOf(a)))
  {
    var s := Decimal(a.count) + a.unit;
    assert s[|s|..] == [];
  }

  // A printed list of amounts scans to its total worth.
  lemma {:induction false} PrintedScans(read: Reader, amounts: seq<Amount>)
    requires Regular(read) && AllKnown(amounts) && forall a :: ReadsAmount(read, a)
    ensures Scan(read, Print(amounts)) == Ok(Nanos(amounts))
    decreases |amounts|
  {
    if amounts != [] {
      var a := amounts[0];
      assert ReadsAmount(read, a);
      OneAmountScans(read, a);
      PrintedScans(read, amounts[1..]);
      ScanAdds(read, Decimal(a.count) + a.unit, Print(amounts[1..]));
    }
  }

  ghost predicate ParsesTo(read: Reader, s: string, nanos: real) {
    Advances(read) && nanos >= 0.0 && ParseWith(read, s) == Ok(Rounded(nanos))
  }

  lemma ReaderParsesPrinted(read: Reader, amounts: seq<Amount>)
    requires Regular(read) && AllKnown(amounts) && amounts != [] && forall a :: ReadsAmount(read, a)
    ensures ParsesTo(read, Print(amounts), Nanos(amounts))
  {
    PrintedScans(read, amounts);
    UnitBearingParses(read, Print(amounts));
  }

  // Whatever list of amounts is printed, parsing it gives their total, rounded.
  lemma PrintedParses(amounts: seq<Amount>)
    requires AllKnown(amounts) && amounts != []
    ensures ParsesTo(ReadK6, Print(amounts), Nanos(amounts))
  {
    K6IsRegular();
    forall a ensures ReadsAmount(ReadK6, a) { K6ReadsAmount(a); }
    ReaderParsesPrinted(ReadK6, amounts);
  }

  // ----- Through a double -----

  // A whole number cut below its 53 leading bits: `n == high * ulp + low`.
  datatype Cut = Cut(high: nat, low: nat, ulp: nat)

  function CutBits(n: nat): (c: Cut)
    ensures c.low < c.ulp && n == c.high * c.ulp + c.low
  {
    if n < 0x20_0000_0000_0000 then Cut(n, 0, 1) else
      var c := CutBits(n / 2);
      Doubled(c.high, c.ulp, c.low, n);
      Cut(c.high, 2 * c.low + n % 2, 2 * c.ulp)
  }

  lemma Doubled(high: nat, ulp: nat, low: nat, n: nat)
    requires n / 2 == high * ulp + low
    ensures n == high * (2 * ulp) + (2 * low + n % 2)
  {
    assert high * (2 * ulp) == 2 * (high * ulp);
  }

  // The double nearest to a whole number, ties to the even neighbour.
  function NearestDouble(n: nat): nat {
    var c := CutBits(n);
    c.high * c.ulp + Carry(c)
  }

  // What rounding the low part adds.
  function Carry(c: Cut): nat {
    if 2 * c.low < c.ulp || (2 * c.low == c.ulp && c.high % 2 == 0) then 0 else c.ulp
  }

  // Reading a number text into a double: whole numbers go to the nearest one.
  ghost predicate RoundsWhole(double: real -> real, n: nat) {
    double(n as real) == NearestDouble(n) as real
  }

  // The rules with the number read into a double, as the engine has them.
  function Through(double: real -> real): Rules {
    Rules((s: string) => double(Number(s)), NanosPer)
  }

  function ReadThrough(double: real -> real): Reader {
    (s: string) => FirstToken(Through(double), s)
  }

  lemma ThroughAdvances(double: real -> real)
    ensures Advances(ReadThrough(double))
  {
    forall s ensures AdvancesAt(ReadThrough(double), s) {}
  }

  lemma ThroughReads(double: real -> real, n: nat)
    requires RoundsWhole(double, n)
    ensures ReadThrough(double)(Decimal(n) + "ns")
         == Ok(Token(Worth(NearestDouble(n) as real, 1.0), |Decimal(n)| + 2))
  {
    KnownUnitsAreUnitChars("ns");
    PrintedShape(Decimal(n), "ns");
    NumberOfDecimal(n);
    OneAmountReads(Through(double), Decimal(n), "ns", ShapeOf(Decimal(n) + "ns"), NearestDouble(n) as real, 1.0);
  }

  lemma OneTokenParses(read: Reader, s: string, nanos: real)
    requires Advances(read) && StartsNumber(s) && IsUnitChar(s[|s| - 1]) && nanos >= 0.0
    requires read(s) == Ok(Token(nanos, |s|))
    ensures ParseWith(read, s) == Ok(Rounded(nanos))
  {
    UnitEndIsPlain(s);
    assert s[|s|..] == [];
    assert Scan(read, s) == Ok(nanos);
  }

  lemma StartsWithDigit(n: nat)
    ensures var s := Decimal(n) + "ns"; StartsNumber(s) && IsUnitChar(s[|s| - 1])
  {
  }

  // A number of nanoseconds goes through the nearest double, then saturates.
  lemma NanosecondsParse(double: real -> real, n: nat)
    requires RoundsWhole(double, n)
    ensures Advances(ReadThrough(double))
    ensures ParseWith(ReadThrough(double), Decimal(n) + "ns") == Ok(Rounded(NearestDouble(n) as real))
  {
    ThroughAdvances(double);
    ThroughReads(double, n);
    StartsWithDigit(n);
    OneTokenParses(ReadThrough(double), Decimal(n) + "ns", NearestDouble(n) as real);
  }

  lemma NearestIsExactIff(n: nat)
    ensures NearestDouble(n) == n <==> CutBits(n).low == 0
  {
    CarryIsLowIff(CutBits(n));
  }

  lemma CarryIsLowIff(c: Cut)
    requires c.low < c.ulp
    ensures Carry(c) == c.low <==> c.low == 0
  {
  }

  // The largest duration is above the last double below 2^64, and saturates back.
  lemma LargestRoundsUp()
    ensures NearestDouble(TWO64 - 1) == TWO64
  {
    var h := 0x1f_ffff_ffff_ffff;
    assert CutBits(0x3f_ffff_ffff_ffff) == Cut(h, 1, 2);
    assert CutBits(0x7f_ffff_ffff_ffff) == Cut(h, 3, 4);
    assert CutBits(0xff_ffff_ffff_ffff) == Cut(h, 7, 8);
    assert CutBits(0x1ff_ffff_ffff_ffff) == Cut(h, 15, 16);
    assert CutBits(0x3ff_ffff_ffff_ffff) == Cut(h, 31, 32);
    assert CutBits(0x7ff_ffff_ffff_ffff) == Cut(h, 63, 64);
    assert CutBits(0xfff_ffff_ffff_ffff) == Cut(h, 127, 128);
    assert CutBits(0x1fff_ffff_ffff_ffff) == Cut(h, 255, 256);
    assert CutBits(0x3fff_ffff_ffff_ffff) == Cut(h, 511, 512);
    assert CutBits(0x7fff_ffff_ffff_ffff) == Cut(h, 1023, 1024);
    assert CutBits(TWO64 - 1) == Cut(h, 2047, 2048);
  }

  lemma RoundedNat(m: nat)
    ensures Rounded(m as real) == if m < TWO64 then m else TWO64 - 1
  {
  }

  // A 64-bit duration printed in nanoseconds parses back to itself exactly if it has at
  // most 53 significant bits, or is the largest one.
  lemma NanosecondsRoundTrip(double: real -> real, n: nat)
    requires RoundsWhole(double, n) && n < TWO64
    ensures Advances(ReadThrough(double))
    ensures ParseWith(ReadThrough(double), Decimal(n) + "ns") == Ok(n) <==> CutBits(n).low == 0 || n == TWO64 - 1
  {
    NanosecondsParse(double, n);
    NearestIsExactIff(n);
    RoundedNat(NearestDouble(n));
    if n == TWO64 - 1 { LargestRoundsUp(); }
  }

  lemma SmallIsExact(n: nat)
    requires n <= 0x20_0000_0000_0000
    ensures CutBits(n).low == 0
  {
    if n == 0x20_0000_0000_0000 {
      assert CutBits(n / 2) == Cut(n / 2, 0, 1);
    }
  }

  // So every duration up to 2^53 does, and 2^53 + 1 does not.
  lemma SmallNanosecondsRoundTrip(double: real -> real, n: nat)
    requires RoundsWhole(double, n) && n <= 0x20_0000_0000_0000
    ensures Advances(ReadThrough(double)) && ParseWith(ReadThrough(double), Decimal(n) + "ns") == Ok(n)
  {
    SmallIsExact(n);
    NanosecondsRoundTrip(double, n);
  }

  lemma OddIsRounded()
    ensures NearestDouble(9007199254740993) == 9007199254740992
  {
    var n := 9007199254740993;
    assert CutBits(n / 2) == Cut(4503599627370496, 0, 1);
    assert CutBits(n) == Cut(4503599627370496, 1, 2);
  }

  lemma OddNanosecondsAreLost(double: real -> real, n: nat)
    requires RoundsWhole(double, n) && n == 9007199254740993
    ensures Advances(ReadThrough(double))
    ensures ParseWith(ReadThrough(double), Decimal(n) + "ns") == Ok(n - 1)
  {
    OddIsRounded();
    NanosecondsParse(double, n);
    RoundedNat(n - 1);
  }

  // A tie goes to the even neighbour, up as well as down.
  lemma TiesGoToEven()
    ensures NearestDouble(9007199254740993) == 9007199254740992
    ensures NearestDouble(9007199254740995) == 9007199254740996
  {
    OddIsRounded();
    assert CutBits(4503599627370497) == Cut(4503599627370497, 0, 1);
    assert CutBits(9007199254740995) == Cut(4503599627370497, 1, 2);
  }

  // A bare whole number is milliseconds, if it fits 64 bits.
  lemma BareNumberIsMillis(n: nat)
    ensures Parse(Decimal(n)) == if n < TWO64 then Ok(n * 1_000_000) else Err(OutOfRange)
  {
    K6Advances();
    TrimOfTrimmed(Decimal(n));
    DecimalParses(n);
  }

  // ----- What the units and the decimal point are worth -----

  // A number text followed by a known unit parses to its worth.
  lemma TokenParses(m: string, u: string, value: real, per: real)
    requires NanosPer(u) == Some(per) && m != [] && StartsNumber(m) && ShapeOf(m + u) == Shape(true, |m|, |u|)
    requires Number(m) == value && value >= 0.0
    ensures Worth(value, per) >= 0.0 && Parse(m + u) == Ok(Rounded(Worth(value, per)))
  {
    var s := m + u;
    KnownUnitsAreUnitChars(u);
    assert s[0] == m[0] && s[|s| - 1] == u[|u| - 1];
    K6Advances();
    OneAmountReads(K6(), m, u, ShapeOf(s), value, per);
    MulNonneg(value, per);
    OneTokenParses(ReadK6, s, Worth(value, per));
  }

  lemma WholeParses(n: nat, u: string, per: real)
    requires NanosPer(u) == Some(per)
    ensures Worth(n as real, per) >= 0.0 && Parse(Decimal(n) + u) == Ok(Rounded(Worth(n as real, per)))
  {
    KnownUnitsAreUnitChars(u);
    PrintedShape(Decimal(n), u);
    NumberOfDecimal(n);
    TokenParses(Decimal(n), u, n as real, per);
  }

  // Equal worths parse alike.
  lemma SameWorth(m: nat, u: string, p: real, n: nat, w: string, r: real)
    requires NanosPer(u) == Some(p) && NanosPer(w) == Some(r) && Worth(m as real, p) == Worth(n as real, r)
    ensures Parse(Decimal(m) + u) == Parse(Decimal(n) + w)
  {
    WholeParses(m, u, p);
    WholeParses(n, w, r);
  }

  lemma Scales(n: nat, k: nat, p: real)
    ensures Worth(n as real, k as real * p) == Worth((k * n) as real, p)
  {
    assert (k * n) as real == k as real * n as real;
  }

  // The ladder of units, from nanoseconds up.
  lemma NanosecondsAreThemselves(n: nat)
    ensures Parse(Decimal(n) + "ns") == Ok(if n < TWO64 then n else TWO64 - 1)
  {
    WholeParses(n, "ns", 1.0);
    RoundedNat(n);
  }

  lemma MicrosAreNanos(n: nat)
    ensures Parse(Decimal(n) + "us") == Parse(Decimal(1000 * n) + "ns")
    ensures Parse(Decimal(n) + [MICRO, 's']) == Parse(Decimal(n) + "us")
  {
    Scales(n, 1000, 1.0);
    SameWorth(n, "us", 1_000.0, 1000 * n, "ns", 1.0);
    SameWorth(n, [MICRO, 's'], 1_000.0, n, "us", 1_000.0);
  }

  lemma MillisAreMicros(n: nat)
    ensures Parse(Decimal(n) + "ms") == Parse(Decimal(1000 * n) + "us")
  {
    Scales(n, 1000, 1_000.0);
    SameWorth(n, "ms", 1_000_000.0, 1000 * n, "us", 1_000.0);
  }

  lemma SecondsAreMillis(n: nat)
    ensures Parse(Decimal(n) + "s") == Parse(Decimal(1000 * n) + "ms")
  {
    Scales(n, 1000, 1_000_000.0);
    SameWorth(n, "s", 1_000_000_000.0, 1000 * n, "ms", 1_000_000.0);
  }

  lemma MinutesAreSeconds(n: nat)
    ensures Parse(Decimal(n) + "m") == Parse(Decimal(60 * n) + "s")
  {
    Scales(n, 60, 1_000_000_000.0);
    SameWorth(n, "m", 60_000_000_000.0, 60 * n, "s", 1_000_000_000.0);
  }

  lemma HoursAreMinutes(n: nat)
    ensures Parse(Decimal(n) + "h") == Parse(Decimal(60 * n) + "m")
  {
    Scales(n, 60, 60_000_000_000.0);
    SameWorth(n, "h", 3_600_000_000_000.0, 60 * n, "m", 60_000_000_000.0);
  }

  lemma DaysAreHours(n: nat)
    ensures Parse(Decimal(n) + "d") == Parse(Decimal(24 * n) + "h")
  {
    Scales(n, 24, 3_600_000_000_000.0);
    SameWorth(n, "d", 86_400_000_000_000.0, 24 * n, "h", 3_600_000_000_000.0);
  }

  // The value of a decimal fraction, by moving the point: with nothing behind it, the
  // point does not matter; a digit moved in front of it makes ten times the value.
  function Fractional(a: string, f: string): real
    requires AllDigits(a) && AllDigits(f)
  {
    Whole(a) as real + Tenths(Whole(f), |f|)
  }

  lemma WholeSnoc(a: string, d: char)
    requires AllDigits(a) && IsDigit(d)
    ensures AllDigits(a + [d]) && Whole(a + [d]) == 10 * Whole(a) + (d as int - '0' as int)
  {
    assert (a + [d])[..|a|] == a;
  }

  // A digit in front of `places` more.
  function Ahead(digit: nat, places: nat): nat {
    if places == 0 then digit else 10 * Ahead(digit, places - 1)
  }

  lemma {:induction false} AheadIsPower(digit: nat, places: nat)
    ensures Ahead(digit, places) as real == digit as real * Pow10(places)
  {
    if places > 0 {
      AheadIsPower(digit, places - 1);
      TenTimes(digit as real, Pow10(places - 1));
    }
  }

  lemma TenTimes(digit: real, p: real)
    ensures 10.0 * (digit * p) == digit * (10.0 * p)
  {
  }

  function DigitOf(d: char): nat
    requires IsDigit(d)
  {
    d as int - '0' as int
  }

  lemma {:induction false} WholeCons(d: char, f: string, df: string)
    requires AllDigits(f) && IsDigit(d) && df == [d] + f
    ensures AllDigits(df) && Whole(df) == Ahead(DigitOf(d), |f|) + Whole(f)
    decreases |f|
  {
    if f == [] {
      assert df == [] + [d];
      WholeSnoc([], d);
    } else {
      var front, last := f[..|f| - 1], f[|f| - 1];
      var dfront := [d] + front;
      WholeCons(d, front, dfront);
      assert df == dfront + [last] && f == front + [last];
      WholeSnoc(dfront, last);
      WholeSnoc(front, last);
    }
  }

  lemma PointMoves(a: string, d: char, f: string, ad: string, df: string)
    requires AllDigits(a) && AllDigits(f) && IsDigit(d) && ad == a + [d] && df == [d] + f
    ensures AllDigits(df) && AllDigits(ad)
    ensures 10.0 * Fractional(a, df) == Fractional(ad, f)
  {
    WholeSnoc(a, d);
    WholeCons(d, f, df);
    TenthsCons(DigitOf(d), Whole(f), |f|);
    TenTimesSum(Whole(a), DigitOf(d), Tenths(Whole(df), |df|), Tenths(Whole(f), |f|));
  }

  lemma PointAlone(a: string)
    requires AllDigits(a)
    ensures Fractional(a, "") == Whole(a) as real
  {
    NoTenths();
  }

  lemma TenTimesSum(whole: nat, digit: nat, t: real, u: real)
    requires 10.0 * t == digit as real + u
    ensures 10.0 * (whole as real + t) == (10 * whole + digit) as real + u
  {
  }

  lemma NoTenths()
    ensures Tenths(Whole(""), 0) == 0.0
  {
  }

  lemma TenthsCons(digit: nat, w: nat, places: nat)
    ensures 10.0 * Tenths(Ahead(digit, places) + w, places + 1) == digit as real + Tenths(w, places)
  {
    AheadIsPower(digit, places);
    TenthsMove(digit as real, w as real, Pow10(places), (Ahead(digit, places) + w) as real);
  }

  lemma TenthsMove(digit: real, w: real, p: real, both: real)
    requires p >= 1.0 && both == digit * p + w
    ensures 10.0 * (both / (10.0 * p)) == digit + w / p
  {
    var x, y := both / (10.0 * p), w / p;
    assert x * (10.0 * p) == both && y * p == w;
    assert (10.0 * x) * p == (digit + y) * p;
    CancelPositive(10.0 * x, digit + y, p);
  }

  lemma CancelPositive(x: real, y: real, p: real)
    requires p > 0.0 && x * p == y * p
    ensures x == y
  {
  }

  // A number with a point, followed by something that is no digit.
  lemma PointNumber(a: string, f: string, u: string)
    requires AllDigits(a) && AllDigits(f) && a != [] && (u == [] || !IsDigit(u[0]))
    ensures var s := a + "." + f + u;
      && Digits(s) == |a| && HasPoint(s) && FractionLength(s) == |f| && SawDigit(s)
      && s[..|a|] == a && Fraction(s) == f
  {
    var s, tail := a + "." + f + u, "." + f + u;
    assert s == a + tail;
    DigitsOf(a, tail);
    PointFraction(s, a, f, u);
  }

  lemma PointFraction(s: string, a: string, f: string, u: string)
    requires AllDigits(f) && (u == [] || !IsDigit(u[0])) && s == a + "." + f + u && Digits(s) == |a|
    ensures HasPoint(s) && FractionLength(s) == |f| && Fraction(s) == f
  {
    var rest := s[|a| + 1..];
    assert rest == f + u;
    DigitsOf(f, u);
    assert rest[..|f|] == f;
  }

  lemma PointShape(a: string, f: string, u: string)
    requires AllDigits(a) && AllDigits(f) && a != [] && u != [] && forall i :: 0 <= i < |u| ==> IsUnitChar(u[i])
    ensures var m := a + "." + f;
      ShapeOf(m + u) == Shape(true, |m|, |u|) && Number(m) == Fractional(a, f) && StartsNumber(m)
  {
    var m := a + "." + f;
    PointNumber(a, f, u);
    PointNumber(a, f, "");
    assert m + "" == m;
    assert (m + u)[|m|..] == u;
    UnitCharsOf(u);
    assert m[0] == a[0];
  }

  // A fraction of a unit parses to its worth; seconds written with one decimal are as many
  // hundreds of milliseconds as the number without its point.
  lemma FractionParses(a: string, f: string, u: string, per: real)
    requires NanosPer(u) == Some(per) && AllDigits(a) && AllDigits(f) && a != []
    ensures Worth(Fractional(a, f), per) >= 0.0 && Parse(a + "." + f + u) == Ok(Rounded(Worth(Fractional(a, f), per)))
  {
    KnownUnitsAreUnitChars(u);
    PointShape(a, f, u);
    TenthsIsNonneg(Whole(f), |f|);
    TokenParses(a + "." + f, u, Fractional(a, f), per);
  }

  lemma TenthsOfSeconds(n: nat)
    ensures Parse(Decimal(n / 10) + "." + [Digit(n % 10)] + "s") == Parse(Decimal(100 * n) + "ms")
  {
    var a, f := Decimal(n / 10), [Digit(n % 10)];
    var x := TenthValue(n, a, f);
    TenthOfWorth(x, n);
    FractionParses(a, f, "s", 1_000_000_000.0);
    WholeParses(100 * n, "ms", 1_000_000.0);
  }

  lemma TenthValue(n: nat, a: string, f: string) returns (x: real)
    requires a == Decimal(n / 10) && f == [Digit(n % 10)]
    ensures x == Fractional(a, f) && 10.0 * x == n as real
  {
    x := Fractional(a, f);
    assert f == f + "";
    PointMoves(a, f[0], "", a + f, f);
    WholeSnoc(a, f[0]);
    DecimalParses(n / 10);
    PointAlone(a + f);
  }

  lemma TenthOfWorth(x: real, n: nat)
    requires 10.0 * x == n as real
    ensures Worth(x, 1_000_000_000.0) == Worth((100 * n) as real, 1_000_000.0)
  {
  }

  // ----- What else is refused, and what a bare number with a point is -----

  // A number followed by one character: a letter or the micro sign is read as a unit, of
  // which four are known; anything else is no unit.
  lemma OneCharacterUnit(n: nat, c: char)
    requires !IsDigit(c) && c != '.' && !IsSpace(c)
    ensures var letter := 65 <= c as int <= 90 || 97 <= c as int <= 122 || c as int == 0xB5;
      && (!letter ==> Parse(Decimal(n) + [c]) == Err(MissingUnit))
      && (letter && c !in {'s', 'm', 'h', 'd'} ==> Parse(Decimal(n) + [c]) == Err(UnknownUnit))
      && (c in {'s', 'm', 'h', 'd'} ==> Parse(Decimal(n) + [c]).Ok?)
  {
    var d := Decimal(n);
    var s := d + [c];
    DigitsOf(d, [c]);
    assert s[|d|] == c && s[|d|..] == [c] && s[0] == d[0];
    TrimOfTrimmed(s);
    K6Advances();
    OneCharacterToken(s, d, c);
    if c in {'s', 'm', 'h', 'd'} { WholeParses(n, [c], NanosPer([c]).value); }
  }

  lemma OneCharacterToken(s: string, d: string, c: char)
    requires s == d + [c] && d != [] && Digits(s) == |d| && !HasPoint(s) && s[|d|..] == [c]
    ensures ReadK6(s).Err? <==> !IsUnitChar(c) || NanosPer([c]).None?
    ensures !IsUnitChar(c) ==> ReadK6(s) == Err(MissingUnit)
    ensures IsUnitChar(c) && NanosPer([c]).None? ==> ReadK6(s) == Err(UnknownUnit)
  {
    assert [c][1..] == [];
    assert s[|d|..|d| + UnitChars([c])] == if IsUnitChar(c) then [c] else [];
  }

  // A bare number with one point is milliseconds too; a point alone is no number, and with
  // two points the number ends before the second and has no unit.
  lemma BareFractionIsMillis(a: string, f: string)
    requires AllDigits(a) && AllDigits(f) && a != []
    ensures Fractional(a, f) * 1_000_000.0 >= 0.0
    ensures Parse(a + "." + f) == Ok(Rounded(Fractional(a, f) * 1_000_000.0))
  {
    var s := a + "." + f;
    PointNumber(a, f, "");
    assert s + "" == s;
    OnePoint(a, f);
    assert s[0] == a[0] && s[|a|] == '.';
    TrimOfTrimmed(s);
    TenthsIsNonneg(Whole(f), |f|);
    MulNonneg(Fractional(a, f), 1_000_000.0);
    K6Advances();
  }

  lemma {:induction false} NoPoints(f: string)
    requires AllDigits(f)
    ensures Points(f) == 0
  {
    if f != [] { NoPoints(f[1..]); }
  }

  lemma {:induction false} OnePoint(a: string, f: string)
    requires AllDigits(a) && AllDigits(f)
    ensures Points(a + "." + f) == 1 && DigitsAndPoints(a + "." + f)
    decreases |a|
  {
    var s := a + "." + f;
    if a == [] {
      assert s == "." + f && s[1..] == f;
      NoPoints(f);
    } else {
      assert s[0] == a[0] && s[1..] == a[1..] + "." + f;
      OnePoint(a[1..], f);
    }
  }

  lemma PointAloneIsRefused()
    ensures Parse(".") == Err(InvalidNumber)
  {
    K6Advances();
    TrimOfTrimmed(".");
    assert Digits(".") == 0 && "."[1..] == "";
  }

  lemma TwoPointsAreRefused(a: string, f: string, g: string)
    requires AllDigits(a) && AllDigits(f) && AllDigits(g) && a != []
    ensures Parse(a + "." + f + "." + g) == Err(MissingUnit)
  {
    var s := a + "." + f + ("." + g);
    assert s == a + "." + f + "." + g;
    PointNumber(a, f, "." + g);
    MissingAtPoint(s, a + "." + f, "." + g);
    TwoPointText(s, a, f, g);
    K6Advances();
  }

  lemma MissingAtPoint(s: string, m: string, tail: string)
    requires s == m + tail && NumberLength(s) == |m| && SawDigit(s) && tail != [] && tail[0] == '.'
    ensures ReadK6(s) == Err(MissingUnit)
  {
    assert s[|m|..] == tail;
    assert s[|m|..|m| + 0] == [];
  }

  lemma TwoPointText(s: string, a: string, f: string, g: string)
    requires AllDigits(a) && AllDigits(f) && AllDigits(g) && a != [] && s == a + "." + f + ("." + g)
    ensures Trim(s) == s && s != [] && s[0] != '-' && !AllDigits(s) && Points(s) == 2
  {
    assert s == a + "." + (f + "." + g);
    OnePoint(f, g);
    PointsBefore(a, f + "." + g);
    TwoPointEnds(s, a + "." + f, g);
    assert s[0] == a[0] && s[|a|] == '.';
    TrimOfTrimmed(s);
  }

  lemma TwoPointEnds(s: string, m: string, g: string)
    requires AllDigits(g) && s == m + ("." + g)
    ensures s[|s| - 1] == '.' || IsDigit(s[|s| - 1])
  {
    if g != [] { assert s[|s| - 1] == g[|g| - 1]; }
  }

  lemma {:induction false} PointsBefore(a: string, rest: string)
    requires AllDigits(a)
    ensures Points(a + "." + rest) == 1 + Points(rest)
    decreases |a|
  {
    var s := a + "." + rest;
    if a == [] {
      assert s == "." + rest && s[1..] == rest;
    } else {
      assert s[0] == a[0] && s[1..] == a[1..] + "." + rest;
      PointsBefore(a[1..], rest);
    }
  }
}
