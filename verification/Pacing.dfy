/** How many arrivals the coordinator fires: the arrival curve as an exact integral,
    and the catch-up loop that fires every arrival whose time has come. */
module Pacing {
  import Arrival

  // ----- The arrival curve -----

  // One stage: the rate moves linearly to `target` over `duration` seconds.
  datatype Stage = Stage(duration: real, target: nat)

  datatype Segment = Segment(start: real, end: real, fromRate: real, toRate: real)

  function Timeline(offset: real, rate: real, stages: seq<Stage>): seq<Segment>
    decreases |stages|
  {
    if stages == [] then [] else
      var end := offset + stages[0].duration;
      [Segment(offset, end, rate, stages[0].target as real)] + Timeline(end, stages[0].target as real, stages[1..])
  }

  function TotalDuration(stages: seq<Stage>): real {
    if stages == [] then 0.0 else stages[0].duration + TotalDuration(stages[1..])
  }

  // Area under the rate over the first `u` seconds of a segment.
  function SegmentArea(g: Segment, u: real): real
    requires g.end - g.start > 0.0
  {
    g.fromRate * u + (g.toRate - g.fromRate) * u * u / (2.0 * (g.end - g.start))
  }

  function Smaller(a: real, b: real): real { if a <= b then a else b }

  function Part(g: Segment, elapsed: real): real {
    if elapsed <= g.start || g.end - g.start <= 0.0 then 0.0
    else SegmentArea(g, Smaller(elapsed, g.end) - g.start)
  }

  // The integral of the rate curve up to `elapsed`, in rate units.
  function Area(segments: seq<Segment>, elapsed: real): real {
    if segments == [] || elapsed <= segments[0].start then 0.0
    else Part(segments[0], elapsed) + Area(segments[1..], elapsed)
  }

  // The loop over the timeline, which stops at the first segment not yet begun.
  method ExpectedArrivals(segments: seq<Segment>, unit: real, elapsed: real) returns (n: real)
    requires unit > 0.0
    ensures n == Area(segments, elapsed) / unit
  {
    var area := 0.0;
    var i := 0;
    while i < |segments| && elapsed > segments[i].start
      invariant 0 <= i <= |segments|
      invariant Area(segments, elapsed) == area + Area(segments[i..], elapsed)
    {
      AreaFrom(segments, i, elapsed);
      var g := segments[i];
      if g.end - g.start > 0.0 {
        area := area + SegmentArea(g, Smaller(elapsed, g.end) - g.start);
      }
      i := i + 1;
    }
    n := area / unit;
  }

  lemma AreaFrom(segments: seq<Segment>, i: nat, elapsed: real)
    requires i < |segments| && elapsed > segments[i].start
    ensures Area(segments[i..], elapsed) == Part(segments[i], elapsed) + Area(segments[i + 1..], elapsed)
  {
    assert segments[i..][1..] == segments[i + 1..];
  }

  ghost predicate GoodSegment(g: Segment) {
    0.0 <= g.start <= g.end && g.fromRate >= 0.0 && g.toRate >= 0.0
  }

  ghost predicate GoodSegments(segments: seq<Segment>) {
    forall i :: 0 <= i < |segments| ==> GoodSegment(segments[i])
  }

  lemma {:induction false} TimelineIsGood(offset: real, rate: real, stages: seq<Stage>)
    requires offset >= 0.0 && rate >= 0.0 && forall i :: 0 <= i < |stages| ==> stages[i].duration >= 0.0
    ensures GoodSegments(Timeline(offset, rate, stages))
    decreases |stages|
  {
    if stages != [] {
      TimelineIsGood(offset + stages[0].duration, stages[0].target as real, stages[1..]);
    }
  }

  lemma MulNonneg(a: real, b: real)
    requires a >= 0.0 && b >= 0.0
    ensures a * b >= 0.0
  {
  }

  // A quotient is the number that multiplied back gives the numerator.
  lemma Quotient(x: real, k: real, q: real)
    requires k > 0.0 && q * k == x
    ensures x / k == q
  {
  }

  // Half the slope of a segment's rate.
  function HalfSlope(g: Segment): (s: real)
    requires g.end - g.start > 0.0
    ensures s * (2.0 * (g.end - g.start)) == g.toRate - g.fromRate
  {
    (g.toRate - g.fromRate) / (2.0 * (g.end - g.start))
  }

  // The area is a polynomial in the time spent in the segment.
  function Poly(a: real, s: real, u: real): real { (a + s * u) * u }

  lemma AreaIsPoly(g: Segment, u: real)
    requires g.end - g.start > 0.0
    ensures SegmentArea(g, u) == Poly(g.fromRate, HalfSlope(g), u)
  {
    var s, k := HalfSlope(g), 2.0 * (g.end - g.start);
    Reorder(s, k, u);
    Quotient((g.toRate - g.fromRate) * u * u, k, s * u * u);
  }

  lemma Reorder(s: real, k: real, u: real)
    ensures (s * k) * u * u == (s * u * u) * k
  {
  }

  // The area between two points is their distance times the mean rate.
  lemma PolyBetween(a: real, s: real, u: real, w: real)
    ensures Poly(a, s, w) - Poly(a, s, u) == (w - u) * (a + s * (w + u))
  {
  }

  // The mean rate lies between the two end rates.
  lemma MeanRate(a: real, s: real, length: real, w: real)
    requires a >= 0.0 && a + s * length >= 0.0 && 0.0 <= w <= length
    ensures a + s * w >= 0.0
  {
    if s >= 0.0 {
      MulNonneg(s, w);
    } else {
      MulNonneg(-s, length - w);
      assert -s * (length - w) == s * w - s * length;
    }
  }

  lemma SegmentAreaAscends(g: Segment, u: real, w: real)
    requires GoodSegment(g) && g.end - g.start > 0.0 && 0.0 <= u <= w <= g.end - g.start
    ensures SegmentArea(g, u) <= SegmentArea(g, w)
  {
    AreaIsPoly(g, u);
    AreaIsPoly(g, w);
    PolyAscends(g.fromRate, HalfSlope(g), 2.0 * (g.end - g.start), u, w);
  }

  lemma PolyAscends(a: real, s: real, length: real, u: real, w: real)
    requires a >= 0.0 && a + s * length >= 0.0 && 0.0 <= u <= w && w + u <= length
    ensures Poly(a, s, u) <= Poly(a, s, w)
  {
    PolyBetween(a, s, u, w);
    MeanRate(a, s, length, w + u);
    MulNonneg(w - u, a + s * (w + u));
  }

  lemma PartAscends(g: Segment, a: real, b: real)
    requires GoodSegment(g) && a <= b
    ensures 0.0 <= Part(g, a) <= Part(g, b)
  {
    PartIsNonneg(g, a);
    PartIsNonneg(g, b);
    if g.end - g.start > 0.0 && a > g.start {
      SegmentAreaAscends(g, Smaller(a, g.end) - g.start, Smaller(b, g.end) - g.start);
    }
  }

  lemma PartIsNonneg(g: Segment, a: real)
    requires GoodSegment(g)
    ensures 0.0 <= Part(g, a)
  {
    if g.end - g.start > 0.0 && a > g.start {
      SegmentAreaAscends(g, 0.0, Smaller(a, g.end) - g.start);
      AreaIsPoly(g, 0.0);
    }
  }

  // The rate `u` seconds into a segment, interpolated between its ends.
  function RateAt(g: Segment, u: real): real
    requires g.end - g.start > 0.0
  {
    g.fromRate + (g.toRate - g.fromRate) * (u / (g.end - g.start))
  }

  lemma RateIsLinear(g: Segment, u: real)
    requires g.end - g.start > 0.0
    ensures RateAt(g, u) == g.fromRate + 2.0 * HalfSlope(g) * u
  {
    var s, d := HalfSlope(g), g.end - g.start;
    Rescale(s, d, u / d, u);
  }

  lemma Rescale(s: real, d: real, x: real, u: real)
    requires x * d == u
    ensures (s * (2.0 * d)) * x == 2.0 * s * u
  {
  }

  // The area is the exact integral of the interpolated rate: between any two points
  // of a segment it is their distance times the mean of the two rates there.
  lemma AreaIsIntegralOfRate(g: Segment, u: real, w: real)
    requires g.end - g.start > 0.0
    ensures SegmentArea(g, 0.0) == 0.0
    ensures SegmentArea(g, w) - SegmentArea(g, u) == (w - u) * ((RateAt(g, u) + RateAt(g, w)) / 2.0)
  {
    AreaIsPoly(g, 0.0);
    AreaIsPoly(g, u);
    AreaIsPoly(g, w);
    RateIsLinear(g, u);
    RateIsLinear(g, w);
    PolyBetween(g.fromRate, HalfSlope(g), u, w);
    MeanOfRates(g.fromRate, HalfSlope(g), u, w);
  }

  lemma MeanOfRates(a: real, s: real, u: real, w: real)
    ensures ((a + 2.0 * s * u) + (a + 2.0 * s * w)) / 2.0 == a + s * (w + u)
  {
  }

  // The integral is nonnegative and never decreases.
  lemma {:induction false} AreaAscends(segments: seq<Segment>, a: real, b: real)
    requires GoodSegments(segments) && a <= b
    ensures 0.0 <= Area(segments, a) <= Area(segments, b)
  {
    if segments != [] {
      AreaAscends(segments[1..], a, b);
      PartAscends(segments[0], a, b);
    }
  }

  function Trapezoid(from: real, to: real, d: real): real { (from + to) / 2.0 * d }

  // Past its end, a timeline has accumulated the trapezoid of every stage.
  function Trapezoids(rate: real, stages: seq<Stage>): real
    decreases |stages|
  {
    if stages == [] then 0.0
    else Trapezoid(rate, stages[0].target as real, stages[0].duration) + Trapezoids(stages[0].target as real, stages[1..])
  }

  lemma WholeSegment(g: Segment, elapsed: real)
    requires g.start <= g.end <= elapsed && g.start < elapsed
    ensures Part(g, elapsed) == Trapezoid(g.fromRate, g.toRate, g.end - g.start)
  {
    if g.end - g.start > 0.0 {
      AreaIsPoly(g, g.end - g.start);
      HalfWay(g.fromRate, g.toRate, HalfSlope(g), g.end - g.start);
    }
  }

  lemma HalfWay(a: real, b: real, s: real, d: real)
    requires s * (2.0 * d) == b - a
    ensures Poly(a, s, d) == Trapezoid(a, b, d)
  {
    assert s * d == (b - a) / 2.0;
    assert a + s * d == (a + b) / 2.0;
  }

  lemma {:induction false} AreaAtEnd(offset: real, rate: real, stages: seq<Stage>, elapsed: real)
    requires forall i :: 0 <= i < |stages| ==> stages[i].duration >= 0.0
    requires elapsed >= offset + TotalDuration(stages)
    ensures Area(Timeline(offset, rate, stages), elapsed) == Trapezoids(rate, stages)
    decreases |stages|
  {
    if stages != [] {
      var d, target := stages[0].duration, stages[0].target as real;
      DurationsAreNonneg(stages[1..]);
      if elapsed > offset {
        AreaAtEnd(offset + d, target, stages[1..], elapsed);
        WholeSegment(Segment(offset, offset + d, rate, target), elapsed);
      } else {
        NothingLeft(rate, stages);
      }
    }
  }

  lemma {:induction false} DurationsAreNonneg(stages: seq<Stage>)
    requires forall i :: 0 <= i < |stages| ==> stages[i].duration >= 0.0
    ensures TotalDuration(stages) >= 0.0
  {
    if stages != [] { DurationsAreNonneg(stages[1..]); }
  }

  lemma {:induction false} NothingLeft(rate: real, stages: seq<Stage>)
    requires (forall i :: 0 <= i < |stages| ==> stages[i].duration >= 0.0) && TotalDuration(stages) <= 0.0
    ensures Trapezoids(rate, stages) == 0.0
    decreases |stages|
  {
    if stages != [] {
      DurationsAreNonneg(stages[1..]);
      NothingLeft(stages[0].target as real, stages[1..]);
    }
  }

  // ----- The coordinator's desk -----

  // The coordinator's own state: its idle queue, its counters, and whom it dispatched.
  datatype Desk = Desk(idle: seq<nat>, dispatched: nat, dropped: nat, sent: seq<nat>)

  // Whether the channel of a VU accepts the dispatch of a given arrival.
  type Channels = (nat, nat) -> bool

  function ServeOne(d: Desk, open: Channels): Desk {
    if d.idle == [] then Desk([], d.dispatched + 1, d.dropped + 1, d.sent)
    else if open(d.dispatched + 1, d.idle[0]) then Desk(d.idle[1..], d.dispatched + 1, d.dropped, d.sent + [d.idle[0]])
    else Desk(d.idle[1..], d.dispatched + 1, d.dropped + 1, d.sent)
  }

  function Serve(d: Desk, open: Channels, k: nat): Desk {
    if k == 0 then d else ServeOne(Serve(d, open, k - 1), open)
  }

  // Serving `k` arrivals pops the front of the queue and never counts one twice.
  lemma {:induction false} ServeAccounts(d: Desk, open: Channels, k: nat)
    ensures var e := Serve(d, open, k);
      && e.dispatched == d.dispatched + k
      && e.idle == d.idle[if k <= |d.idle| then k else |d.idle|..]
      && d.sent <= e.sent
      && e.dropped + |e.sent| == d.dropped + |d.sent| + k
  {
    if k > 0 {
      ServeAccounts(d, open, k - 1);
    }
  }

  // The desk's part of a protocol state.
  function DeskOf(s: Arrival.State, sent: seq<nat>): Desk {
    Desk(s.idle, s.dispatched, s.dropped, sent)
  }

  // One arrival of the protocol is one arrival served at the desk.
  lemma FireIsServe(s: Arrival.State, sent: seq<nat>, open: Channels)
    requires Arrival.Enabled(s, Arrival.Fire)
    requires s.idle != [] ==> (open(s.dispatched + 1, s.idle[0]) <==> s.vus[s.idle[0]].Listening())
    ensures var u, d := Arrival.FireOne(s), ServeOne(DeskOf(s, sent), open);
      DeskOf(u, d.sent) == d
  {
  }

  // ----- The pacing loop -----

  // An arrival integral: nonnegative and nondecreasing.
  ghost predicate Integral(expected: real -> real) {
    forall a, b :: a <= b ==> Ordered(expected, a, b)
  }

  ghost predicate Ordered(expected: real -> real, a: real, b: real) {
    0.0 <= expected(a) <= expected(b)
  }

  // What the loop sees each time around.
  datatype Look = Look(cancelled: bool, reports: seq<nat>, elapsed: real)

  // The time the loop acts on.
  function Clamp(elapsed: real, total: real): real { Smaller(elapsed, total) }

  // One time around: take the idle reports in, then serve the arrivals that are due.
  function Pass(d: Desk, look: Look, expected: real -> real, total: real, open: Channels): Desk {
    Serve(d.(idle := d.idle + look.reports), open, Due(d, look, expected, total))
  }

  // How many arrivals are due at a look.
  function Due(d: Desk, look: Look, expected: real -> real, total: real): nat {
    var target := expected(Clamp(look.elapsed, total)).Floor;
    if target >= d.dispatched then target - d.dispatched else 0
  }

  function Passes(d: Desk, looks: seq<Look>, expected: real -> real, total: real, open: Channels): Desk
    decreases |looks|
  {
    if looks == [] then d
    else Pass(Passes(d, looks[..|looks| - 1], expected, total, open), looks[|looks| - 1], expected, total, open)
  }

  lemma PassesGrow(d: Desk, looks: seq<Look>, i: nat, expected: real -> real, total: real, open: Channels)
    requires i < |looks|
    ensures Passes(d, looks[..i + 1], expected, total, open)
         == Pass(Passes(d, looks[..i], expected, total, open), looks[i], expected, total, open)
  {
    assert looks[..i + 1][..i] == looks[..i];
  }

  // In any number of passes every arrival is sent or dropped.
  lemma {:induction false} PassesAccount(d: Desk, looks: seq<Look>, expected: real -> real, total: real, open: Channels)
    ensures var e := Passes(d, looks, expected, total, open);
      e.dropped + |e.sent| - e.dispatched == d.dropped + |d.sent| - d.dispatched
    decreases |looks|
  {
    if looks != [] {
      var front, look := looks[..|looks| - 1], looks[|looks| - 1];
      PassesAccount(d, front, expected, total, open);
      PassAccounts(Passes(d, front, expected, total, open), look, expected, total, open);
    }
  }

  lemma PassAccounts(d: Desk, look: Look, expected: real -> real, total: real, open: Channels)
    ensures var e := Pass(d, look, expected, total, open);
      e.dropped + |e.sent| - e.dispatched == d.dropped + |d.sent| - d.dispatched
  {
    ServeAccounts(d.(idle := d.idle + look.reports), open, Due(d, look, expected, total));
  }

  class Coordinator {
    var idle: seq<nat>
    var dispatched: nat
    var dropped: nat
    ghost var sent: seq<nat>

    ghost function View(): Desk
      reads this
    {
      Desk(idle, dispatched, dropped, sent)
    }

    constructor (ready: seq<nat>)
      ensures View() == Desk(ready, 0, 0, [])
    {
      idle, dispatched, dropped, sent := ready, 0, 0, [];
    }

    // Fire every arrival whose scheduled position has been passed.
    method CatchUp(target: real, open: Channels)
      requires target >= dispatched as real
      modifies this
      ensures dispatched == target.Floor
      ensures View() == Serve(old(View()), open, target.Floor - old(dispatched))
    {
      ghost var k := 0;
      while dispatched as real + 1.0 <= target
        invariant dispatched == old(dispatched) + k && dispatched as real <= target
        invariant View() == Serve(old(View()), open, k)
        decreases target.Floor - dispatched
      {
        dispatched := dispatched + 1;
        if idle != [] {
          var id := idle[0];
          idle := idle[1..];
          if open(dispatched, id) {
            sent := sent + [id];
          } else {
            dropped := dropped + 1;
          }
        } else {
          dropped := dropped + 1;
        }
        k := k + 1;
      }
    }

    // One time around the loop.
    method DoPass(expected: real -> real, total: real, look: Look, open: Channels)
      requires expected(Clamp(look.elapsed, total)) >= dispatched as real
      modifies this
      ensures dispatched == expected(Clamp(look.elapsed, total)).Floor
      ensures View() == Pass(old(View()), look, expected, total, open)
    {
      idle := idle + look.reports;
      CatchUp(expected(Clamp(look.elapsed, total)), open);
    }

    // The run, over what it sees each time around: it does not start without a ready
    // VU; then stop on cancel, drain the idle reports, catch up with the curve, stop
    // once the schedule is over.
    method Run(expected: real -> real, total: real, looks: seq<Look>, open: Channels)
      returns (started: bool, ended: bool, cancelled: bool, ghost passes: nat)
      requires Integral(expected) && dispatched == 0
      requires forall i, j :: 0 <= i <= j < |looks| ==> looks[i].elapsed <= looks[j].elapsed
      modifies this
      ensures started <==> old(idle) != []
      ensures !started ==> passes == 0 && !ended
      ensures passes <= |looks| && View() == Passes(old(View()), looks[..passes], expected, total, open)
      ensures passes > 0 ==> dispatched == expected(Clamp(looks[passes - 1].elapsed, total)).Floor
      ensures ended ==> dispatched == expected(total).Floor
      ensures forall j :: 0 <= j < passes ==> !looks[j].cancelled && (looks[j].elapsed >= total <==> ended && j == passes - 1)
      ensures ended ==> passes > 0
      ensures cancelled <==> started && !ended && passes < |looks|
      ensures cancelled ==> looks[passes].cancelled
    {
      started, ended, cancelled, passes := idle != [], false, false, 0;
      if !started { return; }
      for i := 0 to |looks|
        invariant started && passes == i && !ended && !cancelled
        invariant View() == Passes(old(View()), looks[..i], expected, total, open)
        invariant forall j :: 0 <= j < i ==> !looks[j].cancelled && looks[j].elapsed < total
        invariant i == 0 ==> dispatched == 0
        invariant i > 0 ==> dispatched == expected(Clamp(looks[i - 1].elapsed, total)).Floor
      {
        if looks[i].cancelled {
          cancelled := true;
          return;
        }
        ghost var at := Clamp(looks[i].elapsed, total);
        assert Ordered(expected, if i > 0 then Clamp(looks[i - 1].elapsed, total) else at, at);
        PassesGrow(old(View()), looks, i, expected, total, open);
        DoPass(expected, total, looks[i], open);
        passes := i + 1;
        if looks[i].elapsed >= total {
          ended := true;
          return;
        }
      }
    }
  }

  // The engine's curve is an arrival integral.
  function CurveOf(rate: real, stages: seq<Stage>, unit: real): real -> real
    requires unit > 0.0
  {
    (t: real) => Area(Timeline(0.0, rate, stages), t) / unit
  }

  lemma ScaleAscends(a: real, b: real, unit: real)
    requires unit > 0.0 && 0.0 <= a <= b
    ensures 0.0 <= a / unit <= b / unit
  {
  }

  lemma CurveIsIntegral(rate: real, stages: seq<Stage>, unit: real)
    requires unit > 0.0 && rate >= 0.0 && forall i :: 0 <= i < |stages| ==> stages[i].duration >= 0.0
    ensures Integral(CurveOf(rate, stages, unit))
  {
    var curve := CurveOf(rate, stages, unit);
    TimelineIsGood(0.0, rate, stages);
    forall a, b | a <= b ensures Ordered(curve, a, b) {
      AreaAscends(Timeline(0.0, rate, stages), a, b);
      ScaleAscends(Area(Timeline(0.0, rate, stages), a), Area(Timeline(0.0, rate, stages), b), unit);
    }
  }

  // The rate a stage starts from: the target of the one before.
  function RateBefore(rate: real, stages: seq<Stage>, i: nat): real
    requires i <= |stages|
  {
    if i == 0 then rate else stages[i - 1].target as real
  }

  // The rate `u` seconds into a climb over `d` seconds.
  function Climbed(from: real, to: real, d: real, u: real): real
    requires d > 0.0
  {
    from + (to - from) * (u / d)
  }

  // It starts and ends at the two rates, and what it has climbed is in proportion.
  lemma ClimbedMeans(from: real, to: real, d: real, u: real)
    requires d > 0.0
    ensures Climbed(from, to, d, 0.0) == from && Climbed(from, to, d, d) == to
    ensures (Climbed(from, to, d, u) - from) * d == (to - from) * u
  {
    var x := u / d;
    assert x * d == u;
    assert ((to - from) * x) * d == (to - from) * (x * d);
  }

  // Inside a stage, `u` seconds after its start, the curve is the trapezoids of the stages
  // before it and that of the rate climbed so far.
  lemma CurveInside(rate: real, stages: seq<Stage>, unit: real, i: nat, u: real)
    requires unit > 0.0 && i < |stages| && 0.0 < u <= stages[i].duration
    requires forall j :: 0 <= j < |stages| ==> stages[j].duration >= 0.0
    ensures var p, d, target := RateBefore(rate, stages, i), stages[i].duration, stages[i].target as real;
      CurveOf(rate, stages, unit)(TotalDuration(stages[..i]) + u)
        == (Trapezoids(rate, stages[..i]) + Trapezoid(p, Climbed(p, target, d, u), u)) / unit
  {
    AreaInside(0.0, rate, stages, i, u);
    assert 0.0 + TotalDuration(stages[..i]) + u == TotalDuration(stages[..i]) + u;
  }

  lemma {:induction false} AreaInside(offset: real, rate: real, stages: seq<Stage>, i: nat, u: real)
    requires i < |stages| && 0.0 < u <= stages[i].duration
    requires forall j :: 0 <= j < |stages| ==> stages[j].duration >= 0.0
    ensures var p, d, target := RateBefore(rate, stages, i), stages[i].duration, stages[i].target as real;
      Area(Timeline(offset, rate, stages), offset + TotalDuration(stages[..i]) + u)
        == Trapezoids(rate, stages[..i]) + Trapezoid(p, Climbed(p, target, d, u), u)
    decreases |stages|
  {
    if i == 0 {
      assert stages[..0] == [];
      FirstStageInside(offset, rate, stages, u);
    } else {
      var d0, t0, rest, before := stages[0].duration, stages[0].target as real, stages[1..], stages[..i];
      assert before[0] == stages[0] && before[1..] == rest[..i - 1];
      DurationsAreNonneg(rest[..i - 1]);
      AreaInside(offset + d0, t0, rest, i - 1, u);
      LaterStageInside(offset, rate, stages, offset + TotalDuration(before) + u);
    }
  }

  lemma FirstStageInside(offset: real, rate: real, stages: seq<Stage>, u: real)
    requires stages != [] && 0.0 < u <= stages[0].duration
    ensures Area(Timeline(offset, rate, stages), offset + u)
         == Trapezoid(rate, Climbed(rate, stages[0].target as real, stages[0].duration, u), u)
  {
    var d, target := stages[0].duration, stages[0].target as real;
    var g := Segment(offset, offset + d, rate, target);
    NotBegun(offset + d, target, stages[1..], offset + u);
    InsideSegment(g, u);
    assert Smaller(offset + u, g.end) - g.start == u;
  }

  lemma LaterStageInside(offset: real, rate: real, stages: seq<Stage>, elapsed: real)
    requires stages != [] && stages[0].duration >= 0.0 && offset < elapsed && offset + stages[0].duration <= elapsed
    ensures var d, target := stages[0].duration, stages[0].target as real;
      Area(Timeline(offset, rate, stages), elapsed)
        == Trapezoid(rate, target, d) + Area(Timeline(offset + d, target, stages[1..]), elapsed)
  {
    var g := Segment(offset, offset + stages[0].duration, rate, stages[0].target as real);
    WholeSegment(g, elapsed);
    assert Timeline(offset, rate, stages)[1..] == Timeline(g.end, g.toRate, stages[1..]);
  }

  lemma NotBegun(offset: real, rate: real, stages: seq<Stage>, elapsed: real)
    requires elapsed <= offset
    ensures Area(Timeline(offset, rate, stages), elapsed) == 0.0
  {
  }

  lemma InsideSegment(g: Segment, u: real)
    requires g.end - g.start > 0.0
    ensures SegmentArea(g, u) == Trapezoid(g.fromRate, Climbed(g.fromRate, g.toRate, g.end - g.start, u), u)
  {
    AreaIsIntegralOfRate(g, 0.0, u);
    assert RateAt(g, 0.0) == g.fromRate;
  }

  // So an uncancelled run fires the whole part of the summed trapezoids.
  lemma WholeRunCount(rate: real, stages: seq<Stage>, unit: real)
    requires unit > 0.0 && rate >= 0.0 && forall i :: 0 <= i < |stages| ==> stages[i].duration >= 0.0
    ensures CurveOf(rate, stages, unit)(TotalDuration(stages)) == Trapezoids(rate, stages) / unit
  {
    AreaAtEnd(0.0, rate, stages, TotalDuration(stages));
  }
}
