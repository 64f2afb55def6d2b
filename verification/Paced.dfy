/** The arrival-rate protocol driven by its curve: the coordinator looks at the clock,
    fires what is due, and closes when the schedule is over, with every VU step in
    between.  The lanes of a finished run are then known from the curve alone. */
module PacedArrivals {
  import A = Arrival
  import P = Pacing

  // The pool, whether pacing has begun, the time of the last look at the clock, and
  // whether the run was cancelled.
  datatype State = State(pool: A.State, started: bool, looked: bool, at: real, cancelled: bool)

  // What is planned: the arrival integral and the length of the schedule.
  datatype Plan = Plan(expected: real -> real, total: real)
  {
    function Target(at: real): real { expected(P.Clamp(at, total)) }
  }

  datatype Step =
    | Pool(step: A.Step)     // any step of the pool but these
    | Look(elapsed: real)    // a new time around the loop
    | Fire                   // one due arrival
    | EndSchedule            // the schedule is over
    | Cancel                 // the loop finds the run cancelled

  function Init(n: nat): State { State(A.Init(n), false, false, 0.0, false) }

  // An arrival is due.
  predicate Due(p: Plan, s: State) {
    s.looked && s.pool.dispatched as real + 1.0 <= p.Target(s.at)
  }

  predicate Enabled(p: Plan, s: State, t: Step) {
    match t
    case Pool(step) => A.Enabled(s.pool, step) && !step.Fire? && !step.Close?
    case Look(elapsed) => s.pool.phase.Pacing? && !Due(p, s) && (s.looked ==> s.at <= elapsed && s.at < p.total)
    case Fire => A.Enabled(s.pool, A.Fire) && Due(p, s)
    case EndSchedule => s.pool.phase.Pacing? && s.looked && !Due(p, s) && s.at >= p.total
    case Cancel => s.pool.phase.Pacing? && !Due(p, s)
  }

  function Do(p: Plan, s: State, t: Step): State
    requires Enabled(p, s, t)
  {
    match t
    case Pool(step) =>
      var pool := A.Do(s.pool, step);
      s.(pool := pool, started := s.started || pool.phase.Pacing?)
    case Look(elapsed) => s.(looked := true, at := elapsed)
    case Fire => s.(pool := A.Do(s.pool, A.Fire))
    case EndSchedule => s.(pool := A.Do(s.pool, A.Close))
    case Cancel => s.(pool := A.Do(s.pool, A.Close), cancelled := true)
  }

  // ----- Invariants -----

  // Never ahead of the curve; after an uncancelled run, exactly at its end.
  ghost predicate OnCurve(p: Plan, s: State) {
    && (!s.looked ==> s.pool.dispatched == 0)
    && (s.looked ==> s.pool.dispatched as real <= p.Target(s.at))
    && (s.pool.phase.Pacing? ==> s.started)
    && (s.pool.Open() ==> !s.cancelled)
    && (s.pool.phase.Startup? ==> !s.started && !s.looked)
    && (!s.started ==> s.pool.dispatched == 0)
    && (s.started && !s.pool.Open() && !s.cancelled ==> s.pool.dispatched == p.expected(p.total).Floor)
  }

  ghost predicate Inv(p: Plan, s: State) { A.Inv(s.pool) && OnCurve(p, s) }

  // Steps of the pool neither fire nor go back to an earlier phase.
  lemma PoolStepKeeps(s: A.State, t: A.Step)
    requires A.Enabled(s, t) && !t.Fire? && !t.Close?
    ensures var u := A.Do(s, t);
      && u.dispatched == s.dispatched
      && (u.phase == s.phase || (s.phase.Startup? && (u.phase.Pacing? || u.phase.Closed?)) || (s.phase.Closed? && u.phase.Gone?))
  {
  }

  lemma PoolKeepsOnCurve(p: Plan, s: State, step: A.Step)
    requires OnCurve(p, s) && Enabled(p, s, Pool(step))
    ensures OnCurve(p, Do(p, s, Pool(step)))
  {
    PoolStepKeeps(s.pool, step);
  }

  lemma FireCounts(s: A.State)
    requires A.Enabled(s, A.Fire)
    ensures A.FireOne(s).dispatched == s.dispatched + 1 && A.FireOne(s).phase == s.phase
  {
  }

  lemma LookKeepsOnCurve(p: Plan, s: State, elapsed: real)
    requires P.Integral(p.expected) && OnCurve(p, s) && Enabled(p, s, Look(elapsed))
    ensures OnCurve(p, Do(p, s, Look(elapsed)))
  {
    var now := P.Clamp(elapsed, p.total);
    assert P.Ordered(p.expected, now, now);
    if s.looked { assert P.Ordered(p.expected, P.Clamp(s.at, p.total), now); }
  }

  // Caught up with the end of the schedule means the whole part of the curve's end.
  lemma EndIsFloor(p: Plan, s: State)
    requires OnCurve(p, s) && Enabled(p, s, EndSchedule)
    ensures s.pool.dispatched == p.expected(p.total).Floor
  {
    assert P.Clamp(s.at, p.total) == p.total;
  }

  lemma StepKeepsOnCurve(p: Plan, s: State, t: Step)
    requires P.Integral(p.expected) && OnCurve(p, s) && Enabled(p, s, t)
    ensures OnCurve(p, Do(p, s, t))
  {
    match t
    case Pool(step) => PoolKeepsOnCurve(p, s, step);
    case Look(elapsed) => LookKeepsOnCurve(p, s, elapsed);
    case Fire => FireCounts(s.pool);
    case EndSchedule => EndIsFloor(p, s);
    case Cancel =>
  }

  lemma StepKeepsInv(p: Plan, s: State, t: Step)
    requires P.Integral(p.expected) && Inv(p, s) && Enabled(p, s, t)
    ensures Inv(p, Do(p, s, t))
  {
    StepKeepsOnCurve(p, s, t);
    match t
    case Pool(step) => A.StepKeepsInv(s.pool, step);
    case Look(_) =>
    case Fire => A.StepKeepsInv(s.pool, A.Fire);
    case EndSchedule => A.StepKeepsInv(s.pool, A.Close);
    case Cancel => A.StepKeepsInv(s.pool, A.Close);
  }

  // ----- Whole runs -----

  predicate CanRun(p: Plan, s: State, steps: seq<Step>)
    decreases |steps|
  {
    steps == [] || (Enabled(p, s, steps[0]) && CanRun(p, Do(p, s, steps[0]), steps[1..]))
  }

  function After(p: Plan, s: State, steps: seq<Step>): State
    requires CanRun(p, s, steps)
    decreases |steps|
  {
    if steps == [] then s else After(p, Do(p, s, steps[0]), steps[1..])
  }

  lemma {:induction false} RunKeepsInv(p: Plan, s: State, steps: seq<Step>)
    requires P.Integral(p.expected) && Inv(p, s) && CanRun(p, s, steps)
    ensures Inv(p, After(p, s, steps))
    decreases |steps|
  {
    if steps != [] {
      StepKeepsInv(p, s, steps[0]);
      RunKeepsInv(p, Do(p, s, steps[0]), steps[1..]);
    }
  }

  // In every interleaving the arrivals fired never run ahead of the curve, and are at its
  // whole part whenever nothing is due.
  lemma NeverAheadOfCurve(p: Plan, n: nat, steps: seq<Step>)
    requires P.Integral(p.expected) && CanRun(p, Init(n), steps)
    ensures var s := After(p, Init(n), steps);
      s.looked ==> s.pool.dispatched <= p.Target(s.at).Floor && (!Due(p, s) ==> s.pool.dispatched == p.Target(s.at).Floor)
  {
    A.InitHolds(n);
    RunKeepsInv(p, Init(n), steps);
  }

  // The lanes of a finished run: a run that started and was not cancelled accounts for
  // exactly the whole part of the curve's end, less what died with degraded VUs, plus
  // stray interruptions; a run that never started fired nothing.
  lemma LanesAreTheCurve(p: Plan, n: nat, steps: seq<Step>)
    requires P.Integral(p.expected) && CanRun(p, Init(n), steps)
    requires A.Finished(After(p, Init(n), steps).pool)
    ensures var s := After(p, Init(n), steps);
            var lanes := s.pool.completed + s.pool.dropped + s.pool.errored + s.pool.interrupted;
      && (s.started && !s.cancelled ==> lanes + s.pool.lost == p.expected(p.total).Floor + s.pool.strays)
      && (s.started && !s.cancelled && s.pool.degraded == 0 && !s.pool.hard ==> lanes == p.expected(p.total).Floor)
      && (!s.started ==> lanes + s.pool.lost == s.pool.strays)
  {
    A.InitHolds(n);
    RunKeepsInv(p, Init(n), steps);
    A.FinishedLanes(After(p, Init(n), steps).pool);
  }

  // With the engine's own curve: the whole part of the summed trapezoids of the stages.
  lemma LanesAreTheTrapezoids(rate: real, stages: seq<P.Stage>, unit: real, n: nat, steps: seq<Step>)
    requires unit > 0.0 && rate >= 0.0 && forall i :: 0 <= i < |stages| ==> stages[i].duration >= 0.0
    requires var p := Plan(P.CurveOf(rate, stages, unit), P.TotalDuration(stages));
      && CanRun(p, Init(n), steps)
      && var s := After(p, Init(n), steps);
         A.Finished(s.pool) && s.started && !s.cancelled && s.pool.degraded == 0 && !s.pool.hard
    ensures var s := After(Plan(P.CurveOf(rate, stages, unit), P.TotalDuration(stages)), Init(n), steps);
      s.pool.completed + s.pool.dropped + s.pool.errored + s.pool.interrupted == (P.Trapezoids(rate, stages) / unit).Floor
  {
    P.CurveIsIntegral(rate, stages, unit);
    LanesAreTheCurve(Plan(P.CurveOf(rate, stages, unit), P.TotalDuration(stages)), n, steps);
    P.WholeRunCount(rate, stages, unit);
  }

  // ----- One pass is the coordinator's catch-up -----

  // `k` arrivals in a row, with no VU step in between.
  function FireMany(s: A.State, k: nat): A.State {
    if k == 0 then s else
      var before := FireMany(s, k - 1);
      if A.Enabled(before, A.Fire) then A.FireOne(before) else before
  }

  ghost predicate FiresAt(s: A.State, k: nat) { A.Enabled(FireMany(s, k), A.Fire) }

  // While the coordinator paces, it can always fire.
  lemma {:induction false} AlwaysFires(s: A.State, k: nat)
    requires A.Inv(s) && s.phase.Pacing?
    ensures A.Inv(FireMany(s, k)) && FireMany(s, k).phase.Pacing? && FiresAt(s, k)
  {
    if k > 0 {
      AlwaysFires(s, k - 1);
      FireKeepsPacing(FireMany(s, k - 1));
    }
    FireKeepsPacing(FireMany(s, k));
  }

  // The same pool members still hold their receiving ends.
  ghost predicate SameListeners(s: A.State, u: A.State) {
    |u.vus| == |s.vus| && forall i :: 0 <= i < |s.vus| ==> u.vus[i].Listening() == s.vus[i].Listening()
  }

  lemma FireKeepsPacing(s: A.State)
    requires A.Inv(s) && s.phase.Pacing?
    ensures A.Enabled(s, A.Fire) && A.Inv(A.FireOne(s)) && A.FireOne(s).phase.Pacing?
  {
    if s.idle != [] { assert s.Queue()[0] == s.idle[0]; }
    A.StepKeepsInv(s, A.Fire);
  }

  lemma FireKeepsListeners(s: A.State)
    requires A.Enabled(s, A.Fire)
    ensures SameListeners(s, A.FireOne(s))
  {
  }

  lemma ListenersChain(s: A.State, u: A.State, v: A.State)
    requires SameListeners(s, u) && SameListeners(u, v)
    ensures SameListeners(s, v)
  {
  }

  // The channels the pool would accept a dispatch on.
  ghost function Accepting(s: A.State): P.Channels {
    (arrival: nat, id: nat) => id < |s.vus| && s.vus[id].Listening()
  }

  // One more arrival, at the pool and at the desk.
  lemma OneMore(s: A.State, before: A.State, d: P.Desk)
    requires A.Enabled(before, A.Fire) && SameListeners(s, before) && P.DeskOf(before, d.sent) == d
    ensures var e := P.ServeOne(d, Accepting(s)); P.DeskOf(A.FireOne(before), e.sent) == e
    ensures SameListeners(s, A.FireOne(before))
  {
    P.FireIsServe(before, d.sent, Accepting(s));
    FireKeepsListeners(before);
    ListenersChain(s, before, A.FireOne(before));
  }

  lemma {:induction false} FiresServe(s: A.State, k: nat)
    requires forall j: nat :: j < k ==> FiresAt(s, j)
    ensures var u, d := FireMany(s, k), P.Serve(P.DeskOf(s, []), Accepting(s), k);
      SameListeners(s, u) && P.DeskOf(u, d.sent) == d
  {
    if k > 0 {
      FiresServe(s, k - 1);
      assert FiresAt(s, k - 1);
      OneMore(s, FireMany(s, k - 1), P.Serve(P.DeskOf(s, []), Accepting(s), k - 1));
    }
  }

  // Firing `k` arrivals of the protocol is serving `k` arrivals at the desk.
  lemma FiresAreServe(s: A.State, k: nat)
    requires A.Inv(s) && s.phase.Pacing?
    ensures var u, d := FireMany(s, k), P.Serve(P.DeskOf(s, []), Accepting(s), k);
      P.DeskOf(u, d.sent) == d
  {
    forall j: nat | j < k ensures FiresAt(s, j) { AlwaysFires(s, j); }
    FiresServe(s, k);
  }

  // ----- The schedule can always run its course -----

  lemma Prepend(p: Plan, s: State, t: Step, rest: seq<Step>)
    requires Enabled(p, s, t) && CanRun(p, Do(p, s, t), rest)
    ensures CanRun(p, s, [t] + rest) && After(p, s, [t] + rest) == After(p, Do(p, s, t), rest)
  {
    assert ([t] + rest)[1..] == rest;
  }

  // The schedule has closed the pool with every arrival of the curve fired.
  predicate RanOut(p: Plan, s: State) {
    !s.pool.Open() && s.started && !s.cancelled && s.pool.dispatched == p.expected(p.total).Floor
  }

  // Past its end the coordinator fires what is due and ends the schedule.
  lemma {:induction false} FiresOut(p: Plan, s: State) returns (steps: seq<Step>)
    requires P.Integral(p.expected) && Inv(p, s) && s.pool.phase.Pacing? && s.looked && s.at >= p.total
    ensures CanRun(p, s, steps) && RanOut(p, After(p, s, steps))
    decreases p.Target(s.at).Floor - s.pool.dispatched
  {
    if Due(p, s) {
      FireKeepsPacing(s.pool);
      FireCounts(s.pool);
      StepKeepsInv(p, s, Fire);
      var rest := FiresOut(p, Do(p, s, Fire));
      Prepend(p, s, Fire, rest);
      steps := [Fire] + rest;
    } else {
      StepKeepsInv(p, s, EndSchedule);
      assert CanRun(p, Do(p, s, EndSchedule), []);
      Prepend(p, s, EndSchedule, []);
      steps := [EndSchedule];
    }
  }

  // From every state in which it paces, the schedule can run to its end.
  lemma ScheduleCanEnd(p: Plan, s: State) returns (steps: seq<Step>)
    requires P.Integral(p.expected) && Inv(p, s) && s.pool.phase.Pacing?
    ensures CanRun(p, s, steps) && RanOut(p, After(p, s, steps))
    decreases p.Target(s.at).Floor - s.pool.dispatched
  {
    if s.looked && s.at >= p.total {
      steps := FiresOut(p, s);
    } else if Due(p, s) {
      FireKeepsPacing(s.pool);
      FireCounts(s.pool);
      StepKeepsInv(p, s, Fire);
      var rest := ScheduleCanEnd(p, Do(p, s, Fire));
      Prepend(p, s, Fire, rest);
      steps := [Fire] + rest;
    } else {
      StepKeepsInv(p, s, Look(p.total));
      var rest := FiresOut(p, Do(p, s, Look(p.total)));
      Prepend(p, s, Look(p.total), rest);
      steps := [Look(p.total)] + rest;
    }
  }

  // A cancellation is seen as soon as nothing is due, and closes the pool.
  lemma CancelIsSeen(p: Plan, s: State)
    requires s.pool.phase.Pacing? && !Due(p, s)
    ensures Enabled(p, s, Cancel) && !Do(p, s, Cancel).pool.Open() && Do(p, s, Cancel).cancelled
  {
  }

  // The coordinator looks again whenever nothing is due before the end of the schedule,
  // and the pool moves on its own all the while.
  lemma PacingIsFree(p: Plan, s: State, elapsed: real, step: A.Step)
    ensures s.pool.phase.Pacing? && s.looked && !Due(p, s) && s.at < p.total && s.at <= elapsed ==> Enabled(p, s, Look(elapsed))
    ensures A.Enabled(s.pool, step) && !step.Fire? && !step.Close? ==>
      Enabled(p, s, Pool(step)) && Do(p, s, Pool(step)).pool == A.Do(s.pool, step)
  {
  }
}
