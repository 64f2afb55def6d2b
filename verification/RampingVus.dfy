/** The ramping-vus executor: a controller broadcasts the desired number of active VUs
    on a watch channel; each VU runs while its index is below it and otherwise parks
    until the count changes or the run stops. */
module RampingVus {
  import opened Counting

  const TWO32 := 0x1_0000_0000

  // Whether the VU with this index, cast to 32 bits, is below the desired count.
  predicate Wanted(index: nat, desired: nat) { index % TWO32 < desired }

  // ----- A control's activity flag and the shared gauge -----

  function Unit(b: bool): int { if b then 1 else 0 }

  class Gauge {
    var activeVus: int
    constructor () ensures activeVus == 0 { activeVus := 0; }
  }

  class RampingControl {
    var active: bool
    const observer: Gauge?

    constructor (observer: Gauge?)
      ensures !active && this.observer == observer
    {
      active, this.observer := false, observer;
    }

    // Report a change of activity to the gauge, once per change.
    method SetActive(on: bool)
      modifies this, observer
      ensures active == on
      ensures observer != null ==> observer.activeVus == old(observer.activeVus) + Unit(on) - Unit(old(active))
    {
      if on != active {
        if observer != null {
          if on {
            observer.activeVus := observer.activeVus + 1;
          } else {
            observer.activeVus := observer.activeVus - 1;
          }
        }
        active := on;
      }
    }

    // Dropping a control takes its contribution back.
    method Drop()
      modifies this, observer
      ensures !active
      ensures observer != null ==> observer.activeVus == old(observer.activeVus) - Unit(old(active))
    {
      SetActive(false);
    }
  }

  // ----- The protocol -----

  // `Looping` is at the head of the wait loop, `Checked` has seen no stop, `Borrowed`
  // has read the desired count, `Ending` has left the loop for good with its control
  // still alive.
  datatype Pc = Looping | Checked | Borrowed(on: bool) | Parked | Running | Ending | Gone

  datatype Vu = Vu(
    pc: Pc,
    seen: nat,      // the watch version it has seen
    active: bool,
    unborn: bool)   // never resumed: on ending it still evaluates the script's module scope

  datatype Phase = Driving | Stopping | Exited

  datatype Outcome = Completed | Errored | Interrupted

  datatype State = State(
    vus: seq<Vu>,
    desired: nat, version: nat,   // the watch channel
    last: nat, phase: Phase,      // the controller
    stop: bool, closed: bool,     // the stop token; the sender dropped
    hard: bool,
    activeVus: int,               // the gauge; that it stays at or above zero is proved
    completed: nat, errored: nat, interrupted: nat, degraded: nat,
    started: nat, lost: nat,
    strays: nat)                  // interruptions counted with no iteration behind them

  function Init(n: nat): State {
    State(seq(n, _ => Vu(Looping, 0, false, true)), 0, 0, TWO32 - 1, Driving, false, false, false, 0, 0, 0, 0, 0, 0, 0, 0)
  }

  datatype Step =
    | Check(id: nat)                     // look at the stop token
    | Borrow(id: nat)                    // read the desired count and mark it seen
    | Activate(id: nat)                  // set the activity flag; run or park
    | Wake(id: nat)                      // the watch changed, or its sender is gone
    | StopWake(id: nat)                  // the stop token wakes a parked VU
    | Finish(id: nat, outcome: Outcome)  // an iteration reached its boundary and was tallied
    | ForceUnwind(id: nat)               // the hard stop interrupts a running iteration
    | Stray(id: nat)                     // it finds an ending VU waiting in its module scope
    | Die(id: nat)                       // the VU panics
    | Release(id: nat)                   // the control is dropped
    | Poll(want: nat, delivered: bool)   // the controller reads the schedule
    | Stop                               // the schedule is over, or the run was cancelled
    | Exit                               // the controller drops its sender
    | HardStop

  ghost predicate AllGone(s: State) {
    forall i :: 0 <= i < |s.vus| ==> s.vus[i].pc.Gone?
  }

  predicate IsMove(t: Step) { !t.Poll? && !t.Stop? && !t.Exit? && !t.HardStop? }

  // Whether a VU can take its step.
  predicate CanTake(s: State, t: Step, v: Vu) {
    match t
    case Check(_) => v.pc.Looping?
    case Borrow(_) => v.pc.Checked?
    case Activate(_) => v.pc.Borrowed?
    case Wake(_) => v.pc.Parked? && (v.seen != s.version || s.closed)
    case StopWake(_) => v.pc.Parked? && s.stop
    case Finish(_, _) => v.pc.Running?
    case ForceUnwind(_) => v.pc.Running? && s.hard
    case Stray(_) => v.pc.Ending? && v.unborn && s.hard
    case Die(_) => !v.pc.Ending? && !v.pc.Gone?
    case Release(_) => v.pc.Ending?
    case _ => true
  }

  ghost predicate Enabled(s: State, t: Step) {
    match t
    // A send reaches the channel unless no receiver is left.
    case Poll(want, delivered) => s.phase.Driving? && want < TWO32 && (delivered || AllGone(s))
    case Stop => s.phase.Driving?
    case Exit => s.phase.Stopping?
    case HardStop => true
    case _ => t.id < |s.vus| && CanTake(s, t, s.vus[t.id])
  }

  // Where the step takes the VU.
  function Moved(s: State, t: Step, v: Vu): Vu {
    match t
    case Check(_) => v.(pc := if s.stop then Ending else Checked)
    case Borrow(id) => v.(pc := Borrowed(Wanted(id, s.desired)), seen := s.version)
    case Activate(_) =>
      if v.pc == Borrowed(true) then v.(pc := Running, active := true, unborn := false)
      else v.(pc := Parked, active := false)
    case Wake(_) => v.(pc := Looping, seen := s.version)
    case StopWake(_) => v.(pc := Ending)
    case Finish(_, _) => v.(pc := Looping)
    case ForceUnwind(_) => v.(pc := Ending)
    case Stray(_) => v.(unborn := false)
    case Die(_) => v.(pc := Ending, unborn := false)
    case Release(_) => v.(pc := Gone, active := false)
    case _ => v
  }

  function Tally(s: State, o: Outcome): State {
    match o
    case Completed => s.(completed := s.completed + 1)
    case Errored => s.(errored := s.errored + 1)
    case Interrupted => s.(interrupted := s.interrupted + 1)
  }

  // The gauge moves only when the flag of a control changes.
  function Switched(gauge: int, was: bool, on: bool): int {
    if on == was then gauge else if on then gauge + 1 else gauge - 1
  }

  function Broadcast(s: State, want: nat, delivered: bool): State {
    if want == s.last then s
    else if delivered then s.(desired := want, version := s.version + 1, last := want)
    else s.(last := want)
  }

  // What the step of a VU does to everything shared.
  function Shared(s: State, t: Step, v: Vu): State {
    match t
    case Activate(_) =>
      var on := v.pc == Borrowed(true);
      s.(activeVus := Switched(s.activeVus, v.active, on), started := if on then s.started + 1 else s.started)
    case Finish(_, o) => Tally(s, o)
    case ForceUnwind(_) => Tally(s, Interrupted)
    case Stray(_) => Tally(s, Interrupted).(strays := s.strays + 1)
    case Die(_) => s.(degraded := s.degraded + 1, lost := if v.pc.Running? then s.lost + 1 else s.lost)
    case Release(_) => s.(activeVus := Switched(s.activeVus, v.active, false))
    case _ => s
  }

  ghost function Do(s: State, t: Step): State
    requires Enabled(s, t)
  {
    match t
    case Poll(want, delivered) => Broadcast(s, want, delivered)
    case Stop => s.(phase := Stopping, stop := true)
    case Exit => s.(phase := Exited, closed := true)
    case HardStop => s.(hard := true)
    case _ => Shared(s, t, s.vus[t.id]).(vus := s.vus[t.id := Moved(s, t, s.vus[t.id])])
  }

  // ----- Invariants -----

  // Of the VUs that have seen every change, one that decided not to run is not wanted and
  // one that decided to run is.
  ghost predicate Placed(s: State, i: nat)
    requires i < |s.vus|
  {
    var v := s.vus[i];
    && v.seen <= s.version
    && ((v.pc.Parked? || v.pc == Borrowed(false)) && v.seen == s.version ==> !Wanted(i, s.desired))
    && ((v.pc.Running? || v.pc == Borrowed(true)) && v.seen == s.version ==> Wanted(i, s.desired))
    && (v.pc.Running? ==> v.active)
    && (v.pc.Parked? || v.pc.Gone? ==> !v.active)
  }

  ghost predicate AllPlaced(s: State) {
    forall i: nat :: i < |s.vus| ==> Placed(s, i)
  }

  ghost predicate Controlled(s: State) {
    && (s.stop <==> !s.phase.Driving?)
    && (s.closed <==> s.phase.Exited?)
  }

  // The channel shows the last count the controller read from the schedule; the first
  // read is not sent if it equals the controller's starting sentinel.
  ghost predicate Current(s: State) {
    s.desired == s.last || AllGone(s) || (s.version == 0 && s.desired == 0 && s.last == TWO32 - 1)
  }

  predicate IsActive(v: Vu) { v.active }
  predicate IsRunning(v: Vu) { v.pc.Running? }

  ghost predicate Gauged(s: State) { s.activeVus == Count(s.vus, IsActive) }

  ghost predicate Accounted(s: State) {
    && s.started + s.strays == s.completed + s.errored + s.interrupted + s.lost + Count(s.vus, IsRunning)
    && s.lost <= s.degraded
    && (s.strays > 0 ==> s.hard)
  }

  ghost predicate Inv(s: State) {
    AllPlaced(s) && Controlled(s) && Current(s) && Gauged(s) && Accounted(s)
  }

  // A step of one VU changes that VU alone.
  ghost predicate MovesOne(s: State, u: State, id: nat) {
    && id < |s.vus| && |u.vus| == |s.vus| && u.vus == s.vus[id := u.vus[id]]
    && u.desired == s.desired && u.version == s.version && u.last == s.last
    && u.phase == s.phase && u.stop == s.stop && u.closed == s.closed
  }

  lemma MoveIsLocal(s: State, t: Step)
    requires Enabled(s, t) && IsMove(t)
    ensures MovesOne(s, Do(s, t), t.id)
  {
  }

  lemma MoveKeepsOwnPlace(s: State, t: Step)
    requires AllPlaced(s) && Controlled(s) && Enabled(s, t) && IsMove(t)
    ensures MovesOne(s, Do(s, t), t.id) && Placed(Do(s, t), t.id)
  {
    MoveIsLocal(s, t);
    assert Placed(s, t.id);
  }

  lemma OthersStayPlaced(s: State, u: State, id: nat)
    requires AllPlaced(s) && MovesOne(s, u, id) && Placed(u, id)
    ensures AllPlaced(u)
  {
    forall i: nat | i < |u.vus| ensures Placed(u, i) {
      if i != id { assert Placed(s, i); }
    }
  }

  lemma ControllerKeepsPlaced(s: State, t: Step)
    requires AllPlaced(s) && Controlled(s) && Enabled(s, t) && !IsMove(t)
    ensures AllPlaced(Do(s, t))
  {
    var u := Do(s, t);
    forall i: nat | i < |u.vus| ensures Placed(u, i) {
      assert Placed(s, i);
    }
  }

  lemma StepKeepsPlaced(s: State, t: Step)
    requires AllPlaced(s) && Controlled(s) && Enabled(s, t)
    ensures AllPlaced(Do(s, t))
  {
    if IsMove(t) {
      MoveKeepsOwnPlace(s, t);
      OthersStayPlaced(s, Do(s, t), t.id);
    } else {
      ControllerKeepsPlaced(s, t);
    }
  }

  lemma StepKeepsControlled(s: State, t: Step)
    requires Controlled(s) && Enabled(s, t)
    ensures Controlled(Do(s, t))
  {
    if IsMove(t) { MoveIsLocal(s, t); }
  }

  lemma StepKeepsCurrent(s: State, t: Step)
    requires Current(s) && Enabled(s, t)
    ensures Current(Do(s, t))
  {
    if IsMove(t) {
      MoveIsLocal(s, t);
    }
  }

  // What one step does to the gauge and to the number of active controls.
  lemma StepKeepsGauged(s: State, t: Step)
    requires Gauged(s) && Enabled(s, t)
    ensures Gauged(Do(s, t))
  {
    if IsMove(t) {
      MoveIsLocal(s, t);
      SharedGauge(s, t, s.vus[t.id]);
      RecountActive(s, Do(s, t), t.id);
    }
  }

  lemma SharedGauge(s: State, t: Step, v: Vu)
    requires CanTake(s, t, v) && IsMove(t)
    ensures Shared(s, t, v).activeVus - s.activeVus == Unit(Moved(s, t, v).active) - Unit(v.active)
  {
  }

  lemma RecountActive(s: State, u: State, id: nat)
    requires MovesOne(s, u, id)
    ensures Count(u.vus, IsActive) == Count(s.vus, IsActive) + Unit(u.vus[id].active) - Unit(s.vus[id].active)
  {
    CountUpdate(s.vus, IsActive, id, u.vus[id]);
  }

  // The iterations begun, less those that ended, less the running one.
  function Open(s: State): int {
    s.started + s.strays - s.completed - s.errored - s.interrupted - s.lost
  }

  lemma SharedBalance(s: State, t: Step, v: Vu)
    requires CanTake(s, t, v) && IsMove(t)
    ensures var u := Shared(s, t, v);
      && Open(u) - Open(s) == Unit(IsRunning(Moved(s, t, v))) - Unit(IsRunning(v))
      && u.lost - s.lost <= u.degraded - s.degraded && (u.strays > s.strays ==> s.hard) && u.hard == s.hard
  {
    match t
    case Finish(_, o) => TallyBalance(s, o);
    case ForceUnwind(_) => TallyBalance(s, Interrupted);
    case Stray(_) => TallyBalance(s, Interrupted);
    case _ =>
  }

  lemma TallyBalance(s: State, o: Outcome)
    ensures var u := Tally(s, o);
      && Open(u) == Open(s) - 1 && u.strays == s.strays && u.lost == s.lost && u.degraded == s.degraded && u.hard == s.hard
  {
  }

  lemma StepBalance(s: State, t: Step)
    requires Enabled(s, t) && IsMove(t)
    ensures var u := Do(s, t);
      && Open(u) - Open(s) == Unit(IsRunning(u.vus[t.id])) - Unit(IsRunning(s.vus[t.id]))
      && u.lost - s.lost <= u.degraded - s.degraded && (u.strays > s.strays ==> u.hard) && u.hard == s.hard
  {
    SharedBalance(s, t, s.vus[t.id]);
  }

  lemma StepKeepsAccounted(s: State, t: Step)
    requires Accounted(s) && Enabled(s, t)
    ensures Accounted(Do(s, t))
  {
    if IsMove(t) {
      MoveKeepsAccounted(s, t);
    }
  }

  lemma MoveKeepsAccounted(s: State, t: Step)
    requires Accounted(s) && Enabled(s, t) && IsMove(t)
    ensures Accounted(Do(s, t))
  {
    StepBalance(s, t);
    MoveIsLocal(s, t);
    RecountRunning(s, Do(s, t), t.id);
  }

  lemma RecountRunning(s: State, u: State, id: nat)
    requires MovesOne(s, u, id)
    ensures Count(u.vus, IsRunning) == Count(s.vus, IsRunning) + Unit(IsRunning(u.vus[id])) - Unit(IsRunning(s.vus[id]))
  {
    CountUpdate(s.vus, IsRunning, id, u.vus[id]);
  }

  // ----- Whole runs -----

  ghost predicate Next(s: State, u: State) {
    exists t :: Enabled(s, t) && Do(s, t) == u
  }

  ghost predicate IsRun(n: nat, run: seq<State>) {
    run != [] && run[0] == Init(n) && forall i :: 0 <= i < |run| - 1 ==> Next(run[i], run[i + 1])
  }

  lemma InitHolds(n: nat)
    ensures Inv(Init(n))
  {
    var s := Init(n);
    CountNone(s.vus, IsActive);
    CountNone(s.vus, IsRunning);
    forall i: nat | i < n ensures Placed(s, i) {}
  }

  lemma NextKeepsInv(s: State, u: State)
    requires Inv(s) && Next(s, u)
    ensures Inv(u)
  {
    var t :| Enabled(s, t) && Do(s, t) == u;
    StepKeepsPlaced(s, t);
    StepKeepsControlled(s, t);
    StepKeepsCurrent(s, t);
    StepKeepsGauged(s, t);
    StepKeepsAccounted(s, t);
  }

  lemma {:induction false} EveryStateKeepsInv(n: nat, run: seq<State>, i: nat)
    requires IsRun(n, run) && i < |run|
    ensures Inv(run[i])
  {
    if i == 0 {
      InitHolds(n);
    } else {
      EveryStateKeepsInv(n, run, i - 1);
      assert Next(run[i - 1], run[i - 1 + 1]);
      NextKeepsInv(run[i - 1], run[i]);
    }
  }

  // No lost wakeup: a parked VU below the desired count has an unseen change or a
  // cancelled stop token, and either way a step that wakes it is enabled; so it is for
  // every parked VU once the sender is closed or the run is stopped.
  lemma NoLostWakeup(n: nat, run: seq<State>, i: nat)
    requires IsRun(n, run) && i < |run[|run| - 1].vus| && run[|run| - 1].vus[i].pc.Parked?
    ensures var s := run[|run| - 1];
      && (s.closed ==> s.stop)
      && (Wanted(i, s.desired) ==> s.vus[i].seen != s.version || s.stop)
      && (Wanted(i, s.desired) ==> Enabled(s, Wake(i)) || Enabled(s, StopWake(i)))
      && (s.stop ==> Enabled(s, StopWake(i)))
  {
    EveryStateKeepsInv(n, run, |run| - 1);
    assert Placed(run[|run| - 1], i);
  }

  // The gauge counts the active controls, covers every running VU, and is back at zero
  // once all controls are dropped.
  lemma GaugeIsExact(n: nat, run: seq<State>)
    requires IsRun(n, run)
    ensures var s := run[|run| - 1];
      && s.activeVus == Count(s.vus, IsActive)
      && Count(s.vus, IsRunning) <= s.activeVus <= |s.vus|
      && (AllGone(s) ==> s.activeVus == 0)
  {
    EveryStateKeepsInv(n, run, |run| - 1);
    var s := run[|run| - 1];
    CountAtMost(s.vus, IsActive);
    forall i: nat | i < |s.vus| ensures IsRunning(s.vus[i]) ==> IsActive(s.vus[i]) {
      assert Placed(s, i);
    }
    CountImplies(s.vus, IsRunning, IsActive);
    if AllGone(s) {
      forall i: nat | i < |s.vus| ensures !IsActive(s.vus[i]) {
        assert Placed(s, i);
      }
      CountNone(s.vus, IsActive);
    }
  }

  // Every VU runs or is parked, and has seen every change.
  ghost predicate Settled(s: State) {
    forall i :: 0 <= i < |s.vus| ==> (s.vus[i].pc.Running? || s.vus[i].pc.Parked?) && s.vus[i].seen == s.version
  }

  // How many of the first `n` VUs are wanted.
  function WantedAmong(n: nat, desired: nat): nat {
    if n == 0 then 0 else WantedAmong(n - 1, desired) + if Wanted(n - 1, desired) then 1 else 0
  }

  // In a settled state a VU runs exactly if its index is below the desired count, and the
  // gauge is the number of VUs wanted.
  lemma SettledRunsTheWanted(n: nat, run: seq<State>)
    requires IsRun(n, run) && Settled(run[|run| - 1])
    ensures var s := run[|run| - 1];
      && (forall i: nat :: i < |s.vus| ==> (s.vus[i].pc.Running? <==> Wanted(i, s.desired)))
      && s.activeVus == WantedAmong(|s.vus|, s.desired)
      && (|s.vus| <= TWO32 ==> s.activeVus == if |s.vus| <= s.desired then |s.vus| else s.desired)
  {
    EveryStateKeepsInv(n, run, |run| - 1);
    var s := run[|run| - 1];
    forall i: nat | i < |s.vus| ensures (s.vus[i].pc.Running? <==> Wanted(i, s.desired)) && (s.vus[i].active <==> Wanted(i, s.desired)) {
      assert Placed(s, i);
    }
    CountWanted(s.vus, s.desired);
    if |s.vus| <= TWO32 { WantedIsLesser(|s.vus|, s.desired); }
  }

  lemma {:induction false} CountWanted(vus: seq<Vu>, desired: nat)
    requires forall i: nat :: i < |vus| ==> (vus[i].active <==> Wanted(i, desired))
    ensures Count(vus, IsActive) == WantedAmong(|vus|, desired)
    decreases |vus|
  {
    if vus != [] {
      var last := |vus| - 1;
      var front := vus[..last];
      CountWanted(front, desired);
      assert vus == front + [vus[last]];
      CountSnoc(front, IsActive, vus[last]);
    }
  }

  lemma {:induction false} WantedIsLesser(n: nat, desired: nat)
    requires n <= TWO32
    ensures WantedAmong(n, desired) == if n <= desired then n else desired
  {
    if n > 0 { WantedIsLesser(n - 1, desired); }
  }

  // The VUs see what the schedule last said, while any of them is left and the first
  // count read from the schedule was not the sentinel.
  lemma ChannelFollowsSchedule(n: nat, run: seq<State>)
    requires IsRun(n, run) && !AllGone(run[|run| - 1])
    ensures var s := run[|run| - 1];
      s.desired == s.last || (s.version == 0 && s.desired == 0 && s.last == TWO32 - 1)
  {
    EveryStateKeepsInv(n, run, |run| - 1);
  }

  // Every iteration begun is tallied or lost with a degraded VU, none drops; interruptions
  // in a module scope come on top, and take a hard stop.
  lemma IterationsAreConserved(n: nat, run: seq<State>)
    requires IsRun(n, run) && AllGone(run[|run| - 1])
    ensures var s := run[|run| - 1];
      && s.started + s.strays == s.completed + s.errored + s.interrupted + s.lost
      && (s.degraded == 0 ==> (s.started == s.completed + s.errored + s.interrupted <==> s.strays == 0))
      && (!s.hard ==> s.strays == 0)
  {
    EveryStateKeepsInv(n, run, |run| - 1);
    CountNone(run[|run| - 1].vus, IsRunning);
  }

  // ----- Every run ends -----

  // What a VU still has to do once the run is stopped.
  function Effort(v: Vu): nat {
    match v.pc
    case Checked => 8
    case Borrowed(_) => 7
    case Running => 6
    case Parked => 5
    case Looping => 4
    case Ending => if v.unborn then 3 else 2
    case Gone => 0
  }

  ghost function Work(s: State): nat { SumOf(s.vus, Effort) }

  // Once the run is stopped every step of a VU brings it closer to its end.
  lemma StoppedDescends(s: State, t: Step)
    requires AllPlaced(s) && Enabled(s, t) && s.stop && IsMove(t)
    ensures Work(Do(s, t)) < Work(s) && Do(s, t).stop
  {
    MoveIsLocal(s, t);
    assert Placed(s, t.id);
    SumUpdate(s.vus, Effort, t.id, Do(s, t).vus[t.id]);
  }

  // The next step of a VU that needs no cooperation from the script.
  function Out(v: Vu, id: nat): Step {
    match v.pc
    case Checked => Borrow(id)
    case Borrowed(_) => Activate(id)
    case Running => ForceUnwind(id)
    case Parked => StopWake(id)
    case Looping => Check(id)
    case _ => Release(id)
  }

  ghost predicate Path(run: seq<State>) {
    run != [] && forall i: nat :: i < |run| - 1 ==> PathAt(run, i)
  }

  ghost predicate PathAt(run: seq<State>, i: nat)
    requires i < |run| - 1
  {
    Next(run[i], run[i + 1])
  }

  lemma PathPrepend(s: State, run: seq<State>)
    requires Path(run) && Next(s, run[0])
    ensures Path([s] + run)
  {
    var all := [s] + run;
    forall i: nat | i < |all| - 1 ensures PathAt(all, i) {
      if i > 0 {
        assert PathAt(run, i - 1);
        assert all[i] == run[i - 1] && all[i + 1] == run[i];
      } else {
        assert all[0] == s && all[1] == run[0];
      }
    }
  }

  // From every reachable state that is stopped, with the hard stop raised, every control
  // is dropped within the remaining work.
  lemma {:induction false} StoppedFinishes(s: State) returns (run: seq<State>)
    requires Inv(s) && s.stop && s.hard
    ensures Path(run) && run[0] == s && AllGone(run[|run| - 1]) && |run| - 1 <= Work(s)
    decreases Work(s)
  {
    if AllGone(s) {
      run := [s];
    } else {
      var i: nat :| i < |s.vus| && !s.vus[i].pc.Gone?;
      var t := Out(s.vus[i], i);
      StoppedDescends(s, t);
      var u := StepTo(s, t);
      var rest := StoppedFinishes(u);
      PathPrepend(s, rest);
      run := [s] + rest;
    }
  }

  lemma StepTo(s: State, t: Step) returns (u: State)
    requires Inv(s) && s.hard && Enabled(s, t) && IsMove(t)
    ensures u == Do(s, t) && Next(s, u) && Inv(u) && u.hard
  {
    u := Do(s, t);
    assert Next(s, u);
    NextKeepsInv(s, u);
    MoveKeepsHard(s, t);
  }

  lemma MoveKeepsHard(s: State, t: Step)
    requires Enabled(s, t) && IsMove(t)
    ensures Do(s, t).hard == s.hard
  {
  }

  // ----- The sentinel -----

  // A schedule that starts at the largest count: it is read and never broadcast, and
  // every VU stays parked although all of them are wanted.
  lemma SentinelIsNotBroadcast(n: nat)
    ensures var s := Init(n); Enabled(s, Poll(TWO32 - 1, true)) && Do(s, Poll(TWO32 - 1, true)) == s
    ensures Init(n).desired == 0 && !Wanted(0, Init(n).desired) && Wanted(0, TWO32 - 1)
  {
  }

  // ----- Lane by lane -----

  predicate Completes(t: Step) { t.Finish? && t.outcome.Completed? }
  predicate Errs(t: Step) { t.Finish? && t.outcome.Errored? }
  predicate Interrupts(t: Step) { (t.Finish? && t.outcome.Interrupted?) || t.ForceUnwind? || t.Stray? }
  predicate Degrades(t: Step) { t.Die? }

  ghost predicate LanesMove(s: State, u: State, t: Step) {
    && u.completed == s.completed + Unit(Completes(t)) && u.errored == s.errored + Unit(Errs(t))
    && u.interrupted == s.interrupted + Unit(Interrupts(t)) && u.degraded == s.degraded + Unit(Degrades(t))
  }

  lemma MoveLanes(s: State, t: Step, v: Vu)
    requires IsMove(t)
    ensures LanesMove(s, Shared(s, t, v), t)
  {
  }

  lemma StepLanes(s: State, t: Step)
    requires Enabled(s, t)
    ensures LanesMove(s, Do(s, t), t)
  {
    if IsMove(t) { MoveLanes(s, t, s.vus[t.id]); }
  }

  ghost predicate CanRun(s: State, steps: seq<Step>)
    decreases |steps|
  {
    steps == [] || (Enabled(s, steps[0]) && CanRun(Do(s, steps[0]), steps[1..]))
  }

  ghost function After(s: State, steps: seq<Step>): State
    requires CanRun(s, steps)
    decreases |steps|
  {
    if steps == [] then s else After(Do(s, steps[0]), steps[1..])
  }

  // Over any run each lane counts its own steps.
  lemma {:induction false} LanesCountSteps(s: State, steps: seq<Step>)
    requires CanRun(s, steps)
    ensures var u := After(s, steps);
      && u.completed == s.completed + Count(steps, Completes) && u.errored == s.errored + Count(steps, Errs)
      && u.interrupted == s.interrupted + Count(steps, Interrupts) && u.degraded == s.degraded + Count(steps, Degrades)
    decreases |steps|
  {
    if steps != [] {
      StepLanes(s, steps[0]);
      LanesCountSteps(Do(s, steps[0]), steps[1..]);
    }
  }

  // A poll changes what the VUs see exactly if the count differs from the last one read.
  lemma PollBroadcastsChanges(s: State, want: nat)
    requires Enabled(s, Poll(want, true))
    ensures var u := Do(s, Poll(want, true));
      && u.last == want && (want == s.last ==> u == s)
      && (want != s.last ==> u.desired == want && forall i: nat :: i < |s.vus| && s.vus[i].seen <= s.version ==> u.vus[i].seen != u.version)
  {
  }

  // Only the schedule holds the controller back: while it drives it reads any count or
  // stops, then it leaves, and the hard stop comes when it likes.
  lemma ControllerNeverWaits(s: State, want: nat)
    requires want < TWO32
    ensures s.phase.Driving? <==> Enabled(s, Stop)
    ensures s.phase.Driving? <==> Enabled(s, Poll(want, true))
    ensures s.phase.Driving? && AllGone(s) <==> Enabled(s, Poll(want, false))
    ensures s.phase.Stopping? <==> Enabled(s, Exit)
    ensures Enabled(s, HardStop)
  {
  }

  // Once stopped, no step changes the count the VUs see.
  lemma StoppedBroadcastsNothing(s: State, t: Step)
    requires !s.phase.Driving? && Enabled(s, t)
    ensures var u := Do(s, t); u.desired == s.desired && u.version == s.version && u.last == s.last
  {
  }

  // ----- What a stop, an interruption and a boundary lead to -----

  // The iterations VU `i` begins in a run.
  ghost function BeginsIn(s: State, steps: seq<Step>, i: nat): nat
    requires CanRun(s, steps)
    decreases |steps|
  {
    if steps == [] then 0
    else (if i < |s.vus| && steps[0] == Activate(i) && s.vus[i].pc == Borrowed(true) then 1 else 0) + BeginsIn(Do(s, steps[0]), steps[1..], i)
  }

  ghost predicate MayBegin(s: State, i: nat) {
    i < |s.vus| && (s.vus[i].pc.Checked? || s.vus[i].pc.Borrowed?)
  }

  // After the stop every VU begins at most one more iteration, and only one that was past
  // its look at the stop token.
  lemma {:induction false} StopIsPrompt(s: State, steps: seq<Step>, i: nat)
    requires s.stop && CanRun(s, steps)
    ensures BeginsIn(s, steps, i) <= if MayBegin(s, i) then 1 else 0
    decreases |steps|
  {
    if steps != [] {
      StopStaysPrompt(s, steps[0], i);
      StopIsPrompt(Do(s, steps[0]), steps[1..], i);
    }
  }

  lemma StopStaysPrompt(s: State, t: Step, i: nat)
    requires s.stop && Enabled(s, t)
    ensures Do(s, t).stop && (MayBegin(Do(s, t), i) ==> MayBegin(s, i) && t != Activate(i))
  {
  }

  // A VU ends only by the stop, by dying, or interrupted; and it never comes round again.
  lemma EndsOnlyIf(s: State, t: Step, i: nat)
    requires Enabled(s, t) && i < |s.vus|
    ensures var was, now := s.vus[i].pc, Do(s, t).vus[i].pc;
      && (now.Ending? && !was.Ending? ==> s.stop || t == Die(i) || t == ForceUnwind(i))
      && (was.Ending? || was.Gone? ==> now.Ending? || now.Gone?)
  {
  }

  // A VU that is wanted and not stopped runs again after its boundary; one that is not
  // wanted parks.
  lemma ComesRound(s: State, i: nat, o: Outcome)
    requires i < |s.vus| && s.vus[i].pc.Running? && !s.stop
    ensures var steps := [Finish(i, o), Check(i), Borrow(i), Activate(i)];
      && CanRun(s, steps) && i < |After(s, steps).vus|
      && After(s, steps).vus[i].pc == if Wanted(i, s.desired) then Running else Parked
  {
    var a := MoveOne(s, Finish(i, o));
    var b := MoveOne(a, Check(i));
    var c := MoveOne(b, Borrow(i));
    var d := MoveOne(c, Activate(i));
    assert CanRun(d, []) && After(d, []) == d;
    Prepend(c, Activate(i), []);
    Prepend(b, Borrow(i), [Activate(i)]);
    Prepend(a, Check(i), [Borrow(i), Activate(i)]);
    Prepend(s, Finish(i, o), [Check(i), Borrow(i), Activate(i)]);
  }

  // What a VU's own step does to it, and what it leaves alone.
  lemma MoveOne(s: State, t: Step) returns (u: State)
    requires Enabled(s, t) && IsMove(t)
    ensures u == Do(s, t) && MovesOne(s, u, t.id) && u.vus[t.id] == Moved(s, t, s.vus[t.id])
  {
    u := Do(s, t);
    MoveIsLocal(s, t);
  }

  lemma Prepend(s: State, t: Step, rest: seq<Step>)
    requires Enabled(s, t) && CanRun(Do(s, t), rest)
    ensures CanRun(s, [t] + rest) && After(s, [t] + rest) == After(Do(s, t), rest)
  {
    assert ([t] + rest)[1..] == rest;
  }

  // A VU stopped before its first iteration and found waiting in its module scope: one
  // interruption, and no iteration begun.
  lemma StrayHappens(n: nat, i: nat)
    requires i < n
    ensures var steps := [Stop, HardStop, Check(i), Stray(i)];
      && CanRun(Init(n), steps)
      && var s := After(Init(n), steps); s.started == 0 && s.interrupted == 1 && s.degraded == 0 && i < |s.vus| && s.vus[i].pc.Ending?
  {
    var a := Do(Do(Init(n), Stop), HardStop);
    var b := MoveOne(a, Check(i));
    StrayCounts(b, i);
    assert CanRun(Do(b, Stray(i)), []);
    Prepend(b, Stray(i), []);
    Prepend(a, Check(i), [Stray(i)]);
    Prepend(Do(Init(n), Stop), HardStop, [Check(i), Stray(i)]);
    Prepend(Init(n), Stop, [HardStop, Check(i), Stray(i)]);
    StepLanes(a, Check(i));
  }

  lemma StrayCounts(s: State, i: nat)
    requires i < |s.vus| && s.vus[i].pc.Ending? && s.vus[i].unborn && s.hard
    ensures Enabled(s, Stray(i))
    ensures var u := Do(s, Stray(i));
      && u.started == s.started && u.interrupted == s.interrupted + 1 && u.degraded == s.degraded
      && i < |u.vus| && u.vus[i].pc.Ending?
  {
  }

  // A VU can be lost at any point of its loop, and takes only a running iteration with it.
  lemma VusDieAnywhere(s: State, i: nat)
    requires i < |s.vus| && !s.vus[i].pc.Ending? && !s.vus[i].pc.Gone?
    ensures Enabled(s, Die(i))
    ensures var u := Do(s, Die(i));
      u.vus[i].pc == Ending && u.degraded == s.degraded + 1 && u.lost == s.lost + if s.vus[i].pc.Running? then 1 else 0
  {
  }
}
