/** The shared-iterations executor: VUs claim iterations from one budget by
    compare-and-swap, each load and each swap a step of its own. */
module SharedIterations {
  import opened Counting

  // `Ready` is about to look at the stop conditions; `Loading` is at the head of the
  // claim loop; `Loaded` holds the value it read and has not tried to swap yet; `Winding`
  // was told to stop before its first iteration and still evaluates the script's module
  // scope, which may wait for something.
  datatype Pc = Ready | Loading | Loaded(cur: int) | Running | Winding | Stopped | Dead

  // A VU, and whether it has never been resumed.
  datatype Vu = Vu(pc: Pc, unborn: bool)
  {
    predicate Alive() { !pc.Stopped? && !pc.Dead? }
    function At(next: Pc): Vu { Vu(next, unborn) }
    function Ended(): Vu { Vu(if unborn then Winding else Stopped, unborn) }
  }

  datatype Outcome = Completed | Errored | Interrupted

  datatype State = State(
    vus: seq<Vu>,
    remaining: int,      // that it stays at or above zero is proved
    halted: bool,        // cancelled, or past the deadline
    hard: bool,          // the hard-stop token
    completed: nat, errored: nat, interrupted: nat, degraded: nat,
    tickets: seq<int>,   // the budget values swapped out, in order
    lost: nat,           // iterations that died with their VU
    strays: nat)         // interruptions counted with no claim behind them
  {
    function Tallied(): nat { completed + errored + interrupted }
  }

  function Init(n: nat, total: nat): State {
    State(seq(n, _ => Vu(Ready, true)), total, false, false, 0, 0, 0, 0, [], 0, 0)
  }

  datatype Step =
    | Check(id: nat)                     // look at the cancel token and the deadline
    | Load(id: nat)                      // read the budget; zero ends the VU
    | Swap(id: nat)                      // the weak swap succeeds
    | Fail(id: nat)                      // the weak swap fails, spuriously or not
    | Finish(id: nat, outcome: Outcome)  // an iteration reached its boundary and was tallied
    | ForceUnwind(id: nat)               // the hard stop interrupts a running iteration
    | Unwound(id: nat)                   // a stopped VU leaves the module scope
    | Stray(id: nat)                     // the hard stop finds it waiting there
    | Die(id: nat, counted: bool)        // the VU is lost; uncounted only before it started
    | Halt
    | HardStop

  predicate IsMove(t: Step) { !t.Halt? && !t.HardStop? }

  predicate Enabled(s: State, t: Step) {
    IsMove(t) ==> t.id < |s.vus| && CanTake(s, t, s.vus[t.id])
  }

  // Whether a VU can take its step.
  predicate CanTake(s: State, t: Step, v: Vu) {
    match t
    case Check(_) => v.pc.Ready?
    case Load(_) => v.pc.Loading?
    case Swap(_) => v.pc == Loaded(s.remaining)
    case Fail(_) => v.pc.Loaded?
    case Finish(_, _) => v.pc.Running?
    case ForceUnwind(_) => v.pc.Running? && s.hard
    case Unwound(_) => v.pc.Winding?
    case Stray(_) => v.pc.Winding? && s.hard
    case Die(_, counted) => v.Alive() && (counted || v == Vu(Ready, true))
    case Halt => true
    case HardStop => true
  }

  // Where the step takes the VU.
  function Moved(s: State, t: Step, v: Vu): Vu {
    match t
    case Check(_) => if s.halted then v.Ended() else v.At(Loading)
    case Load(_) => if s.remaining == 0 then v.Ended() else v.At(Loaded(s.remaining))
    case Swap(_) => Vu(Running, false)
    case Fail(_) => v.At(Loading)
    case Finish(_, _) => v.At(Ready)
    case ForceUnwind(_) => v.At(Stopped)
    case Unwound(_) => v.At(Stopped)
    case Stray(_) => v.At(Stopped)
    case Die(_, _) => v.At(Dead)
    case Halt => v
    case HardStop => v
  }

  function Tally(s: State, o: Outcome): State {
    match o
    case Completed => s.(completed := s.completed + 1)
    case Errored => s.(errored := s.errored + 1)
    case Interrupted => s.(interrupted := s.interrupted + 1)
  }

  // What the step does to everything shared.
  function Shared(s: State, t: Step): State
    requires Enabled(s, t)
  {
    match t
    case Swap(_) => s.(remaining := s.remaining - 1, tickets := s.tickets + [s.remaining])
    case Finish(_, o) => Tally(s, o)
    case ForceUnwind(_) => Tally(s, Interrupted)
    case Stray(_) => Tally(s, Interrupted).(strays := s.strays + 1)
    case Die(id, counted) =>
      s.(degraded := if counted then s.degraded + 1 else s.degraded,
         lost := if s.vus[id].pc.Running? then s.lost + 1 else s.lost)
    case Halt => s.(halted := true)
    case HardStop => s.(hard := true)
    case _ => s
  }

  function Do(s: State, t: Step): State
    requires Enabled(s, t)
  {
    if IsMove(t) then Shared(s, t).(vus := s.vus[t.id := Moved(s, t, s.vus[t.id])]) else Shared(s, t)
  }

  // ----- Invariants -----

  predicate IsRunning(v: Vu) { v.pc.Running? }

  ghost function RunningCount(s: State): nat { Count(s.vus, IsRunning) }

  // Every unit of the budget is claimed once, from the top down, and none twice.
  ghost predicate Claimed(s: State, total: nat) {
    && 0 <= s.remaining == total - |s.tickets|
    && forall k :: 0 <= k < |s.tickets| ==> s.tickets[k] == total - k
  }

  // A loaded value was the budget once; a VU that ended had a reason to.
  ghost predicate Placed(s: State, v: Vu) {
    && (v.pc.Loaded? ==> v.pc.cur >= 1 && v.pc.cur >= s.remaining)
    && (v.pc.Stopped? || v.pc.Winding? ==> s.halted || s.hard || s.remaining == 0)
    && (v.pc.Winding? ==> v.unborn)
  }

  ghost predicate AllPlaced(s: State) {
    forall i :: 0 <= i < |s.vus| ==> Placed(s, s.vus[i])
  }

  ghost predicate Accounted(s: State) {
    && s.Tallied() + RunningCount(s) + s.lost == |s.tickets| + s.strays
    && s.lost <= s.degraded
    && (s.strays > 0 ==> s.hard)
  }

  ghost predicate Inv(s: State, total: nat) {
    Claimed(s, total) && AllPlaced(s) && Accounted(s)
  }

  // The budget only falls, and the stops only rise.
  lemma SharedIsOnward(s: State, t: Step)
    requires Enabled(s, t) && (t.Swap? ==> s.remaining > 0)
    ensures var u := Shared(s, t);
      && u.vus == s.vus && (s.halted ==> u.halted) && (s.hard ==> u.hard)
      && u.remaining <= s.remaining && (u.remaining < s.remaining ==> s.remaining > 0)
  {
  }

  lemma OthersStayPlaced(s: State, u: State, v: Vu)
    requires Placed(s, v) && s.remaining >= 0 && (s.halted ==> u.halted) && (s.hard ==> u.hard)
    requires u.remaining <= s.remaining && (u.remaining < s.remaining ==> s.remaining > 0)
    ensures Placed(u, v)
  {
  }

  lemma MovedIsPlaced(s: State, t: Step)
    requires AllPlaced(s) && s.remaining >= 0 && Enabled(s, t) && IsMove(t)
    ensures Placed(Do(s, t), Moved(s, t, s.vus[t.id]))
  {
    assert Placed(s, s.vus[t.id]);
  }

  lemma StepKeepsPlaced(s: State, total: nat, t: Step)
    requires Inv(s, total) && Enabled(s, t)
    ensures AllPlaced(Do(s, t))
  {
    var u := Do(s, t);
    if t.Swap? { assert Placed(s, s.vus[t.id]); }
    SharedIsOnward(s, t);
    forall i | 0 <= i < |u.vus| ensures Placed(u, u.vus[i]) {
      if IsMove(t) && i == t.id {
        MovedIsPlaced(s, t);
      } else {
        OthersStayPlaced(s, u, s.vus[i]);
      }
    }
  }

  lemma StepKeepsClaimed(s: State, total: nat, t: Step)
    requires Inv(s, total) && Enabled(s, t)
    ensures Claimed(Do(s, t), total)
  {
    if t.Swap? { assert Placed(s, s.vus[t.id]); }
  }

  function One(b: bool): int { if b then 1 else 0 }

  lemma MoveBalance(s: State, t: Step)
    requires Enabled(s, t) && IsMove(t)
    ensures var u := Do(s, t);
      && u.Tallied() + u.lost - u.strays + One(IsRunning(u.vus[t.id])) - |u.tickets|
         == s.Tallied() + s.lost - s.strays + One(IsRunning(s.vus[t.id])) - |s.tickets|
      && u.lost - s.lost <= u.degraded - s.degraded && (u.strays > s.strays ==> u.hard)
  {
  }

  lemma StepKeepsAccounted(s: State, t: Step)
    requires Accounted(s) && Enabled(s, t)
    ensures Accounted(Do(s, t))
  {
    if IsMove(t) {
      MoveBalance(s, t);
      CountUpdate(s.vus, IsRunning, t.id, Do(s, t).vus[t.id]);
    }
  }

  // ----- Whole runs -----

  ghost predicate Next(s: State, u: State) {
    exists t :: Enabled(s, t) && Do(s, t) == u
  }

  ghost predicate IsRun(n: nat, total: nat, run: seq<State>) {
    run != [] && run[0] == Init(n, total) && forall i :: 0 <= i < |run| - 1 ==> Next(run[i], run[i + 1])
  }

  lemma NextKeepsInv(s: State, u: State, total: nat)
    requires Inv(s, total) && Next(s, u)
    ensures Inv(u, total) && |u.vus| == |s.vus|
  {
    var t :| Enabled(s, t) && Do(s, t) == u;
    StepKeepsClaimed(s, total, t);
    StepKeepsPlaced(s, total, t);
    StepKeepsAccounted(s, t);
  }

  // In every state of every run the budget and the claims sum to the total, and every
  // claim is tallied, running or lost.
  lemma {:induction false} EveryStateKeepsInv(n: nat, total: nat, run: seq<State>, i: nat)
    requires IsRun(n, total, run) && i < |run|
    ensures Inv(run[i], total) && |run[i].vus| == n
  {
    if i == 0 {
      CountNone(Init(n, total).vus, IsRunning);
    } else {
      EveryStateKeepsInv(n, total, run, i - 1);
      assert Next(run[i - 1], run[i - 1 + 1]);
      NextKeepsInv(run[i - 1], run[i], total);
    }
  }

  // ----- The reported summary -----

  function SaturatingSub(a: nat, b: nat): nat { if a >= b then a - b else 0 }

  datatype Lanes = Lanes(completed: nat, dropped: nat, errored: nat, interrupted: nat)
  {
    function Sum(): nat { completed + dropped + errored + interrupted }
  }

  // The reported summary; without VUs nothing runs and every lane is zero.
  function Reported(s: State, total: nat): Lanes {
    if |s.vus| == 0 then Lanes(0, 0, 0, 0)
    else Lanes(s.completed, SaturatingSub(total, s.Tallied()), s.errored, s.interrupted)
  }

  // With a VU and no hard stop the four lanes sum to the budget in every state, whatever
  // died, and what is reported as dropped is the unclaimed budget plus the claims still
  // running or lost.
  lemma LanesSumToBudget(n: nat, total: nat, run: seq<State>)
    requires IsRun(n, total, run)
    ensures var s := run[|run| - 1];
      && (n == 0 ==> Reported(s, total).Sum() == 0)
      && (n > 0 ==> (Reported(s, total).Sum() == total <==> s.Tallied() <= total))
      && (n > 0 && !s.hard ==> Reported(s, total).Sum() == total)
      && (n > 0 && !s.hard ==> Reported(s, total).dropped == s.remaining + RunningCount(s) + s.lost)
  {
    EveryStateKeepsInv(n, total, run, |run| - 1);
  }

  ghost predicate Finished(s: State) {
    forall i :: 0 <= i < |s.vus| ==> !s.vus[i].Alive()
  }

  // Once every VU is gone, with a VU and no hard stop, the reported drop is the unclaimed
  // budget exactly if no iteration died with its VU.
  lemma DroppedIsUnclaimed(n: nat, total: nat, run: seq<State>)
    requires IsRun(n, total, run) && Finished(run[|run| - 1])
    ensures var s := run[|run| - 1];
      && (n > 0 && !s.hard ==> (Reported(s, total).dropped == s.remaining <==> s.lost == 0))
      && (n > 0 && !s.hard && s.degraded == 0 ==> Reported(s, total).dropped == s.remaining)
  {
    EveryStateKeepsInv(n, total, run, |run| - 1);
    CountNone(run[|run| - 1].vus, IsRunning);
  }

  // An undisturbed run, with a VU that lived to its end, runs the whole budget.
  lemma UndisturbedRunsEverything(n: nat, total: nat, run: seq<State>, i: nat)
    requires IsRun(n, total, run) && Finished(run[|run| - 1])
    requires var s := run[|run| - 1];
      !s.halted && !s.hard && s.degraded == 0 && i < |s.vus| && s.vus[i].pc.Stopped?
    ensures var s := run[|run| - 1];
      s.remaining == 0 && s.completed + s.errored + s.interrupted == total
  {
    var s := run[|run| - 1];
    DroppedIsUnclaimed(n, total, run);
    LanesSumToBudget(n, total, run);
    EveryStateKeepsInv(n, total, run, |run| - 1);
    assert Placed(s, s.vus[i]);
  }

  // No two claims took the same unit of the budget.
  lemma ClaimsAreDistinct(n: nat, total: nat, run: seq<State>, j: nat, k: nat)
    requires IsRun(n, total, run) && j < k < |run[|run| - 1].tickets|
    ensures run[|run| - 1].tickets[j] != run[|run| - 1].tickets[k]
  {
    EveryStateKeepsInv(n, total, run, |run| - 1);
  }

  // ----- Every run ends -----

  predicate IsAlive(v: Vu) { v.Alive() }

  // The first VU that has not ended.
  function First(vus: seq<Vu>): (i: nat)
    ensures i <= |vus| && (i < |vus| ==> vus[i].Alive()) && forall j :: 0 <= j < i ==> !vus[j].Alive()
  {
    if vus == [] || vus[0].Alive() then 0 else 1 + First(vus[1..])
  }

  // What it still has to do under a halt and a hard stop, if nobody else moves: a stale
  // value fails its swap and is read again, a fresh one is swapped.
  function Effort(s: State, v: Vu): nat {
    match v.pc
    case Loaded(cur) => if cur == s.remaining then 3 else 5
    case Loading => 4
    case Running => 2
    case Ready => 2
    case Winding => 1
    case Stopped => 0
    case Dead => 0
  }

  function Out(s: State, v: Vu, id: nat): Step {
    match v.pc
    case Loaded(cur) => if cur == s.remaining then Swap(id) else Fail(id)
    case Loading => Load(id)
    case Running => ForceUnwind(id)
    case Winding => Unwound(id)
    case _ => Check(id)
  }

  lemma OutDescends(s: State, id: nat)
    requires s.halted && s.hard && id < |s.vus| && s.vus[id].Alive()
    ensures var t := Out(s, s.vus[id], id); IsMove(t) && t.id == id && Enabled(s, t)
    ensures var u := Do(s, Out(s, s.vus[id], id));
      u.halted && u.hard && Effort(u, u.vus[id]) < Effort(s, s.vus[id])
  {
  }

  predicate CanRun(s: State, steps: seq<Step>)
    decreases |steps|
  {
    steps == [] || (Enabled(s, steps[0]) && CanRun(Do(s, steps[0]), steps[1..]))
  }

  function After(s: State, steps: seq<Step>): State
    requires CanRun(s, steps)
    decreases |steps|
  {
    if steps == [] then s else After(Do(s, steps[0]), steps[1..])
  }

  lemma Prepend(s: State, t: Step, rest: seq<Step>)
    requires Enabled(s, t) && CanRun(Do(s, t), rest)
    ensures CanRun(s, [t] + rest) && After(s, [t] + rest) == After(Do(s, t), rest)
  {
    assert ([t] + rest)[1..] == rest;
  }

  ghost function FirstEffort(s: State): nat {
    var i := First(s.vus);
    if i < |s.vus| then Effort(s, s.vus[i]) else 0
  }

  lemma FirstStays(vus: seq<Vu>, i: nat, v: Vu)
    requires i == First(vus) < |vus|
    ensures v.Alive() ==> First(vus[i := v]) == i
    ensures Count(vus[i := v], IsAlive) == Count(vus, IsAlive) - One(!v.Alive())
  {
    CountUpdate(vus, IsAlive, i, v);
    if v.Alive() { FirstUnique(vus[i := v], i); }
  }

  lemma {:induction false} FirstUnique(vus: seq<Vu>, i: nat)
    requires i < |vus| && vus[i].Alive() && forall j :: 0 <= j < i ==> !vus[j].Alive()
    ensures First(vus) == i
    decreases i
  {
    if i > 0 {
      assert !vus[0].Alive();
      FirstUnique(vus[1..], i - 1);
    }
  }

  // What a finishing run leaves alone, or only adds to.
  ghost predicate Keeps(s: State, u: State) {
    && |u.vus| == |s.vus| && u.strays == s.strays
    && u.Tallied() >= s.Tallied() && u.lost >= s.lost
  }

  // From every state with the run halted and the hard stop raised, every VU gets out,
  // one after the other, with nothing asked of the script.
  lemma {:induction false} HaltedFinishes(s: State) returns (steps: seq<Step>)
    requires s.halted && s.hard
    ensures CanRun(s, steps) && Finished(After(s, steps)) && Keeps(s, After(s, steps))
    decreases Count(s.vus, IsAlive), FirstEffort(s)
  {
    var i := First(s.vus);
    steps := [];
    if i < |s.vus| {
      var t := Out(s, s.vus[i], i);
      OutDescends(s, i);
      FirstStays(s.vus, i, Do(s, t).vus[i]);
      var rest := HaltedFinishes(Do(s, t));
      Prepend(s, t, rest);
      OutKeeps(s, i);
      steps := [t] + rest;
    }
  }

  lemma OutKeeps(s: State, id: nat)
    requires s.halted && s.hard && id < |s.vus| && s.vus[id].Alive()
    ensures Enabled(s, Out(s, s.vus[id], id)) && Keeps(s, Do(s, Out(s, s.vus[id], id)))
  {
  }

  lemma {:induction false} RunConcat(s: State, a: seq<Step>, b: seq<Step>)
    requires CanRun(s, a) && CanRun(After(s, a), b)
    ensures CanRun(s, a + b) && After(s, a + b) == After(After(s, a), b)
    decreases |a|
  {
    if a == [] {
      assert a + b == b;
    } else {
      var t, rest := a[0], a[1..];
      var tail := rest + b;
      RunConcat(Do(s, t), rest, b);
      Prepend(s, t, tail);
      assert a + b == [t] + tail;
    }
  }

  lemma {:induction false} RunKeepsInv(s: State, total: nat, steps: seq<Step>)
    requires Inv(s, total) && CanRun(s, steps)
    ensures Inv(After(s, steps), total) && |After(s, steps).vus| == |s.vus|
    decreases |steps|
  {
    if steps != [] {
      var u := Do(s, steps[0]);
      assert Next(s, u);
      NextKeepsInv(s, u, total);
      RunKeepsInv(u, total, steps[1..]);
    }
  }

  lemma InitHolds(n: nat, total: nat)
    ensures Inv(Init(n, total), total)
  {
    CountNone(Init(n, total).vus, IsRunning);
  }

  // ----- For which pools and budgets the lanes always sum -----

  ghost predicate MeetsBudget(n: nat, total: nat, steps: seq<Step>) {
    var s := Init(n, total);
    CanRun(s, steps) && Finished(After(s, steps)) ==> Reported(After(s, steps), total).Sum() == total
  }

  // A single VU that was interrupted in its module scope never claimed anything.
  ghost predicate Solo(s: State) {
    && |s.vus| == 1 && (s.vus[0].unborn ==> s.tickets == []) && s.strays <= 1
    && (s.strays == 1 ==> s.vus[0] == Vu(Stopped, true))
  }

  lemma StepKeepsSolo(s: State, t: Step)
    requires Solo(s) && AllPlaced(s) && Enabled(s, t)
    ensures Solo(Do(s, t))
  {
    assert Placed(s, s.vus[0]);
  }

  lemma {:induction false} RunKeepsSolo(s: State, total: nat, steps: seq<Step>)
    requires Solo(s) && Inv(s, total) && CanRun(s, steps)
    ensures Solo(After(s, steps))
    decreases |steps|
  {
    if steps != [] {
      var u := Do(s, steps[0]);
      StepKeepsSolo(s, steps[0]);
      assert Next(s, u);
      NextKeepsInv(s, u, total);
      RunKeepsSolo(u, total, steps[1..]);
    }
  }

  lemma OneVuMeetsBudget(total: nat, steps: seq<Step>)
    requires total > 0
    ensures MeetsBudget(1, total, steps)
  {
    var s := Init(1, total);
    if CanRun(s, steps) {
      InitHolds(1, total);
      RunKeepsSolo(s, total, steps);
      RunKeepsInv(s, total, steps);
    }
  }

  // The first VU claims an iteration.
  lemma Claim(s: State) returns (u: State)
    requires s.vus != [] && s.vus[0].pc.Ready? && !s.halted && s.remaining > 0
    ensures u == s.(vus := s.vus[0 := Vu(Running, false)], remaining := s.remaining - 1, tickets := s.tickets + [s.remaining])
    ensures var steps := [Check(0), Load(0), Swap(0)]; CanRun(s, steps) && After(s, steps) == u
  {
    var v := s.vus[0];
    var a := Do(s, Check(0));
    assert a == s.(vus := s.vus[0 := v.At(Loading)]);
    var b := Do(a, Load(0));
    assert b == s.(vus := s.vus[0 := v.At(Loaded(s.remaining))]);
    u := Do(b, Swap(0));
    assert CanRun(u, []) && After(u, []) == u;
    Prepend(b, Swap(0), []);
    Prepend(a, Load(0), [Swap(0)]);
    Prepend(s, Check(0), [Load(0), Swap(0)]);
  }

  // And completes it.
  lemma OneIteration(s: State) returns (u: State)
    requires s.vus != [] && s.vus[0].pc.Ready? && !s.halted && s.remaining > 0
    ensures u == s.(vus := s.vus[0 := Vu(Ready, false)], remaining := s.remaining - 1, completed := s.completed + 1,
                    tickets := s.tickets + [s.remaining])
    ensures var steps := [Check(0), Load(0), Swap(0)] + [Finish(0, Completed)]; CanRun(s, steps) && After(s, steps) == u
  {
    var c := Claim(s);
    u := Do(c, Finish(0, Completed));
    assert CanRun(u, []) && After(u, []) == u;
    Prepend(c, Finish(0, Completed), []);
    RunConcat(s, [Check(0), Load(0), Swap(0)], [Finish(0, Completed)]);
  }

  // The first VU uses up the budget.
  lemma {:induction false} UseUp(s: State) returns (steps: seq<Step>)
    requires s.vus != [] && s.vus[0].pc.Ready? && !s.halted && s.remaining >= 0
    ensures CanRun(s, steps)
    ensures var u := After(s, steps);
      && u.remaining == 0 && !u.halted && |u.vus| == |s.vus| && u.Tallied() == s.Tallied() + s.remaining
      && (forall i :: 0 < i < |s.vus| ==> u.vus[i] == s.vus[i]) && (s.remaining == 0 ==> u.vus == s.vus)
    decreases s.remaining
  {
    steps := [];
    if s.remaining > 0 {
      var u := OneIteration(s);
      var rest := UseUp(u);
      var four := [Check(0), Load(0), Swap(0)] + [Finish(0, Completed)];
      RunConcat(s, four, rest);
      steps := four + rest;
    }
  }

  // With no budget left a VU that never ran is stopped, and interrupted in its module scope.
  lemma StrayOf(s: State, j: nat) returns (u: State)
    requires j < |s.vus| && s.vus[j] == Vu(Ready, true) && !s.halted && s.remaining == 0
    ensures var steps := [Check(j), Load(j), HardStop, Stray(j), Halt]; CanRun(s, steps) && After(s, steps) == u
    ensures u.halted && u.hard && u.Tallied() == s.Tallied() + 1 && |u.vus| == |s.vus|
  {
    var a := Do(s, Check(j));
    var b := Do(a, Load(j));
    assert a.vus[j] == Vu(Loading, true) && b.vus[j] == Vu(Winding, true);
    var c := Do(b, HardStop);
    var d := Do(c, Stray(j));
    u := Do(d, Halt);
    assert CanRun(u, []) && After(u, []) == u;
    Prepend(d, Halt, []);
    Prepend(c, Stray(j), [Halt]);
    Prepend(b, HardStop, [Stray(j), Halt]);
    Prepend(a, Load(j), [HardStop, Stray(j), Halt]);
    Prepend(s, Check(j), [Load(j), HardStop, Stray(j), Halt]);
  }

  // Two VUs, or one without a budget: one more tally than the budget.
  lemma StrayExceedsBudget(n: nat, total: nat) returns (steps: seq<Step>)
    requires n >= 2 || (n == 1 && total == 0)
    ensures CanRun(Init(n, total), steps) && Finished(After(Init(n, total), steps))
    ensures Reported(After(Init(n, total), steps), total).Sum() > total
  {
    var s := Init(n, total);
    var first := UseUp(s);
    var used := After(s, first);
    var u := StrayOf(used, n - 1);
    var second := [Check(n - 1), Load(n - 1), HardStop, Stray(n - 1), Halt];
    var third := HaltedFinishes(u);
    RunConcat(used, second, third);
    RunConcat(s, first, second + third);
    steps := first + (second + third);
  }

  // The four lanes of every finished run sum to the budget exactly for a single VU with a
  // budget, and for neither.
  lemma BudgetIsMetIff(n: nat, total: nat)
    ensures (forall steps :: MeetsBudget(n, total, steps)) <==> (n == 1 && total > 0) || (n == 0 && total == 0)
  {
    if n == 1 && total > 0 {
      forall steps ensures MeetsBudget(n, total, steps) { OneVuMeetsBudget(total, steps); }
    } else if n == 0 {
      NoVusReportNothing(total);
    } else {
      var steps := StrayExceedsBudget(n, total);
      assert !MeetsBudget(n, total, steps);
    }
  }

  // Without VUs an unclaimed budget is reported nowhere.
  lemma NoVusReportNothing(total: nat)
    ensures CanRun(Init(0, total), []) && Finished(After(Init(0, total), []))
    ensures Reported(After(Init(0, total), []), total) == Lanes(0, 0, 0, 0)
    ensures MeetsBudget(0, total, []) <==> total == 0
    ensures total == 0 ==> forall steps :: MeetsBudget(0, total, steps)
  {
    var s := Init(0, total);
    assert CanRun(s, []) && After(s, []) == s;
    forall steps | CanRun(s, steps) ensures |After(s, steps).vus| == 0 {
      InitHolds(0, total);
      RunKeepsInv(s, total, steps);
    }
  }

  // ----- For which budgets the reported drop is always the unclaimed budget -----

  ghost predicate ReportsUnclaimed(n: nat, total: nat, steps: seq<Step>) {
    var s := Init(n, total);
    CanRun(s, steps) && Finished(After(s, steps)) ==> Reported(After(s, steps), total).dropped == After(s, steps).remaining
  }

  // A VU dies while it runs: its iteration is reported as dropped although it started.
  lemma DeadIterationIsDropped(n: nat, total: nat) returns (steps: seq<Step>)
    requires n > 0 && total > 0
    ensures !ReportsUnclaimed(n, total, steps)
  {
    var s := Init(n, total);
    var u := ClaimAndDie(s);
    var first := [Check(0), Load(0), Swap(0)] + [Die(0, true), HardStop, Halt];
    var rest := HaltedFinishes(u);
    RunConcat(s, first, rest);
    steps := first + rest;
    InitHolds(n, total);
    RunKeepsInv(s, total, steps);
    CountNone(After(s, steps).vus, IsRunning);
  }

  lemma ClaimAndDie(s: State) returns (u: State)
    requires s.vus != [] && s.vus[0].pc.Ready? && !s.halted && s.remaining > 0
    ensures var steps := [Check(0), Load(0), Swap(0)] + [Die(0, true), HardStop, Halt]; CanRun(s, steps) && After(s, steps) == u
    ensures u.halted && u.hard && u.lost == s.lost + 1 && u.strays == s.strays && |u.vus| == |s.vus|
  {
    var c := Claim(s);
    var d := Do(c, Die(0, true));
    var e := Do(d, HardStop);
    u := Do(e, Halt);
    assert CanRun(u, []) && After(u, []) == u;
    Prepend(e, Halt, []);
    Prepend(d, HardStop, [Halt]);
    Prepend(c, Die(0, true), [HardStop, Halt]);
    RunConcat(s, [Check(0), Load(0), Swap(0)], [Die(0, true), HardStop, Halt]);
  }

  // The reported drop is always the unclaimed budget exactly if there is no budget.
  lemma UnclaimedIsReportedIff(n: nat, total: nat)
    ensures (forall steps :: ReportsUnclaimed(n, total, steps)) <==> total == 0
  {
    if total == 0 {
      forall steps ensures ReportsUnclaimed(n, total, steps) { NoBudgetReports(n, steps); }
    } else if n == 0 {
      NoVusReportNothing(total);
      assert !ReportsUnclaimed(0, total, []);
    } else {
      var steps := DeadIterationIsDropped(n, total);
    }
  }

  lemma NoBudgetReports(n: nat, steps: seq<Step>)
    ensures ReportsUnclaimed(n, 0, steps)
  {
    if CanRun(Init(n, 0), steps) {
      InitHolds(n, 0);
      RunKeepsInv(Init(n, 0), 0, steps);
    }
  }

  // ----- Lane by lane -----

  predicate Completes(t: Step) { t.Finish? && t.outcome.Completed? }
  predicate Errs(t: Step) { t.Finish? && t.outcome.Errored? }
  predicate Interrupts(t: Step) { (t.Finish? && t.outcome.Interrupted?) || t.ForceUnwind? || t.Stray? }
  predicate Claims(t: Step) { t.Swap? }
  predicate Degrades(t: Step) { t.Die? && t.counted }

  lemma StepLanes(s: State, t: Step)
    requires Enabled(s, t)
    ensures var u := Do(s, t);
      && u.completed == s.completed + One(Completes(t)) && u.errored == s.errored + One(Errs(t))
      && u.interrupted == s.interrupted + One(Interrupts(t)) && |u.tickets| == |s.tickets| + One(Claims(t))
      && u.degraded == s.degraded + One(Degrades(t)) && u.remaining == s.remaining - One(Claims(t))
  {
  }

  lemma {:induction false} CountersCountSteps(s: State, steps: seq<Step>)
    requires CanRun(s, steps)
    ensures var u := After(s, steps);
      && u.completed == s.completed + Count(steps, Completes) && u.errored == s.errored + Count(steps, Errs)
      && u.interrupted == s.interrupted + Count(steps, Interrupts) && u.remaining == s.remaining - Count(steps, Claims)
      && u.degraded == s.degraded + Count(steps, Degrades)
    decreases |steps|
  {
    if steps != [] {
      StepLanes(s, steps[0]);
      CountersCountSteps(Do(s, steps[0]), steps[1..]);
    }
  }

  // With a VU each reported lane counts its own steps, and the drop is the budget less the
  // iterations that completed, errored or were interrupted.
  lemma LanesCountSteps(n: nat, total: nat, steps: seq<Step>)
    requires n > 0 && CanRun(Init(n, total), steps)
    ensures var lanes := Reported(After(Init(n, total), steps), total);
            var c, e, i := Count(steps, Completes), Count(steps, Errs), Count(steps, Interrupts);
      && lanes.completed == c && lanes.errored == e && lanes.interrupted == i
      && lanes.dropped == if c + e + i <= total then total - (c + e + i) else 0
  {
    InitHolds(n, total);
    CountersCountSteps(Init(n, total), steps);
    RunKeepsInv(Init(n, total), total, steps);
  }
}
