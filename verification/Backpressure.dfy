/** The limit on requests in flight: taking a permit and counting it are two steps, as
    are uncounting and releasing it. */
module Backpressure {
  import opened Counting

  // `Taken` holds a permit that is not counted yet, `Releasing` one that no longer is.
  datatype Pc = Outside | Taken | Held | Releasing

  datatype State = State(
    tasks: seq<Pc>,
    max: nat,
    available: nat,     // the semaphore
    inFlight: int)      // the counter; that it stays at or above zero is proved

  function Init(n: nat, max: nat): State { State(seq(n, _ => Outside), max, max, 0) }

  datatype Step =
    | Take(id: nat)      // acquire or try_acquire gets a permit
    | Refuse(id: nat)    // try_acquire finds none
    | Count(id: nat)
    | Uncount(id: nat)
    | Release(id: nat)

  predicate Enabled(s: State, t: Step) {
    && t.id < |s.tasks|
    && match t
       case Take(id) => s.tasks[id].Outside? && s.available > 0
       case Refuse(id) => s.tasks[id].Outside? && s.available == 0
       case Count(id) => s.tasks[id].Taken?
       case Uncount(id) => s.tasks[id].Held?
       case Release(id) => s.tasks[id].Releasing?
  }

  function Do(s: State, t: Step): State
    requires Enabled(s, t)
  {
    match t
    case Take(id) => s.(tasks := s.tasks[id := Taken], available := s.available - 1)
    case Refuse(_) => s
    case Count(id) => s.(tasks := s.tasks[id := Held], inFlight := s.inFlight + 1)
    case Uncount(id) => s.(tasks := s.tasks[id := Releasing], inFlight := s.inFlight - 1)
    case Release(id) => s.(tasks := s.tasks[id := Outside], available := s.available + 1)
  }

  predicate HoldsPermit(pc: Pc) { !pc.Outside? }
  predicate IsCounted(pc: Pc) { pc.Held? }

  ghost function Permits(s: State): nat { Counting.Count(s.tasks, HoldsPermit) }

  ghost predicate Inv(s: State) {
    && Permits(s) + s.available == s.max
    && s.inFlight == Counting.Count(s.tasks, IsCounted)
  }

  lemma StepKeepsInv(s: State, t: Step)
    requires Inv(s) && Enabled(s, t)
    ensures Inv(Do(s, t)) && Do(s, t).max == s.max
  {
    if !t.Refuse? {
      CountUpdate(s.tasks, HoldsPermit, t.id, Do(s, t).tasks[t.id]);
      CountUpdate(s.tasks, IsCounted, t.id, Do(s, t).tasks[t.id]);
    }
  }

  ghost predicate Next(s: State, u: State) {
    exists t :: Enabled(s, t) && Do(s, t) == u
  }

  ghost predicate IsRun(n: nat, max: nat, run: seq<State>) {
    run != [] && run[0] == Init(n, max) && forall i: nat :: i < |run| - 1 ==> StepAt(run, i)
  }

  ghost predicate StepAt(run: seq<State>, i: nat)
    requires i < |run| - 1
  {
    Next(run[i], run[i + 1])
  }

  lemma {:induction false} EveryStateKeepsInv(n: nat, max: nat, run: seq<State>, i: nat)
    requires IsRun(n, max, run) && i < |run|
    ensures Inv(run[i]) && run[i].max == max
  {
    if i == 0 {
      CountNone(Init(n, max).tasks, HoldsPermit);
      CountNone(Init(n, max).tasks, IsCounted);
    } else {
      EveryStateKeepsInv(n, max, run, i - 1);
      assert StepAt(run, i - 1);
      var t :| Enabled(run[i - 1], t) && Do(run[i - 1], t) == run[i];
      StepKeepsInv(run[i - 1], t);
    }
  }

  // In every state the counter lies between zero and the permits held, these and the
  // available ones make up the limit, and none is available exactly when all are held.
  lemma InFlightIsBounded(n: nat, max: nat, run: seq<State>)
    requires IsRun(n, max, run)
    ensures var s := run[|run| - 1];
      && 0 <= s.inFlight <= Permits(s) <= max
      && Permits(s) + s.available == max
      && (s.available == 0 <==> Permits(s) == max)
  {
    EveryStateKeepsInv(n, max, run, |run| - 1);
    CountImplies(run[|run| - 1].tasks, IsCounted, HoldsPermit);
  }

  ghost predicate Settled(s: State) {
    forall i :: 0 <= i < |s.tasks| ==> s.tasks[i].Held? || s.tasks[i].Outside?
  }

  ghost predicate Empty(s: State) {
    forall i :: 0 <= i < |s.tasks| ==> s.tasks[i].Outside?
  }

  // With no task between its two steps the counter is exactly the permits held, and
  // once every task is outside all permits are back.
  lemma QuietCounterIsExact(n: nat, max: nat, run: seq<State>)
    requires IsRun(n, max, run) && Settled(run[|run| - 1])
    ensures var s := run[|run| - 1];
      && s.inFlight == Permits(s)
      && (Empty(s) ==> s.inFlight == 0 && s.available == max)
  {
    EveryStateKeepsInv(n, max, run, |run| - 1);
    var s := run[|run| - 1];
    CountImplies(s.tasks, HoldsPermit, IsCounted);
    CountImplies(s.tasks, IsCounted, HoldsPermit);
    if Empty(s) {
      CountNone(s.tasks, HoldsPermit);
    }
  }

  // A task without a permit gets one exactly while fewer than the limit are held, and is
  // refused exactly when all are.
  lemma TrySucceedsIff(n: nat, max: nat, run: seq<State>, id: nat)
    requires IsRun(n, max, run) && id < |run[|run| - 1].tasks| && run[|run| - 1].tasks[id].Outside?
    ensures var s := run[|run| - 1];
      && (Enabled(s, Take(id)) <==> Permits(s) < max)
      && (Enabled(s, Refuse(id)) <==> Permits(s) == max)
  {
    EveryStateKeepsInv(n, max, run, |run| - 1);
  }
}
