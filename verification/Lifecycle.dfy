/** Setup data under the lifecycle lock: hooks and PUT requests that change it, racing
    with the shutdown that must freeze it before the final snapshot. */
module Lifecycles {
  import opened Text

  // What the holder of the lifecycle lock does next.  `Invoking` runs the script's hook;
  // `Returned` has its result and checks for shutdown again; `Storing` has passed its
  // last check.
  datatype Holder =
    | Free
    | HookEntered(setup: bool)
    | Invoking(setup: bool)
    | Returned(setup: bool, result: Option<string>)
    | PutEntered(given: Option<string>)
    | Storing(value: Option<string>)
    | Closing                                // the shutdown itself, about to let go

  // The shutdown: it cancels, then waits a bounded time for the lock.
  datatype Closer = Open | Waiting | Holding | Closed(acquired: bool)

  datatype State = State(
    data: Option<string>,
    closing: bool,          // the token that rejects new mutations
    lock: Holder,
    closer: Closer,
    stores: nat,            // writes of the setup data
    lateStores: nat)        // those after the token was cancelled

  function Init(): State { State(None, false, Free, Open, 0, 0) }

  datatype Step =
    | EnterHook(setup: bool)
    | EnterPut(given: Option<string>)
    | Advance                            // the holder's next action
    | HookReturns(result: Option<string>)
    | HookFails                          // the hook's error releases the lock
    | ServerCancel                       // the server going down cancels the token
    | Cancel                             // the shutdown does, and waits for the lock
    | TakeLock | GiveUp                  // it gets the lock in time, or not

  predicate Enabled(s: State, t: Step) {
    match t
    case EnterHook(_) => s.lock.Free?
    case EnterPut(_) => s.lock.Free?
    case Advance => !s.lock.Free? && !s.lock.Invoking?
    case HookReturns(_) => s.lock.Invoking?
    case HookFails => s.lock.Invoking?
    case ServerCancel => true
    case Cancel => s.closer.Open?
    case TakeLock => s.closer.Waiting? && s.lock.Free?
    case GiveUp => s.closer.Waiting?
  }

  function Store(s: State, value: Option<string>): State {
    s.(data := value, lock := Free, stores := s.stores + 1,
       lateStores := if s.closing then s.lateStores + 1 else s.lateStores)
  }

  function AdvanceHolder(s: State): State
    requires Enabled(s, Advance)
  {
    match s.lock
    case HookEntered(setup) => s.(lock := if s.closing then Free else Invoking(setup))
    case Returned(setup, result) => s.(lock := if s.closing || !setup then Free else Storing(result))
    case PutEntered(given) => s.(lock := if s.closing then Free else Storing(given))
    case Storing(value) => Store(s, value)
    case Closing => s.(lock := Free, closer := Closed(true))
  }

  function Do(s: State, t: Step): State
    requires Enabled(s, t)
  {
    match t
    case EnterHook(setup) => s.(lock := HookEntered(setup))
    case EnterPut(given) => s.(lock := PutEntered(given))
    case Advance => AdvanceHolder(s)
    case HookReturns(result) => s.(lock := Returned(s.lock.setup, result))
    case HookFails => s.(lock := Free)
    case ServerCancel => s.(closing := true)
    case Cancel => s.(closing := true, closer := Waiting)
    case TakeLock => s.(lock := Closing, closer := Holding)
    case GiveUp => s.(closer := Closed(false))
  }

  // ----- Invariants -----

  // At most one write comes after the cancellation, by the holder that had already
  // passed its last check; none comes once the shutdown has held the lock.
  ghost predicate Inv(s: State) {
    && (!s.closer.Open? ==> s.closing)
    && (s.lock.Closing? <==> s.closer.Holding?)
    && (!s.closing ==> s.lateStores == 0)
    && s.lateStores + (if s.closing && s.lock.Storing? then 1 else 0) <= 1
    && (s.closer == Closed(true) ==> !s.lock.Storing?)
  }

  lemma StepKeepsInv(s: State, t: Step)
    requires Inv(s) && Enabled(s, t)
    ensures Inv(Do(s, t))
  {
  }

  // ----- Whole runs -----

  predicate CanRun(s: State, steps: seq<Step>)
    decreases |steps|
  {
    steps == [] || (Enabled(s, steps[0]) && CanRun(Do(s, steps[0]), steps[1..]))
  }

  function After(s: State, steps: seq<Step>): State
    requires CanRun(s, steps)
    decreases |steps|
  {
    if steps == [] then s else After(Do(s, steps[0]), steps[1..])
  }

  lemma {:induction false} RunKeepsInv(s: State, steps: seq<Step>)
    requires Inv(s) && CanRun(s, steps)
    ensures Inv(After(s, steps))
    decreases |steps|
  {
    if steps != [] {
      StepKeepsInv(s, steps[0]);
      RunKeepsInv(Do(s, steps[0]), steps[1..]);
    }
  }

  // After the cancellation at most one write happens in a whole run.
  lemma AtMostOneLateStore(steps: seq<Step>)
    requires CanRun(Init(), steps)
    ensures After(Init(), steps).lateStores <= 1
  {
    RunKeepsInv(Init(), steps);
  }

  // Shutdown has begun and nobody is past its last check.
  predicate Quiet(s: State) { s.closing && !s.lock.Storing? }

  lemma QuietStep(s: State, t: Step)
    requires Quiet(s) && Enabled(s, t)
    ensures var u := Do(s, t); Quiet(u) && u.data == s.data && u.stores == s.stores
  {
  }

  lemma {:induction false} QuietIsFrozen(s: State, steps: seq<Step>)
    requires Quiet(s) && CanRun(s, steps)
    ensures var u := After(s, steps); Quiet(u) && u.data == s.data && u.stores == s.stores
    decreases |steps|
  {
    if steps != [] {
      QuietStep(s, steps[0]);
      QuietIsFrozen(Do(s, steps[0]), steps[1..]);
    }
  }

  // Once the shutdown has held the lock, the setup data never changes again.
  lemma ClosedIsFrozen(steps: seq<Step>, more: seq<Step>)
    requires CanRun(Init(), steps) && After(Init(), steps).closer == Closed(true)
    requires CanRun(After(Init(), steps), more)
    ensures After(After(Init(), steps), more).data == After(Init(), steps).data
  {
    RunKeepsInv(Init(), steps);
    QuietIsFrozen(After(Init(), steps), more);
  }

  ghost predicate CanStore(s: State, steps: seq<Step>) {
    CanRun(s, steps) && After(s, steps).stores > s.stores
  }

  // When the shutdown gave up waiting, a write can still follow exactly if somebody is
  // past its last check at that moment.
  lemma TimeoutFreezesIff(s: State)
    requires Inv(s) && s.closer == Closed(false)
    ensures (exists steps :: CanStore(s, steps)) <==> s.lock.Storing?
  {
    if s.lock.Storing? {
      assert CanRun(Do(s, Advance), []);
      assert CanRun(s, [Advance]);
      assert CanStore(s, [Advance]);
    } else {
      forall steps ensures !CanStore(s, steps) {
        if CanRun(s, steps) { QuietIsFrozen(s, steps); }
      }
    }
  }

  // Such a run: a PUT passes its check, the shutdown cancels and gives up, the write lands.
  lemma LateStoreHappens(value: Option<string>)
    ensures var steps := [EnterPut(value), Advance, Cancel, GiveUp, Advance];
      && CanRun(Init(), steps)
      && After(Init(), steps).closer == Closed(false)
      && After(Init(), steps).data == value && After(Init(), steps).lateStores == 1
  {
    var a := Do(Do(Init(), EnterPut(value)), Advance);
    var c := Do(Do(a, Cancel), GiveUp);
    assert CanRun(Do(c, Advance), []) && After(Do(c, Advance), []) == Do(c, Advance);
    Prepend(c, Advance, []);
    Prepend(Do(a, Cancel), GiveUp, [Advance]);
    Prepend(a, Cancel, [GiveUp, Advance]);
    Prepend(Do(Init(), EnterPut(value)), Advance, [Cancel, GiveUp, Advance]);
    Prepend(Init(), EnterPut(value), [Advance, Cancel, GiveUp, Advance]);
  }

  lemma Prepend(s: State, t: Step, rest: seq<Step>)
    requires Enabled(s, t) && CanRun(Do(s, t), rest)
    ensures CanRun(s, [t] + rest) && After(s, [t] + rest) == After(Do(s, t), rest)
  {
    assert ([t] + rest)[1..] == rest;
  }

  // A hook or PUT that takes the lock after the cancellation is refused.
  lemma LateEntrantIsRefused(s: State, t: Step)
    requires s.closing && Enabled(s, t) && (t.EnterHook? || t.EnterPut?)
    ensures var u := Do(s, t); Enabled(u, Advance) && Do(u, Advance) == s
  {
  }

  // ----- What the operations do undisturbed -----

  lemma RunThree(s: State, a: Step, b: Step, c: Step)
    requires Enabled(s, a) && Enabled(Do(s, a), b) && Enabled(Do(Do(s, a), b), c)
    ensures CanRun(s, [a, b, c]) && After(s, [a, b, c]) == Do(Do(Do(s, a), b), c)
  {
    var u := Do(Do(Do(s, a), b), c);
    assert CanRun(u, []) && After(u, []) == u;
    Prepend(Do(Do(s, a), b), c, []);
    Prepend(Do(s, a), b, [c]);
    Prepend(s, a, [b, c]);
  }

  // A PUT stores what it was given.
  lemma PutStores(s: State, given: Option<string>)
    requires s.lock.Free? && !s.closing
    ensures var steps := [EnterPut(given), Advance, Advance];
      CanRun(s, steps) && After(s, steps) == s.(data := given, stores := s.stores + 1)
  {
    RunThree(s, EnterPut(given), Advance, Advance);
  }

  // A setup hook stores its result; a teardown hook stores nothing; a failing one neither.
  lemma HookStoresSetup(s: State, setup: bool, result: Option<string>)
    requires s.lock.Free? && !s.closing
    ensures var steps := [EnterHook(setup), Advance, HookReturns(result)];
      && CanRun(s, steps) && Enabled(After(s, steps), Advance)
      && var u := Do(After(s, steps), Advance);
         if setup then Enabled(u, Advance) && Do(u, Advance) == s.(data := result, stores := s.stores + 1) else u == s
    ensures CanRun(s, [EnterHook(setup), Advance, HookFails]) && After(s, [EnterHook(setup), Advance, HookFails]) == s
  {
    RunThree(s, EnterHook(setup), Advance, HookReturns(result));
    RunThree(s, EnterHook(setup), Advance, HookFails);
  }

  // Nobody but the holder itself lets go of the lock.
  lemma HoldersAreNotInterrupted(s: State, t: Step)
    requires Enabled(s, t) && !s.lock.Free? && !t.Advance? && !t.HookReturns? && !t.HookFails?
    ensures Do(s, t).lock == s.lock && Do(s, t).data == s.data
  {
  }

  // The writes of a run.
  function Writes(s: State, steps: seq<Step>): nat
    requires CanRun(s, steps)
    decreases |steps|
  {
    if steps == [] then 0
    else (if s.lock.Storing? && steps[0].Advance? then 1 else 0) + Writes(Do(s, steps[0]), steps[1..])
  }

  lemma {:induction false} StoresAreWrites(s: State, steps: seq<Step>)
    requires CanRun(s, steps)
    ensures After(s, steps).stores == s.stores + Writes(s, steps)
    decreases |steps|
  {
    if steps != [] { StoresAreWrites(Do(s, steps[0]), steps[1..]); }
  }

  // Until the first write there is no setup data.
  lemma NoDataBeforeWrite(steps: seq<Step>)
    requires CanRun(Init(), steps)
    ensures After(Init(), steps).stores == Writes(Init(), steps)
    ensures Writes(Init(), steps) == 0 ==> After(Init(), steps).data == None
  {
    StoresAreWrites(Init(), steps);
    DataIsKept(Init(), steps);
  }

  lemma {:induction false} DataIsKept(s: State, steps: seq<Step>)
    requires CanRun(s, steps)
    ensures Writes(s, steps) == 0 ==> After(s, steps).data == s.data
    decreases |steps|
  {
    if steps != [] { DataIsKept(Do(s, steps[0]), steps[1..]); }
  }

  // ----- What the shutdown can always do -----

  // With the lock free the shutdown takes it and is done, the setup data left alone.
  lemma FreeLockIsTaken(s: State)
    requires s.lock.Free? && s.closer.Open?
    ensures CanRun(s, [Cancel, TakeLock, Advance])
    ensures After(s, [Cancel, TakeLock, Advance]) == s.(closing := true, closer := Closed(true))
  {
    var a := Do(s, Cancel);
    var b := Do(a, TakeLock);
    assert [Cancel, TakeLock, Advance][1..] == [TakeLock, Advance] && [TakeLock, Advance][1..] == [Advance];
    assert CanRun(b, [Advance]) && CanRun(a, [TakeLock, Advance]);
  }

  // The server going down only sets the token, at any moment.
  lemma ServerOnlyCancels(s: State)
    ensures Enabled(s, ServerCancel) && Do(s, ServerCancel) == s.(closing := true)
  {
  }
}
