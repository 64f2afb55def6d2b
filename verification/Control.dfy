/** Pause, resume and stop against a starter that waits for permission to begin: every
    critical section, every notification and every cancellation is a step of its own. */
module Controls {
  import opened Text

  // The state behind the execution lock.
  datatype Execution = Execution(status: nat, paused: bool, started: bool, ended: bool, stopped: bool)

  datatype Patch = Patch(stopped: bool, paused: Option<bool>, scale: bool)

  datatype Reply = Accepted | AlreadyPaused | PauseUnsupported | ScaleUnsupported

  // ----- The whole effect of one PATCH -----

  // A stop overrides everything; a resume takes effect even if the scaling that
  // follows it is refused.
  function Patched(e: Execution, p: Patch): Execution {
    if p.stopped then e.(stopped := true)
    else if p.paused == Some(false) && !e.started && e.paused then e.(paused := false)
    else e
  }

  function ReplyTo(e: Execution, p: Patch): Reply {
    if p.stopped then Accepted
    else if p.paused.Some? && (e.started || !e.paused) then PauseUnsupported
    else if p.paused == Some(true) then AlreadyPaused
    else if p.scale then ScaleUnsupported
    else Accepted
  }

  // Which reply: a stop is always accepted; pausing or resuming is refused as unsupported
  // once the run has started or was never paused, pausing a paused run as already done;
  // what is left of a PATCH that scales is refused for that.
  lemma ReplyMeans(e: Execution, p: Patch)
    ensures ReplyTo(e, p) == PauseUnsupported <==> !p.stopped && p.paused.Some? && !(e.paused && !e.started)
    ensures ReplyTo(e, p) == AlreadyPaused <==> !p.stopped && p.paused.Some? && p.paused.value && e.paused && !e.started
    ensures ReplyTo(e, p) == ScaleUnsupported <==>
      !p.stopped && p.scale && (p.paused.None? || (!p.paused.value && e.paused && !e.started))
    ensures p.stopped ==> ReplyTo(e, p) == Accepted
    ensures Patched(e, p) != e && !p.stopped ==> ReplyTo(Patched(e, p), Patch(false, Some(false), false)) == PauseUnsupported
  {
  }

  // Whether a PATCH leaves a notification behind.
  predicate Notifies(e: Execution, p: Patch) {
    p.stopped || Patched(e, p) != e
  }

  class Control {
    var execution: Execution
    var cancel: bool
    var abort: bool
    var notified: bool   // a notification was sent to the starter

    constructor (paused: bool)
      ensures execution == Execution(if paused then 4 else 3, paused, false, false, false)
      ensures !cancel && !abort && !notified
    {
      execution := Execution(if paused then 4 else 3, paused, false, false, false);
      cancel, abort, notified := false, false, false;
    }

    method HandlePatch(p: Patch) returns (reply: Reply)
      modifies this
      ensures execution == Patched(old(execution), p) && reply == ReplyTo(old(execution), p)
      ensures cancel == (old(cancel) || p.stopped) && abort == (old(abort) || p.stopped)
      ensures notified == (old(notified) || Notifies(old(execution), p))
    {
      if p.stopped {
        execution := execution.(stopped := true);
        cancel := true;
        abort := true;
        notified := true;
        return Accepted;
      }
      if p.paused.Some? {
        if !execution.started && execution.paused {
          if p.paused.value { return AlreadyPaused; }
          execution := execution.(paused := false);
          notified := true;
        } else {
          return PauseUnsupported;
        }
      }
      if p.scale { return ScaleUnsupported; }
      return Accepted;
    }

    method End()
      modifies this
      ensures execution == old(execution).(ended := true, status := if old(execution).stopped then 10 else 9)
      ensures cancel == old(cancel) && abort == old(abort) && notified == old(notified)
    {
      execution := execution.(ended := true, status := if execution.stopped then 10 else 9);
    }
  }

  // ----- The interleaved protocol -----

  // Where a PATCH that holds the lock is.
  datatype Stage = Entered | StopSet | Cancelled | Aborted | Resumed | Scaling

  datatype Lock = Free | ByStarter | ByPatch(patch: Patch, at: Stage)

  // The starter: `Creating` is about to make its notification future, `Created` has,
  // `Deciding` holds the lock, `Cleared` holds it and saw no cancellation, `Polling` has
  // let go of the lock but not polled the future yet, `Waiting` is registered.
  datatype Pc = Creating | Created | Deciding | Cleared | Polling | Waiting(woken: bool) | Done(go: bool)

  datatype State = State(
    e: Execution, lock: Lock, pc: Pc,
    cancel: bool, abort: bool,
    permit: bool,          // the notification stored while nobody was registered
    resumes: nat,          // how many PATCH requests changed `paused`
    stopBefore: bool)        // cancelled or stopped when the starter last took the lock

  function Init(paused: bool): State {
    State(Execution(if paused then 4 else 3, paused, false, false, false), Free, Creating, false, false, false, 0, false)
  }

  datatype Step =
    | Enter(patch: Patch)   // a PATCH takes the lock
    | Advance               // the PATCH holding the lock does its next action
    | Start                 // the starter does its next action
    | Give                  // the select takes its cancellation branch
    | Cancel                // a cancellation from outside
    | Phase(status: nat)
    | End

  predicate Enabled(s: State, t: Step) {
    match t
    case Enter(_) => s.lock.Free?
    case Advance => s.lock.ByPatch?
    case Start => !s.pc.Done? && (s.pc.Created? ==> s.lock.Free?) && s.pc != Waiting(false)
    case Give => (s.pc.Polling? || s.pc.Waiting?) && s.cancel
    case Cancel => true
    case Phase(_) => s.lock.Free?
    case End => s.lock.Free?
  }

  // A notification wakes a registered waiter, or is stored.
  function Notify(s: State): State {
    if s.pc == Waiting(false) then s.(pc := Waiting(true)) else s.(permit := true)
  }

  function Move(s: State, at: Stage): State
    requires s.lock.ByPatch?
  {
    s.(lock := s.lock.(at := at))
  }

  function EnterSection(s: State): State
    requires s.lock.ByPatch?
  {
    var p := s.lock.patch;
    if p.stopped then Move(s, StopSet).(e := s.e.(stopped := true))
    else if p.paused.None? then Move(s, Scaling)
    else if !s.e.started && s.e.paused && !p.paused.value then
      Move(s, Resumed).(e := s.e.(paused := false), resumes := s.resumes + 1)
    else s.(lock := Free)
  }

  function AdvancePatch(s: State): State
    requires s.lock.ByPatch?
  {
    match s.lock.at
    case Entered => EnterSection(s)
    case StopSet => Move(s, Cancelled).(cancel := true)
    case Cancelled => Move(s, Aborted).(abort := true)
    case Aborted => Notify(s).(lock := Free)
    case Resumed => Notify(Move(s, Scaling))
    case Scaling => s.(lock := Free)
  }

  function AdvanceStarter(s: State): State
    requires Enabled(s, Start)
  {
    match s.pc
    case Creating => s.(pc := Created)
    case Created => s.(lock := ByStarter, pc := Deciding, stopBefore := s.cancel || s.e.stopped)
    case Deciding => if s.cancel then s.(lock := Free, pc := Done(false)) else s.(pc := Cleared)
    case Cleared =>
      if s.e.paused then s.(lock := Free, pc := Polling)
      else s.(e := s.e.(started := true, status := 5), lock := Free, pc := Done(true))
    case Polling => if s.permit then s.(permit := false, pc := Creating) else s.(pc := Waiting(false))
    case Waiting(_) => s.(pc := Creating)
  }

  function Do(s: State, t: Step): State
    requires Enabled(s, t)
  {
    match t
    case Enter(p) => s.(lock := ByPatch(p, Entered))
    case Advance => AdvancePatch(s)
    case Start => AdvanceStarter(s)
    // A delivered wakeup that is not used goes back as a permit.
    case Give => s.(pc := Done(false), permit := s.permit || s.pc == Waiting(true))
    case Cancel => s.(cancel := true)
    case Phase(k) => s.(e := s.e.(status := k))
    case End => s.(e := s.e.(ended := true, status := if s.e.stopped then 10 else 9))
  }

  // ----- Invariants -----

  // The starter holds the lock exactly in its critical section; `started` is set
  // exactly when it returns true.
  ghost predicate Sectioned(s: State) {
    && (s.lock.ByStarter? <==> s.pc.Deciding? || s.pc.Cleared?)
    && (s.e.started <==> s.pc == Done(true))
    && (s.e.started ==> !s.e.paused)
  }

  // A stop is complete whenever the lock is free, and while its PATCH runs it is as
  // far as that PATCH has come.
  ghost predicate StopComplete(s: State) {
    && (s.lock.ByPatch? && (s.lock.at.StopSet? || s.lock.at.Cancelled? || s.lock.at.Aborted?) ==> s.e.stopped)
    && (s.lock.ByPatch? && (s.lock.at.Cancelled? || s.lock.at.Aborted?) ==> s.cancel)
    && (s.lock.ByPatch? && s.lock.at.Aborted? ==> s.abort)
    && (s.e.stopped ==> (s.cancel && s.abort) || (s.lock.ByPatch? && (s.lock.at.StopSet? || s.lock.at.Cancelled?)))
  }

  // Only one resume ever takes effect.
  ghost predicate ResumedOnce(s: State, paused: bool) {
    && (s.e.paused <==> paused && s.resumes == 0)
    && s.resumes <= (if paused then 1 else 0)
    && (s.lock.ByPatch? && s.lock.at.Resumed? ==> !s.e.paused)
  }

  // Once resumed and notified, a starter on its way to sleep finds a permit, and a
  // sleeping one has been woken.
  ghost predicate Awakened(s: State) {
    !s.e.paused && !(s.lock.ByPatch? && s.lock.at.Resumed?) ==>
      (s.pc.Polling? ==> s.permit) && s.pc != Waiting(false)
  }

  // A cancellation that the starter saw, or should have seen, ends in false.
  ghost predicate Heeded(s: State) {
    && (s.stopBefore && (s.pc.Deciding? || s.pc.Cleared?) ==> s.cancel && s.pc.Deciding?)
    && (s.pc == Done(true) ==> !s.stopBefore)
  }

  ghost predicate Inv(s: State, paused: bool) {
    Sectioned(s) && StopComplete(s) && ResumedOnce(s, paused) && Awakened(s) && Heeded(s)
  }

  // A PATCH never touches the starter except to wake it.
  ghost predicate Spares(s: State, u: State) {
    && !u.lock.ByStarter? && u.stopBefore == s.stopBefore && u.e.started == s.e.started
    && (u.pc == s.pc || (s.pc == Waiting(false) && u.pc == Waiting(true)))
    && (u.e.paused ==> s.e.paused) && (s.e.stopped ==> u.e.stopped)
    && (s.cancel ==> u.cancel) && (s.abort ==> u.abort)
    && s.resumes <= u.resumes && (s.e.paused && !u.e.paused ==> s.resumes < u.resumes)
  }

  lemma AdvanceSpares(s: State)
    requires Enabled(s, Advance)
    ensures Spares(s, AdvancePatch(s))
  {
    if s.lock.at.Entered? {
      EnterSpares(s);
    } else if s.lock.at.Resumed? {
      NotifySpares(Move(s, Scaling));
    } else if s.lock.at.Aborted? {
      NotifySpares(s);
    }
  }

  lemma EnterSpares(s: State)
    requires s.lock.ByPatch?
    ensures Spares(s, EnterSection(s))
  {
  }

  lemma NotifySpares(s: State)
    requires s.lock.ByPatch?
    ensures Spares(s, Notify(s)) && Notify(s).lock == s.lock
  {
  }

  lemma AdvanceKeepsStop(s: State)
    requires StopComplete(s) && Enabled(s, Advance)
    ensures StopComplete(AdvancePatch(s))
  {
  }

  lemma EnterKeepsResumed(s: State, paused: bool)
    requires ResumedOnce(s, paused) && Awakened(s) && s.lock.ByPatch? && s.lock.at.Entered?
    ensures ResumedOnce(EnterSection(s), paused) && Awakened(EnterSection(s))
  {
  }

  lemma NotifyAwakens(s: State)
    ensures Notify(s).e == s.e && Notify(s).resumes == s.resumes
    ensures (Notify(s).pc.Polling? ==> Notify(s).permit) && Notify(s).pc != Waiting(false)
  {
  }

  lemma AdvanceKeepsResumed(s: State, paused: bool)
    requires ResumedOnce(s, paused) && Awakened(s) && Enabled(s, Advance)
    ensures ResumedOnce(AdvancePatch(s), paused) && Awakened(AdvancePatch(s))
  {
    if s.lock.at.Entered? {
      EnterKeepsResumed(s, paused);
    } else if s.lock.at.Resumed? {
      NotifyAwakens(Move(s, Scaling));
    } else if s.lock.at.Aborted? {
      NotifyAwakens(s);
    }
  }

  lemma AdvanceKeepsInv(s: State, paused: bool)
    requires Inv(s, paused) && Enabled(s, Advance)
    ensures Inv(AdvancePatch(s), paused)
  {
    AdvanceSpares(s);
    AdvanceKeepsStop(s);
    AdvanceKeepsResumed(s, paused);
  }

  lemma StartKeepsSections(s: State, paused: bool)
    requires Inv(s, paused) && Enabled(s, Start)
    ensures Sectioned(AdvanceStarter(s)) && StopComplete(AdvanceStarter(s)) && ResumedOnce(AdvanceStarter(s), paused)
  {
  }

  lemma StartKeepsInv(s: State, paused: bool)
    requires Inv(s, paused) && Enabled(s, Start)
    ensures Inv(AdvanceStarter(s), paused)
  {
    StartKeepsSections(s, paused);
  }

  lemma StepKeepsInv(s: State, paused: bool, t: Step)
    requires Inv(s, paused) && Enabled(s, t)
    ensures Inv(Do(s, t), paused)
  {
    match t
    case Advance => AdvanceKeepsInv(s, paused);
    case Start => StartKeepsInv(s, paused);
    case _ =>
  }

  // ----- Whole runs -----

  ghost predicate Next(s: State, u: State) {
    exists t :: Enabled(s, t) && Do(s, t) == u
  }

  ghost predicate IsRun(paused: bool, run: seq<State>) {
    run != [] && run[0] == Init(paused) && forall i: nat :: i < |run| - 1 ==> StepAt(run, i)
  }

  ghost predicate StepAt(run: seq<State>, i: nat)
    requires i < |run| - 1
  {
    Next(run[i], run[i + 1])
  }

  lemma {:induction false} EveryStateKeepsInv(paused: bool, run: seq<State>, i: nat)
    requires IsRun(paused, run) && i < |run|
    ensures Inv(run[i], paused)
  {
    if i > 0 {
      EveryStateKeepsInv(paused, run, i - 1);
      assert StepAt(run, i - 1);
      var t :| Enabled(run[i - 1], t) && Do(run[i - 1], t) == run[i];
      StepKeepsInv(run[i - 1], paused, t);
    }
  }

  // What never comes back: `paused` is not set again, `stopped` and the tokens stay.
  ghost predicate Onward(s: State, u: State) {
    && (u.e.paused ==> s.e.paused)
    && (s.e.stopped ==> u.e.stopped)
    && (s.cancel ==> u.cancel) && (s.abort ==> u.abort)
    && s.resumes <= u.resumes
    && (s.e.paused && !u.e.paused ==> s.resumes < u.resumes)
    && (s.pc.Done? ==> u.pc == s.pc)
  }

  lemma NextIsOnward(s: State, u: State)
    requires Next(s, u)
    ensures Onward(s, u)
  {
    var t :| Enabled(s, t) && Do(s, t) == u;
    match t
    case Advance => AdvanceIsOnward(s);
    case Start => StartIsOnward(s);
    case _ => OtherIsOnward(s, t);
  }

  lemma OtherIsOnward(s: State, t: Step)
    requires Enabled(s, t) && !t.Advance? && !t.Start?
    ensures Onward(s, Do(s, t))
  {
  }

  lemma AdvanceIsOnward(s: State)
    requires Enabled(s, Advance)
    ensures Onward(s, AdvancePatch(s))
  {
    AdvanceSpares(s);
  }

  lemma StartIsOnward(s: State)
    requires Enabled(s, Start)
    ensures Onward(s, AdvanceStarter(s))
  {
  }

  lemma OnwardIsTransitive(a: State, b: State, c: State)
    requires Onward(a, b) && Onward(b, c)
    ensures Onward(a, c)
  {
  }

  lemma StepIsOnward(paused: bool, run: seq<State>, i: nat)
    requires IsRun(paused, run) && i < |run| - 1
    ensures Onward(run[i], run[i + 1])
  {
    assert StepAt(run, i);
    NextIsOnward(run[i], run[i + 1]);
  }

  lemma {:induction false} RunIsOnward(paused: bool, run: seq<State>, i: nat, j: nat)
    requires IsRun(paused, run) && i <= j < |run|
    ensures Onward(run[i], run[j])
  {
    if i < j {
      RunIsOnward(paused, run, i, j - 1);
      StepIsOnward(paused, run, j - 1);
      OnwardIsTransitive(run[i], run[j - 1], run[j]);
    }
  }

  // `paused` goes from true to false at most once in a whole run, and never back.
  lemma PausedChangesOnce(paused: bool, run: seq<State>, i: nat, j: nat)
    requires IsRun(paused, run) && i <= j < |run|
    ensures run[j].e.paused ==> run[i].e.paused
    ensures run[j].resumes <= 1 && (run[i].e.paused && !run[j].e.paused <==> run[i].resumes < run[j].resumes)
  {
    RunIsOnward(paused, run, i, j);
    EveryStateKeepsInv(paused, run, i);
    EveryStateKeepsInv(paused, run, j);
  }

  // A stop is permanent, and implies both tokens whenever the lock is free.
  lemma StopIsComplete(paused: bool, run: seq<State>, i: nat, j: nat)
    requires IsRun(paused, run) && i <= j < |run| && run[i].e.stopped
    ensures run[j].e.stopped && (run[j].lock.Free? ==> run[j].cancel && run[j].abort)
  {
    RunIsOnward(paused, run, i, j);
    EveryStateKeepsInv(paused, run, j);
  }

  // A stop PATCH is at the point where it has set the flag.
  ghost predicate AcceptsStop(s: State) {
    s.lock.ByPatch? && s.lock.at.StopSet?
  }

  lemma NextAcceptsStop(s: State, u: State)
    requires Next(s, u) && !s.e.stopped && u.e.stopped
    ensures AcceptsStop(u)
  {
    var t :| Enabled(s, t) && Do(s, t) == u;
    match t
    case Advance => AdvanceAcceptsStop(s);
    case Start => StartNeverStops(s);
    case _ =>
  }

  lemma StartNeverStops(s: State)
    requires Enabled(s, Start)
    ensures AdvanceStarter(s).e.stopped == s.e.stopped
  {
  }

  lemma AdvanceAcceptsStop(s: State)
    requires Enabled(s, Advance) && !s.e.stopped && AdvancePatch(s).e.stopped
    ensures AcceptsStop(AdvancePatch(s))
  {
  }

  ghost predicate AcceptedBy(run: seq<State>, i: nat) {
    exists j: nat :: j <= i && j < |run| && AcceptsStop(run[j])
  }

  // `stopped` is set exactly when a stop PATCH was accepted before.
  lemma {:induction false} StoppedMeansAccepted(paused: bool, run: seq<State>, i: nat)
    requires IsRun(paused, run) && i < |run|
    ensures run[i].e.stopped <==> AcceptedBy(run, i)
  {
    if i > 0 && run[i].e.stopped {
      if run[i - 1].e.stopped {
        StoppedMeansAccepted(paused, run, i - 1);
      } else {
        assert StepAt(run, i - 1);
        NextAcceptsStop(run[i - 1], run[i]);
      }
    }
    forall j: nat | j <= i && AcceptsStop(run[j]) ensures run[i].e.stopped {
      EveryStateKeepsInv(paused, run, j);
      RunIsOnward(paused, run, j, i);
    }
  }

  // A run that ends shows status 10 exactly if a stop was accepted before, else 9.
  lemma EndShowsStop(paused: bool, run: seq<State>, i: nat)
    requires IsRun(paused, run) && i < |run| - 1 && Enabled(run[i], End) && run[i + 1] == Do(run[i], End)
    ensures run[i + 1].e.ended && run[i + 1].e.status in {9, 10}
    ensures run[i + 1].e.status == 10 <==> AcceptedBy(run, i)
  {
    StoppedMeansAccepted(paused, run, i);
  }

  // A stop or a cancellation is in force, and the starter is not past its look at it
  // and has not returned true.
  predicate Doomed(s: State) {
    (s.cancel || s.e.stopped) && !s.pc.Cleared? && s.pc != Done(true)
  }

  lemma DoomedStays(s: State, u: State, paused: bool)
    requires Inv(s, paused) && Next(s, u) && Doomed(s)
    ensures Doomed(u)
  {
    var t :| Enabled(s, t) && Do(s, t) == u;
    NextIsOnward(s, u);
    match t
    case Advance => AdvanceSpares(s);
    case Start => DoomedStarterFails(s, paused);
    case _ =>
  }

  lemma DoomedStarterFails(s: State, paused: bool)
    requires Inv(s, paused) && Enabled(s, Start) && Doomed(s)
    ensures Doomed(AdvanceStarter(s))
  {
  }

  lemma StepStaysDoomed(paused: bool, run: seq<State>, i: nat)
    requires IsRun(paused, run) && i < |run| - 1 && Doomed(run[i])
    ensures Doomed(run[i + 1])
  {
    EveryStateKeepsInv(paused, run, i);
    assert StepAt(run, i);
    DoomedStays(run[i], run[i + 1], paused);
  }

  // No lost stop: once stopped, a starter that has not decided yet can only return false.
  lemma {:induction false} StopIsNeverLost(paused: bool, run: seq<State>, i: nat, j: nat)
    requires IsRun(paused, run) && i <= j < |run| && Doomed(run[i])
    ensures Doomed(run[j])
  {
    if i < j {
      StopIsNeverLost(paused, run, i, j - 1);
      StepStaysDoomed(paused, run, j - 1);
    }
  }

  // A starter that returned true took its deciding section before any stop, and found
  // the run resumed.
  lemma TrueMeansResumedAndNotStopped(paused: bool, run: seq<State>)
    requires IsRun(paused, run) && run[|run| - 1].pc == Done(true)
    ensures var s := run[|run| - 1];
      !s.stopBefore && !s.e.paused && s.e.started && (paused ==> s.resumes == 1)
  {
    EveryStateKeepsInv(paused, run, |run| - 1);
  }

  // ----- No lost wakeup -----

  // The run may begin, or must not.
  ghost predicate Settled(s: State) { s.cancel || !s.e.paused }

  // No lost wakeup: once the run is settled and the lock is not held by a PATCH, the
  // starter always has a step of its own; a starter about to sleep after the resume
  // has a permit, and a sleeping one has been woken.
  lemma NoLostWakeup(paused: bool, run: seq<State>)
    requires IsRun(paused, run) && Settled(run[|run| - 1])
    ensures var s := run[|run| - 1];
      && (!s.lock.ByPatch? && !s.pc.Done? ==> Enabled(s, Start) || Enabled(s, Give))
      && (!s.lock.ByPatch? && !s.e.paused && s.pc.Polling? ==> s.permit)
      && (!s.lock.ByPatch? && !s.e.paused && s.pc.Waiting? ==> s.pc.woken)
  {
    EveryStateKeepsInv(paused, run, |run| - 1);
  }

  // How many steps of its own the starter still needs once the run is settled.
  function Remaining(s: State): nat {
    match s.pc
    case Cleared => if s.e.paused then 7 else 1
    case Polling => 6
    case Waiting(_) => 5
    case Creating => 4
    case Created => 3
    case Deciding => 2
    case Done(_) => 0
  }

  // Once settled, every step of the starter brings it closer to its answer, and no
  // step of anyone else moves it away.
  lemma StarterFinishes(paused: bool, run: seq<State>, t: Step)
    requires IsRun(paused, run) && Settled(run[|run| - 1]) && Enabled(run[|run| - 1], t)
    ensures var s := run[|run| - 1];
      && Settled(Do(s, t))
      && (t.Start? || t.Give? ==> Remaining(Do(s, t)) < Remaining(s))
      && Remaining(Do(s, t)) <= Remaining(s)
  {
    EveryStateKeepsInv(paused, run, |run| - 1);
    var s := run[|run| - 1];
    match t
    case Start => StartDescends(s, paused);
    case Advance => AdvanceSpares(s);
    case _ =>
  }

  lemma StartDescends(s: State, paused: bool)
    requires Inv(s, paused) && Settled(s) && Enabled(s, Start)
    ensures Settled(AdvanceStarter(s)) && Remaining(AdvanceStarter(s)) < Remaining(s)
  {
  }

  // ----- A PATCH alone does what its whole effect says -----

  // Let the PATCH that holds the lock run to its end.
  function RunPatch(s: State, steps: nat): State
    decreases steps
  {
    if steps == 0 || !s.lock.ByPatch? then s else RunPatch(AdvancePatch(s), steps - 1)
  }

  ghost predicate HasEffect(s: State, p: Patch, u: State) {
    && u.lock.Free? && u.e == Patched(s.e, p)
    && u.cancel == (s.cancel || p.stopped) && u.abort == (s.abort || p.stopped)
    && (Notifies(s.e, p) ==> u.permit || u.pc == Waiting(true))
    && (!Notifies(s.e, p) ==> u.permit == s.permit && u.pc == s.pc)
  }

  lemma PatchDoesItsEffect(s: State, p: Patch)
    requires s.lock.Free?
    ensures HasEffect(s, p, RunPatch(Do(s, Enter(p)), 4))
  {
    if p.stopped {
      StopDoesItsEffect(s, p);
    } else {
      ResumeDoesItsEffect(s, p);
    }
  }

  lemma StopDoesItsEffect(s: State, p: Patch)
    requires s.lock.Free? && p.stopped
    ensures HasEffect(s, p, RunPatch(Do(s, Enter(p)), 4))
  {
    var a := AdvancePatch(Do(s, Enter(p)));
    var b := AdvancePatch(a);
    var c := AdvancePatch(b);
    assert c.lock == ByPatch(p, Aborted) && c.e == s.e.(stopped := true) && c.cancel && c.abort;
    assert RunPatch(c, 1) == AdvancePatch(c);
    assert RunPatch(Do(s, Enter(p)), 4) == RunPatch(a, 3) == RunPatch(b, 2) == RunPatch(c, 1);
  }

  lemma ResumeDoesItsEffect(s: State, p: Patch)
    requires s.lock.Free? && !p.stopped
    ensures HasEffect(s, p, RunPatch(Do(s, Enter(p)), 4))
  {
    var a := AdvancePatch(Do(s, Enter(p)));
    assert RunPatch(Do(s, Enter(p)), 4) == RunPatch(a, 3);
    if a.lock == ByPatch(p, Scaling) {
      assert RunPatch(a, 3) == RunPatch(AdvancePatch(a), 2);
    } else if a.lock == ByPatch(p, Resumed) {
      ResumedGoesOn(a);
    }
  }

  lemma ResumedGoesOn(a: State)
    requires a.lock.ByPatch? && a.lock.at.Resumed?
    ensures RunPatch(a, 3) == Notify(Move(a, Scaling)).(lock := Free)
  {
    var b := AdvancePatch(a);
    assert RunPatch(a, 3) == RunPatch(b, 2) == RunPatch(AdvancePatch(b), 1);
  }

  // ----- Whole starts -----

  function StartTimes(s: State, k: nat): State {
    if k == 0 then s else
      var u := StartTimes(s, k - 1);
      if Enabled(u, Start) then Do(u, Start) else u
  }

  // Left alone, a run that is not paused starts in four steps of its starter, and one that
  // is paused sleeps after five.
  lemma LeftAlone()
    ensures StartTimes(Init(false), 4)
         == State(Execution(5, false, true, false, false), Free, Done(true), false, false, false, 0, false)
    ensures StartTimes(Init(true), 5)
         == State(Execution(4, true, false, false, false), Free, Waiting(false), false, false, false, 0, false)
  {
    var a := Init(false);
    assert StartTimes(a, 2).pc == Deciding && StartTimes(a, 2) == StartTimes(Do(a, Start), 1);
    var p := Init(true);
    assert StartTimes(p, 2).pc == Deciding && StartTimes(p, 4).pc == Polling;
  }

  // A woken starter of a resumed run starts in five steps.
  lemma ResumedStarts(s: State)
    requires s.pc.Waiting? && s.pc.woken && s.lock.Free? && !s.cancel && !s.e.paused
    ensures StartTimes(s, 5).pc == Done(true) && StartTimes(s, 5).e == s.e.(started := true, status := 5)
  {
    assert StartTimes(s, 1) == s.(pc := Creating);
    assert StartTimes(s, 2) == s.(pc := Created);
    assert StartTimes(s, 3) == s.(pc := Deciding, lock := ByStarter, stopBefore := s.e.stopped);
    assert StartTimes(s, 4).pc == Cleared && StartTimes(s, 4).e == s.e;
  }

  // A resume wakes a sleeping starter and lets it start.
  lemma ResumeWakes(s: State)
    requires s.pc == Waiting(false) && s.lock.Free? && !s.cancel && s.e.paused && !s.e.started
    ensures var u := RunPatch(Do(s, Enter(Patch(false, Some(false), false))), 4);
      u.pc == Waiting(true) && StartTimes(u, 5).pc == Done(true) && StartTimes(u, 5).e.status == 5
  {
    var a := Do(s, Enter(Patch(false, Some(false), false)));
    var b := AdvancePatch(a);
    assert b == Move(a, Resumed).(e := s.e.(paused := false), resumes := s.resumes + 1);
    ResumedGoesOn(b);
    assert RunPatch(a, 4) == RunPatch(b, 3);
    ResumedStarts(RunPatch(a, 4));
  }

  // A cancellation makes a sleeping starter give up.
  lemma CancelWakes(s: State)
    requires s.pc == Waiting(false)
    ensures Enabled(s, Cancel) && Enabled(Do(s, Cancel), Give)
    ensures Do(Do(s, Cancel), Give) == s.(cancel := true, pc := Done(false))
  {
  }

  // A PATCH that holds the lock is never held up, and neither is a status change while
  // the lock is free.
  lemma LockHoldersGoOn(s: State, status: nat)
    ensures s.lock.ByPatch? <==> Enabled(s, Advance)
    ensures s.lock.Free? ==> Enabled(s, Phase(status)) && Do(s, Phase(status)) == s.(e := s.e.(status := status))
    ensures s.lock.Free? ==> Enabled(s, End) && Do(s, End).e.ended && Do(s, End).e.status == if s.e.stopped then 10 else 9
  {
  }
}
