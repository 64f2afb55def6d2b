/** The arrival-rate executor as a concurrent protocol: a coordinator that owns the
    idle queue, VUs that report idle and wait on their own dispatch channel, VU death,
    hard stop and shutdown, interleaved step by step. */
module Arrival {
  import opened Counting

  // Where a VU is.  `Starting` has not called `next` yet; `Tallied` has counted a
  // finished iteration and is about to report idle; `Parked` waits for its dispatch;
  // `Winding` was told to stop before its first iteration and still evaluates the
  // script's module scope, which may wait for something.
  datatype Pc = Starting | Parked | Running | Tallied | Winding | Stopped | Dead

  // A VU, the dispatch messages waiting for it, and whether it has never been resumed.
  datatype Vu = Vu(pc: Pc, mail: nat, unborn: bool)
  {
    // The control, and with it the receiving end of the dispatch channel, still exists.
    predicate Listening() { !pc.Stopped? && !pc.Dead? }
    predicate InFlight() { pc.Running? || mail > 0 }
    predicate Waits() { pc.Parked? && mail == 0 }
    // Told to stop at its boundary.
    function Ended(): Vu { Vu(if unborn then Winding else Stopped, mail, unborn) }
  }

  // `Closed` has dropped the dispatch senders, `Gone` the idle receiver as well.
  datatype Phase = Startup | Pacing | Closed | Gone

  datatype Outcome = Completed | Errored | Interrupted

  datatype State = State(
    vus: seq<Vu>,
    idle: seq<nat>,       // the coordinator's queue
    reports: seq<nat>,    // the idle channel
    phase: Phase,
    hard: bool,           // the hard-stop token
    dispatched: nat, dropped: nat, completed: nat, errored: nat, interrupted: nat, degraded: nat,
    lost: nat,            // arrivals that died with their VU
    starved: nat,         // arrivals that found the queue empty
    refused: nat,         // arrivals sent to a closed channel
    diedParked: nat,      // VUs that died while waiting for a dispatch
    strays: nat)          // interruptions counted with no arrival behind them
  {
    ghost function Queue(): seq<nat> { idle + reports }
    predicate Open() { phase.Startup? || phase.Pacing? }
    ghost function Flying(): set<nat> { set i: nat | i < |vus| && vus[i].InFlight() }
    ghost function DeadQueued(): set<nat> { set i: nat | i < |vus| && vus[i].pc.Dead? && i in Queue() }
  }

  function Init(n: nat): State {
    State(seq(n, _ => Vu(Starting, 0, true)), [], [], Startup, false, 0, 0, 0, 0, 0, 0, 0, 0, 0, 0, 0)
  }

  datatype Step =
    | Report(id: nat)                    // tell the coordinator this VU is idle, then park
    | Receive(id: nat)                   // take the dispatch and run
    | WakeClosed(id: nat)                // the dispatch channel closed: stop
    | Finish(id: nat, outcome: Outcome)  // an iteration reached its boundary and was tallied
    | ForceUnwind(id: nat)               // the hard stop interrupts a running iteration
    | Unwound(id: nat)                   // a stopped VU leaves the module scope
    | Stray(id: nat)                     // the hard stop finds it waiting there
    | Die(id: nat, counted: bool)        // the VU is lost; uncounted only before it started
    | Drain                              // the coordinator takes an idle report
    | Begin                              // startup ends, degraded or not
    | Fire                               // one due arrival: dispatch or drop
    | Close                              // the dispatch senders are dropped
    | Exit                               // the coordinator is gone
    | HardStop

  predicate Enabled(s: State, t: Step) {
    match t
    case Report(id) => id < |s.vus| && (s.vus[id].pc.Starting? || s.vus[id].pc.Tallied?)
    case Receive(id) => id < |s.vus| && s.vus[id].pc.Parked? && s.vus[id].mail > 0
    case WakeClosed(id) => id < |s.vus| && s.vus[id].Waits() && !s.Open()
    case Finish(id, _) => id < |s.vus| && s.vus[id].pc.Running?
    case ForceUnwind(id) => id < |s.vus| && s.vus[id].pc.Running? && s.hard
    case Unwound(id) => id < |s.vus| && s.vus[id].pc.Winding?
    case Stray(id) => id < |s.vus| && s.vus[id].pc.Winding? && s.hard
    case Die(id, counted) => id < |s.vus| && s.vus[id].Listening() && (counted || s.vus[id].pc.Starting?)
    case Drain => s.Open() && s.reports != []
    case Begin => s.phase.Startup?
    case Fire => s.phase.Pacing? && (s.idle != [] ==> s.idle[0] < |s.vus|)   // indexes the senders
    case Close => s.phase.Pacing?
    case Exit => s.phase.Closed?
    case HardStop => true
  }

  function With(s: State, id: nat, v: Vu): State
    requires id < |s.vus|
  {
    s.(vus := s.vus[id := v])
  }

  function Tally(s: State, o: Outcome): State {
    match o
    case Completed => s.(completed := s.completed + 1)
    case Errored => s.(errored := s.errored + 1)
    case Interrupted => s.(interrupted := s.interrupted + 1)
  }

  // One arrival: the front of the queue is dispatched; an empty queue, or a channel
  // that is closed, drops it.
  function FireOne(s: State): State
    requires s.idle != [] ==> s.idle[0] < |s.vus|
  {
    var t := s.(dispatched := s.dispatched + 1);
    if s.idle == [] then t.(dropped := s.dropped + 1, starved := s.starved + 1)
    else
      var id, u := s.idle[0], t.(idle := s.idle[1..]);
      if s.vus[id].Listening() then With(u, id, s.vus[id].(mail := s.vus[id].mail + 1))
      else u.(dropped := s.dropped + 1, refused := s.refused + 1)
  }

  // A death drops the VU's channel and whatever it was carrying.
  function Bury(s: State, id: nat, counted: bool): State
    requires id < |s.vus|
  {
    var v := s.vus[id];
    With(s, id, Vu(Dead, 0, v.unborn)).(
      degraded := if counted then s.degraded + 1 else s.degraded,
      lost := s.lost + v.mail + if v.pc.Running? then 1 else 0,
      diedParked := if v.pc.Parked? then s.diedParked + 1 else s.diedParked)
  }

  function Do(s: State, t: Step): State
    requires Enabled(s, t)
  {
    match t
    case Report(id) =>
      if s.phase.Gone? then With(s, id, s.vus[id].Ended())
      else With(s, id, s.vus[id].(pc := Parked)).(reports := s.reports + [id])
    case Receive(id) => With(s, id, Vu(Running, s.vus[id].mail - 1, false))
    case WakeClosed(id) => With(s, id, s.vus[id].Ended())
    case Finish(id, o) => Tally(With(s, id, s.vus[id].(pc := Tallied)), o)
    case ForceUnwind(id) => Tally(With(s, id, s.vus[id].(pc := Stopped)), Interrupted)
    case Unwound(id) => With(s, id, s.vus[id].(pc := Stopped))
    case Stray(id) => Tally(With(s, id, s.vus[id].(pc := Stopped)), Interrupted).(strays := s.strays + 1)
    case Die(id, counted) => Bury(s, id, counted)
    case Drain => s.(idle := s.idle + [s.reports[0]], reports := s.reports[1..])
    case Begin => s.(phase := if s.idle == [] then Closed else Pacing)
    case Fire => FireOne(s)
    case Close => s.(phase := Closed)
    case Exit => s.(phase := Gone)
    case HardStop => s.(hard := true)
  }

  // ----- Invariants -----

  ghost predicate NoDup(q: seq<nat>) {
    forall i, j :: 0 <= i < j < |q| ==> q[i] != q[j]
  }

  // Each VU is one token: queued, holding one message, running, or about to report.
  ghost predicate Token(s: State, i: nat)
    requires i < |s.vus|
  {
    var v := s.vus[i];
    && v.mail <= 1
    && (v.mail == 1 ==> v.pc.Parked?)
    && (v.pc.Running? || v.pc.Tallied? ==> !v.unborn) && (v.pc.Starting? || v.pc.Winding? ==> v.unborn)
    && (i in s.Queue() ==> v.mail == 0 && (v.pc.Parked? || v.pc.Dead? || ((v.pc.Winding? || v.pc.Stopped?) && !s.Open())))
    && (v.Waits() && s.Open() ==> i in s.Queue())
  }

  ghost predicate Tokens(s: State) {
    && NoDup(s.Queue())
    && (forall k :: 0 <= k < |s.Queue()| ==> s.Queue()[k] < |s.vus|)
    && (forall i: nat :: i < |s.vus| ==> Token(s, i))
  }

  // Every arrival is dropped, in a lane, in flight, or lost with a dead VU; the stray
  // interruptions come on top.
  ghost predicate Conserved(s: State) {
    s.dispatched + s.strays == s.dropped + s.completed + s.errored + s.interrupted + s.lost + |s.Flying()|
  }

  ghost predicate Accounted(s: State) {
    && s.dropped == s.starved + s.refused
    && s.lost <= s.degraded
    && (s.strays > 0 ==> s.hard)
    && s.refused <= s.diedParked
    && (s.Open() ==> s.refused + |s.DeadQueued()| <= s.diedParked)
  }

  ghost predicate Inv(s: State) {
    Tokens(s) && Conserved(s) && Accounted(s)
  }

  // ----- One step keeps the token discipline -----

  lemma QueueUnchanged(s: State, u: State, id: nat)
    requires Tokens(s) && |u.vus| == |s.vus| && id < |s.vus|
    requires u.Queue() == s.Queue() && (u.Open() ==> s.Open())
    requires forall i: nat :: i < |s.vus| && i != id ==> u.vus[i] == s.vus[i]
    requires Token(u, id)
    ensures Tokens(u)
  {
    forall i: nat | i < |u.vus| ensures Token(u, i) {
      if i != id { assert Token(s, i); }
    }
  }

  lemma ReportKeepsTokens(s: State, id: nat)
    requires Tokens(s) && Enabled(s, Report(id))
    ensures Tokens(Do(s, Report(id)))
  {
    var u := Do(s, Report(id));
    assert Token(s, id);
    if s.phase.Gone? {
      QueueUnchanged(s, u, id);
    } else {
      assert u.Queue() == s.Queue() + [id];
      forall i: nat | i < |u.vus| ensures Token(u, i) {
        if i != id { assert Token(s, i); }
      }
    }
  }

  lemma FireKeepsToken(s: State, i: nat)
    requires Tokens(s) && Enabled(s, Fire) && s.idle != [] && i < |s.vus|
    ensures Token(FireOne(s), i)
  {
    PopQueue(s, FireOne(s));
    assert Token(s, i);
  }

  lemma FireKeepsTokens(s: State)
    requires Tokens(s) && Enabled(s, Fire)
    ensures Tokens(FireOne(s))
  {
    var u := FireOne(s);
    if s.idle == [] {
      QueueUntouched(s, u);
    } else {
      FirePopsQueue(s);
      TailKeepsQueue(s.Queue(), |s.vus|);
      forall i: nat | i < |u.vus| ensures Token(u, i) {
        FireKeepsToken(s, i);
      }
    }
  }

  lemma FirePopsQueue(s: State)
    requires Enabled(s, Fire) && s.idle != []
    ensures s.Queue() != [] && FireOne(s).Queue() == s.Queue()[1..] && |FireOne(s).vus| == |s.vus|
  {
  }

  lemma TailKeepsQueue(q: seq<nat>, n: nat)
    requires q != [] && NoDup(q) && forall k :: 0 <= k < |q| ==> q[k] < n
    ensures NoDup(q[1..]) && forall k :: 0 <= k < |q[1..]| ==> q[1..][k] < n
  {
  }

  lemma QueueUntouched(s: State, u: State)
    requires Tokens(s) && u.vus == s.vus && u.Queue() == s.Queue() && (u.Open() ==> s.Open())
    ensures Tokens(u)
  {
    forall i: nat | i < |u.vus| ensures Token(u, i) {
      assert Token(s, i);
    }
  }

  // A step of one VU that leaves the queues alone.
  predicate IsLocal(t: Step) {
    t.Receive? || t.WakeClosed? || t.Finish? || t.ForceUnwind? || t.Unwound? || t.Stray? || t.Die?
  }

  lemma LocalStep(s: State, t: Step)
    requires Enabled(s, t) && IsLocal(t)
    ensures var u := Do(s, t);
      t.id < |u.vus| && u.vus == s.vus[t.id := u.vus[t.id]] && u.idle == s.idle && u.reports == s.reports && u.phase == s.phase
  {
  }

  lemma LocalKeepsToken(s: State, t: Step)
    requires Tokens(s) && Enabled(s, t) && IsLocal(t)
    ensures t.id < |Do(s, t).vus| && Token(Do(s, t), t.id)
  {
    assert Token(s, t.id);
    LocalStep(s, t);
  }

  lemma StepKeepsTokens(s: State, t: Step)
    requires Tokens(s) && Enabled(s, t)
    ensures Tokens(Do(s, t))
  {
    if IsLocal(t) {
      LocalStep(s, t);
      LocalKeepsToken(s, t);
      QueueUnchanged(s, Do(s, t), t.id);
    } else if t.Report? {
      ReportKeepsTokens(s, t.id);
    } else if t.Fire? {
      FireKeepsTokens(s);
    } else {
      assert Do(s, t).Queue() == s.Queue();
      QueueUntouched(s, Do(s, t));
    }
  }

  // ----- One step keeps the accounts -----

  lemma FlyingWith(s: State, id: nat, v: Vu)
    requires id < |s.vus|
    ensures var u := With(s, id, v);
      |u.Flying()| == |s.Flying()| + (if v.InFlight() then 1 else 0) - (if s.vus[id].InFlight() then 1 else 0)
  {
    var a, b := s.Flying(), With(s, id, v).Flying();
    assert b == if v.InFlight() then (a - {id}) + {id} else a - {id};
  }

  lemma SameFlying(s: State, u: State)
    requires s.vus == u.vus
    ensures s.Flying() == u.Flying()
  {
  }

  function One(b: bool): int { if b then 1 else 0 }

  // What a VU's own step does to the accounts and to what is in flight.
  lemma LocalBalance(s: State, t: Step)
    requires Tokens(s) && Enabled(s, t) && IsLocal(t)
    ensures var u := Do(s, t);
      && t.id < |u.vus| && u.dispatched == s.dispatched && u.dropped == s.dropped
      && u.completed + u.errored + u.interrupted + u.lost - u.strays + One(u.vus[t.id].InFlight())
         == s.completed + s.errored + s.interrupted + s.lost - s.strays + One(s.vus[t.id].InFlight())
  {
    assert Token(s, t.id);
  }

  lemma StepKeepsConserved(s: State, t: Step)
    requires Tokens(s) && Conserved(s) && Enabled(s, t)
    ensures Conserved(Do(s, t))
  {
    var u := Do(s, t);
    if IsLocal(t) {
      LocalStep(s, t);
      LocalBalance(s, t);
      FlyingWith(s, t.id, u.vus[t.id]);
      SameFlying(u, With(s, t.id, u.vus[t.id]));
    } else if t.Report? {
      assert Token(s, t.id);
      FlyingWith(s, t.id, u.vus[t.id]);
      SameFlying(u, With(s, t.id, u.vus[t.id]));
    } else if t.Fire? {
      FireKeepsConserved(s);
    } else {
      SameFlying(u, s);
    }
  }

  lemma FireKeepsConserved(s: State)
    requires Tokens(s) && Conserved(s) && Enabled(s, Fire)
    ensures Conserved(FireOne(s))
  {
    var u := FireOne(s);
    if s.idle == [] {
      SameFlying(u, s);
    } else {
      var id := s.idle[0];
      assert s.Queue()[0] == id && Token(s, id);
      FlyingWith(s, id, u.vus[id]);
      SameFlying(u, With(s, id, u.vus[id]));
    }
  }

  lemma SubsetCount<T>(a: set<T>, b: set<T>)
    requires a <= b
    ensures |a| <= |b|
  {
    assert b == a + (b - a);
  }

  lemma StepKeepsAccounted(s: State, t: Step)
    requires Tokens(s) && Accounted(s) && Enabled(s, t)
    ensures Accounted(Do(s, t))
  {
    match t
    case Fire => FireKeepsAccounted(s);
    case Die(id, counted) => DieKeepsAccounted(s, id, counted);
    case Report(id) => ReportKeepsAccounted(s, id);
    case _ => QuietKeepsAccounted(s, t);
  }

  lemma QuietKeepsAccounted(s: State, t: Step)
    requires Accounted(s) && Enabled(s, t) && !t.Fire? && !t.Die? && !t.Report?
    ensures Accounted(Do(s, t))
  {
    QuietKeepsDead(s, t);
    SameDeadQueued(s, Do(s, t));
  }

  lemma QuietKeepsDead(s: State, t: Step)
    requires Enabled(s, t) && !t.Fire? && !t.Die? && !t.Report?
    ensures var u := Do(s, t);
      |u.vus| == |s.vus| && u.Queue() == s.Queue() && forall i: nat :: i < |s.vus| ==> (u.vus[i].pc.Dead? <==> s.vus[i].pc.Dead?)
  {
    if IsLocal(t) { LocalStep(s, t); }
  }

  lemma SameDeadQueued(s: State, u: State)
    requires |u.vus| == |s.vus| && u.Queue() == s.Queue()
    requires forall i: nat :: i < |s.vus| ==> (u.vus[i].pc.Dead? <==> s.vus[i].pc.Dead?)
    ensures u.DeadQueued() == s.DeadQueued()
  {
  }

  lemma ReportKeepsAccounted(s: State, id: nat)
    requires Tokens(s) && Accounted(s) && Enabled(s, Report(id))
    ensures Accounted(Do(s, Report(id)))
  {
    var u := Do(s, Report(id));
    assert !u.vus[id].pc.Dead?;
    assert u.DeadQueued() <= s.DeadQueued();
    SubsetCount(u.DeadQueued(), s.DeadQueued());
  }

  lemma PopQueue(s: State, u: State)
    requires Tokens(s) && s.idle != [] && u.idle == s.idle[1..] && u.reports == s.reports
    ensures s.idle[0] in s.Queue() && s.idle[0] !in u.Queue()
    ensures forall i: nat :: i in u.Queue() <==> i in s.Queue() && i != s.idle[0]
  {
    var q, id := s.Queue(), s.idle[0];
    assert q[0] == id && u.Queue() == q[1..] && q == [id] + q[1..];
  }

  lemma FireKeepsAccounted(s: State)
    requires Tokens(s) && Accounted(s) && Enabled(s, Fire)
    ensures Accounted(FireOne(s))
  {
    var u := FireOne(s);
    if s.idle == [] {
      assert u.DeadQueued() == s.DeadQueued();
    } else {
      var id := s.idle[0];
      PopQueue(s, u);
      PopDeadQueued(s, u, id);
      assert Token(s, id);
    }
  }

  lemma PopDeadQueued(s: State, u: State, id: nat)
    requires id < |s.vus| && |u.vus| == |s.vus| && id in s.Queue()
    requires forall i: nat :: i in u.Queue() <==> i in s.Queue() && i != id
    requires forall i: nat :: i < |s.vus| ==> u.vus[i].pc == s.vus[i].pc
    ensures |u.DeadQueued()| == |s.DeadQueued()| - One(s.vus[id].pc.Dead?)
  {
    assert u.DeadQueued() == s.DeadQueued() - {id};
    assert s.vus[id].pc.Dead? <==> id in s.DeadQueued();
  }

  lemma DieKeepsAccounted(s: State, id: nat, counted: bool)
    requires Tokens(s) && Accounted(s) && Enabled(s, Die(id, counted))
    ensures Accounted(Do(s, Die(id, counted)))
  {
    var u := Do(s, Die(id, counted));
    assert Token(s, id) && u.Queue() == s.Queue();
    BuryDeadQueued(s, u, id);
  }

  lemma BuryDeadQueued(s: State, u: State, id: nat)
    requires id < |s.vus| && |u.vus| == |s.vus| && u.Queue() == s.Queue() && u.vus[id].pc.Dead? && !s.vus[id].pc.Dead?
    requires forall i: nat :: i < |s.vus| && i != id ==> u.vus[i].pc == s.vus[i].pc
    ensures |u.DeadQueued()| == |s.DeadQueued()| + One(id in s.Queue())
  {
    assert u.DeadQueued() == if id in s.Queue() then s.DeadQueued() + {id} else s.DeadQueued();
  }

  // ----- Whole runs -----

  ghost predicate Next(s: State, u: State) {
    exists t :: Enabled(s, t) && Do(s, t) == u
  }

  // A run of `n` VUs: any interleaving of enabled steps.
  ghost predicate IsRun(n: nat, run: seq<State>) {
    run != [] && run[0] == Init(n) && forall i :: 0 <= i < |run| - 1 ==> Next(run[i], run[i + 1])
  }

  lemma InitHolds(n: nat)
    ensures Inv(Init(n))
  {
    var s := Init(n);
    assert s.Flying() == {} && s.DeadQueued() == {};
    forall i: nat | i < n ensures Token(s, i) {}
  }

  // The invariants hold in every state of every run.
  lemma {:induction false} EveryStateKeepsInv(n: nat, run: seq<State>, i: nat)
    requires IsRun(n, run) && i < |run|
    ensures Inv(run[i]) && |run[i].vus| == n
  {
    if i == 0 {
      InitHolds(n);
    } else {
      EveryStateKeepsInv(n, run, i - 1);
      assert Next(run[i - 1], run[i - 1 + 1]);
      NextKeepsInv(run[i - 1], run[i]);
    }
  }

  lemma NextKeepsInv(s: State, u: State)
    requires Inv(s) && Next(s, u)
    ensures Inv(u) && |u.vus| == |s.vus|
  {
    var t :| Enabled(s, t) && Do(s, t) == u;
    StepKeepsInv(s, t);
  }

  lemma StepKeepsInv(s: State, t: Step)
    requires Inv(s) && Enabled(s, t)
    ensures Inv(Do(s, t)) && |Do(s, t).vus| == |s.vus|
  {
    StepKeepsTokens(s, t);
    StepKeepsConserved(s, t);
    StepKeepsAccounted(s, t);
    StepKeepsPool(s, t);
  }

  lemma StepKeepsPool(s: State, t: Step)
    requires Enabled(s, t)
    ensures |Do(s, t).vus| == |s.vus|
  {
    if IsLocal(t) { LocalStep(s, t); }
  }

  // The coordinator never indexes outside the sender list.
  lemma FireIsAlwaysEnabled(n: nat, run: seq<State>)
    requires IsRun(n, run) && run[|run| - 1].phase.Pacing?
    ensures Enabled(run[|run| - 1], Fire)
  {
    var s := run[|run| - 1];
    EveryStateKeepsInv(n, run, |run| - 1);
    if s.idle != [] { assert s.Queue()[0] == s.idle[0]; }
  }

  // ----- Finished runs -----

  ghost predicate Finished(s: State) {
    s.phase.Gone? && forall i :: 0 <= i < |s.vus| ==> !s.vus[i].Listening()
  }

  // In a finished state the four lanes are the arrivals fired, less what died with
  // degraded VUs, plus the stray interruptions.
  lemma FinishedLanes(s: State)
    requires Inv(s) && Finished(s)
    ensures s.completed + s.dropped + s.errored + s.interrupted + s.lost == s.dispatched + s.strays
    ensures s.lost <= s.degraded && (s.strays > 0 ==> s.hard)
  {
    forall i: nat | i < |s.vus| ensures !s.vus[i].InFlight() {
      assert Token(s, i);
    }
    assert s.Flying() == {};
  }

  // With no degraded VU the four lanes of a finished run sum to the arrivals fired exactly
  // if no VU was interrupted in its module scope, which takes a hard stop.
  lemma LanesSumToArrivals(n: nat, run: seq<State>)
    requires IsRun(n, run) && Finished(run[|run| - 1])
    ensures var s := run[|run| - 1];
            var lanes := s.completed + s.dropped + s.errored + s.interrupted;
      && lanes + s.lost == s.dispatched + s.strays
      && s.dispatched - s.degraded <= lanes
      && (s.degraded == 0 ==> (lanes == s.dispatched <==> s.strays == 0))
      && (s.degraded == 0 && !s.hard ==> lanes == s.dispatched)
  {
    EveryStateKeepsInv(n, run, |run| - 1);
    FinishedLanes(run[|run| - 1]);
  }

  // If no VU dies while parked, no dispatch is ever refused: an arrival is dropped
  // exactly when it finds the idle queue empty.
  lemma DropsAreStarvation(n: nat, run: seq<State>)
    requires IsRun(n, run) && run[|run| - 1].diedParked == 0
    ensures run[|run| - 1].dropped == run[|run| - 1].starved && run[|run| - 1].refused == 0
  {
    EveryStateKeepsInv(n, run, |run| - 1);
  }

  // The idle queue never names a VU twice, so it never outgrows the pool, and each
  // dispatch channel holds at most one message.
  lemma QueueIsBounded(n: nat, run: seq<State>)
    requires IsRun(n, run)
    ensures var s := run[|run| - 1];
      |s.vus| == n && |s.Queue()| <= n && forall i :: 0 <= i < n ==> s.vus[i].mail <= 1
  {
    EveryStateKeepsInv(n, run, |run| - 1);
    var s := run[|run| - 1];
    NoDupIsShort(s.Queue(), n);
    forall i: nat | i < n ensures s.vus[i].mail <= 1 {
      assert Token(s, i);
    }
  }

  lemma {:induction false} NoDupIsShort(q: seq<nat>, n: nat)
    requires NoDup(q) && forall k :: 0 <= k < |q| ==> q[k] < n
    ensures |q| <= n
    decreases n
  {
    if q != [] {
      assert q[0] < n;
      if k :| 0 <= k < |q| && q[k] == n - 1 {
        NoDupIsShort(q[..k] + q[k + 1..], n - 1);
      } else {
        NoDupIsShort(q, n - 1);
      }
    }
  }

  // A busy VU is never dispatched: whoever is at the front of the queue is waiting
  // with an empty channel, or has died.
  lemma OnlyIdleAreDispatched(n: nat, run: seq<State>)
    requires IsRun(n, run) && run[|run| - 1].phase.Pacing? && run[|run| - 1].idle != []
    ensures var s := run[|run| - 1];
      s.idle[0] < |s.vus| && (s.vus[s.idle[0]].Waits() || s.vus[s.idle[0]].pc.Dead?)
  {
    EveryStateKeepsInv(n, run, |run| - 1);
    var s := run[|run| - 1];
    assert s.Queue()[0] == s.idle[0];
    assert Token(s, s.idle[0]);
  }

  // ----- Every run ends -----

  // What a VU still has to do once the dispatch senders are dropped.
  function Effort(v: Vu): nat {
    match v.pc
    case Parked => if v.mail > 0 then 5 else 2
    case Running => 4
    case Starting => 3
    case Tallied => 3
    case Winding => 1
    case Stopped => 0
    case Dead => 0
  }

  ghost function Work(s: State): nat {
    SumOf(s.vus, Effort) + if s.phase.Gone? then 0 else 1
  }

  // Once the senders are dropped every step but the hard stop brings the run closer to
  // its end.
  lemma ClosedDescends(s: State, t: Step)
    requires Inv(s) && !s.Open() && Enabled(s, t) && !t.HardStop?
    ensures Work(Do(s, t)) < Work(s) && !Do(s, t).Open()
  {
    if IsLocal(t) {
      LocalStep(s, t);
      LocalEffort(s, t);
      SumUpdate(s.vus, Effort, t.id, Do(s, t).vus[t.id]);
    } else if t.Report? {
      assert Token(s, t.id);
      SumUpdate(s.vus, Effort, t.id, Do(s, t).vus[t.id]);
    }
  }

  lemma LocalEffort(s: State, t: Step)
    requires Inv(s) && !s.Open() && Enabled(s, t) && IsLocal(t)
    ensures t.id < |Do(s, t).vus| && Effort(Do(s, t).vus[t.id]) < Effort(s.vus[t.id])
  {
    assert Token(s, t.id);
  }

  // The next step of a VU that needs no cooperation from the script, under the hard stop.
  function Out(v: Vu, id: nat): Step {
    match v.pc
    case Parked => if v.mail > 0 then Receive(id) else WakeClosed(id)
    case Running => ForceUnwind(id)
    case Winding => Stray(id)
    case _ => Report(id)
  }

  // With the hard stop raised, an unfinished run always has such a step.
  lemma ClosedCanStep(s: State) returns (t: Step)
    requires !s.Open() && s.hard && !Finished(s)
    ensures Enabled(s, t) && !t.HardStop? && !t.Finish?
  {
    if s.phase.Closed? {
      t := Exit;
    } else {
      var i :| 0 <= i < |s.vus| && s.vus[i].Listening();
      t := Out(s.vus[i], i);
    }
  }

  predicate CanRun(s: State, steps: seq<Step>)
    decreases |steps|
  {
    steps == [] || (Enabled(s, steps[0]) && CanRun(Do(s, steps[0]), steps[1..]))
  }

  function After(s: State, steps: seq<Step>): State
    requires CanRun(s, steps)
    decreases |steps|
  {
    if steps == [] then s else After(Do(s, steps[0]), steps[1..])
  }

  lemma Prepend(s: State, t: Step, rest: seq<Step>)
    requires Enabled(s, t) && CanRun(Do(s, t), rest)
    ensures CanRun(s, [t] + rest) && After(s, [t] + rest) == After(Do(s, t), rest)
  {
    assert ([t] + rest)[1..] == rest;
  }

  // From every state with the senders dropped and the hard stop raised, the run finishes
  // within its remaining work, without any iteration reaching its own end.
  lemma {:induction false} ClosedFinishes(s: State) returns (steps: seq<Step>)
    requires Inv(s) && !s.Open() && s.hard
    ensures CanRun(s, steps) && Finished(After(s, steps)) && |steps| <= Work(s)
    decreases Work(s)
  {
    steps := [];
    if !Finished(s) {
      var t := ClosedCanStep(s);
      ClosedDescends(s, t);
      StepKeepsInv(s, t);
      StepKeepsHard(s, t);
      var rest := ClosedFinishes(Do(s, t));
      Prepend(s, t, rest);
      steps := [t] + rest;
    }
  }

  lemma StepKeepsHard(s: State, t: Step)
    requires Enabled(s, t) && s.hard
    ensures Do(s, t).hard
  {
  }

  // ----- A stray interruption -----

  // A VU that has not been resumed and will be stopped, not dispatched.
  predicate CouldStray(v: Vu) {
    v.unborn && (v.pc.Starting? || v.Waits() || v.pc.Winding?)
  }

  ghost predicate SomeCouldStray(s: State) {
    exists i: nat :: i < |s.vus| && CouldStray(s.vus[i])
  }

  lemma StepNeverRevives(s: State, t: Step)
    requires Inv(s) && !s.Open() && Enabled(s, t) && !SomeCouldStray(s)
    ensures !SomeCouldStray(Do(s, t)) && Do(s, t).strays == s.strays && !Do(s, t).Open()
  {
    var u := Do(s, t);
    StepKeepsPool(s, t);
    forall i: nat | i < |s.vus| ensures !s.vus[i].pc.Winding? {
      assert Token(s, i) && !CouldStray(s.vus[i]);
    }
    forall i: nat | i < |u.vus| ensures !CouldStray(u.vus[i]) {
      assert Token(s, i) && !CouldStray(s.vus[i]);
      if IsLocal(t) { LocalStep(s, t); }
    }
  }

  lemma {:induction false} NoStrayFollows(s: State, steps: seq<Step>)
    requires Inv(s) && !s.Open() && !SomeCouldStray(s) && CanRun(s, steps)
    ensures After(s, steps).strays == s.strays
    decreases |steps|
  {
    if steps != [] {
      StepNeverRevives(s, steps[0]);
      StepKeepsInv(s, steps[0]);
      NoStrayFollows(Do(s, steps[0]), steps[1..]);
    }
  }

  lemma {:induction false} StraysOnlyGrow(s: State, steps: seq<Step>)
    requires CanRun(s, steps)
    ensures After(s, steps).strays >= s.strays
    decreases |steps|
  {
    if steps != [] {
      StrayCountGrows(s, steps[0]);
      StraysOnlyGrow(Do(s, steps[0]), steps[1..]);
    }
  }

  lemma StrayCountGrows(s: State, t: Step)
    requires Enabled(s, t)
    ensures Do(s, t).strays >= s.strays
  {
  }

  // A finished run from here counts a stray interruption.
  ghost predicate StraysIn(s: State, steps: seq<Step>) {
    CanRun(s, steps) && Finished(After(s, steps)) && After(s, steps).strays > s.strays
  }

  // From a VU in its module scope: the hard stop interrupts it there, and the run finishes.
  lemma WindingStrays(s: State, i: nat) returns (steps: seq<Step>)
    requires Inv(s) && !s.Open() && i < |s.vus| && s.vus[i].pc.Winding?
    ensures StraysIn(s, steps)
  {
    var a := Do(s, HardStop);
    StepKeepsInv(s, HardStop);
    var b := Do(a, Stray(i));
    StepKeepsInv(a, Stray(i));
    var rest := ClosedFinishes(b);
    StraysOnlyGrow(b, rest);
    Prepend(a, Stray(i), rest);
    steps := [HardStop] + ([Stray(i)] + rest);
    Prepend(s, HardStop, [Stray(i)] + rest);
  }

  // One step ahead of a run that strays.
  lemma StepThenStrays(s: State, t: Step, rest: seq<Step>) returns (steps: seq<Step>)
    requires Enabled(s, t) && Do(s, t).strays == s.strays && StraysIn(Do(s, t), rest)
    ensures StraysIn(s, steps)
  {
    Prepend(s, t, rest);
    steps := [t] + rest;
  }

  lemma WaitingStrays(s: State, i: nat) returns (steps: seq<Step>)
    requires Inv(s) && !s.Open() && i < |s.vus| && s.vus[i].unborn && s.vus[i].Waits()
    ensures StraysIn(s, steps)
  {
    StepKeepsInv(s, WakeClosed(i));
    var rest := WindingStrays(Do(s, WakeClosed(i)), i);
    steps := StepThenStrays(s, WakeClosed(i), rest);
  }

  lemma StartingStrays(s: State, i: nat) returns (steps: seq<Step>)
    requires Inv(s) && !s.Open() && i < |s.vus| && s.vus[i].unborn && s.vus[i].pc.Starting?
    ensures StraysIn(s, steps)
  {
    assert Token(s, i);
    StepKeepsInv(s, Report(i));
    var u := Do(s, Report(i));
    var rest;
    if s.phase.Gone? { rest := WindingStrays(u, i); } else { rest := WaitingStrays(u, i); }
    steps := StepThenStrays(s, Report(i), rest);
  }

  // Once the senders are dropped, an interruption without an arrival can still be counted
  // exactly if some VU was never resumed and holds no dispatch.
  lemma StrayFollowsIff(s: State)
    requires Inv(s) && !s.Open()
    ensures (exists steps :: StraysIn(s, steps)) <==> SomeCouldStray(s)
  {
    if SomeCouldStray(s) {
      var i: nat :| i < |s.vus| && CouldStray(s.vus[i]);
      var steps;
      if s.vus[i].pc.Winding? {
        steps := WindingStrays(s, i);
      } else if s.vus[i].pc.Starting? {
        steps := StartingStrays(s, i);
      } else {
        steps := WaitingStrays(s, i);
      }
    } else {
      forall steps ensures !StraysIn(s, steps) {
        if CanRun(s, steps) { NoStrayFollows(s, steps); }
      }
    }
  }

  // A VU that was never dispatched is told to stop, waits in its module scope, and the
  // hard stop counts it: a finished run with one interruption for no arrival.
  lemma StrayHappens()
    ensures var steps := [Report(0), Begin, WakeClosed(0), HardStop, Stray(0), Exit];
      && CanRun(Init(1), steps)
      && var s := After(Init(1), steps);
         Finished(s) && s.dispatched == 0 && s.completed + s.dropped + s.errored + s.interrupted == 1 && s.degraded == 0
  {
    var a := Do(Init(1), Report(0));
    var b := Do(a, Begin);
    var c := Do(b, WakeClosed(0));
    assert a.vus == [Vu(Parked, 0, true)] && b.phase == Closed && c.vus == [Vu(Winding, 0, true)];
    StrayEnds(c);
    var last := [HardStop, Stray(0), Exit];
    Prepend(b, WakeClosed(0), last);
    Prepend(a, Begin, [WakeClosed(0)] + last);
    Prepend(Init(1), Report(0), [Begin] + ([WakeClosed(0)] + last));
    assert [Report(0)] + ([Begin] + ([WakeClosed(0)] + last)) == [Report(0), Begin, WakeClosed(0), HardStop, Stray(0), Exit];
  }

  lemma StrayEnds(s: State)
    requires s.vus == [Vu(Winding, 0, true)] && s.phase.Closed?
    ensures var steps := [HardStop, Stray(0), Exit];
      && CanRun(s, steps)
      && var u := After(s, steps);
         && Finished(u) && u.interrupted == s.interrupted + 1 && u.dispatched == s.dispatched && u.degraded == s.degraded
         && u.completed == s.completed && u.dropped == s.dropped && u.errored == s.errored
  {
    var a := Do(s, HardStop);
    var b := Do(a, Stray(0));
    var c := Do(b, Exit);
    assert CanRun(c, []) && After(c, []) == c;
    Prepend(b, Exit, []);
    Prepend(a, Stray(0), [Exit]);
    Prepend(s, HardStop, [Stray(0), Exit]);
  }

  // ----- Lane by lane -----

  predicate Completes(t: Step) { t.Finish? && t.outcome.Completed? }
  predicate Errs(t: Step) { t.Finish? && t.outcome.Errored? }
  predicate Interrupts(t: Step) { (t.Finish? && t.outcome.Interrupted?) || t.ForceUnwind? || t.Stray? }
  predicate Fires(t: Step) { t.Fire? }
  predicate Degrades(t: Step) { t.Die? && t.counted }

  // The arrivals of a run that were sent to nobody.
  function Unsent(s: State, steps: seq<Step>): nat
    requires CanRun(s, steps)
    decreases |steps|
  {
    if steps == [] then 0
    else (if steps[0].Fire? && Do(s, steps[0]).vus == s.vus then 1 else 0) + Unsent(Do(s, steps[0]), steps[1..])
  }

  lemma StepLanes(s: State, t: Step)
    requires Enabled(s, t)
    ensures var u := Do(s, t);
      && u.completed == s.completed + One(Completes(t)) && u.errored == s.errored + One(Errs(t))
      && u.interrupted == s.interrupted + One(Interrupts(t)) && u.dispatched == s.dispatched + One(Fires(t))
      && u.degraded == s.degraded + One(Degrades(t))
  {
  }

  lemma StepDrops(s: State, t: Step)
    requires Enabled(s, t)
    ensures Do(s, t).dropped == s.dropped + One(t.Fire? && Do(s, t).vus == s.vus)
  {
    if t.Fire? && s.idle != [] && s.vus[s.idle[0]].Listening() {
      assert Do(s, t).vus[s.idle[0]].mail == s.vus[s.idle[0]].mail + 1;
    }
  }

  // Over any run each lane counts its own steps: iterations that completed, that errored,
  // that were interrupted, and arrivals sent to nobody.
  lemma {:induction false} LanesCountSteps(s: State, steps: seq<Step>)
    requires CanRun(s, steps)
    ensures var u := After(s, steps);
      && u.completed == s.completed + Count(steps, Completes) && u.errored == s.errored + Count(steps, Errs)
      && u.interrupted == s.interrupted + Count(steps, Interrupts) && u.dropped == s.dropped + Unsent(s, steps)
      && u.dispatched == s.dispatched + Count(steps, Fires) && u.degraded == s.degraded + Count(steps, Degrades)
    decreases |steps|
  {
    if steps != [] {
      StepLanes(s, steps[0]);
      StepDrops(s, steps[0]);
      LanesCountSteps(Do(s, steps[0]), steps[1..]);
    }
  }

  // ----- What the pool can always do -----

  // The front of the queue has been sent a dispatch.
  function Sent(s: State): State
    requires s.idle != [] && s.idle[0] < |s.vus|
  {
    var i := s.idle[0];
    s.(dispatched := s.dispatched + 1, idle := s.idle[1..], vus := s.vus[i := s.vus[i].(mail := s.vus[i].mail + 1)])
  }

  // VU `i` has taken a dispatch, run it to the outcome and reported.
  function Served(s: State, i: nat, o: Outcome): State
    requires i < |s.vus| && s.vus[i].mail > 0
  {
    Tally(s, o).(vus := s.vus[i := Vu(Parked, s.vus[i].mail - 1, false)], reports := s.reports + [i])
  }

  // The oldest report has joined the queue.
  function Requeued(s: State): State
    requires s.reports != []
  {
    s.(idle := s.idle + [s.reports[0]], reports := s.reports[1..])
  }

  // An arrival whose turn falls on a parked VU can be served by it, with any outcome, and
  // the VU queues up again behind the others.
  lemma ArrivalIsServed(s: State, o: Outcome)
    requires s.phase.Pacing? && s.idle != [] && s.idle[0] < |s.vus| && s.vus[s.idle[0]].pc.Parked?
    ensures var i := s.idle[0];
            var steps := [Fire] + ([Receive(i), Finish(i, o), Report(i)] + [Drain]);
      CanRun(s, steps) && After(s, steps) == Requeued(Served(Sent(s), i, o))
  {
    var i := s.idle[0];
    FiresAtParked(s);
    DrainOnce(Served(Sent(s), i, o));
    ServedThen(Sent(s), i, o, [Drain]);
    Prepend(s, Fire, [Receive(i), Finish(i, o), Report(i)] + [Drain]);
  }

  lemma DrainOnce(s: State)
    requires s.Open() && s.reports != []
    ensures CanRun(s, [Drain]) && After(s, [Drain]) == Requeued(s)
  {
    var e := Do(s, Drain);
    assert CanRun(e, []) && After(e, []) == e;
    Prepend(s, Drain, []);
    assert [Drain] + [] == [Drain];
  }

  lemma FiresAtParked(s: State)
    requires s.phase.Pacing? && s.idle != [] && s.idle[0] < |s.vus| && s.vus[s.idle[0]].pc.Parked?
    ensures Enabled(s, Fire) && Do(s, Fire) == Sent(s)
  {
  }

  lemma ServedThen(s: State, i: nat, o: Outcome, rest: seq<Step>)
    requires i < |s.vus| && s.vus[i].pc.Parked? && s.vus[i].mail > 0 && !s.phase.Gone?
    requires CanRun(Served(s, i, o), rest)
    ensures var steps := [Receive(i), Finish(i, o), Report(i)] + rest;
      CanRun(s, steps) && After(s, steps) == After(Served(s, i, o), rest)
  {
    var a := Do(s, Receive(i));
    var b := Do(a, Finish(i, o));
    assert Do(b, Report(i)).vus == Served(s, i, o).vus;
    assert Do(b, Report(i)) == Served(s, i, o);
    Prepend(b, Report(i), rest);
    Prepend(a, Finish(i, o), [Report(i)] + rest);
    Prepend(s, Receive(i), [Finish(i, o)] + ([Report(i)] + rest));
    assert [Receive(i)] + ([Finish(i, o)] + ([Report(i)] + rest)) == [Receive(i), Finish(i, o), Report(i)] + rest;
  }

  // A VU can be lost wherever it is, and one in its module scope can always leave it.
  lemma VusEndAnywhere(s: State, i: nat)
    requires i < |s.vus|
    ensures s.vus[i].Listening() ==> Enabled(s, Die(i, true)) && Do(s, Die(i, true)).vus[i].pc == Dead
    ensures s.vus[i].pc.Winding? ==> Enabled(s, Unwound(i)) && Do(s, Unwound(i)).vus[i].pc == Stopped
  {
  }
}
