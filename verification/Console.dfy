/** The bounded console queue: producers that never wait, one writer thread, and a
    shutdown that closes the queue and wakes the writer. */
module Console {
  import opened Counting
  import Utf8

  datatype Level = Log | Warn | Error

  datatype Record = Record(level: Level, message: seq<Utf8.Byte>)

  datatype Event = Rec(record: Record) | Wake

  // `Receiving` blocks on the queue, having seen it open; `Trying` does not block,
  // having seen it closed; `Leaving` has left its loop but still owns the queue's
  // receiving end, which `Exited` has dropped.
  datatype Worker = Deciding | Receiving | Trying | Writing(record: Record) | Leaving | Exited

  datatype State = State(
    cap: nat,
    queue: seq<Event>,
    worker: Worker,
    closed: bool, woken: bool,          // the two steps of the shutdown
    sending: multiset<Record>,          // producers that saw the queue open, yet to send
    failing: nat,                       // producers about to count a drop
    dropped: nat, written: nat, writeErrors: nat,
    finished: nat,                      // emits that have returned
    accepted: seq<Record>,              // records taken by the queue, in order
    processed: seq<Record>,             // records written or counted as errors, in order
    pending: multiset<Record>,          // what producers were sending when it closed
    late: multiset<Record>)             // records accepted after it closed

  function Init(cap: nat): State {
    State(cap, [], Deciding, false, false, multiset{}, 0, 0, 0, 0, 0, [], [], multiset{}, multiset{})
  }

  datatype Step =
    | Look(record: Record)     // a producer looks whether the queue is closed
    | Send(record: Record)     // and tries to send
    | CountDrop                // or counts its record as dropped
    | Decide                   // the worker looks whether the queue is closed
    | Receive                  // takes an event, or finds none and leaves
    | Write(ok: bool)
    | Leave                    // the worker drops the receiving end
    | Close                    // the shutdown closes the queue
    | SendWake                 // and tries to wake the worker

  predicate Enabled(s: State, t: Step) {
    match t
    case Look(_) => true
    case Send(r) => r in s.sending
    case CountDrop => s.failing > 0
    case Decide => s.worker.Deciding?
    case Receive => (s.worker.Receiving? && s.queue != []) || s.worker.Trying?
    case Write(_) => s.worker.Writing?
    case Leave => s.worker.Leaving?
    case Close => !s.closed
    case SendWake => s.closed && !s.woken
  }

  // A send is refused when the queue is full or its receiving end is gone.
  predicate Accepts(s: State) { |s.queue| < s.cap && !s.worker.Exited? }

  function SendRecord(s: State, r: Record): State
    requires r in s.sending
  {
    var u := s.(sending := s.sending - multiset{r});
    if Accepts(s) then
      u.(queue := s.queue + [Rec(r)], accepted := s.accepted + [r], finished := s.finished + 1,
         late := if s.closed then s.late + multiset{r} else s.late)
    else u.(failing := s.failing + 1)
  }

  function ReceiveEvent(s: State): State {
    if s.queue == [] then s.(worker := Leaving)
    else if s.queue[0].Rec? then s.(worker := Writing(s.queue[0].record), queue := s.queue[1..])
    else s.(worker := Deciding, queue := s.queue[1..])
  }

  function WriteRecord(s: State, r: Record, ok: bool): State {
    var u := s.(worker := Deciding, processed := s.processed + [r]);
    if ok then u.(written := s.written + 1) else u.(writeErrors := s.writeErrors + 1)
  }

  function Do(s: State, t: Step): State
    requires Enabled(s, t)
  {
    match t
    case Look(r) => if s.closed then s.(failing := s.failing + 1) else s.(sending := s.sending + multiset{r})
    case Send(r) => SendRecord(s, r)
    case CountDrop => s.(failing := s.failing - 1, dropped := s.dropped + 1, finished := s.finished + 1)
    case Decide => s.(worker := if s.closed then Trying else Receiving)
    case Receive => ReceiveEvent(s)
    case Write(ok) => WriteRecord(s, s.worker.record, ok)
    case Leave => s.(worker := Exited)
    case Close => s.(closed := true, pending := s.sending)
    case SendWake => s.(woken := true, queue := if Accepts(s) then s.queue + [Wake] else s.queue)
  }

  // ----- Invariants -----

  function Records(queue: seq<Event>): seq<Record> {
    if queue == [] then []
    else if queue[0].Rec? then [queue[0].record] + Records(queue[1..])
    else Records(queue[1..])
  }

  function Current(s: State): seq<Record> {
    if s.worker.Writing? then [s.worker.record] else []
  }

  // First in, first out: nothing accepted is lost, repeated or overtaken.
  ghost predicate Ordered(s: State) {
    s.accepted == s.processed + Current(s) + Records(s.queue)
  }

  ghost predicate Counted(s: State) {
    && s.finished == |s.accepted| + s.dropped
    && s.written + s.writeErrors == |s.processed|
  }

  predicate Gone(s: State) { s.worker.Leaving? || s.worker.Exited? }

  // After the wake-up the worker is never blocked on an empty queue.
  ghost predicate Awake(s: State) {
    && |s.queue| <= s.cap
    && (s.woken ==> s.closed)
    && (s.worker.Trying? || Gone(s) ==> s.closed)
    && (s.woken && s.worker.Receiving? ==> s.queue != [])
  }

  // What is accepted after the close, and so what is left behind by a worker that has
  // gone, comes from producers that had seen the queue open.
  ghost predicate Traced(s: State) {
    && (if s.closed then s.late + s.sending <= s.pending else s.late == multiset{})
    && (Gone(s) ==> multiset(Records(s.queue)) <= s.late)
  }

  ghost predicate Inv(s: State) {
    s.cap > 0 && Ordered(s) && Counted(s) && Awake(s) && Traced(s)
  }

  lemma {:induction false} RecordsAppend(queue: seq<Event>, e: Event)
    ensures Records(queue + [e]) == if e.Rec? then Records(queue) + [e.record] else Records(queue)
  {
    if queue == [] {
      assert [e][1..] == [];
    } else {
      assert (queue + [e])[1..] == queue[1..] + [e];
      RecordsAppend(queue[1..], e);
    }
  }

  lemma SendKeepsInv(s: State, r: Record)
    requires Inv(s) && r in s.sending
    ensures Inv(SendRecord(s, r))
  {
    SendKeepsOrdered(s, r);
    SendKeepsTraced(s, r);
  }

  lemma SendKeepsOrdered(s: State, r: Record)
    requires r in s.sending && Ordered(s)
    ensures Ordered(SendRecord(s, r))
  {
    RecordsAppend(s.queue, Rec(r));
  }

  lemma SendKeepsTraced(s: State, r: Record)
    requires r in s.sending && Traced(s) && (Gone(s) ==> s.closed)
    ensures Traced(SendRecord(s, r))
  {
    RecordsAppend(s.queue, Rec(r));
    MoveOver(s.late, s.sending, r);
    SeqMultiset(Records(s.queue), r);
  }

  lemma MoveOver(late: multiset<Record>, sending: multiset<Record>, r: Record)
    requires r in sending
    ensures (late + multiset{r}) + (sending - multiset{r}) == late + sending
    ensures late + (sending - multiset{r}) <= late + sending
  {
  }

  lemma SeqMultiset(rs: seq<Record>, r: Record)
    ensures multiset(rs + [r]) == multiset(rs) + multiset{r}
  {
  }

  lemma ReceiveKeepsInv(s: State)
    requires Inv(s) && Enabled(s, Receive)
    ensures Inv(ReceiveEvent(s))
  {
    if s.queue != [] && s.queue[0].Rec? {
      assert Records(s.queue) == [s.queue[0].record] + Records(s.queue[1..]);
    }
  }

  lemma WriteKeepsInv(s: State, ok: bool)
    requires Inv(s) && s.worker.Writing?
    ensures Inv(WriteRecord(s, s.worker.record, ok))
  {
  }

  lemma WakeKeepsInv(s: State)
    requires Inv(s) && Enabled(s, SendWake)
    ensures Inv(Do(s, SendWake))
  {
    RecordsAppend(s.queue, Wake);
  }

  lemma StepKeepsInv(s: State, t: Step)
    requires Inv(s) && Enabled(s, t)
    ensures Inv(Do(s, t)) && Do(s, t).cap == s.cap
  {
    match t
    case Send(r) => SendKeepsInv(s, r);
    case Receive => ReceiveKeepsInv(s);
    case Write(ok) => WriteKeepsInv(s, ok);
    case SendWake => WakeKeepsInv(s);
    case Close => CloseKeepsInv(s);
    case _ => OtherKeepsInv(s, t);
  }

  lemma CloseKeepsInv(s: State)
    requires Inv(s) && Enabled(s, Close)
    ensures Inv(Do(s, Close))
  {
  }

  lemma OtherKeepsInv(s: State, t: Step)
    requires Inv(s) && Enabled(s, t) && (t.Look? || t.CountDrop? || t.Decide? || t.Leave?)
    ensures Inv(Do(s, t)) && Do(s, t).cap == s.cap
  {
  }

  // ----- Whole runs -----

  predicate CanRun(s: State, steps: seq<Step>)
    decreases |steps|
  {
    steps == [] || (Enabled(s, steps[0]) && CanRun(Do(s, steps[0]), steps[1..]))
  }

  function After(s: State, steps: seq<Step>): State
    requires CanRun(s, steps)
    decreases |steps|
  {
    if steps == [] then s else After(Do(s, steps[0]), steps[1..])
  }

  lemma {:induction false} RunKeepsInv(s: State, steps: seq<Step>)
    requires Inv(s) && CanRun(s, steps)
    ensures Inv(After(s, steps))
    decreases |steps|
  {
    if steps != [] {
      StepKeepsInv(s, steps[0]);
      RunKeepsInv(Do(s, steps[0]), steps[1..]);
    }
  }

  function Stranded(s: State): seq<Record> { if Gone(s) then Records(s.queue) else [] }
  function Queued(s: State): seq<Record> { if Gone(s) then [] else Records(s.queue) }

  // Every finished emit is written, an error, dropped, queued, being written, or stranded.
  lemma EmitsAreConserved(cap: nat, steps: seq<Step>)
    requires cap > 0 && CanRun(Init(cap), steps)
    ensures var s := After(Init(cap), steps);
      s.finished == s.written + s.writeErrors + s.dropped + |Queued(s)| + |Current(s)| + |Stranded(s)|
  {
    RunKeepsInv(Init(cap), steps);
  }

  // The worker takes the records in the order in which the queue accepted them.
  lemma WritesAreInOrder(cap: nat, steps: seq<Step>)
    requires cap > 0 && CanRun(Init(cap), steps)
    ensures var s := After(Init(cap), steps);
      s.processed <= s.accepted && s.accepted == s.processed + Current(s) + Records(s.queue)
  {
    RunKeepsInv(Init(cap), steps);
  }

  // Only a producer that was past its look when the queue closed can strand its record.
  lemma StrandedSawOpen(cap: nat, steps: seq<Step>)
    requires cap > 0 && CanRun(Init(cap), steps)
    ensures var s := After(Init(cap), steps); multiset(Stranded(s)) <= s.pending
  {
    RunKeepsInv(Init(cap), steps);
  }

  // If no producer was sending when the queue closed and the worker has left its loop,
  // every accepted record was written or counted as an error, in order.
  lemma QuiescentDrainIsComplete(cap: nat, steps: seq<Step>)
    requires cap > 0 && CanRun(Init(cap), steps)
    requires var s := After(Init(cap), steps); Gone(s) && s.pending == multiset{}
    ensures var s := After(Init(cap), steps);
      s.processed == s.accepted && s.written + s.writeErrors == |s.accepted|
      && s.finished == s.written + s.writeErrors + s.dropped
  {
    RunKeepsInv(Init(cap), steps);
    var s := After(Init(cap), steps);
    NoneLeft(s);
  }

  lemma NoneLeft(s: State)
    requires Traced(s) && Gone(s) && s.closed && s.pending == multiset{}
    ensures Records(s.queue) == []
  {
    assert multiset(Records(s.queue)) == multiset{};
    assert |multiset(Records(s.queue))| == |Records(s.queue)|;
  }

  // After the wake-up the worker always has a step, until it has gone.
  lemma WorkerNeverSticks(cap: nat, steps: seq<Step>)
    requires cap > 0 && CanRun(Init(cap), steps) && After(Init(cap), steps).woken
    ensures var s := After(Init(cap), steps);
      s.worker.Exited? || Enabled(s, Decide) || Enabled(s, Receive) || Enabled(s, Write(true)) || Enabled(s, Leave)
  {
    RunKeepsInv(Init(cap), steps);
  }

  // ----- When a record can be stranded -----

  ghost predicate CanStrand(s: State, steps: seq<Step>) {
    CanRun(s, steps) && Stranded(After(s, steps)) != []
  }

  // Closed, with nobody sending and nothing stranded.
  predicate Safe(s: State) { s.closed && s.sending == multiset{} && Stranded(s) == [] }

  lemma SafeStep(s: State, t: Step)
    requires Safe(s) && Enabled(s, t)
    ensures Safe(Do(s, t))
  {
    if t.SendWake? { RecordsAppend(s.queue, Wake); }
  }

  lemma {:induction false} SafeStays(s: State, steps: seq<Step>)
    requires Safe(s) && CanRun(s, steps)
    ensures Safe(After(s, steps))
    decreases |steps|
  {
    if steps != [] {
      SafeStep(s, steps[0]);
      SafeStays(Do(s, steps[0]), steps[1..]);
    }
  }

  // What is left for the worker to do, with the shutdown's help, before it leaves.
  function Work(s: State): nat {
    4 * (|s.queue| + if s.woken then 0 else 2) +
    match s.worker
      case Writing(_) => 3
      case Deciding => 2
      case Receiving => 1
      case Trying => 1
      case Leaving => 0
      case Exited => 0
  }

  // The next step towards that.
  function Onward(s: State): Step {
    match s.worker
    case Writing(_) => Write(true)
    case Deciding => Decide
    case Receiving => if s.queue == [] then SendWake else Receive
    case Trying => Receive
    case Leaving => Leave
    case Exited => Leave
  }

  lemma OnwardProceeds(s: State)
    requires Inv(s) && s.closed && !Gone(s)
    ensures Enabled(s, Onward(s))
    ensures var u := Do(s, Onward(s)); u.closed && u.sending == s.sending && Work(u) < Work(s) && !u.worker.Exited?
  {
  }

  // Without help from any producer the worker empties the queue and leaves.
  lemma {:induction false} WorkerDrains(s: State) returns (steps: seq<Step>)
    requires Inv(s) && s.closed && !Gone(s)
    ensures CanRun(s, steps)
    ensures var u := After(s, steps); u.worker.Leaving? && u.queue == [] && u.sending == s.sending && u.cap == s.cap
    decreases Work(s)
  {
    var t := Onward(s);
    OnwardProceeds(s);
    StepKeepsInv(s, t);
    var rest := [];
    if !Gone(Do(s, t)) {
      rest := WorkerDrains(Do(s, t));
    } else {
      assert After(Do(s, t), []) == Do(s, t);
    }
    Prepend(s, t, rest);
    steps := [t] + rest;
  }

  lemma Prepend(s: State, t: Step, rest: seq<Step>)
    requires Enabled(s, t) && CanRun(Do(s, t), rest)
    ensures CanRun(s, [t] + rest) && After(s, [t] + rest) == After(Do(s, t), rest)
  {
    assert ([t] + rest)[1..] == rest;
  }

  lemma {:induction false} RunAppend(s: State, steps: seq<Step>, t: Step)
    requires CanRun(s, steps) && Enabled(After(s, steps), t)
    ensures CanRun(s, steps + [t]) && After(s, steps + [t]) == Do(After(s, steps), t)
    decreases |steps|
  {
    if steps == [] {
      Prepend(s, t, []);
    } else {
      RunAppend(Do(s, steps[0]), steps[1..], t);
      Prepend(s, steps[0], steps[1..] + [t]);
      assert [steps[0]] + (steps[1..] + [t]) == steps + [t];
    }
  }

  // From the moment of the close a record can still be stranded exactly if some
  // producer is between its look and its send.
  lemma StrandsIffSending(s: State)
    requires Inv(s) && !s.closed
    ensures (exists steps :: CanStrand(Do(s, Close), steps)) <==> s.sending != multiset{}
  {
    var u := Do(s, Close);
    StepKeepsInv(s, Close);
    if s.sending == multiset{} {
      forall steps ensures !CanStrand(u, steps) {
        if CanRun(u, steps) { SafeStays(u, steps); }
      }
    } else {
      var r :| r in s.sending;
      var drain := WorkerDrains(u);
      RunAppend(u, drain, Send(r));
      LateSendStrands(After(u, drain), r);
      assert CanStrand(u, drain + [Send(r)]);
    }
  }

  lemma LateSendStrands(s: State, r: Record)
    requires s.worker.Leaving? && s.queue == [] && s.cap > 0 && r in s.sending
    ensures Stranded(Do(s, Send(r))) == [r]
  {
    RecordsAppend(s.queue, Rec(r));
  }

  // The shortest such run: a producer looks, the queue closes, the worker finds it empty
  // and leaves, and the record is sent to nobody.
  lemma StrandingRun(cap: nat, r: Record)
    requires cap > 0
    ensures var steps := [Look(r), Close, Decide, Receive, Send(r)];
      && CanRun(Init(cap), steps)
      && Stranded(After(Init(cap), steps)) == [r] && After(Init(cap), steps).dropped == 0
  {
    var a := Do(Init(cap), Look(r));
    var b := Do(a, Close);
    var c := Do(b, Decide);
    var d := Do(c, Receive);
    LateSendStrands(d, r);
    Prepend(d, Send(r), []);
    Prepend(c, Receive, [Send(r)]);
    Prepend(b, Decide, [Receive, Send(r)]);
    Prepend(a, Close, [Decide, Receive, Send(r)]);
    Prepend(Init(cap), Look(r), [Close, Decide, Receive, Send(r)]);
  }

  // ----- Counter by counter -----

  predicate Writes(t: Step) { t.Write? && t.ok }
  predicate FailsToWrite(t: Step) { t.Write? && !t.ok }
  predicate Drops(t: Step) { t.CountDrop? }

  lemma StepCounts(s: State, t: Step)
    requires Enabled(s, t)
    ensures var u := Do(s, t);
      && u.written == s.written + (if Writes(t) then 1 else 0)
      && u.writeErrors == s.writeErrors + (if FailsToWrite(t) then 1 else 0)
      && u.dropped == s.dropped + (if Drops(t) then 1 else 0)
  {
  }

  // Over any run each counter counts its own steps.
  lemma {:induction false} CountersCountSteps(s: State, steps: seq<Step>)
    requires CanRun(s, steps)
    ensures var u := After(s, steps);
      && u.written == s.written + Count(steps, Writes) && u.writeErrors == s.writeErrors + Count(steps, FailsToWrite)
      && u.dropped == s.dropped + Count(steps, Drops)
    decreases |steps|
  {
    if steps != [] {
      StepCounts(s, steps[0]);
      CountersCountSteps(Do(s, steps[0]), steps[1..]);
    }
  }

  predicate Looks(t: Step) { t.Look? }
  predicate Wakes(t: Step) { t.SendWake? }

  // Every emit that has begun has returned, is sending, or is about to count its drop; and
  // the worker is woken at most once.
  lemma {:induction false} EmitsBegun(s: State, steps: seq<Step>)
    requires CanRun(s, steps)
    ensures var u := After(s, steps);
      && u.finished + |u.sending| + u.failing == s.finished + |s.sending| + s.failing + Count(steps, Looks)
      && (if u.woken then 1 else 0) == (if s.woken then 1 else 0) + Count(steps, Wakes)
    decreases |steps|
  {
    if steps != [] {
      StepEmits(s, steps[0]);
      EmitsBegun(Do(s, steps[0]), steps[1..]);
    }
  }

  lemma StepEmits(s: State, t: Step)
    requires Enabled(s, t)
    ensures var u := Do(s, t);
      && u.finished + |u.sending| + u.failing == s.finished + |s.sending| + s.failing + (if Looks(t) then 1 else 0)
      && (if u.woken then 1 else 0) == (if s.woken then 1 else 0) + (if Wakes(t) then 1 else 0)
  {
  }

  // All of it, from the start.
  lemma CountersAreSteps(cap: nat, steps: seq<Step>)
    requires CanRun(Init(cap), steps)
    ensures var s := After(Init(cap), steps);
      && s.written == Count(steps, Writes) && s.writeErrors == Count(steps, FailsToWrite) && s.dropped == Count(steps, Drops)
      && s.finished + |s.sending| + s.failing == Count(steps, Looks)
      && Count(steps, Wakes) <= 1
  {
    CountersCountSteps(Init(cap), steps);
    EmitsBegun(Init(cap), steps);
  }

  // Producers never wait: each has its next step, whatever the worker does.
  lemma ProducersNeverWait(s: State, r: Record)
    ensures Enabled(s, Look(r)) && (r in s.sending ==> Enabled(s, Send(r))) && (s.failing > 0 ==> Enabled(s, CountDrop))
  {
  }

  // A record is refused exactly when the queue is full or its receiving end is gone.
  lemma RefusedIff(s: State, r: Record)
    requires r in s.sending && |s.queue| <= s.cap
    ensures Do(s, Send(r)).accepted == s.accepted <==> |s.queue| == s.cap || s.worker == Exited
    ensures Do(s, Send(r)).accepted != s.accepted ==> Do(s, Send(r)).accepted == s.accepted + [r]
  {
  }
}
