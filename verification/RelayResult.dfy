/** What the caller of a relay pair learns from its result. A timeout that no write reported is
    turned into nil, and a timeout also comes from the parent context's deadline: nil means
    "everything was delivered" exactly when neither a source read nor the parent can time out. */
module RelayResult {
  import opened Common
  import opened Runs
  import opened Relay
  import opened RelayProofs

  predicate Returned(s: State) { s.sent.returned && s.received.returned }

  /** Both directions relayed their whole streams. */
  ghost predicate Delivered(steps: seq<Step>, s: State) {
    Relayed(steps, s, Sent) && Relayed(steps, s, Received)
  }

  /** The pair's result once both directions returned. */
  function PairResult(s: State): Outcome {
    if s.err == Failed(Timeout) && s.stats.writeTimeouts == 0 then Clean else s.err
  }

  predicate ReadTimesOut(step: Step) {
    step.ReaderDoes? && step.ra.ReadReturns? && step.ra.end == ReadFailed(Timeout)
  }

  predicate DeadlinePasses(step: Step) { step == CancelParent(Timeout) }

  /** What a caller can rule out before the call: source reads that time out, a parent deadline. */
  predicate Allowed(idle: bool, deadline: bool, step: Step) {
    (ReadTimesOut(step) ==> idle) && (DeadlinePasses(step) ==> deadline)
  }

  /** A run of allowed steps. */
  ghost predicate Ran(o: Options, idle: bool, deadline: bool, steps: seq<Step>, states: seq<State>) {
    IsRun(o, steps, states) && forall i :: 0 <= i < |steps| ==> Allowed(idle, deadline, steps[i])
  }

  // ------------------------------------------- without timeouts, nil is honest

  predicate ReaderNotTimedOut(r: Reader) {
    match r
    case Measuring(_, end) => end != ReadFailed(Timeout)
    case Recording(_, end, _) => end != ReadFailed(Timeout)
    case Sending(_, end) => end != ReadFailed(Timeout)
    case Releasing(_, after) => after != EmptyRead(ReadFailed(Timeout)) && after != OnCancel(Timeout)
    case ClosingQueue(out) => out != Failed(Timeout)
    case ReaderReporting(out) => out != Failed(Timeout)
    case ReaderDone(out) => out != Failed(Timeout)
    case _ => true
  }

  predicate WriterTimedOut(w: Writer) {
    (w.ClosingDst? || w.WriterReporting? || w.WriterDone?) && w.out == Failed(Timeout)
  }

  /** Every timeout a direction reports was counted as a write timeout. */
  predicate DirTimeouts(d: Dir, counted: nat) {
    && ReaderNotTimedOut(d.reader)
    && d.ended != Some(Timeout)
    && (WriterTimedOut(d.writer) || d.err == Failed(Timeout) ==> counted > 0)
  }

  predicate TimeoutsExplained(s: State) {
    && DirTimeouts(s.sent, s.stats.writeTimeouts)
    && DirTimeouts(s.received, s.stats.writeTimeouts)
    && s.ended != Some(Timeout)
    && (s.err == Failed(Timeout) ==> s.stats.writeTimeouts > 0)
  }

  lemma ProceedKeepsTimeouts(l: Local, l': Local)
    requires DirTimeouts(l.dir, l.stats.writeTimeouts) && ReaderProceed(l) == Some(l')
    ensures DirTimeouts(l'.dir, l'.stats.writeTimeouts)
    ensures l'.stats.writeTimeouts == l.stats.writeTimeouts
  {
  }

  lemma ReaderKeepsTimeouts(o: Options, l: Local, a: ReaderAction, l': Local)
    requires DirTimeouts(l.dir, l.stats.writeTimeouts)
    requires !(a.ReadReturns? && a.end == ReadFailed(Timeout))
    requires ReaderStep(o, l, a) == Some(l')
    ensures DirTimeouts(l'.dir, l'.stats.writeTimeouts)
    ensures l'.stats.writeTimeouts == l.stats.writeTimeouts
  {
    if a.ReaderProceeds? { ProceedKeepsTimeouts(l, l'); }
  }

  lemma WriterKeepsTimeouts(l: Local, a: WriterAction, l': Local)
    requires DirTimeouts(l.dir, l.stats.writeTimeouts)
    requires WriterStep(l, a) == Some(l')
    ensures DirTimeouts(l'.dir, l'.stats.writeTimeouts)
    ensures l'.stats.writeTimeouts >= l.stats.writeTimeouts
  {
  }

  lemma StepKeepsTimeouts(o: Options, s: State, step: Step, s': State)
    requires TimeoutsExplained(s) && Allowed(false, false, step) && Apply(o, s, step) == Some(s')
    ensures TimeoutsExplained(s')
  {
    match step
    case ReaderDoes(side, a) =>
      ReaderKeepsTimeouts(o, LocalOf(s, side), a, ReaderStep(o, LocalOf(s, side), a).value);
    case WriterDoes(side, a) =>
      WriterKeepsTimeouts(LocalOf(s, side), a, WriterStep(LocalOf(s, side), a).value);
    case _ =>
  }

  lemma {:induction false} RunExplainsTimeouts(o: Options, steps: seq<Step>, states: seq<State>, i: nat)
    requires IsRun(o, steps, states) && i < |states|
    requires forall k :: 0 <= k < |steps| ==> Allowed(false, false, steps[k])
    ensures TimeoutsExplained(states[i])
  {
    if i > 0 {
      RunExplainsTimeouts(o, steps, states, i - 1);
      StepKeepsTimeouts(o, states[i - 1], steps[i - 1], states[i]);
    }
  }

  lemma NilIsHonest(o: Options, steps: seq<Step>, states: seq<State>)
    requires Ran(o, false, false, steps, states)
    requires Returned(states[|steps|]) && PairResult(states[|steps|]) == Clean
    ensures Delivered(steps, states[|steps|])
  {
    RunExplainsTimeouts(o, steps, states, |steps|);
    PairNilMeansDelivered(o, steps, states, |steps|);
    assert steps[..|steps|] == steps;
  }

  // ------------------------------------------- runs, step by step

  /** The runs of one caller: which timeouts can happen. */
  datatype Caller = Caller(idle: bool, deadline: bool)

  ghost predicate At(o: Options, c: Caller, s: State) {
    exists steps, states :: Ran(o, c.idle, c.deadline, steps, states) && states[|steps|] == s
  }

  lemma Go(o: Options, c: Caller, s: State, step: Step, s': State)
    requires At(o, c, s) && Allowed(c.idle, c.deadline, step) && Apply(o, s, step) == Some(s')
    ensures At(o, c, s')
  {
    var steps, states :| Ran(o, c.idle, c.deadline, steps, states) && states[|steps|] == s;
    var f := (s: State, step: Step) => Apply(o, s, step);
    ChainGrows(f, steps, states, step, s');
    var steps', states' := steps + [step], states + [s'];
    assert Chain(f, steps', states') && states'[0] == states[0];
    assert Ran(o, c.idle, c.deadline, steps', states') && states'[|steps'|] == s';
  }

  /** `s'` is `s` after its direction `side` moved to `l`. */
  ghost predicate Moved(s: State, side: Side, l: Local, s': State) {
    && LocalOf(s', side) == l
    && s'.At(Other(side)) == s.At(Other(side))
    && s'.err == s.err && s'.ended == s.ended
  }

  lemma ReaderGoes(o: Options, c: Caller, s: State, side: Side, a: ReaderAction, l: Local) returns (s': State)
    requires At(o, c, s) && Allowed(c.idle, c.deadline, ReaderDoes(side, a))
    requires ReaderStep(o, LocalOf(s, side), a) == Some(l)
    ensures At(o, c, s') && Moved(s, side, l, s')
  {
    s' := Lift(s, side, Some(l)).value;
    Go(o, c, s, ReaderDoes(side, a), s');
  }

  lemma WriterGoes(o: Options, c: Caller, s: State, side: Side, a: WriterAction, l: Local) returns (s': State)
    requires At(o, c, s) && WriterStep(LocalOf(s, side), a) == Some(l)
    ensures At(o, c, s') && Moved(s, side, l, s')
  {
    s' := Lift(s, side, Some(l)).value;
    Go(o, c, s, WriterDoes(side, a), s');
  }

  /** As `Moved`, when only the direction itself matters. */
  ghost predicate Turned(s: State, side: Side, d: Dir, s': State) {
    && s'.At(side) == d
    && s'.At(Other(side)) == s.At(Other(side))
    && s'.err == s.err && s'.ended == s.ended
    && s'.stats.writeTimeouts == s.stats.writeTimeouts
    && |s'.heap.content| >= |s.heap.content|
  }

  /** Where its code leaves no choice, a reader goes on to `d`. */
  lemma ReaderProceedsTo(o: Options, c: Caller, s: State, side: Side, d: Dir) returns (s': State)
    requires At(o, c, s) && !s.At(side).reader.Getting? && !s.At(side).reader.Reading?
    requires !s.At(side).reader.Sending? && ReaderProceed(LocalOf(s, side)).Some?
    requires ReaderProceed(LocalOf(s, side)).value.dir == d
    ensures At(o, c, s') && Turned(s, side, d, s') && s'.heap.content == s.heap.content
  {
    s' := ReaderGoes(o, c, s, side, ReaderProceeds, ReaderProceed(LocalOf(s, side)).value);
  }

  function Blank(n: nat): seq<Byte> { seq(n, i => 0) }

  /** A fresh buffer is checked out. */
  lemma GetsBuffer(o: Options, c: Caller, s: State, side: Side) returns (s': State)
    requires At(o, c, s) && s.At(side).reader == Getting
    ensures At(o, c, s') && s'.heap.content == s.heap.content + [Blank(o.bufferSize)]
    ensures Turned(s, side, s.At(side).(reader := Reading(|s.heap.content|)), s')
  {
    var blank := Blank(o.bufferSize);
    var h := s.heap.(content := s.heap.content + [blank]);
    s' := ReaderGoes(o, c, s, side, GetFresh(blank),
                     Local(h, s.stats, s.At(side).(reader := Reading(|s.heap.content|))));
  }

  /** A read returns `data` and `end`. */
  lemma Reads(o: Options, c: Caller, s: State, side: Side, data: seq<Byte>, end: ReadEnd, next: Reader)
    returns (s': State)
    requires At(o, c, s) && s.At(side).reader.Reading? && (end == ReadFailed(Timeout) ==> c.idle)
    requires
      var b := s.At(side).reader.buf;
      && b < |s.heap.content| && |data| <= |s.heap.content[b]|
      && next == if |data| > 0 then Measuring(Chunk(b, |data|), end) else Releasing(b, EmptyRead(end))
    ensures At(o, c, s') && |s'.heap.content| == |s.heap.content|
    ensures Turned(s, side, s.At(side).(source := s.At(side).source + data, reader := next), s')
  {
    var d, b := s.At(side), s.At(side).reader.buf;
    var h := s.heap.Fill(b, data + s.heap.content[b][|data|..]);
    s' := ReaderGoes(o, c, s, side, ReadReturns(data, end),
                     Local(h, s.stats, d.(source := d.source + data, reader := next)));
  }

  // ------------------------------------------- how a direction ends

  /** A reader that has given up or reached its end reports `out`. */
  lemma ReaderReports(o: Options, c: Caller, s: State, side: Side, out: Outcome) returns (s': State)
    requires At(o, c, s) && s.At(side).reader == ClosingQueue(out)
    ensures At(o, c, s')
    ensures Turned(s, side, Report(s.At(side), out).(closed := true, reader := ReaderDone(out)), s')
  {
    var d := s.At(side);
    s' := ReaderProceedsTo(o, c, s, side, d.(closed := true, reader := ReaderReporting(out)));
    s' := ReaderProceedsTo(o, c, s', side, Report(d, out).(closed := true, reader := ReaderDone(out)));
  }

  /** The next read brings nothing but `end`. */
  lemma ReadsNothing(o: Options, c: Caller, s: State, side: Side, end: ReadEnd, out: Outcome) returns (s': State)
    requires At(o, c, s) && s.At(side).reader == Getting && AfterRead(end) == ClosingQueue(out)
    requires end == ReadFailed(Timeout) ==> c.idle
    ensures At(o, c, s') && Turned(s, side, s.At(side).(reader := ClosingQueue(out)), s')
  {
    var d, b := s.At(side), |s.heap.content|;
    s' := GetsBuffer(o, c, s, side);
    assert d.source + [] == d.source;
    s' := Reads(o, c, s', side, [], end, Releasing(b, EmptyRead(end)));
    s' := ReaderProceedsTo(o, c, s', side, d.(reader := ClosingQueue(out)));
  }

  /** A writer that leaves its select reports `out`. */
  lemma WriterReports(o: Options, c: Caller, s: State, side: Side, a: WriterAction, out: Outcome) returns (s': State)
    requires At(o, c, s) && s.At(side).writer == Waiting
    requires WaitingStep(LocalOf(s, side), a)
             == Some(Local(s.heap, s.stats, s.At(side).(writer := ClosingDst(out))))
    ensures At(o, c, s') && Turned(s, side, Report(s.At(side), out).(writer := WriterDone(out)), s')
  {
    var d := s.At(side);
    s' := WriterGoes(o, c, s, side, a, Local(s.heap, s.stats, d.(writer := ClosingDst(out))));
    s' := WriterGoes(o, c, s', side, WriterProceeds, Local(s'.heap, s'.stats, d.(writer := WriterReporting(out))));
    s' := WriterGoes(o, c, s', side, WriterProceeds,
                     Local(s'.heap, s'.stats, Report(d, out).(writer := WriterDone(out))));
  }

  lemma Returns(o: Options, c: Caller, s: State, side: Side) returns (s': State)
    requires At(o, c, s) && ReturnStep(s, side).Some?
    ensures At(o, c, s') && ReturnStep(s, side) == Some(s')
  {
    s' := ReturnStep(s, side).value;
    Go(o, c, s, GroupReturns(side), s');
  }

  lemma Hears(o: Options, c: Caller, s: State, side: Side) returns (s': State)
    requires At(o, c, s) && s.ended.Some? && s.At(side).ended.None?
    ensures At(o, c, s') && Turned(s, side, s.At(side).(ended := s.ended), s')
  {
    s' := HearStep(s, side).value;
    Go(o, c, s, HearCancel(side), s');
  }

  // ------------------------------------------- with timeouts, nil can hide a lost byte

  const ONE := Chunk(0, 1)

  const NO_BUFFERS := Heap([], multiset{}, multiset{}, multiset{})

  lemma Start(o: Options, c: Caller) returns (s: State)
    ensures At(o, c, s)
    ensures s == State(NO_BUFFERS, FRESH_DIR, FRESH_DIR, Stats(0, 0, 0, 0), None, Clean)
  {
    s := State(NO_BUFFERS, FRESH_DIR, FRESH_DIR, Stats(0, 0, 0, 0), None, Clean);
    var none: seq<Step> := [];
    assert Ran(o, c.idle, c.deadline, none, [s]) && [s][|none|] == s;
  }

  lemma ByteRead(o: Options, c: Caller) returns (s: State)
    requires o.bufferSize > 0
    ensures At(o, c, s) && s.received == FRESH_DIR && s.err == Clean && s.ended == None && s.stats.writeTimeouts == 0
    ensures s.heap.content != [] && s.sent == FRESH_DIR.(source := [0], reader := Measuring(ONE, More))
  {
    s := Start(o, c);
    s := GetsBuffer(o, c, s, Sent);
    assert FRESH_DIR.source + [0] == [0];
    s := Reads(o, c, s, Sent, [0], More, Measuring(ONE, More));
  }

  /** The reader of `sent` has one byte that it is about to queue. */
  lemma ByteInHand(o: Options, c: Caller) returns (s: State)
    requires o.bufferSize > 0
    ensures At(o, c, s) && s.received == FRESH_DIR && s.err == Clean && s.ended == None && s.stats.writeTimeouts == 0
    ensures s.heap.content != [] && s.sent == FRESH_DIR.(source := [0], reader := Sending(ONE, More))
  {
    var d := FRESH_DIR.(source := [0]);
    s := ByteRead(o, c);
    s := ReaderProceedsTo(o, c, s, Sent, d.(reader := Recording(ONE, More, 1)));
    s := ReaderProceedsTo(o, c, s, Sent, d.(reader := Sending(ONE, More)));
  }

  lemma ByteDropped(o: Options, c: Caller, s: State, e: IoError) returns (s': State)
    requires At(o, c, s) && s.ended == Some(e) && s.heap.content != []
    requires s.sent == FRESH_DIR.(source := [0], reader := Sending(ONE, More))
    ensures At(o, c, s') && s'.sent.dest == [] && s'.sent.source == [0] && s'.sent.reader == ClosingQueue(Failed(e))
    ensures Turned(s, Sent, s'.sent, s') && s'.sent.writer == Waiting && s'.sent.ended == Some(e)
    ensures s'.sent.err == Clean && !s'.sent.returned
  {
    s' := Hears(o, c, s, Sent);
    var d := s'.sent.(reader := Releasing(0, OnCancel(e)), readLost := Bytes(s'.heap.content, ONE, 0));
    s' := ReaderGoes(o, c, s', Sent, SeeCancel, Local(s'.heap, s'.stats, d));
    s' := ReaderProceedsTo(o, c, s', Sent, d.(reader := ClosingQueue(Failed(e))));
  }

  /** Once the pair's context has ended, `sent` gives its byte up and returns that error. */
  lemma ByteLost(o: Options, c: Caller, s: State, e: IoError) returns (s': State)
    requires At(o, c, s) && s.ended == Some(e) && s.heap.content != []
    requires s.sent == FRESH_DIR.(source := [0], reader := Sending(ONE, More))
    ensures At(o, c, s') && s'.sent.returned && s'.sent.source == [0] && s'.sent.dest == []
    ensures s'.received == s.received && s'.stats.writeTimeouts == s.stats.writeTimeouts
    ensures s'.err == FirstError(s.err, Failed(e)) && s'.ended == s.ended
  {
    s' := ByteDropped(o, c, s, e);
    s' := ReaderReports(o, c, s', Sent, Failed(e));
    s' := WriterReports(o, c, s', Sent, StopOnCancel, Failed(e));
    s' := Returns(o, c, s', Sent);
  }

  /** The other direction's read times out: the pair fails with that timeout and its context ends. */
  lemma OtherTimesOut(o: Options, c: Caller, s: State) returns (s': State)
    requires At(o, c, s) && c.idle && s.received == FRESH_DIR && s.err == Clean && s.ended == None
    ensures At(o, c, s') && s'.received.returned && s'.sent == s.sent && |s'.heap.content| >= |s.heap.content|
    ensures s'.err == Failed(Timeout) && s'.ended == Some(Canceled) && s'.stats.writeTimeouts == s.stats.writeTimeouts
    ensures s'.received.source == s'.received.dest == []
  {
    s' := ReadsNothing(o, c, s, Received, ReadFailed(Timeout), Failed(Timeout));
    s' := ReaderReports(o, c, s', Received, Failed(Timeout));
    s' := WriterReports(o, c, s', Received, StopOnCancel, Failed(Canceled));
    s' := Returns(o, c, s', Received);
  }

  /** The other direction reaches its end and returns nil. */
  lemma OtherEnds(o: Options, c: Caller, s: State) returns (s': State)
    requires At(o, c, s) && s.received == FRESH_DIR
    ensures At(o, c, s') && s'.received.returned && s'.sent == s.sent && |s'.heap.content| >= |s.heap.content|
    ensures s'.err == s.err && s'.ended == s.ended && s'.stats.writeTimeouts == s.stats.writeTimeouts
  {
    s' := ReadsNothing(o, c, s, Received, Eof, Clean);
    s' := ReaderReports(o, c, s', Received, Clean);
    s' := WriterReports(o, c, s', Received, SeeClosed, Clean);
    s' := Returns(o, c, s', Received);
  }

  /** One direction idles out while the other is about to queue a byte: the byte is given up, and
      the pair still returns nil. */
  lemma IdleHidesLoss(o: Options, c: Caller) returns (s: State)
    requires o.bufferSize > 0 && c.idle
    ensures At(o, c, s) && Returned(s) && PairResult(s) == Clean && s.sent.source == [0] && s.sent.dest == []
  {
    s := ByteInHand(o, c);
    s := OtherTimesOut(o, c, s);
    s := ByteLost(o, c, s, Canceled);
  }

  /** The parent's deadline passes while a byte is about to be queued: no read times out, the byte
      is given up, and the pair returns nil. */
  lemma DeadlineHidesLoss(o: Options, c: Caller) returns (s: State)
    requires o.bufferSize > 0 && c.deadline
    ensures At(o, c, s) && Returned(s) && PairResult(s) == Clean && s.sent.source == [0] && s.sent.dest == []
  {
    s := ByteInHand(o, c);
    s := OtherEnds(o, c, s);
    var late := s.(ended := Some(Timeout));
    Go(o, c, s, CancelParent(Timeout), late);
    s := ByteLost(o, c, late, Timeout);
  }

  /** A run that a caller can see, in which the pair returns nil. */
  ghost predicate ReturnsNil(o: Options, c: Caller, steps: seq<Step>, states: seq<State>) {
    && Ran(o, c.idle, c.deadline, steps, states)
    && Returned(states[|steps|]) && PairResult(states[|steps|]) == Clean
  }

  lemma LossIsReal(o: Options, c: Caller, s: State) returns (steps: seq<Step>, states: seq<State>)
    requires At(o, c, s) && Returned(s) && PairResult(s) == Clean && s.sent.source == [0] && s.sent.dest == []
    ensures ReturnsNil(o, c, steps, states) && !Delivered(steps, states[|steps|])
  {
    steps, states :| Ran(o, c.idle, c.deadline, steps, states) && states[|steps|] == s;
    SourceIsRead(o, steps, states, |steps|, Sent);
    assert steps[..|steps|] == steps;
  }

  /** The pair's nil means that both streams were read to their ends and delivered exactly when no
      source read can time out and the parent context has no deadline. */
  lemma PairNilIff(o: Options, idle: bool, deadline: bool)
    requires o.bufferSize > 0
    ensures (forall steps, states :: ReturnsNil(o, Caller(idle, deadline), steps, states) ==>
               Delivered(steps, states[|steps|]))
            <==> !idle && !deadline
  {
    var c := Caller(idle, deadline);
    if idle {
      var s := IdleHidesLoss(o, c);
      var steps, states := LossIsReal(o, c, s);
    } else if deadline {
      var s := DeadlineHidesLoss(o, c);
      var steps, states := LossIsReal(o, c, s);
    } else {
      forall steps, states | ReturnsNil(o, c, steps, states) ensures Delivered(steps, states[|steps|]) {
        NilIsHonest(o, steps, states);
      }
    }
  }
}
