/** What the relay does while nothing fails: no error arises, from every state either direction can still
    return nil, and the bound on what is in flight is reached. Once something fails, the first cause is
    the one that stays, and it ends the context. */
module RelayDelivery {
  import opened Common
  import opened Runs
  import opened Relay
  import opened RelayProofs
  import opened RelayProgress
  import opened RelayResult

  // ---------------------------------------------------------------- nothing fails by itself

  /** A step by which something fails from outside: a read, a write, the timer, the parent. */
  predicate Fault(step: Step) {
    match step
    case ReaderDoes(_, a) => a.EnqueueTimeout? || (a.ReadReturns? && a.end.ReadFailed?)
    case WriterDoes(_, a) => a.WriteReturns? && a.err.Some?
    case CancelParent(_) => true
    case _ => false
  }

  ghost predicate FaultFree(steps: seq<Step>) { forall i :: 0 <= i < |steps| ==> !Fault(steps[i]) }

  predicate ReaderWell(r: Reader) {
    match r
    case Measuring(_, end) => !end.ReadFailed?
    case Recording(_, end, _) => !end.ReadFailed?
    case Sending(_, end) => !end.ReadFailed?
    case Releasing(_, after) => after.EmptyRead? && !after.end.ReadFailed?
    case CountingDrop => false
    case CountingTimeout => false
    case ClosingQueue(out) => out == Clean
    case ReaderReporting(out) => out == Clean
    case ReaderDone(out) => out == Clean
    case _ => true
  }

  predicate WriterWell(w: Writer) {
    match w
    case Freeing(_, err) => err.None?
    case CountingWriteTimeout => false
    case ClosingDst(out) => out == Clean
    case WriterReporting(out) => out == Clean
    case WriterDone(out) => out == Clean
    case _ => true
  }

  predicate DirWell(d: Dir) { ReaderWell(d.reader) && WriterWell(d.writer) && d.err == Clean && d.ended.None? }

  predicate Well(s: State) { DirWell(s.sent) && DirWell(s.received) && s.err == Clean && s.ended.None? }

  lemma ReaderStaysWell(o: Options, l: Local, a: ReaderAction, l': Local)
    requires DirWell(l.dir) && ReaderStep(o, l, a) == Some(l')
    requires !a.EnqueueTimeout? && !(a.ReadReturns? && a.end.ReadFailed?)
    ensures DirWell(l'.dir)
  {
    if a.ReaderProceeds? { ReaderProceedStaysWell(l, l'); }
  }

  lemma ReaderProceedStaysWell(l: Local, l': Local)
    requires DirWell(l.dir) && ReaderProceed(l) == Some(l')
    ensures DirWell(l'.dir)
  {
  }

  lemma WriterStaysWell(l: Local, a: WriterAction, l': Local)
    requires DirWell(l.dir) && WriterStep(l, a) == Some(l') && !(a.WriteReturns? && a.err.Some?)
    ensures DirWell(l'.dir)
  {
  }

  lemma StepStaysWell(o: Options, s: State, step: Step, s': State)
    requires Well(s) && !Fault(step) && Apply(o, s, step) == Some(s')
    ensures Well(s')
  {
    match step
    case ReaderDoes(x, a) => ReaderStaysWell(o, LocalOf(s, x), a, ReaderStep(o, LocalOf(s, x), a).value);
    case WriterDoes(x, a) => WriterStaysWell(LocalOf(s, x), a, WriterStep(LocalOf(s, x), a).value);
    case _ =>
  }

  lemma RunStaysWell(o: Options, steps: seq<Step>, states: seq<State>, i: nat)
    requires IsRun(o, steps, states) && i < |states| && FaultFree(steps[..i])
    ensures Well(states[i])
  {
    var f := (s: State, step: Step) => Apply(o, s, step);
    var p := (s: State, q: seq<Step>) => FaultFree(q) ==> Well(s);
    forall s, q, step | p(s, q) && f(s, step).Some? ensures p(f(s, step).value, q + [step]) {
      if FaultFree(q + [step]) {
        assert (q + [step])[|q|] == step && forall i :: 0 <= i < |q| ==> (q + [step])[i] == q[i];
        StepStaysWell(o, s, step, f(s, step).value);
      }
    }
    Along(f, p, steps, states, i);
  }

  /** Without a fault no direction and no pair ever has an error, and no context ends; a direction that
      has returned has relayed its whole stream. */
  lemma FaultFreeIsNil(o: Options, steps: seq<Step>, states: seq<State>, i: nat, side: Side)
    requires IsRun(o, steps, states) && i < |states| && FaultFree(steps[..i])
    ensures states[i].err == Clean && states[i].ended.None?
    ensures states[i].At(side).err == Clean && states[i].At(side).ended.None?
    ensures states[i].At(side).returned ==> Relayed(steps[..i], states[i], side)
  {
    RunStaysWell(o, steps, states, i);
    if states[i].At(side).returned { NilMeansDelivered(o, steps, states, i, side); }
  }

  // ---------------------------------------------------------------- and everything can be finished

  /** The direction can return nil by at most `n` steps of its own, none of them a fault and all of
      them keeping the io.Writer contract. */
  ghost predicate FinishesWithin(o: Options, s: State, side: Side, n: nat)
    decreases n
  {
    || (s.At(side).returned && s.At(side).err == Clean)
    || (n > 0 && exists step ::
          && OfDirection(step, side) && !Fault(step) && KeepsContract(s, step) && Apply(o, s, step).Some?
          && FinishesWithin(o, Apply(o, s, step).value, side, n - 1))
  }

  /** A queued chunk takes seven steps to deliver. */
  function ReaderWork(r: Reader): nat {
    match r
    case Measuring(_, _) => 15
    case Recording(_, _, _) => 14
    case Sending(_, _) => 13
    case _ => ReaderRank(r)
  }

  function Work(d: Dir): nat {
    ReaderWork(d.reader) + WriterRank(d.writer) + 7 * |d.queue| + if d.returned then 0 else 1
  }

  /** A reader goes on whenever there is room, or a writer waiting for it. */
  predicate ReaderFree(o: Options, d: Dir) {
    && !d.reader.ReaderDone?
    && (d.reader.Sending? ==> |d.queue| < o.queueSize || (d.queue == [] && d.writer.Waiting?))
  }

  function ReaderGoesOn(o: Options, d: Dir): ReaderAction {
    if d.reader.Sending? then (if |d.queue| < o.queueSize then Enqueue else HandOff) else ReaderCan(o, d.reader)
  }

  function WriterGoesOn(d: Dir): WriterAction {
    if d.writer.Writing? then WriterQuits(d.writer) else WriterCan(d.writer, d.queue)
  }

  lemma ReaderWorks(o: Options, l: Local)
    requires ReaderInv(o, l.heap.content, l.dir.reader, l.dir.readLost) && DirWell(l.dir) && ReaderFree(o, l.dir)
    ensures
      var l' := ReaderStep(o, l, ReaderGoesOn(o, l.dir));
      l'.Some? && Work(l'.value.dir) < Work(l.dir)
  {
  }

  /** A writer that waits has a chunk to take or a closed queue to see. */
  predicate WriterFree(d: Dir) {
    !d.writer.WriterDone? && (d.writer.Waiting? ==> d.queue != [] || d.closed)
  }

  lemma WriterWorks(o: Options, l: Local, lag: int)
    requires WriterInv(o, l.heap.content, l.dir.writer, l.dir.writeLost, lag) && DirWell(l.dir) && WriterFree(l.dir)
    ensures
      var l' := WriterStep(l, WriterGoesOn(l.dir));
      l'.Some? && Work(l'.value.dir) < Work(l.dir)
  {
  }

  lemma SomeoneWorks(o: Options, s: State, side: Side) returns (step: Step)
    requires DirInv(o, s.heap.content, s.At(side)) && DirWell(s.At(side)) && !s.At(side).returned
    ensures OfDirection(step, side) && !Fault(step) && KeepsContract(s, step) && Apply(o, s, step).Some?
    ensures Work(Apply(o, s, step).value.At(side)) < Work(s.At(side))
  {
    var d, l := s.At(side), LocalOf(s, side);
    if ReaderFree(o, d) {
      ReaderWorks(o, l);
      step := ReaderDoes(side, ReaderGoesOn(o, d));
    } else if WriterFree(d) {
      WriterWorks(o, l, |d.dest| - d.counted);
      step := WriterDoes(side, WriterGoesOn(d));
    } else {
      step := GroupReturns(side);
    }
  }

  lemma WorkGoesOn(o: Options, s: State, side: Side) returns (step: Step, s': State)
    requires Inv(o, s) && Well(s) && !s.At(side).returned
    ensures OfDirection(step, side) && !Fault(step) && KeepsContract(s, step) && Apply(o, s, step) == Some(s')
    ensures Inv(o, s') && Well(s') && Work(s'.At(side)) < Work(s.At(side))
  {
    step := SomeoneWorks(o, s, side);
    s' := Apply(o, s, step).value;
    StepKeepsInv(o, s, step, s');
    StepStaysWell(o, s, step, s');
  }

  lemma OneStepSooner(o: Options, s: State, side: Side, step: Step, s': State, n: nat)
    requires OfDirection(step, side) && !Fault(step) && KeepsContract(s, step) && Apply(o, s, step) == Some(s')
    requires FinishesWithin(o, s', side, n)
    ensures FinishesWithin(o, s, side, n + 1)
  {
  }

  lemma {:induction false} WorkEnds(o: Options, s: State, side: Side, n: nat)
    requires Inv(o, s) && Well(s) && Work(s.At(side)) <= n
    ensures FinishesWithin(o, s, side, n)
    decreases n
  {
    if !s.At(side).returned {
      var step, s' := WorkGoesOn(o, s, side);
      WorkEnds(o, s', side, n - 1);
      OneStepSooner(o, s, side, step, s', n - 1);
    }
  }

  lemma WorkBound(d: Dir)
    ensures Work(d) <= 7 * |d.queue| + 25
  {
  }

  /** As long as nothing has failed, either direction can still deliver everything it has read and return
      nil, in seven steps for each queued chunk and twenty-five more, all its own, whatever the other
      direction does and however small the queue is. */
  lemma FaultFreeFinishes(o: Options, steps: seq<Step>, states: seq<State>, i: nat, side: Side)
    requires IsRun(o, steps, states) && i < |states| && FaultFree(steps[..i])
    ensures FinishesWithin(o, states[i], side, 7 * |states[i].At(side).queue| + 25)
  {
    RunKeepsInv(o, steps, states, i);
    RunStaysWell(o, steps, states, i);
    WorkBound(states[i].At(side));
    WorkEnds(o, states[i], side, 7 * |states[i].At(side).queue| + 25);
  }

  // ---------------------------------------------------------------- the bound is reached

  /** A reader can run ahead of a writer that does not move: `k` full chunks queued, one with the writer. */
  ghost predicate Ahead(o: Options, s: State, k: nat) {
    && s.sent.reader == Getting && s.sent.writer.Looping? && |s.sent.queue| == k
    && |s.sent.source| == (k + 1) * o.bufferSize && s.sent.dest == []
  }

  lemma ReadsFull(o: Options, c: Caller, s: State) returns (s': State)
    requires o.bufferSize > 0 && At(o, c, s) && s.sent.reader == Getting
    ensures At(o, c, s') && s'.sent.reader.Measuring? && s'.sent.reader.end == More
    ensures
      var d := s.sent.(source := s'.sent.source, reader := s'.sent.reader);
      Turned(s, Sent, d, s') && |d.source| == |s.sent.source| + o.bufferSize
  {
    var b, data := |s.heap.content|, Blank(o.bufferSize);
    s' := GetsBuffer(o, c, s, Sent);
    s' := Reads(o, c, s', Sent, data, More, Measuring(Chunk(b, |data|), More));
  }

  lemma ReadsToSend(o: Options, c: Caller, s: State) returns (s': State)
    requires o.bufferSize > 0 && At(o, c, s) && s.sent.reader == Getting
    ensures At(o, c, s') && s'.sent.reader.Sending? && s'.sent.reader.end == More
    ensures
      var d := s.sent.(source := s'.sent.source, reader := s'.sent.reader);
      Turned(s, Sent, d, s') && |d.source| == |s.sent.source| + o.bufferSize
  {
    s' := ReadsFull(o, c, s);
    var chunk, depth := s'.sent.reader.chunk, |s'.sent.queue| + 1;
    s' := ReaderProceedsTo(o, c, s', Sent, s'.sent.(reader := Recording(chunk, More, depth)));
    s' := ReaderProceedsTo(o, c, s', Sent, s'.sent.(reader := Sending(chunk, More)));
  }

  lemma FirstChunk(o: Options, c: Caller) returns (s: State)
    requires o.bufferSize > 0
    ensures At(o, c, s) && Ahead(o, s, 0)
  {
    s := Start(o, c);
    s := ReadsToSend(o, c, s);
    var d := s.sent.(writer := Looping(s.sent.reader.chunk, 0), reader := Getting);
    s := ReaderGoes(o, c, s, Sent, HandOff, Local(s.heap, s.stats, d));
  }

  lemma OneMoreChunk(o: Options, c: Caller, s: State, k: nat) returns (s': State)
    requires o.bufferSize > 0 && At(o, c, s) && Ahead(o, s, k) && k < o.queueSize
    ensures At(o, c, s') && Ahead(o, s', k + 1)
  {
    s' := ReadsToSend(o, c, s);
    var d := s'.sent.(queue := s'.sent.queue + [s'.sent.reader.chunk], reader := Getting);
    s' := ReaderGoes(o, c, s', Sent, Enqueue, Local(s'.heap, s'.stats, d));
    assert (k + 2) * o.bufferSize == (k + 1) * o.bufferSize + o.bufferSize;
  }

  lemma {:induction false} RunsAhead(o: Options, c: Caller, k: nat) returns (s: State)
    requires o.bufferSize > 0 && k <= o.queueSize
    ensures At(o, c, s) && Ahead(o, s, k)
  {
    if k == 0 {
      s := FirstChunk(o, c);
    } else {
      s := RunsAhead(o, c, k - 1);
      s := OneMoreChunk(o, c, s, k - 1);
    }
  }

  /** The bound on the bytes in flight is exact: for every buffer and queue size some run without a
      timeout reaches it. */
  lemma BacklogReached(o: Options) returns (s: State)
    requires o.bufferSize > 0
    ensures At(o, Caller(false, false), s)
    ensures |s.sent.source| - |s.sent.dest| == (o.queueSize + 2) * o.bufferSize
  {
    var c := Caller(false, false);
    s := RunsAhead(o, c, o.queueSize);
    s := ReadsFull(o, c, s);
    assert (o.queueSize + 2) * o.bufferSize == (o.queueSize + 1) * o.bufferSize + o.bufferSize;
  }

  // ---------------------------------------------------------------- the first failure

  /** What has been decided stays so: a context's error, a direction's, the pair's. */
  predicate DirKeeps(d: Dir, d': Dir) {
    && (d.ended.Some? ==> d'.ended == d.ended)
    && (d.err != Clean ==> d'.err == d.err)
    && (d.returned ==> d'.returned && d'.err == d.err)
  }

  predicate Keeps(s: State, s': State) {
    && DirKeeps(s.sent, s'.sent) && DirKeeps(s.received, s'.received)
    && (s.ended.Some? ==> s'.ended == s.ended) && (s.err != Clean ==> s'.err == s.err)
  }

  /** An error has ended the context that it is reported to. */
  predicate ErrorsEnd(s: State) {
    && (s.sent.err != Clean ==> s.sent.ended.Some?) && (s.received.err != Clean ==> s.received.ended.Some?)
    && (s.err != Clean ==> s.ended.Some?)
  }

  lemma ReaderKeeps(o: Options, l: Local, a: ReaderAction, l': Local)
    requires Ends(l.dir) && ReaderStep(o, l, a) == Some(l') && (l.dir.err != Clean ==> l.dir.ended.Some?)
    ensures DirKeeps(l.dir, l'.dir) && (l'.dir.err != Clean ==> l'.dir.ended.Some?)
  {
  }

  lemma WriterKeeps(l: Local, a: WriterAction, l': Local)
    requires Ends(l.dir) && WriterStep(l, a) == Some(l') && (l.dir.err != Clean ==> l.dir.ended.Some?)
    ensures DirKeeps(l.dir, l'.dir) && (l'.dir.err != Clean ==> l'.dir.ended.Some?)
  {
  }

  lemma StepKeepsCauses(o: Options, s: State, step: Step, s': State)
    requires Ends(s.sent) && Ends(s.received) && ErrorsEnd(s) && Apply(o, s, step) == Some(s')
    ensures Keeps(s, s') && ErrorsEnd(s')
  {
    match step
    case ReaderDoes(x, a) => ReaderKeeps(o, LocalOf(s, x), a, ReaderStep(o, LocalOf(s, x), a).value);
    case WriterDoes(x, a) => WriterKeeps(LocalOf(s, x), a, WriterStep(LocalOf(s, x), a).value);
    case GroupReturns(x) => ReturnKeeps(s, x, s');
    case _ =>
  }

  lemma ReturnKeeps(s: State, x: Side, s': State)
    requires Ends(s.sent) && Ends(s.received) && ErrorsEnd(s) && ReturnStep(s, x) == Some(s')
    ensures Keeps(s, s') && ErrorsEnd(s')
  {
  }

  lemma KeepsOrders()
    ensures Preorder((s: State, s': State) => Keeps(s, s'))
  {
  }

  lemma CausesAt(o: Options, steps: seq<Step>, states: seq<State>, i: nat)
    requires IsRun(o, steps, states) && i < |steps| && ErrorsEnd(states[i])
    ensures Keeps(states[i], states[i + 1]) && ErrorsEnd(states[i + 1])
  {
    RunKeepsInv(o, steps, states, i);
    StepKeepsCauses(o, states[i], steps[i], states[i + 1]);
  }

  /** In every run an error that a goroutine or a direction reports has ended its group's context, so the
      rest of the group can see it. */
  lemma {:induction false} ErrorsCancel(o: Options, steps: seq<Step>, states: seq<State>, i: nat)
    requires IsRun(o, steps, states) && i < |states|
    ensures ErrorsEnd(states[i])
  {
    if i > 0 {
      ErrorsCancel(o, steps, states, i - 1);
      CausesAt(o, steps, states, i - 1);
    }
  }

  /** The first error of a context, of a direction and of the pair is the one that stays. */
  lemma FirstCauseStays(o: Options, steps: seq<Step>, states: seq<State>, i: nat, j: nat)
    requires IsRun(o, steps, states) && i <= j < |states|
    ensures Keeps(states[i], states[j])
  {
    var r := (s: State, s': State) => Keeps(s, s');
    KeepsOrders();
    forall k | 0 <= k < |states| - 1 ensures r(states[k], states[k + 1]) {
      ErrorsCancel(o, steps, states, k);
      CausesAt(o, steps, states, k);
    }
    Later(r, states, i, j);
  }
}
