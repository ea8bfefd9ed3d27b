/** Progress of the relay pipeline: no direction is ever stuck, and one whose context has ended can
    return within a fixed number of its own steps. */
module RelayProgress {
  import opened Common
  import opened Relay
  import opened RelayProofs

  predicate OfDirection(step: Step, side: Side) {
    match step
    case ReaderDoes(x, _) => x == side
    case WriterDoes(x, _) => x == side
    case GroupReturns(x) => x == side
    case _ => false
  }

  // ---------------------------------------------------------------- never stuck

  /** An action the reader can take. */
  function ReaderCan(o: Options, r: Reader): ReaderAction {
    match r
    case Getting => GetFresh(seq(o.bufferSize, _ => 0))
    case Reading(_) => ReadReturns([], Eof)
    case Sending(_, _) => EnqueueTimeout
    case _ => ReaderProceeds
  }

  /** An action the writer can take once the reader is done. */
  function WriterCan(w: Writer, queue: seq<Chunk>): WriterAction {
    match w
    case Waiting => if queue != [] then Dequeue else SeeClosed
    case Writing(_, _, _) => WriteReturns(None)
    case _ => WriterProceeds
  }

  lemma ReaderCanStep(o: Options, l: Local)
    requires ReaderInv(o, l.heap.content, l.dir.reader, l.dir.readLost) && !l.dir.reader.ReaderDone?
    ensures ReaderStep(o, l, ReaderCan(o, l.dir.reader)).Some?
  {
  }

  lemma WriterCanStep(o: Options, l: Local, lag: int)
    requires WriterInv(o, l.heap.content, l.dir.writer, l.dir.writeLost, lag) && !l.dir.writer.WriterDone?
    requires l.dir.closed
    ensures WriterStep(l, WriterCan(l.dir.writer, l.dir.queue)).Some?
  {
  }

  /** Until a direction returns, one of its own steps is enabled: neither goroutine can wait
      for the other forever. */
  lemma NeverDeadlocks(o: Options, steps: seq<Step>, states: seq<State>, i: nat, side: Side)
    requires IsRun(o, steps, states) && i < |states| && !states[i].At(side).returned
    ensures exists step :: OfDirection(step, side) && Apply(o, states[i], step).Some?
  {
    RunKeepsInv(o, steps, states, i);
    StepIsEnabled(o, states[i], side);
  }

  lemma StepIsEnabled(o: Options, s: State, side: Side)
    requires DirInv(o, s.heap.content, s.At(side)) && !s.At(side).returned
    ensures exists step :: OfDirection(step, side) && Apply(o, s, step).Some?
  {
    var d, l := s.At(side), LocalOf(s, side);
    var step;
    if !d.reader.ReaderDone? {
      ReaderCanStep(o, l);
      step := ReaderDoes(side, ReaderCan(o, d.reader));
    } else if !d.writer.WriterDone? {
      WriterCanStep(o, l, |d.dest| - d.counted);
      step := WriterDoes(side, WriterCan(d.writer, d.queue));
    } else {
      step := GroupReturns(side);
    }
    assert OfDirection(step, side) && Apply(o, s, step).Some?;
  }

  /** A source read can return any bytes that fit its buffer, with any end. */
  lemma AnyRead(o: Options, steps: seq<Step>, states: seq<State>, i: nat, side: Side, data: seq<Byte>, end: ReadEnd)
    requires IsRun(o, steps, states) && i < |states| && states[i].At(side).reader.Reading?
    ensures Apply(o, states[i], ReaderDoes(side, ReadReturns(data, end))).Some? <==> |data| <= o.bufferSize
  {
    RunKeepsInv(o, steps, states, i);
  }

  /** A destination can take any part of what is offered, and a write can end at any time with any error; the
      reader's wait for room in the queue can time out at any time. */
  lemma AnyFault(o: Options, s: State, side: Side, k: nat, err: Option<IoError>)
    ensures s.At(side).writer.Writing? ==>
              var w := s.At(side).writer;
              && Apply(o, s, WriterDoes(side, WriteReturns(err))).Some?
              && (Apply(o, s, WriterDoes(side, Deliver(k))).Some? <==> w.written + w.sent + k <= w.chunk.n)
    ensures s.At(side).reader.Sending? ==> Apply(o, s, ReaderDoes(side, EnqueueTimeout)).Some?
  {
  }

  /** The two ends of the queue wait for just what they should: room, a waiting writer, a chunk, the closed
      queue, or the end of the context. */
  lemma QueueWaits(o: Options, s: State, side: Side)
    ensures
      var d := s.At(side);
      && (d.reader.Sending? ==>
            && (Apply(o, s, ReaderDoes(side, Enqueue)).Some? <==> |d.queue| < o.queueSize)
            && (Apply(o, s, ReaderDoes(side, HandOff)).Some? <==> d.queue == [] && d.writer.Waiting?)
            && (Apply(o, s, ReaderDoes(side, SeeCancel)).Some? <==> d.ended.Some?))
      && (d.writer.Waiting? ==>
            && (Apply(o, s, WriterDoes(side, Dequeue)).Some? <==> d.queue != [])
            && (Apply(o, s, WriterDoes(side, SeeClosed)).Some? <==> d.queue == [] && d.closed)
            && (Apply(o, s, WriterDoes(side, StopOnCancel)).Some? <==> d.ended.Some?))
  {
  }

  // ---------------------------------------------------------------- a cancelled direction returns

  /** The io.Writer contract: a write that returns no error has taken everything it was offered. */
  predicate KeepsContract(s: State, step: Step) {
    match step
    case WriterDoes(side, WriteReturns(None)) =>
      var w := s.At(side).writer;
      w.Writing? ==> w.written + w.sent == w.chunk.n
    case _ => true
  }

  /** The direction can return by at most `n` steps of its own, all of which keep the contract. */
  ghost predicate ReturnsWithin(o: Options, s: State, side: Side, n: nat)
    decreases n
  {
    || s.At(side).returned
    || (n > 0 && exists step ::
          && OfDirection(step, side) && KeepsContract(s, step) && Apply(o, s, step).Some?
          && ReturnsWithin(o, Apply(o, s, step).value, side, n - 1))
  }

  function EndRank(end: ReadEnd): nat { if end.More? then 6 else 3 }

  function ReaderRank(r: Reader): nat {
    match r
    case Measuring(_, _) => 6
    case Recording(_, _, _) => 5
    case Getting => 5
    case Sending(_, _) => 4
    case Reading(_) => 4
    case Releasing(_, after) =>
      (match after
       case EmptyRead(end) => EndRank(end)
       case OnCancel(_) => 3
       case OnTimeout => 5)
    case CountingDrop => 4
    case CountingTimeout => 3
    case ClosingQueue(_) => 2
    case ReaderReporting(_) => 1
    case ReaderDone(_) => 0
  }

  function WriterRank(w: Writer): nat {
    match w
    case Looping(c, written) => if written < c.n then 9 else 6
    case Writing(c, written, sent) => if written + sent < c.n then 8 else 7
    case Freeing(_, _) => 5
    case CountingBytes(_) => 4
    case CountingWriteTimeout => 3
    case Waiting => 3
    case ClosingDst(_) => 2
    case WriterReporting(_) => 1
    case WriterDone(_) => 0
  }

  /** How far a cancelled direction is from returning. */
  function Rank(d: Dir): nat {
    ReaderRank(d.reader) + WriterRank(d.writer) + if d.returned then 0 else 1
  }

  function ReaderQuits(o: Options, r: Reader): ReaderAction {
    if r.Sending? then SeeCancel else ReaderCan(o, r)
  }

  function WriterQuits(w: Writer): WriterAction {
    match w
    case Waiting => StopOnCancel
    case Writing(c, written, sent) =>
      if written + sent < c.n then Deliver(c.n - written - sent) else WriteReturns(None)
    case _ => WriterProceeds
  }

  lemma ReaderGetsCloser(o: Options, l: Local)
    requires ReaderInv(o, l.heap.content, l.dir.reader, l.dir.readLost)
    requires l.dir.ended.Some? && !l.dir.reader.ReaderDone?
    ensures
      var l' := ReaderStep(o, l, ReaderQuits(o, l.dir.reader));
      && l'.Some? && ReaderRank(l'.value.dir.reader) < ReaderRank(l.dir.reader)
      && l'.value.dir.writer == l.dir.writer && l'.value.dir.returned == l.dir.returned && l'.value.dir.ended.Some?
  {
  }

  lemma WriterGetsCloser(o: Options, l: Local, lag: int)
    requires WriterInv(o, l.heap.content, l.dir.writer, l.dir.writeLost, lag)
    requires l.dir.ended.Some? && !l.dir.writer.WriterDone?
    ensures
      var l' := WriterStep(l, WriterQuits(l.dir.writer));
      && l'.Some? && WriterRank(l'.value.dir.writer) < WriterRank(l.dir.writer)
      && l'.value.dir.reader == l.dir.reader && l'.value.dir.returned == l.dir.returned && l'.value.dir.ended.Some?
  {
  }

  lemma GetsCloser(o: Options, s: State, side: Side) returns (step: Step)
    requires DirInv(o, s.heap.content, s.At(side)) && s.At(side).ended.Some? && !s.At(side).returned
    ensures OfDirection(step, side) && KeepsContract(s, step) && Apply(o, s, step).Some?
    ensures
      var d' := Apply(o, s, step).value.At(side);
      Rank(d') < Rank(s.At(side)) && d'.ended.Some?
  {
    var d, l := s.At(side), LocalOf(s, side);
    if !d.reader.ReaderDone? {
      ReaderGetsCloser(o, l);
      step := ReaderDoes(side, ReaderQuits(o, d.reader));
    } else if !d.writer.WriterDone? {
      WriterGetsCloser(o, l, |d.dest| - d.counted);
      step := WriterDoes(side, WriterQuits(d.writer));
    } else {
      step := GroupReturns(side);
    }
  }

  lemma CloserKeepsInv(o: Options, s: State, side: Side) returns (step: Step, s': State)
    requires Inv(o, s) && s.At(side).ended.Some? && !s.At(side).returned
    ensures OfDirection(step, side) && KeepsContract(s, step) && Apply(o, s, step) == Some(s')
    ensures Inv(o, s') && Rank(s'.At(side)) < Rank(s.At(side)) && s'.At(side).ended.Some?
  {
    step := GetsCloser(o, s, side);
    s' := Apply(o, s, step).value;
    StepKeepsInv(o, s, step, s');
  }

  lemma OneStepMore(o: Options, s: State, side: Side, step: Step, s': State, n: nat)
    requires OfDirection(step, side) && KeepsContract(s, step) && Apply(o, s, step) == Some(s')
    requires ReturnsWithin(o, s', side, n)
    ensures ReturnsWithin(o, s, side, n + 1)
  {
  }

  lemma {:induction false} RankBounds(o: Options, s: State, side: Side, n: nat)
    requires Inv(o, s) && s.At(side).ended.Some? && Rank(s.At(side)) <= n
    ensures ReturnsWithin(o, s, side, n)
    decreases n
  {
    if !s.At(side).returned {
      var step, s' := CloserKeepsInv(o, s, side);
      RankBounds(o, s', side, n - 1);
      OneStepMore(o, s, side, step, s', n - 1);
    }
  }

  /** Once its context has ended, a direction can return within sixteen steps of its own, whatever
      the queue holds and whatever the other direction does. */
  lemma CancelledReturns(o: Options, steps: seq<Step>, states: seq<State>, i: nat, side: Side)
    requires IsRun(o, steps, states) && i < |states| && states[i].At(side).ended.Some?
    ensures ReturnsWithin(o, states[i], side, 16)
  {
    RunKeepsInv(o, steps, states, i);
    RankBounds(o, states[i], side, 16);
  }

  /** The parent can end at any moment and with any error. The pair's context then has that error, unless it
      had ended before, and a direction that hears of it can return within sixteen steps of its own. */
  lemma ParentStops(o: Options, steps: seq<Step>, states: seq<State>, i: nat, e: IoError, side: Side)
    returns (s: State, s': State)
    requires IsRun(o, steps, states) && i < |states|
    ensures Apply(o, states[i], CancelParent(e)) == Some(s)
    ensures s.ended == if states[i].ended.Some? then states[i].ended else Some(e)
    ensures if s.At(side).ended.Some? then s' == s else Apply(o, s, HearCancel(side)) == Some(s')
    ensures s'.At(side).ended == if s.At(side).ended.Some? then s.At(side).ended else s.ended
    ensures ReturnsWithin(o, s', side, 16)
  {
    RunKeepsInv(o, steps, states, i);
    s := Apply(o, states[i], CancelParent(e)).value;
    StepKeepsInv(o, states[i], CancelParent(e), s);
    if s.At(side).ended.Some? {
      s' := s;
    } else {
      s' := Apply(o, s, HearCancel(side)).value;
      StepKeepsInv(o, s, HearCancel(side), s');
    }
    RankAtMost(s'.At(side));
    RankBounds(o, s', side, 16);
  }

  lemma RankAtMost(d: Dir)
    ensures Rank(d) <= 16
  {
  }
}
