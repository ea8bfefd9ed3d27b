/** What becomes of each chunk, and so what the byte counters and the figures say, read off the steps. */
module RelayCounting {
  import opened Common
  import opened Runs
  import opened Relay
  import opened RelayProofs

  // ---------------------------------------------------------------- read off the steps

  /** The sizes of the chunks read in a direction: of its source reads that returned bytes, in order. */
  function Sizes(steps: seq<Step>, side: Side): seq<nat> {
    if steps == [] then []
    else
      var n := |steps| - 1;
      Sizes(steps[..n], side) + if IsRead(steps[n], side) && steps[n].ra.data != [] then [|steps[n].ra.data|] else []
  }

  /** The writer gets a chunk, out of the queue or straight from the reader. */
  predicate Takes(step: Step, side: Side) {
    || (step.WriterDoes? && step.side == side && step.wa.Dequeue?)
    || (step.ReaderDoes? && step.side == side && step.ra.HandOff?)
  }

  /** The reader gives its chunk up. */
  predicate GivesUp(step: Step, side: Side) {
    step.ReaderDoes? && step.side == side && (step.ra.SeeCancel? || step.ra.EnqueueTimeout?)
  }

  predicate WriteFails(step: Step, side: Side) {
    step.WriterDoes? && step.side == side && step.wa.WriteReturns? && step.wa.err.Some?
  }

  predicate Stops(step: Step, side: Side) { step.WriterDoes? && step.side == side && step.wa.StopOnCancel? }

  function Number(steps: seq<Step>, p: Step -> bool): nat {
    if steps == [] then 0 else Number(steps[..|steps| - 1], p) + if p(steps[|steps| - 1]) then 1 else 0
  }

  function Taken(steps: seq<Step>, side: Side): nat { Number(steps, step => Takes(step, side)) }

  function GivenUp(steps: seq<Step>, side: Side): nat { Number(steps, step => GivesUp(step, side)) }

  function FailedWrites(steps: seq<Step>, side: Side): nat { Number(steps, step => WriteFails(step, side)) }

  function Sum(sizes: seq<nat>): nat {
    if sizes == [] then 0 else Sum(sizes[..|sizes| - 1]) + sizes[|sizes| - 1]
  }

  lemma NumberMore(steps: seq<Step>, step: Step, p: Step -> bool)
    ensures Number(steps + [step], p) == Number(steps, p) + if p(step) then 1 else 0
  {
    assert (steps + [step])[..|steps|] == steps;
  }

  lemma SizesMore(steps: seq<Step>, step: Step, side: Side)
    ensures Sizes(steps + [step], side)
            == Sizes(steps, side) + if IsRead(step, side) && step.ra.data != [] then [|step.ra.data|] else []
  {
    assert (steps + [step])[..|steps|] == steps;
  }

  lemma SumMore(sizes: seq<nat>, k: nat)
    requires k < |sizes|
    ensures Sum(sizes[..k + 1]) == Sum(sizes[..k]) + sizes[k]
  {
    assert sizes[..k + 1][..k] == sizes[..k];
  }

  // ---------------------------------------------------------------- where the chunks are

  /** The reader has a chunk that is not yet in the queue. */
  predicate ReaderHasChunk(r: Reader) { r.Measuring? || r.Recording? || r.Sending? }

  function ReaderChunk(r: Reader): Chunk
    requires ReaderHasChunk(r)
  {
    match r
    case Measuring(c, _) => c
    case Recording(c, _, _) => c
    case Sending(c, _) => c
  }

  /** The reader is past reading: it will neither read nor queue again. */
  predicate ReaderLeaving(r: Reader) {
    match r
    case Releasing(_, after) => !after.EmptyRead?
    case CountingDrop => true
    case CountingTimeout => true
    case ClosingQueue(_) => true
    case ReaderReporting(_) => true
    case ReaderDone(_) => true
    case _ => false
  }

  /** The writer has a chunk whose writing has not failed and whose bytes are not yet counted. */
  predicate WriterHasChunk(w: Writer) {
    w.Looping? || w.Writing? || (w.Freeing? && w.err.None?) || w.CountingBytes?
  }

  function WriterChunkSize(w: Writer): nat
    requires WriterHasChunk(w)
  {
    match w
    case Looping(c, _) => c.n
    case Writing(c, _, _) => c.n
    case Freeing(c, _) => c.n
    case CountingBytes(n) => n
  }

  /** The writer will take no other chunk. */
  predicate WriterLeaving(w: Writer) {
    (w.Freeing? && w.err.Some?) || w.CountingWriteTimeout? || w.ClosingDst? || w.WriterReporting? || w.WriterDone?
  }

  /** The chunks of a direction by size, in order of reading; how many the writer took, and how many the
      reader gave up; how many writes failed. */
  datatype Books = Books(sizes: seq<nat>, taken: nat, givenUp: nat, failed: nat)

  function One(b: bool): nat { if b then 1 else 0 }

  /** The chunks are those taken by the writer, those queued, and the reader's own or the one it gave up. */
  ghost predicate QueuePlaced(reader: Reader, queue: seq<Chunk>, b: Books) {
    && |b.sizes| == b.taken + |queue| + One(ReaderHasChunk(reader)) + b.givenUp
    && (forall i :: 0 <= i < |queue| ==> queue[i].n == b.sizes[b.taken + i])
    && (ReaderHasChunk(reader) ==> b.givenUp == 0 && ReaderChunk(reader).n == b.sizes[|b.sizes| - 1])
    && b.givenUp <= 1 && (b.givenUp == 1 ==> ReaderLeaving(reader))
  }

  /** The writer has counted all it took, but for the last if it still has it or its writing failed. */
  ghost predicate Counted(writer: Writer, counted: nat, b: Books) {
    && b.taken <= |b.sizes| && b.failed <= 1
    && (b.failed == 1 ==> b.taken > 0 && WriterLeaving(writer))
    && (WriterHasChunk(writer) ==> b.taken > 0 && b.failed == 0 && WriterChunkSize(writer) == b.sizes[b.taken - 1])
    && counted == Sum(b.sizes[..b.taken - b.failed - One(WriterHasChunk(writer))])
  }

  ghost predicate Placed(d: Dir, b: Books) {
    QueuePlaced(d.reader, d.queue, b) && Counted(d.writer, d.counted, b)
  }

  // ---------------------------------------------------------------- the reader

  function AfterReader(b: Books, a: ReaderAction): Books {
    Books(b.sizes + (if a.ReadReturns? && a.data != [] then [|a.data|] else []), b.taken + One(a.HandOff?),
          b.givenUp + One(a.SeeCancel? || a.EnqueueTimeout?), b.failed)
  }

  /** Whatever is read later does not change what was counted. */
  lemma CountedStays(writer: Writer, counted: nat, b: Books, b': Books)
    requires Counted(writer, counted, b) && b.sizes <= b'.sizes && b'.taken == b.taken && b'.failed == b.failed
    ensures Counted(writer, counted, b')
  {
    var k := b.taken - b.failed - One(WriterHasChunk(writer));
    assert b'.sizes[..k] == b.sizes[..k];
  }

  lemma ReadingPlaced(l: Local, buf: BufId, a: ReaderAction, l': Local, b: Books)
    requires l.dir.reader == Reading(buf) && ReadingStep(l, buf, a) == Some(l') && Placed(l.dir, b)
    ensures Placed(l'.dir, AfterReader(b, a))
  {
    CountedStays(l.dir.writer, l.dir.counted, b, AfterReader(b, a));
  }

  lemma HandOffPlaced(o: Options, l: Local, c: Chunk, end: ReadEnd, l': Local, b: Books)
    requires l.dir.reader == Sending(c, end) && SendingStep(o, l, c, end, HandOff) == Some(l') && Placed(l.dir, b)
    ensures Placed(l'.dir, AfterReader(b, HandOff))
  {
    assert b.sizes + [] == b.sizes;
  }

  lemma SendingPlaced(o: Options, l: Local, c: Chunk, end: ReadEnd, a: ReaderAction, l': Local, b: Books)
    requires l.dir.reader == Sending(c, end) && SendingStep(o, l, c, end, a) == Some(l') && Placed(l.dir, b)
    ensures Placed(l'.dir, AfterReader(b, a))
  {
    if a.HandOff? {
      HandOffPlaced(o, l, c, end, l', b);
    } else {
      assert b.sizes + [] == b.sizes;
      CountedStays(l.dir.writer, l.dir.counted, b, AfterReader(b, a));
    }
  }

  lemma ReaderProceedPlaced(l: Local, l': Local, b: Books)
    requires ReaderProceed(l) == Some(l') && QueuePlaced(l.dir.reader, l.dir.queue, b)
    ensures QueuePlaced(l'.dir.reader, l'.dir.queue, b)
    ensures l'.dir.writer == l.dir.writer && l'.dir.counted == l.dir.counted
  {
  }

  lemma ReaderPlaced(o: Options, l: Local, a: ReaderAction, l': Local, b: Books)
    requires ReaderStep(o, l, a) == Some(l') && Placed(l.dir, b)
    ensures Placed(l'.dir, AfterReader(b, a))
  {
    assert b.sizes + [] == b.sizes;
    match l.dir.reader
    case Getting => assert AfterReader(b, a) == b;
    case Reading(buf) => ReadingPlaced(l, buf, a, l', b);
    case Sending(c, end) => SendingPlaced(o, l, c, end, a, l', b);
    case _ =>
      ReaderProceedPlaced(l, l', b);
      assert AfterReader(b, a) == b;
  }

  // ---------------------------------------------------------------- the writer

  function AfterWriter(b: Books, a: WriterAction): Books {
    b.(taken := b.taken + One(a.Dequeue?), failed := b.failed + One(a.WriteReturns? && a.err.Some?))
  }

  lemma WaitingPlaced(l: Local, a: WriterAction, l': Local, b: Books)
    requires l.dir.writer.Waiting? && WaitingStep(l, a) == Some(l') && Placed(l.dir, b)
    ensures Placed(l'.dir, AfterWriter(b, a))
  {
  }

  lemma WritingPlaced(l: Local, a: WriterAction, l': Local, b: Books)
    requires l.dir.writer.Writing? && WriterStep(l, a) == Some(l') && Placed(l.dir, b)
    ensures Placed(l'.dir, AfterWriter(b, a))
  {
  }

  lemma CountingPlaced(l: Local, l': Local, b: Books)
    requires WriterProceed(l) == Some(l') && l.dir.writer.CountingBytes? && Counted(l.dir.writer, l.dir.counted, b)
    ensures Counted(l'.dir.writer, l'.dir.counted, b)
  {
    SumMore(b.sizes, b.taken - 1);
  }

  lemma WriterProceedPlaced(l: Local, l': Local, b: Books)
    requires WriterProceed(l) == Some(l') && Counted(l.dir.writer, l.dir.counted, b)
    ensures Counted(l'.dir.writer, l'.dir.counted, b)
    ensures l'.dir.reader == l.dir.reader && l'.dir.queue == l.dir.queue
  {
    if l.dir.writer.CountingBytes? { CountingPlaced(l, l', b); }
  }

  lemma WriterPlaced(l: Local, a: WriterAction, l': Local, b: Books)
    requires WriterStep(l, a) == Some(l') && Placed(l.dir, b)
    ensures Placed(l'.dir, AfterWriter(b, a))
  {
    match l.dir.writer
    case Waiting => WaitingPlaced(l, a, l', b);
    case Writing(_, _, _) => WritingPlaced(l, a, l', b);
    case _ =>
      WriterProceedPlaced(l, l', b);
      assert AfterWriter(b, a) == b;
  }

  // ---------------------------------------------------------------- whole runs

  /** The books of a direction, read off the steps. */
  function BooksOf(steps: seq<Step>, side: Side): Books {
    Books(Sizes(steps, side), Taken(steps, side), GivenUp(steps, side), FailedWrites(steps, side))
  }

  function AfterStep(b: Books, step: Step, side: Side): Books {
    Books(b.sizes + (if IsRead(step, side) && step.ra.data != [] then [|step.ra.data|] else []),
          b.taken + One(Takes(step, side)), b.givenUp + One(GivesUp(step, side)),
          b.failed + One(WriteFails(step, side)))
  }

  lemma BooksGrow(steps: seq<Step>, step: Step, side: Side)
    ensures BooksOf(steps + [step], side) == AfterStep(BooksOf(steps, side), step, side)
  {
    SizesMore(steps, step, side);
    NumberMore(steps, step, x => Takes(x, side));
    NumberMore(steps, step, x => GivesUp(x, side));
    NumberMore(steps, step, x => WriteFails(x, side));
  }

  predicate OfSide(step: Step, side: Side) { (step.ReaderDoes? || step.WriterDoes?) && step.side == side }

  lemma OthersLeave(o: Options, s: State, step: Step, s': State, side: Side)
    requires Apply(o, s, step) == Some(s') && !OfSide(step, side)
    ensures
      var d, d' := s.At(side), s'.At(side);
      && d'.reader == d.reader && d'.writer == d.writer && d'.queue == d.queue && d'.counted == d.counted
      && d'.closed == d.closed && d'.dest == d.dest
  {
  }

  lemma ReaderAct(o: Options, s: State, step: Step, s': State)
    requires Apply(o, s, step) == Some(s') && step.ReaderDoes?
    ensures ReaderStep(o, LocalOf(s, step.side), step.ra).Some?
    ensures
      var l' := ReaderStep(o, LocalOf(s, step.side), step.ra).value;
      s'.At(step.side) == l'.dir && s'.stats == l'.stats && s'.At(Other(step.side)) == s.At(Other(step.side))
  {
  }

  lemma WriterAct(o: Options, s: State, step: Step, s': State)
    requires Apply(o, s, step) == Some(s') && step.WriterDoes?
    ensures WriterStep(LocalOf(s, step.side), step.wa).Some?
    ensures
      var l' := WriterStep(LocalOf(s, step.side), step.wa).value;
      s'.At(step.side) == l'.dir && s'.stats == l'.stats && s'.At(Other(step.side)) == s.At(Other(step.side))
  {
  }

  lemma BooksOfStep(b: Books, step: Step, side: Side)
    ensures OfSide(step, side) && step.ReaderDoes? ==> AfterStep(b, step, side) == AfterReader(b, step.ra)
    ensures OfSide(step, side) && step.WriterDoes? ==> AfterStep(b, step, side) == AfterWriter(b, step.wa)
    ensures !OfSide(step, side) ==> AfterStep(b, step, side) == b
  {
    assert b.sizes + [] == b.sizes;
  }

  lemma StepPlaced(o: Options, s: State, step: Step, s': State, side: Side, b: Books)
    requires Apply(o, s, step) == Some(s') && Placed(s.At(side), b)
    ensures Placed(s'.At(side), AfterStep(b, step, side))
  {
    BooksOfStep(b, step, side);
    var l := LocalOf(s, side);
    if !OfSide(step, side) {
      OthersLeave(o, s, step, s', side);
    } else if step.ReaderDoes? {
      ReaderAct(o, s, step, s');
      ReaderPlaced(o, l, step.ra, ReaderStep(o, l, step.ra).value, b);
    } else {
      WriterAct(o, s, step, s');
      WriterPlaced(l, step.wa, WriterStep(l, step.wa).value, b);
    }
  }

  lemma RunPlaced(o: Options, steps: seq<Step>, states: seq<State>, i: nat, side: Side)
    requires IsRun(o, steps, states) && i < |states|
    ensures Placed(states[i].At(side), BooksOf(steps[..i], side))
  {
    var f := (s: State, step: Step) => Apply(o, s, step);
    var p := (s: State, q: seq<Step>) => Placed(s.At(side), BooksOf(q, side));
    forall s, q, step | p(s, q) && f(s, step).Some? ensures p(f(s, step).value, q + [step]) {
      StepPlaced(o, s, step, f(s, step).value, side, BooksOf(q, side));
      BooksGrow(q, step, side);
    }
    assert Placed(states[0].At(side), BooksOf([], side));
    Along(f, p, steps, states, i);
  }

  // ---------------------------------------------------------------- the byte counter

  /** In every run a direction's counter is the sum of the sizes of the chunks its writer took, in the
      order in which they were read, without the one it still has or the one whose write failed; so it never
      runs ahead of what was delivered, and lags by at most one chunk. */
  lemma CounterIsExact(o: Options, steps: seq<Step>, states: seq<State>, i: nat, side: Side)
    requires IsRun(o, steps, states) && i < |states|
    ensures
      var d, sizes := states[i].At(side), Sizes(steps[..i], side);
      var out := FailedWrites(steps[..i], side) + One(WriterHasChunk(d.writer));
      && out <= Taken(steps[..i], side) <= |sizes| && out <= 1
      && d.counted == Sum(sizes[..Taken(steps[..i], side) - out])
      && d.counted <= |d.dest| <= d.counted + o.bufferSize
  {
    RunPlaced(o, steps, states, i, side);
    CounterLagsOneChunk(o, steps, states, i, side);
  }

  /** A writer on its way out counts nothing more. */
  predicate CountsNoMore(d: Dir, d': Dir) {
    WriterLeaving(d.writer) ==> WriterLeaving(d'.writer) && d'.counted == d.counted
  }

  lemma WriterCountsNoMore(l: Local, a: WriterAction, l': Local)
    requires WriterStep(l, a) == Some(l')
    ensures CountsNoMore(l.dir, l'.dir)
    ensures a.WriteReturns? && a.err.Some? ==> WriterLeaving(l'.dir.writer) && l'.dir.counted == l.dir.counted
  {
  }

  lemma ReaderCountsNoMore(o: Options, l: Local, a: ReaderAction, l': Local)
    requires ReaderStep(o, l, a) == Some(l')
    ensures CountsNoMore(l.dir, l'.dir)
  {
    if !l.dir.reader.Getting? && !l.dir.reader.Reading? && !l.dir.reader.Sending? { ReaderProceedCounts(l, l'); }
  }

  lemma ReaderProceedCounts(l: Local, l': Local)
    requires ReaderProceed(l) == Some(l')
    ensures l'.dir.writer == l.dir.writer && l'.dir.counted == l.dir.counted
  {
  }

  lemma StepCountsNoMore(o: Options, s: State, step: Step, s': State, side: Side)
    requires Apply(o, s, step) == Some(s')
    ensures CountsNoMore(s.At(side), s'.At(side))
    ensures WriteFails(step, side) ==>
              WriterLeaving(s'.At(side).writer) && s'.At(side).counted == s.At(side).counted
  {
    var l := LocalOf(s, side);
    if !OfSide(step, side) {
      OthersLeave(o, s, step, s', side);
    } else if step.ReaderDoes? {
      ReaderAct(o, s, step, s');
      ReaderCountsNoMore(o, l, step.ra, ReaderStep(o, l, step.ra).value);
    } else {
      WriterAct(o, s, step, s');
      WriterCountsNoMore(l, step.wa, WriterStep(l, step.wa).value);
    }
  }

  /** From a write that fails on, the counter of its direction does not change. */
  lemma FailureStopsCounter(o: Options, steps: seq<Step>, states: seq<State>, j: nat, i: nat, side: Side)
    requires IsRun(o, steps, states) && j < i < |states| && WriteFails(steps[j], side)
    ensures states[i].At(side).counted == states[j].At(side).counted
  {
    forall k | 0 <= k < |states| - 1 ensures CountsNoMore(states[k].At(side), states[k + 1].At(side)) {
      StepCountsNoMore(o, states[k], steps[k], states[k + 1], side);
    }
    StepCountsNoMore(o, states[j], steps[j], states[j + 1], side);
    var r := (s: State, s': State) => CountsNoMore(s.At(side), s'.At(side));
    Later(r, states, j + 1, i);
  }

  // ---------------------------------------------------------------- what can be lost

  /** A writer that ends, or is about to end, with an error. */
  predicate WriterEndsBadly(w: Writer) {
    match w
    case Freeing(_, err) => err.Some?
    case CountingWriteTimeout => true
    case ClosingDst(out) => out != Clean
    case WriterReporting(out) => out != Clean
    case WriterDone(out) => out != Clean
    case _ => false
  }

  lemma WriterTurns(l: Local, a: WriterAction, l': Local)
    requires WriterStep(l, a) == Some(l') && WriterEndsBadly(l'.dir.writer)
    ensures WriterEndsBadly(l.dir.writer) || (a.WriteReturns? && a.err.Some?) || a.StopOnCancel?
  {
  }

  lemma ReaderLeavesWriter(o: Options, l: Local, a: ReaderAction, l': Local)
    requires ReaderStep(o, l, a) == Some(l') && WriterEndsBadly(l'.dir.writer)
    ensures WriterEndsBadly(l.dir.writer)
  {
    if !l.dir.reader.Getting? && !l.dir.reader.Reading? && !l.dir.reader.Sending? { ReaderProceedCounts(l, l'); }
  }

  lemma StepTurns(o: Options, s: State, step: Step, s': State, side: Side)
    requires Apply(o, s, step) == Some(s') && WriterEndsBadly(s'.At(side).writer)
    ensures WriterEndsBadly(s.At(side).writer) || WriteFails(step, side) || Stops(step, side)
  {
    var l := LocalOf(s, side);
    if !OfSide(step, side) {
      OthersLeave(o, s, step, s', side);
    } else if step.ReaderDoes? {
      ReaderAct(o, s, step, s');
      ReaderLeavesWriter(o, l, step.ra, ReaderStep(o, l, step.ra).value);
    } else {
      WriterAct(o, s, step, s');
      WriterTurns(l, step.wa, WriterStep(l, step.wa).value);
    }
  }

  lemma BadEndHasCause(o: Options, steps: seq<Step>, states: seq<State>, i: nat, side: Side)
    requires IsRun(o, steps, states) && i < |states| && WriterEndsBadly(states[i].At(side).writer)
    ensures Number(steps[..i], x => WriteFails(x, side) || Stops(x, side)) > 0
  {
    var f, c := (s: State, step: Step) => Apply(o, s, step), (x: Step) => WriteFails(x, side) || Stops(x, side);
    var p := (s: State, q: seq<Step>) => WriterEndsBadly(s.At(side).writer) ==> Number(q, c) > 0;
    forall s, q, step | p(s, q) && f(s, step).Some? ensures p(f(s, step).value, q + [step]) {
      NumberMore(q, step, c);
      if WriterEndsBadly(f(s, step).value.At(side).writer) { StepTurns(o, s, step, f(s, step).value, side); }
    }
    assert states[0].At(side).writer == Waiting;
    Along(f, p, steps, states, i);
  }

  lemma {:induction false} NoneOf(steps: seq<Step>, p: Step -> bool)
    requires forall k :: 0 <= k < |steps| ==> !p(steps[k])
    ensures Number(steps, p) == 0
  {
    if steps != [] { NoneOf(steps[..|steps| - 1], p); }
  }

  lemma {:induction false} SizesAddUp(steps: seq<Step>, side: Side)
    ensures Sum(Sizes(steps, side)) == |BytesRead(steps, side)|
  {
    if steps != [] {
      var n := |steps| - 1;
      SizesAddUp(steps[..n], side);
      var sizes := Sizes(steps[..n], side);
      if IsRead(steps[n], side) && steps[n].ra.data != [] {
        var more := sizes + [|steps[n].ra.data|];
        assert more[..|sizes|] == sizes;
      } else {
        assert sizes + [] == sizes;
      }
    }
  }

  /** A step by which a direction can lose bytes it has read. */
  predicate Loses(step: Step, side: Side) { GivesUp(step, side) || WriteFails(step, side) || Stops(step, side) }

  lemma DrainsIfNotStopped(o: Options, steps: seq<Step>, states: seq<State>, i: nat, side: Side)
    requires IsRun(o, steps, states) && i < |states| && states[i].At(side).returned
    requires forall k :: 0 <= k < i ==> !WriteFails(steps[k], side) && !Stops(steps[k], side)
    ensures
      var d := states[i].At(side);
      d.reader.ReaderDone? && d.writer.WriterDone? && d.queue == []
  {
    RunKeepsInv(o, steps, states, i);
    NoneOf(steps[..i], x => WriteFails(x, side) || Stops(x, side));
    if states[i].At(side).writer.out != Clean { BadEndHasCause(o, steps, states, i, side); }
  }

  lemma AllCounted(d: Dir, b: Books)
    requires Placed(d, b) && d.reader.ReaderDone? && d.writer.WriterDone? && d.queue == []
    requires b.givenUp == 0 && b.failed == 0
    ensures d.counted == Sum(b.sizes)
  {
    assert b.sizes[..|b.sizes|] == b.sizes;
  }

  /** Only a chunk given up, a failed write or a writer stopped by its context loses bytes: a direction that
      returns without any of these delivered and counted everything its reads returned, also when the last
      read failed. */
  lemma OnlyFaultsLose(o: Options, steps: seq<Step>, states: seq<State>, i: nat, side: Side)
    requires IsRun(o, steps, states) && i < |states| && states[i].At(side).returned
    requires forall k :: 0 <= k < i ==> !Loses(steps[k], side)
    ensures states[i].At(side).dest == BytesRead(steps[..i], side)
    ensures states[i].At(side).counted == |BytesRead(steps[..i], side)|
  {
    var done := steps[..i];
    DrainsIfNotStopped(o, steps, states, i, side);
    NoneOf(done, x => GivesUp(x, side));
    NoneOf(done, x => WriteFails(x, side));
    RunPlaced(o, steps, states, i, side);
    AllCounted(states[i].At(side), BooksOf(done, side));
    SizesAddUp(done, side);
    SourceIsRead(o, steps, states, i, side);
    DeliveredIsPrefix(o, steps, states, i, side);
    CounterLagsOneChunk(o, steps, states, i, side);
  }

  // ---------------------------------------------------------------- figures and deliveries

  predicate TimesOut(step: Step) { step.ReaderDoes? && step.ra.EnqueueTimeout? }

  /** A timeout that the reader has not yet counted among the dropped frames, or among the timeouts. */
  function DropDue(r: Reader): nat { One(r.CountingDrop? || (r.Releasing? && r.after.OnTimeout?)) }

  function TimeoutDue(r: Reader): nat { One(r.CountingTimeout?) + DropDue(r) }

  ghost predicate FiguresMatch(s: State, n: nat) {
    && s.stats.droppedFrames + DropDue(s.sent.reader) + DropDue(s.received.reader) == n
    && s.stats.queueTimeouts + TimeoutDue(s.sent.reader) + TimeoutDue(s.received.reader) == n
  }

  lemma ReaderProceedFigures(l: Local, l': Local)
    requires ReaderProceed(l) == Some(l')
    ensures
      var r, r', st, st' := l.dir.reader, l'.dir.reader, l.stats, l'.stats;
      && st'.droppedFrames + DropDue(r') == st.droppedFrames + DropDue(r)
      && st'.queueTimeouts + TimeoutDue(r') == st.queueTimeouts + TimeoutDue(r)
  {
  }

  lemma ReaderFigures(o: Options, l: Local, a: ReaderAction, l': Local)
    requires ReaderStep(o, l, a) == Some(l')
    ensures
      var r, r', st, st' := l.dir.reader, l'.dir.reader, l.stats, l'.stats;
      && st'.droppedFrames + DropDue(r') == st.droppedFrames + DropDue(r) + One(a.EnqueueTimeout?)
      && st'.queueTimeouts + TimeoutDue(r') == st.queueTimeouts + TimeoutDue(r) + One(a.EnqueueTimeout?)
  {
    if !l.dir.reader.Getting? && !l.dir.reader.Reading? && !l.dir.reader.Sending? { ReaderProceedFigures(l, l'); }
  }

  lemma WriterFigures(l: Local, a: WriterAction, l': Local)
    requires WriterStep(l, a) == Some(l')
    ensures l'.dir.reader == l.dir.reader
    ensures l'.stats.droppedFrames == l.stats.droppedFrames && l'.stats.queueTimeouts == l.stats.queueTimeouts
  {
  }

  lemma StepFigures(o: Options, s: State, step: Step, s': State, n: nat)
    requires Apply(o, s, step) == Some(s') && FiguresMatch(s, n)
    ensures FiguresMatch(s', n + One(TimesOut(step)))
  {
    if step.ReaderDoes? {
      var l := LocalOf(s, step.side);
      ReaderAct(o, s, step, s');
      ReaderFigures(o, l, step.ra, ReaderStep(o, l, step.ra).value);
    } else if step.WriterDoes? {
      var l := LocalOf(s, step.side);
      WriterAct(o, s, step, s');
      WriterFigures(l, step.wa, WriterStep(l, step.wa).value);
    } else {
      OthersLeave(o, s, step, s', Sent);
      OthersLeave(o, s, step, s', Received);
      StatsStay(o, s, step, s');
    }
  }

  lemma StatsStay(o: Options, s: State, step: Step, s': State)
    requires Apply(o, s, step) == Some(s') && !step.ReaderDoes? && !step.WriterDoes?
    ensures s'.stats == s.stats
  {
  }

  /** In every run dropped frames and queue timeouts each count the enqueue timeouts of both directions, but
      for those that a reader has yet to record. */
  lemma DropsAreTimeouts(o: Options, steps: seq<Step>, states: seq<State>, i: nat)
    requires IsRun(o, steps, states) && i < |states|
    ensures FiguresMatch(states[i], Number(steps[..i], step => TimesOut(step)))
  {
    var f, c := (s: State, step: Step) => Apply(o, s, step), (step: Step) => TimesOut(step);
    var p := (s: State, q: seq<Step>) => FiguresMatch(s, Number(q, c));
    forall s, q, step | p(s, q) && f(s, step).Some? ensures p(f(s, step).value, q + [step]) {
      NumberMore(q, step, c);
      StepFigures(o, s, step, f(s, step).value, Number(q, c));
    }
    Along(f, p, steps, states, i);
  }

  /** The bytes that a step makes the destination take. */
  function Delivers(step: Step, side: Side): int {
    if step.WriterDoes? && step.side == side && step.wa.Deliver? then step.wa.k else 0
  }

  lemma DeliverTakes(o: Options, l: Local, a: WriterAction, l': Local, lag: int)
    requires WriterInv(o, l.heap.content, l.dir.writer, l.dir.writeLost, lag) && WriterStep(l, a) == Some(l')
    ensures |l'.dir.dest| == |l.dir.dest| + if a.Deliver? then a.k else 0
  {
  }

  lemma ReaderDeliversNothing(o: Options, l: Local, a: ReaderAction, l': Local)
    requires ReaderStep(o, l, a) == Some(l')
    ensures l'.dir.dest == l.dir.dest
  {
  }

  lemma StepDelivers(o: Options, s: State, step: Step, s': State, side: Side)
    requires Inv(o, s) && Apply(o, s, step) == Some(s')
    ensures |s'.At(side).dest| == |s.At(side).dest| + Delivers(step, side)
  {
    var l := LocalOf(s, side);
    if !OfSide(step, side) {
      OthersLeave(o, s, step, s', side);
    } else if step.ReaderDoes? {
      ReaderAct(o, s, step, s');
      ReaderDeliversNothing(o, l, step.ra, ReaderStep(o, l, step.ra).value);
    } else {
      WriterAct(o, s, step, s');
      DeliverTakes(o, l, step.wa, WriterStep(l, step.wa).value, |l.dir.dest| - l.dir.counted);
    }
  }

  /** In every run a destination has as many bytes as its writes made it take. */
  lemma DeliveredAddsUp(o: Options, steps: seq<Step>, states: seq<State>, i: nat, side: Side)
    requires IsRun(o, steps, states) && i < |states|
    ensures |states[i].At(side).dest| == Tally((s: State, step: Step) => Delivers(step, side), steps, states, i)
  {
    var f, p := (s: State, step: Step) => Apply(o, s, step), (s: State) => Inv(o, s);
    var figure, weight := (s: State) => |s.At(side).dest| as int, (s: State, step: Step) => Delivers(step, side);
    forall k | 0 <= k < |states| ensures p(states[k]) { RunKeepsInv(o, steps, states, k); }
    forall s, step | p(s) && f(s, step).Some? ensures figure(f(s, step).value) == figure(s) + weight(s, step) {
      StepDelivers(o, s, step, f(s, step).value, side);
    }
    FigureIsTally(f, p, figure, weight, steps, states, i);
    assert states[0].At(side).dest == [];
  }
}
