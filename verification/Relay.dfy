/** The bounded relay pipeline: two directions, each a reader and a writer goroutine around a
    bounded channel, all drawing buffers from one recycled pool.

    Every atomic action of either goroutine (a pool operation, a channel operation, a locked
    statistics update, a piece of an I/O call) is one step. A run is any interleaving of steps. */
module Relay {
  import opened Common

  const DEFAULT_BUFFER_SIZE: nat := 32 * 1024

  type BufId = nat

  datatype Options = Options(bufferSize: nat, queueSize: nat)

  datatype Chunk = Chunk(buf: BufId, n: nat)

  datatype IoError = Canceled | Timeout | OtherError

  /** How a source read ended. */
  datatype ReadEnd = More | Eof | ReadFailed(e: IoError)

  /** What a goroutine returns; `Dropped` is the backpressure error. */
  datatype Outcome = Clean | Failed(e: IoError) | Dropped

  datatype AfterRelease = EmptyRead(end: ReadEnd) | OnCancel(e: IoError) | OnTimeout

  datatype Reader =
    | Getting
    | Reading(buf: BufId)
    | Measuring(chunk: Chunk, end: ReadEnd)
    | Recording(chunk: Chunk, end: ReadEnd, depth: nat)
    | Sending(chunk: Chunk, end: ReadEnd)
    | Releasing(buf: BufId, after: AfterRelease)
    | CountingDrop
    | CountingTimeout
    | ClosingQueue(out: Outcome)
    | ReaderReporting(out: Outcome)
    | ReaderDone(out: Outcome)

  datatype Writer =
    | Waiting
    | Looping(chunk: Chunk, written: nat)
    | Writing(chunk: Chunk, written: nat, sent: nat)
    | Freeing(chunk: Chunk, err: Option<IoError>)
    | CountingWriteTimeout
    | CountingBytes(n: nat)
    | ClosingDst(out: Outcome)
    | WriterReporting(out: Outcome)
    | WriterDone(out: Outcome)

  /** One direction. `source` and `dest` are the bytes read and delivered so far; `readLost` and
      `writeLost` are the bytes given up when the reader drops a chunk or a write fails; `ended` is
      the error of the direction's group context, fixed by whatever ends that context first. */
  datatype Dir = Dir(
    source: seq<Byte>, dest: seq<Byte>, readLost: seq<Byte>, writeLost: seq<Byte>,
    reader: Reader, writer: Writer, queue: seq<Chunk>, closed: bool,
    counted: nat, err: Outcome, ended: Option<IoError>, returned: bool)

  datatype Stats = Stats(droppedFrames: nat, queueTimeouts: nat, writeTimeouts: nat, maxQueueDepth: nat)

  datatype Side = Sent | Received

  type Content = seq<seq<Byte>>

  /** The live bytes `from..c.n` of a chunk's buffer. */
  function Bytes(content: Content, c: Chunk, from: nat): seq<Byte> {
    if c.buf < |content| && from <= c.n <= |content[c.buf]| then content[c.buf][from..c.n] else []
  }

  /** The buffers. `content[b]` is the current content of buffer `b`; `peers` holds the buffers
      checked out by other relays that share the pool, `lost` those left to the garbage collector. */
  datatype Heap = Heap(
    content: Content, pool: multiset<BufId>, peers: multiset<BufId>, lost: multiset<BufId>)
  {
    /** releaseRelayBuffer: only buffers of the pooled size go back. */
    function Release(b: BufId): Heap
      requires b < |content|
    {
      if |content[b]| == DEFAULT_BUFFER_SIZE then this.(pool := pool + multiset{b})
      else this.(lost := lost + multiset{b})
    }

    function Fill(b: BufId, bytes: seq<Byte>): Heap
      requires b < |content|
    {
      this.(content := content[b := bytes])
    }
  }

  /** `ended` is the error of the pair's group context, the parent of both directions' contexts. */
  datatype State = State(
    heap: Heap, sent: Dir, received: Dir, stats: Stats, ended: Option<IoError>, err: Outcome)
  {
    function At(side: Side): Dir { if side.Sent? then sent else received }

    function With(side: Side, d: Dir): State {
      if side.Sent? then this.(sent := d) else this.(received := d)
    }
  }

  /** What one goroutine touches: the buffers, the statistics and its own direction. */
  datatype Local = Local(heap: Heap, stats: Stats, dir: Dir)

  // ---------------------------------------------------------------- steps

  /** `Proceed` is the only thing a goroutine can do where its code leaves no choice. */
  datatype ReaderAction =
    | GetPooled(b: BufId)
    | GetFresh(bytes: seq<Byte>)
    | Scribble(bytes: seq<Byte>)
    | ReadReturns(data: seq<Byte>, end: ReadEnd)
    | Enqueue
    | HandOff
    | SeeCancel
    | EnqueueTimeout
    | ReaderProceeds

  datatype WriterAction =
    | Dequeue
    | SeeClosed
    | StopOnCancel
    | Deliver(k: nat)
    | WriteReturns(err: Option<IoError>)
    | WriterProceeds

  /** The garbage collector emptying the pool, and other relays using the same pool. */
  datatype PoolAction =
    | Evict(b: BufId)
    | PeerGet(b: BufId)
    | PeerMake(bytes: seq<Byte>)
    | PeerScribble(b: BufId, bytes: seq<Byte>)
    | PeerRelease(b: BufId)

  datatype Step =
    | ReaderDoes(side: Side, ra: ReaderAction)
    | WriterDoes(side: Side, wa: WriterAction)
    | GroupReturns(side: Side)
    | CancelParent(e: IoError)
    | HearCancel(side: Side)
    | PoolDoes(pa: PoolAction)

  function AfterRead(end: ReadEnd): Reader {
    match end
    case More => Getting
    case Eof => ClosingQueue(Clean)
    case ReadFailed(e) => ClosingQueue(Failed(e))
  }

  function FirstError(err: Outcome, out: Outcome): Outcome {
    if err == Clean then out else err
  }

  /** A context keeps the error it ended with first. */
  function FirstEnd(ended: Option<IoError>, e: IoError): Option<IoError> {
    if ended.None? then Some(e) else ended
  }

  /** A goroutine's outcome reaches its group; the first error also cancels the group's context. */
  function Report(d: Dir, out: Outcome): Dir {
    if out == Clean then d else d.(err := FirstError(d.err, out), ended := FirstEnd(d.ended, Canceled))
  }

  function GettingStep(o: Options, l: Local, a: ReaderAction): Option<Local> {
    var Local(h, st, d) := l;
    if a.GetPooled? && o.bufferSize == DEFAULT_BUFFER_SIZE && a.b in h.pool then
      Some(Local(h.(pool := h.pool - multiset{a.b}), st, d.(reader := Reading(a.b))))
    else if a.GetFresh? && |a.bytes| == o.bufferSize then
      Some(Local(h.(content := h.content + [a.bytes]), st, d.(reader := Reading(|h.content|))))
    else None
  }

  function ReadingStep(l: Local, b: BufId, a: ReaderAction): Option<Local> {
    var Local(h, st, d) := l;
    if b >= |h.content| then None
    else if a.Scribble? && |a.bytes| == |h.content[b]| then Some(Local(h.Fill(b, a.bytes), st, d))
    else if a.ReadReturns? && |a.data| <= |h.content[b]| then
      var next := if |a.data| > 0 then Measuring(Chunk(b, |a.data|), a.end) else Releasing(b, EmptyRead(a.end));
      Some(Local(h.Fill(b, a.data + h.content[b][|a.data|..]), st,
                 d.(source := d.source + a.data, reader := next)))
    else None
  }

  /** The select around the send: room in the queue, a writer already waiting (the only way
      through an unbuffered queue), the context's end, or the timer. */
  function SendingStep(o: Options, l: Local, c: Chunk, end: ReadEnd, a: ReaderAction): Option<Local> {
    var Local(h, st, d) := l;
    if a.Enqueue? && |d.queue| < o.queueSize then
      Some(Local(h, st, d.(queue := d.queue + [c], reader := AfterRead(end))))
    else if a.HandOff? && d.queue == [] && d.writer.Waiting? then
      Some(Local(h, st, d.(writer := Looping(c, 0), reader := AfterRead(end))))
    else if a.SeeCancel? && d.ended.Some? then
      Some(Local(h, st, d.(reader := Releasing(c.buf, OnCancel(d.ended.value)), readLost := Bytes(h.content, c, 0))))
    else if a.EnqueueTimeout? then
      Some(Local(h, st, d.(reader := Releasing(c.buf, OnTimeout), readLost := Bytes(h.content, c, 0))))
    else None
  }

  function AfterReleasing(after: AfterRelease): Reader {
    match after
    case EmptyRead(end) => AfterRead(end)
    case OnCancel(e) => ClosingQueue(Failed(e))
    case OnTimeout => CountingDrop
  }

  function ReaderProceed(l: Local): Option<Local> {
    var Local(h, st, d) := l;
    match d.reader
    case Measuring(c, end) =>
      Some(Local(h, st, d.(reader := Recording(c, end, |d.queue| + 1))))
    case Recording(c, end, depth) =>
      var deepest := if depth > st.maxQueueDepth then depth else st.maxQueueDepth;
      Some(Local(h, st.(maxQueueDepth := deepest), d.(reader := Sending(c, end))))
    case Releasing(b, after) =>
      if b >= |h.content| then None
      else Some(Local(h.Release(b), st, d.(reader := AfterReleasing(after))))
    case CountingDrop =>
      Some(Local(h, st.(droppedFrames := st.droppedFrames + 1), d.(reader := CountingTimeout)))
    case CountingTimeout =>
      Some(Local(h, st.(queueTimeouts := st.queueTimeouts + 1), d.(reader := ClosingQueue(Dropped))))
    case ClosingQueue(out) =>
      Some(Local(h, st, d.(closed := true, reader := ReaderReporting(out))))
    case ReaderReporting(out) => Some(Local(h, st, Report(d, out).(reader := ReaderDone(out))))
    case _ => None
  }

  function ReaderStep(o: Options, l: Local, a: ReaderAction): Option<Local> {
    match l.dir.reader
    case Getting => GettingStep(o, l, a)
    case Reading(b) => ReadingStep(l, b, a)
    case Sending(c, end) => SendingStep(o, l, c, end, a)
    case _ => if a.ReaderProceeds? then ReaderProceed(l) else None
  }

  function WaitingStep(l: Local, a: WriterAction): Option<Local> {
    var Local(h, st, d) := l;
    if a.Dequeue? && d.queue != [] then
      Some(Local(h, st, d.(queue := d.queue[1..], writer := Looping(d.queue[0], 0))))
    else if a.SeeClosed? && d.queue == [] && d.closed then
      Some(Local(h, st, d.(writer := ClosingDst(Clean))))
    else if a.StopOnCancel? && d.ended.Some? then
      Some(Local(h, st, d.(writer := ClosingDst(Failed(d.ended.value)))))
    else None
  }

  /** While Write is in progress the destination takes bytes out of the live buffer. */
  function WritingStep(l: Local, c: Chunk, written: nat, sent: nat, a: WriterAction): Option<Local> {
    var Local(h, st, d) := l;
    if a.Deliver? && written + sent + a.k <= c.n then
      var bytes := Bytes(h.content, Chunk(c.buf, written + sent + a.k), written + sent);
      Some(Local(h, st, d.(dest := d.dest + bytes, writer := Writing(c, written, sent + a.k))))
    else if a.WriteReturns? && a.err.None? then
      Some(Local(h, st, d.(writer := Looping(c, written + sent))))
    else if a.WriteReturns? then
      Some(Local(h, st, d.(writer := Freeing(c, a.err), writeLost := Bytes(h.content, c, written + sent))))
    else None
  }

  function AfterFreeing(c: Chunk, err: Option<IoError>): Writer {
    match err
    case None => CountingBytes(c.n)
    case Some(e) => if e == Timeout then CountingWriteTimeout else ClosingDst(Failed(e))
  }

  function WriterProceed(l: Local): Option<Local> {
    var Local(h, st, d) := l;
    match d.writer
    case Looping(c, written) =>
      var next := if written < c.n then Writing(c, written, 0) else Freeing(c, None);
      Some(Local(h, st, d.(writer := next)))
    case Freeing(c, err) =>
      if c.buf >= |h.content| then None
      else Some(Local(h.Release(c.buf), st, d.(writer := AfterFreeing(c, err))))
    case CountingWriteTimeout =>
      Some(Local(h, st.(writeTimeouts := st.writeTimeouts + 1), d.(writer := ClosingDst(Failed(Timeout)))))
    case CountingBytes(n) =>
      Some(Local(h, st, d.(counted := d.counted + n, writer := Waiting)))
    case ClosingDst(out) =>
      Some(Local(h, st, d.(writer := WriterReporting(out))))
    case WriterReporting(out) => Some(Local(h, st, Report(d, out).(writer := WriterDone(out))))
    case _ => None
  }

  function WriterStep(l: Local, a: WriterAction): Option<Local> {
    match l.dir.writer
    case Waiting => WaitingStep(l, a)
    case Writing(c, written, sent) => WritingStep(l, c, written, sent, a)
    case _ => if a.WriterProceeds? then WriterProceed(l) else None
  }

  /** relayOneWay returns once both goroutines have; an error cancels the outer group. */
  function ReturnStep(s: State, side: Side): Option<State> {
    var d := s.At(side);
    if d.reader.ReaderDone? && d.writer.WriterDone? && !d.returned then
      var s1 := s.With(side, d.(returned := true));
      Some(if d.err == Clean then s1
           else s1.(err := FirstError(s.err, d.err), ended := FirstEnd(s.ended, Canceled)))
    else None
  }

  /** The end of the pair's context reaches a direction's context. */
  function HearStep(s: State, side: Side): Option<State> {
    if s.ended.Some? && s.At(side).ended.None? then Some(s.With(side, s.At(side).(ended := s.ended))) else None
  }

  function PoolStep(h: Heap, a: PoolAction): Option<Heap> {
    match a
    case Evict(b) =>
      if b in h.pool then Some(h.(pool := h.pool - multiset{b}, lost := h.lost + multiset{b})) else None
    case PeerGet(b) =>
      if b in h.pool then Some(h.(pool := h.pool - multiset{b}, peers := h.peers + multiset{b})) else None
    case PeerMake(bytes) =>
      Some(h.(content := h.content + [bytes], peers := h.peers + multiset{|h.content|}))
    case PeerScribble(b, bytes) =>
      if b in h.peers && b < |h.content| && |bytes| == |h.content[b]| then Some(h.Fill(b, bytes)) else None
    case PeerRelease(b) =>
      if b in h.peers && b < |h.content| then Some(h.(peers := h.peers - multiset{b}).Release(b)) else None
  }

  function Lift(s: State, side: Side, l: Option<Local>): Option<State> {
    if l.None? then None
    else Some(s.(heap := l.value.heap, stats := l.value.stats).With(side, l.value.dir))
  }

  function Apply(o: Options, s: State, step: Step): Option<State> {
    match step
    case ReaderDoes(side, a) => Lift(s, side, ReaderStep(o, Local(s.heap, s.stats, s.At(side)), a))
    case WriterDoes(side, a) => Lift(s, side, WriterStep(Local(s.heap, s.stats, s.At(side)), a))
    case GroupReturns(side) => ReturnStep(s, side)
    case CancelParent(e) => Some(s.(ended := FirstEnd(s.ended, e)))
    case HearCancel(side) => HearStep(s, side)
    case PoolDoes(a) =>
      var h := PoolStep(s.heap, a);
      if h.None? then None else Some(s.(heap := h.value))
  }

  // ---------------------------------------------------------------- runs

  const FRESH_DIR := Dir([], [], [], [], Getting, Waiting, [], false, 0, Clean, None, false)

  /** The pair starts on a pool that holds each of its buffers once, all of the pooled size;
      every other allocated buffer is held by a peer or is garbage. */
  ghost predicate Init(s: State) {
    && s.sent == FRESH_DIR
    && s.received == FRESH_DIR
    && s.stats == Stats(0, 0, 0, 0)
    && s.err == Clean && s.ended == None
    && (forall b: BufId :: (s.heap.pool + s.heap.peers + s.heap.lost)[b] == if b < |s.heap.content| then 1 else 0)
    && (forall b: BufId :: b in s.heap.pool ==>
          b < |s.heap.content| && |s.heap.content[b]| == DEFAULT_BUFFER_SIZE)
  }

  /** `states` is what the interleaving `steps` passes through. */
  ghost predicate IsRun(o: Options, steps: seq<Step>, states: seq<State>) {
    && |states| == |steps| + 1
    && Init(states[0])
    && (forall i :: 0 <= i < |steps| ==> Apply(o, states[i], steps[i]) == Some(states[i + 1]))
  }
}
