/** Safety and accounting of the relay pipeline over every run. */
module RelayProofs {
  import opened Common
  import opened Runs
  import opened Relay

  // ---------------------------------------------------------------- ownership

  function One(b: BufId, b': BufId): nat { if b == b' then 1 else 0 }

  function ReaderHolds(r: Reader, b: BufId): nat {
    match r
    case Reading(b') => One(b, b')
    case Measuring(c, _) => One(b, c.buf)
    case Recording(c, _, _) => One(b, c.buf)
    case Sending(c, _) => One(b, c.buf)
    case Releasing(b', _) => One(b, b')
    case _ => 0
  }

  function WriterHolds(w: Writer, b: BufId): nat {
    match w
    case Looping(c, _) => One(b, c.buf)
    case Writing(c, _, _) => One(b, c.buf)
    case Freeing(c, _) => One(b, c.buf)
    case _ => 0
  }

  function QueueHolds(q: seq<Chunk>, b: BufId): nat {
    if q == [] then 0 else One(b, q[0].buf) + QueueHolds(q[1..], b)
  }

  function DirHolds(d: Dir, b: BufId): nat {
    ReaderHolds(d.reader, b) + QueueHolds(d.queue, b) + WriterHolds(d.writer, b)
  }

  function HeapHolds(h: Heap, b: BufId): nat { h.pool[b] + h.peers[b] + h.lost[b] }

  /** In how many places buffer `b` is held: pool, peers, garbage, readers, queues, writers. */
  function Holders(s: State, b: BufId): nat {
    HeapHolds(s.heap, b) + DirHolds(s.sent, b) + DirHolds(s.received, b)
  }

  ghost predicate PoolSized(h: Heap) {
    forall b: BufId :: b in h.pool ==> b < |h.content| && |h.content[b]| == DEFAULT_BUFFER_SIZE
  }

  /** Each allocated buffer has exactly one holder, and the pool only holds pooled-size buffers. */
  ghost predicate Ownership(s: State) {
    && (forall b: BufId :: Holders(s, b) == if b < |s.heap.content| then 1 else 0)
    && PoolSized(s.heap)
  }

  // ---------------------------------------------------------------- content

  predicate Fits(o: Options, content: Content, c: Chunk) {
    c.buf < |content| && 0 < c.n <= |content[c.buf]| == o.bufferSize
  }

  ghost predicate QueueFits(o: Options, content: Content, q: seq<Chunk>) {
    forall i :: 0 <= i < |q| ==> Fits(o, content, q[i])
  }

  function QueueBytes(content: Content, q: seq<Chunk>): seq<Byte> {
    if q == [] then [] else Bytes(content, q[0], 0) + QueueBytes(content, q[1..])
  }

  /** Bytes the reader has taken from the source and neither queued nor forgotten. */
  function ReaderPart(content: Content, r: Reader, readLost: seq<Byte>): seq<Byte> {
    match r
    case Measuring(c, _) => Bytes(content, c, 0)
    case Recording(c, _, _) => Bytes(content, c, 0)
    case Sending(c, _) => Bytes(content, c, 0)
    case _ => readLost
  }

  /** Bytes the writer has taken from the queue and not delivered. */
  function WriterPart(content: Content, w: Writer, writeLost: seq<Byte>): seq<Byte> {
    match w
    case Looping(c, written) => Bytes(content, c, written)
    case Writing(c, written, sent) => Bytes(content, c, written + sent)
    case _ => writeLost
  }

  function InFlight(content: Content, d: Dir): seq<Byte> {
    WriterPart(content, d.writer, d.writeLost) + QueueBytes(content, d.queue)
    + ReaderPart(content, d.reader, d.readLost)
  }

  /** Every byte read is, in order, delivered, with the writer, queued, or with the reader. */
  ghost predicate Conserved(content: Content, d: Dir) {
    d.source == d.dest + InFlight(content, d)
  }

  // ---------------------------------------------------------------- control

  /** Only a reader that gave up a chunk has lost bytes. */
  ghost predicate ReaderInv(o: Options, content: Content, r: Reader, readLost: seq<Byte>) {
    match r
    case Getting => readLost == []
    case Reading(b) => readLost == [] && b < |content| && |content[b]| == o.bufferSize
    case Measuring(c, _) => readLost == [] && Fits(o, content, c)
    case Recording(c, _, depth) => readLost == [] && Fits(o, content, c) && depth <= o.queueSize + 1
    case Sending(c, _) => readLost == [] && Fits(o, content, c)
    case Releasing(b, after) => b < |content| && (after.EmptyRead? ==> readLost == [])
    case ClosingQueue(out) => out == Clean ==> readLost == []
    case ReaderReporting(out) => out == Clean ==> readLost == []
    case ReaderDone(out) => out == Clean ==> readLost == []
    case _ => true
  }

  /** `lag` is the number of delivered bytes not yet counted: what the current chunk has sent. */
  ghost predicate WriterInv(o: Options, content: Content, w: Writer, writeLost: seq<Byte>, lag: int) {
    && 0 <= lag <= o.bufferSize
    && match w
       case Waiting => writeLost == [] && lag == 0
       case Looping(c, written) => writeLost == [] && Fits(o, content, c) && written == lag <= c.n
       case Writing(c, written, sent) => writeLost == [] && Fits(o, content, c) && written + sent == lag <= c.n
       case Freeing(c, err) => Fits(o, content, c) && (err.None? ==> writeLost == [] && lag == c.n)
       case CountingBytes(n) => writeLost == [] && lag == n
       case ClosingDst(out) => out == Clean ==> writeLost == [] && lag == 0
       case WriterReporting(out) => out == Clean ==> writeLost == [] && lag == 0
       case WriterDone(out) => out == Clean ==> writeLost == [] && lag == 0
       case CountingWriteTimeout => true
  }

  predicate WriterEndedClean(w: Writer) {
    w == ClosingDst(Clean) || w == WriterReporting(Clean) || w == WriterDone(Clean)
  }

  /** A writer that returns nil has drained a closed queue; a goroutine error reaches the group. */
  ghost predicate Ends(d: Dir) {
    && (d.closed <==> d.reader.ReaderReporting? || d.reader.ReaderDone?)
    && (d.returned ==> d.reader.ReaderDone? && d.writer.WriterDone?)
    && (WriterEndedClean(d.writer) ==> d.queue == [] && d.closed)
    && (d.reader.ReaderDone? && d.reader.out != Clean ==> d.err != Clean)
    && (d.writer.WriterDone? && d.writer.out != Clean ==> d.err != Clean)
  }

  ghost predicate DirInv(o: Options, content: Content, d: Dir) {
    && QueueFits(o, content, d.queue)
    && |d.queue| <= o.queueSize
    && |d.readLost| <= o.bufferSize
    && |d.writeLost| <= o.bufferSize
    && ReaderInv(o, content, d.reader, d.readLost)
    && WriterInv(o, content, d.writer, d.writeLost, |d.dest| - d.counted)
    && Ends(d)
    && Conserved(content, d)
  }

  function DropsCounted(r: Reader): nat {
    match r
    case CountingTimeout => 1
    case _ => TimeoutsCounted(r)
  }

  function TimeoutsCounted(r: Reader): nat {
    match r
    case ClosingQueue(out) => if out == Dropped then 1 else 0
    case ReaderReporting(out) => if out == Dropped then 1 else 0
    case ReaderDone(out) => if out == Dropped then 1 else 0
    case _ => 0
  }

  ghost predicate StatsInv(o: Options, s: State) {
    && s.stats.maxQueueDepth <= o.queueSize + 1
    && s.stats.droppedFrames == DropsCounted(s.sent.reader) + DropsCounted(s.received.reader)
    && s.stats.queueTimeouts == TimeoutsCounted(s.sent.reader) + TimeoutsCounted(s.received.reader)
  }

  /** A direction that returned an error has made the pair fail. */
  ghost predicate GroupInv(s: State) {
    && (s.sent.returned && s.sent.err != Clean ==> s.err != Clean)
    && (s.received.returned && s.received.err != Clean ==> s.err != Clean)
  }

  ghost predicate Inv(o: Options, s: State) {
    && Ownership(s) && GroupInv(s) && StatsInv(o, s)
    && DirInv(o, s.heap.content, s.sent) && DirInv(o, s.heap.content, s.received)
  }

  // ---------------------------------------------------------------- queue lemmas

  lemma {:induction false} QueueAppendHolds(q: seq<Chunk>, c: Chunk, b: BufId)
    ensures QueueHolds(q + [c], b) == QueueHolds(q, b) + One(b, c.buf)
  {
    if q == [] {
      assert (q + [c])[1..] == [];
    } else {
      QueueAppendHolds(q[1..], c, b);
      assert (q + [c])[1..] == q[1..] + [c];
    }
  }

  lemma {:induction false} QueueAppendBytes(content: Content, q: seq<Chunk>, c: Chunk)
    ensures QueueBytes(content, q + [c]) == QueueBytes(content, q) + Bytes(content, c, 0)
  {
    var qc := q + [c];
    if q == [] {
      assert qc[1..] == [];
    } else {
      var head, tail := Bytes(content, q[0], 0), QueueBytes(content, q[1..]);
      QueueAppendBytes(content, q[1..], c);
      assert qc[1..] == q[1..] + [c] && qc[0] == q[0];
      Assoc(head, tail, Bytes(content, c, 0));
    }
  }

  lemma Assoc<T>(a: seq<T>, b: seq<T>, c: seq<T>)
    ensures a + (b + c) == (a + b) + c
  {
  }

  lemma {:induction false} QueuedIsHeld(q: seq<Chunk>, i: nat)
    requires i < |q|
    ensures QueueHolds(q, q[i].buf) > 0
  {
    if i > 0 { QueuedIsHeld(q[1..], i - 1); }
  }

  /** Content of buffers outside the queue does not matter to it. */
  lemma {:induction false} QueueFrame(o: Options, c1: Content, c2: Content, q: seq<Chunk>)
    requires |c1| <= |c2|
    requires forall b: BufId :: QueueHolds(q, b) > 0 && b < |c1| ==> c1[b] == c2[b]
    requires QueueFits(o, c1, q)
    ensures QueueFits(o, c2, q)
    ensures QueueBytes(c1, q) == QueueBytes(c2, q)
  {
    if q != [] {
      QueuedIsHeld(q, 0);
      QueueFrame(o, c1, c2, q[1..]);
      forall i | 0 <= i < |q| ensures Fits(o, c2, q[i]) {
        QueuedIsHeld(q, i);
        assert Fits(o, c1, q[i]);
      }
    }
  }

  lemma {:induction false} QueueBound(o: Options, content: Content, q: seq<Chunk>)
    requires QueueFits(o, content, q)
    ensures |QueueBytes(content, q)| <= |q| * o.bufferSize
  {
    if q != [] {
      assert Fits(o, content, q[0]);
      QueueBound(o, content, q[1..]);
      assert |q| * o.bufferSize == o.bufferSize + (|q| - 1) * o.bufferSize;
    }
  }

  lemma DirFrame(o: Options, c1: Content, c2: Content, d: Dir)
    requires DirInv(o, c1, d)
    requires |c1| <= |c2|
    requires forall b: BufId :: DirHolds(d, b) > 0 && b < |c1| ==> c1[b] == c2[b]
    ensures DirInv(o, c2, d)
  {
    QueueFrame(o, c1, c2, d.queue);
  }

  // ---------------------------------------------------------------- one goroutine step

  /** A goroutine step conserves the holders of every buffer, apart from one it allocates. */
  ghost predicate Conserves(l: Local, l': Local, made: bool, b: BufId) {
    && HeapHolds(l'.heap, b) + DirHolds(l'.dir, b)
       == HeapHolds(l.heap, b) + DirHolds(l.dir, b) + (if made then One(b, |l.heap.content|) else 0)
    && |l'.heap.content| == |l.heap.content| + (if made then 1 else 0)
  }

  lemma ReaderReleaseConserves(l: Local, l': Local, b: BufId)
    requires l.dir.reader.Releasing? && ReaderProceed(l) == Some(l')
    ensures Conserves(l, l', false, b)
  {
  }

  lemma ReaderProceedConserves(l: Local, l': Local, b: BufId)
    requires ReaderProceed(l) == Some(l')
    ensures Conserves(l, l', false, b)
  {
    if l.dir.reader.Releasing? {
      ReaderReleaseConserves(l, l', b);
    } else {
      assert l'.heap == l.heap && l'.dir.queue == l.dir.queue && l'.dir.writer == l.dir.writer;
    }
  }

  lemma GettingConserves(o: Options, l: Local, a: ReaderAction, l': Local, b: BufId)
    requires l.dir.reader.Getting? && GettingStep(o, l, a) == Some(l')
    ensures Conserves(l, l', a.GetFresh?, b)
  {
  }

  lemma ReadingConserves(l: Local, a: ReaderAction, l': Local, b: BufId)
    requires l.dir.reader.Reading? && ReadingStep(l, l.dir.reader.buf, a) == Some(l')
    ensures Conserves(l, l', a.GetFresh?, b)
  {
  }

  lemma SendingConserves(o: Options, l: Local, a: ReaderAction, l': Local, b: BufId)
    requires l.dir.reader.Sending? && SendingStep(o, l, l.dir.reader.chunk, l.dir.reader.end, a) == Some(l')
    ensures Conserves(l, l', a.GetFresh?, b)
  {
    if a.Enqueue? { QueueAppendHolds(l.dir.queue, l.dir.reader.chunk, b); }
  }

  lemma ReaderConserves(o: Options, l: Local, a: ReaderAction, l': Local, b: BufId)
    requires ReaderStep(o, l, a) == Some(l')
    ensures Conserves(l, l', a.GetFresh?, b)
  {
    match l.dir.reader
    case Getting => GettingConserves(o, l, a, l', b);
    case Reading(_) => ReadingConserves(l, a, l', b);
    case Sending(_, _) => SendingConserves(o, l, a, l', b);
    case _ => ReaderProceedConserves(l, l', b);
  }

  lemma WriterFreeConserves(l: Local, l': Local, b: BufId)
    requires l.dir.writer.Freeing? && WriterProceed(l) == Some(l')
    ensures Conserves(l, l', false, b)
  {
  }

  lemma WriterProceedConserves(l: Local, l': Local, b: BufId)
    requires WriterProceed(l) == Some(l')
    ensures Conserves(l, l', false, b)
  {
    if l.dir.writer.Freeing? {
      WriterFreeConserves(l, l', b);
    } else {
      assert l'.heap == l.heap && l'.dir.queue == l.dir.queue && l'.dir.reader == l.dir.reader;
    }
  }

  lemma WriterConserves(l: Local, a: WriterAction, l': Local, b: BufId)
    requires WriterStep(l, a) == Some(l')
    ensures Conserves(l, l', false, b)
  {
    if a.WriterProceeds? { WriterProceedConserves(l, l', b); }
  }

  ghost predicate Exclusive(d: Dir) {
    forall b: BufId :: DirHolds(d, b) <= 1
  }

  /** Filling the reader's own buffer, or allocating one, leaves the rest of the direction alone. */
  lemma FillKeepsRest(o: Options, c1: Content, c2: Content, d: Dir)
    requires DirInv(o, c1, d) && Exclusive(d)
    requires d.reader.Reading? || d.reader.Getting?
    requires |c1| <= |c2|
    requires forall b: BufId :: b < |c1| && ReaderHolds(d.reader, b) == 0 ==> c1[b] == c2[b]
    requires d.reader.Reading? ==> |c2[d.reader.buf]| == o.bufferSize
    ensures DirInv(o, c2, d)
    ensures InFlight(c1, d) == InFlight(c2, d)
  {
    forall b: BufId | QueueHolds(d.queue, b) > 0 && b < |c1| ensures c1[b] == c2[b] {
      assert DirHolds(d, b) <= 1;
    }
    QueueFrame(o, c1, c2, d.queue);
    var w := d.writer;
    if w.Looping? || w.Writing? || w.Freeing? {
      assert DirHolds(d, w.chunk.buf) <= 1;
    }
  }

  lemma GettingKeepsDir(o: Options, l: Local, a: ReaderAction, l': Local)
    requires DirInv(o, l.heap.content, l.dir) && Exclusive(l.dir) && PoolSized(l.heap) && l.dir.reader.Getting?
    requires ReaderStep(o, l, a) == Some(l')
    ensures DirInv(o, l'.heap.content, l'.dir)
  {
    FillKeepsRest(o, l.heap.content, l'.heap.content, l.dir);
  }

  lemma ReadingKeepsDir(o: Options, l: Local, a: ReaderAction, l': Local)
    requires DirInv(o, l.heap.content, l.dir) && Exclusive(l.dir) && l.dir.reader.Reading?
    requires ReaderStep(o, l, a) == Some(l')
    ensures DirInv(o, l'.heap.content, l'.dir)
  {
    FillKeepsRest(o, l.heap.content, l'.heap.content, l.dir);
    if a.ReadReturns? {
      var d, c := l.dir, l'.heap.content;
      assert ReaderPart(c, l'.dir.reader, []) == a.data;
      assert InFlight(c, l'.dir) == InFlight(c, d) + a.data;
      Assoc(d.dest, InFlight(c, d), a.data);
    }
  }

  lemma EnqueueConserves(content: Content, d: Dir, d': Dir)
    requires Conserved(content, d) && d.reader.Sending? && d.readLost == []
    requires d' == d.(queue := d.queue + [d.reader.chunk], reader := AfterRead(d.reader.end))
    ensures Conserved(content, d')
  {
    var w, q := WriterPart(content, d.writer, d.writeLost), QueueBytes(content, d.queue);
    var r := Bytes(content, d.reader.chunk, 0);
    QueueAppendBytes(content, d.queue, d.reader.chunk);
    Assoc(w, q, r);
    assert (w + (q + r)) + [] == (w + q) + r;
  }

  lemma EnqueueKeepsDir(o: Options, l: Local, l': Local)
    requires DirInv(o, l.heap.content, l.dir) && l.dir.reader.Sending?
    requires ReaderStep(o, l, Enqueue) == Some(l')
    ensures DirInv(o, l'.heap.content, l'.dir)
  {
    EnqueueConserves(l.heap.content, l.dir, l'.dir);
  }

  lemma HandOffKeepsDir(o: Options, l: Local, l': Local)
    requires DirInv(o, l.heap.content, l.dir) && l.dir.reader.Sending?
    requires ReaderStep(o, l, HandOff) == Some(l')
    ensures DirInv(o, l'.heap.content, l'.dir)
  {
    assert InFlight(l.heap.content, l'.dir) == InFlight(l.heap.content, l.dir);
  }

  lemma SendingKeepsDir(o: Options, l: Local, a: ReaderAction, l': Local)
    requires DirInv(o, l.heap.content, l.dir) && l.dir.reader.Sending?
    requires ReaderStep(o, l, a) == Some(l')
    ensures DirInv(o, l'.heap.content, l'.dir)
  {
    if a.Enqueue? {
      EnqueueKeepsDir(o, l, l');
    } else if a.HandOff? {
      HandOffKeepsDir(o, l, l');
    } else {
      assert InFlight(l.heap.content, l'.dir) == InFlight(l.heap.content, l.dir);
    }
  }

  lemma MeasuringKeepsDir(o: Options, l: Local, l': Local)
    requires DirInv(o, l.heap.content, l.dir) && (l.dir.reader.Measuring? || l.dir.reader.Recording?)
    requires ReaderProceed(l) == Some(l')
    ensures DirInv(o, l'.heap.content, l'.dir)
  {
  }

  lemma ReleasingKeepsDir(o: Options, l: Local, l': Local)
    requires DirInv(o, l.heap.content, l.dir) && l.dir.reader.Releasing?
    requires ReaderProceed(l) == Some(l')
    ensures DirInv(o, l'.heap.content, l'.dir)
  {
  }

  /** Steps that only change the reader's place, past the point where it holds a chunk. */
  predicate ReaderEnding(r: Reader) {
    r.CountingDrop? || r.CountingTimeout? || r.ClosingQueue? || r.ReaderReporting?
  }

  /** The reader moves on without touching bytes; how it ends is for the caller to show. */
  lemma ReaderMoveKeepsDir(o: Options, content: Content, d: Dir, d': Dir)
    requires DirInv(o, content, d) && ReaderEnding(d.reader)
    requires d' == d.(reader := d'.reader, closed := d'.closed, err := d'.err, ended := d'.ended)
    requires ReaderEnding(d'.reader) || d'.reader.ReaderDone?
    requires ReaderInv(o, content, d'.reader, d'.readLost) && Ends(d')
    ensures DirInv(o, content, d')
  {
    assert InFlight(content, d') == InFlight(content, d);
  }

  lemma ReaderEndKeepsDir(o: Options, l: Local, l': Local)
    requires DirInv(o, l.heap.content, l.dir) && ReaderEnding(l.dir.reader)
    requires ReaderProceed(l) == Some(l')
    ensures DirInv(o, l'.heap.content, l'.dir)
  {
    ReaderMoveKeepsDir(o, l.heap.content, l.dir, l'.dir);
  }

  lemma ReaderKeepsDir(o: Options, l: Local, a: ReaderAction, l': Local)
    requires DirInv(o, l.heap.content, l.dir) && Exclusive(l.dir) && PoolSized(l.heap)
    requires ReaderStep(o, l, a) == Some(l')
    ensures DirInv(o, l'.heap.content, l'.dir)
  {
    match l.dir.reader
    case Getting => GettingKeepsDir(o, l, a, l');
    case Reading(_) => ReadingKeepsDir(o, l, a, l');
    case Sending(_, _) => SendingKeepsDir(o, l, a, l');
    case Measuring(_, _) => MeasuringKeepsDir(o, l, l');
    case Recording(_, _, _) => MeasuringKeepsDir(o, l, l');
    case Releasing(_, _) => ReleasingKeepsDir(o, l, l');
    case _ => if ReaderEnding(l.dir.reader) { ReaderEndKeepsDir(o, l, l'); }
  }

  lemma WaitingKeepsDir(o: Options, l: Local, a: WriterAction, l': Local)
    requires DirInv(o, l.heap.content, l.dir) && l.dir.writer.Waiting?
    requires WriterStep(l, a) == Some(l')
    ensures DirInv(o, l'.heap.content, l'.dir)
  {
    var d, c := l.dir, l.heap.content;
    if a.Dequeue? {
      assert Fits(o, c, d.queue[0]);
    }
    assert InFlight(c, l'.dir) == InFlight(c, d);
  }

  lemma BytesSplit(content: Content, c: Chunk, from: nat, k: nat)
    requires c.buf < |content| && from + k <= c.n <= |content[c.buf]|
    ensures Bytes(content, c, from) == Bytes(content, Chunk(c.buf, from + k), from) + Bytes(content, c, from + k)
  {
  }

  /** The bytes in flight behind the writer's part. */
  function Behind(content: Content, d: Dir): seq<Byte> {
    QueueBytes(content, d.queue) + ReaderPart(content, d.reader, d.readLost)
  }

  lemma FlightOfWriting(content: Content, d: Dir)
    requires d.writer.Writing?
    ensures InFlight(content, d)
            == Bytes(content, d.writer.chunk, d.writer.written + d.writer.sent) + Behind(content, d)
  {
    var Writing(c, written, sent) := d.writer;
    Assoc(Bytes(content, c, written + sent), QueueBytes(content, d.queue),
          ReaderPart(content, d.reader, d.readLost));
  }

  lemma MovedOver<T>(source: seq<T>, dest: seq<T>, part: seq<T>, moved: seq<T>, left: seq<T>, behind: seq<T>)
    requires source == dest + (part + behind) && part == moved + left
    ensures source == (dest + moved) + (left + behind)
  {
  }

  lemma DeliverConserves(content: Content, d: Dir, k: nat, d': Dir)
    requires Conserved(content, d) && d.writer.Writing? && d.writer.chunk.buf < |content|
    requires d.writer.written + d.writer.sent + k <= d.writer.chunk.n <= |content[d.writer.chunk.buf]|
    requires
      var Writing(c, written, sent) := d.writer;
      d' == d.(dest := d.dest + Bytes(content, Chunk(c.buf, written + sent + k), written + sent),
               writer := Writing(c, written, sent + k))
    ensures Conserved(content, d') && |d'.dest| == |d.dest| + k
  {
    var Writing(c, written, sent) := d.writer;
    var from := written + sent;
    FlightOfWriting(content, d);
    FlightOfWriting(content, d');
    assert written + (sent + k) == from + k;
    BytesSplit(content, c, from, k);
    MovedOver(d.source, d.dest, Bytes(content, c, from), Bytes(content, Chunk(c.buf, from + k), from),
              Bytes(content, c, from + k), Behind(content, d));
  }

  lemma DeliverKeepsDir(o: Options, l: Local, k: nat, l': Local)
    requires DirInv(o, l.heap.content, l.dir) && l.dir.writer.Writing?
    requires WriterStep(l, Deliver(k)) == Some(l')
    ensures DirInv(o, l'.heap.content, l'.dir)
  {
    DeliverConserves(l.heap.content, l.dir, k, l'.dir);
  }

  lemma WriteReturnKeepsDir(o: Options, l: Local, a: WriterAction, l': Local)
    requires DirInv(o, l.heap.content, l.dir) && l.dir.writer.Writing? && !a.Deliver?
    requires WritingStep(l, l.dir.writer.chunk, l.dir.writer.written, l.dir.writer.sent, a) == Some(l')
    ensures DirInv(o, l'.heap.content, l'.dir)
  {
    assert InFlight(l.heap.content, l'.dir) == InFlight(l.heap.content, l.dir);
  }

  lemma LoopingKeepsDir(o: Options, l: Local, l': Local)
    requires DirInv(o, l.heap.content, l.dir) && (l.dir.writer.Looping? || l.dir.writer.Freeing?)
    requires WriterProceed(l) == Some(l')
    ensures DirInv(o, l'.heap.content, l'.dir)
  {
    assert InFlight(l.heap.content, l'.dir) == InFlight(l.heap.content, l.dir);
  }

  lemma CountKeepsDir(o: Options, l: Local, l': Local)
    requires DirInv(o, l.heap.content, l.dir) && l.dir.writer.CountingBytes?
    requires WriterProceed(l) == Some(l')
    ensures DirInv(o, l'.heap.content, l'.dir)
  {
    assert InFlight(l.heap.content, l'.dir) == InFlight(l.heap.content, l.dir);
  }

  predicate WriterEnding(w: Writer) { w.CountingWriteTimeout? || w.ClosingDst? || w.WriterReporting? }

  lemma WriterEndKeepsDir(o: Options, l: Local, l': Local)
    requires DirInv(o, l.heap.content, l.dir) && WriterEnding(l.dir.writer)
    requires WriterProceed(l) == Some(l')
    ensures DirInv(o, l'.heap.content, l'.dir)
  {
    var d, d' := l.dir, l'.dir;
    assert l'.heap == l.heap && d'.queue == d.queue && d'.reader == d.reader && d'.counted == d.counted;
    assert InFlight(l.heap.content, d') == InFlight(l.heap.content, d);
  }

  lemma WriterKeepsDir(o: Options, l: Local, a: WriterAction, l': Local)
    requires DirInv(o, l.heap.content, l.dir)
    requires WriterStep(l, a) == Some(l')
    ensures DirInv(o, l'.heap.content, l'.dir)
  {
    match l.dir.writer
    case Waiting => WaitingKeepsDir(o, l, a, l');
    case Writing(_, _, _) =>
      if a.Deliver? { DeliverKeepsDir(o, l, a.k, l'); }
      else { WriteReturnKeepsDir(o, l, a, l'); }
    case Looping(_, _) => LoopingKeepsDir(o, l, l');
    case Freeing(_, _) => LoopingKeepsDir(o, l, l');
    case CountingBytes(_) => CountKeepsDir(o, l, l');
    case _ => if WriterEnding(l.dir.writer) { WriterEndKeepsDir(o, l, l'); }
  }

  /** A heap change that only fills the buffers `d` reads into, keeping every length. */
  ghost predicate FillsOnly(h: Heap, h': Heap, r: Reader) {
    && |h.content| <= |h'.content|
    && (forall b: BufId :: b < |h.content| ==> |h'.content[b]| == |h.content[b]|)
    && (forall b: BufId :: b < |h.content| && ReaderHolds(r, b) == 0 ==> h'.content[b] == h.content[b])
  }

  lemma ReaderProceedTouches(l: Local, l': Local)
    requires PoolSized(l.heap) && ReaderProceed(l) == Some(l')
    ensures FillsOnly(l.heap, l'.heap, l.dir.reader) && PoolSized(l'.heap)
  {
  }

  lemma ReaderPoolShrinks(o: Options, l: Local, a: ReaderAction, l': Local)
    requires !a.ReaderProceeds? && ReaderStep(o, l, a) == Some(l')
    ensures forall b: BufId :: b in l'.heap.pool ==> b in l.heap.pool
    ensures FillsOnly(l.heap, l'.heap, l.dir.reader)
  {
  }

  lemma ReaderTouches(o: Options, l: Local, a: ReaderAction, l': Local)
    requires PoolSized(l.heap)
    requires ReaderStep(o, l, a) == Some(l')
    ensures FillsOnly(l.heap, l'.heap, l.dir.reader) && PoolSized(l'.heap)
  {
    if a.ReaderProceeds? {
      ReaderProceedTouches(l, l');
    } else {
      ReaderPoolShrinks(o, l, a, l');
    }
  }

  lemma WriterTouches(l: Local, a: WriterAction, l': Local)
    requires PoolSized(l.heap)
    requires WriterStep(l, a) == Some(l')
    ensures l'.heap.content == l.heap.content && PoolSized(l'.heap)
  {
  }

  ghost predicate StatsMove(o: Options, l: Local, l': Local) {
    && (l.stats.maxQueueDepth <= o.queueSize + 1 ==> l'.stats.maxQueueDepth <= o.queueSize + 1)
    && l'.stats.droppedFrames - l.stats.droppedFrames
       == DropsCounted(l'.dir.reader) - DropsCounted(l.dir.reader)
    && l'.stats.queueTimeouts - l.stats.queueTimeouts
       == TimeoutsCounted(l'.dir.reader) - TimeoutsCounted(l.dir.reader)
  }

  lemma ReaderStats(o: Options, l: Local, a: ReaderAction, l': Local)
    requires l.dir.reader.Recording? ==> l.dir.reader.depth <= o.queueSize + 1
    requires ReaderStep(o, l, a) == Some(l')
    ensures StatsMove(o, l, l')
  {
    if a.ReaderProceeds? { ReaderProceedStats(o, l, l'); }
  }

  lemma ReaderProceedStats(o: Options, l: Local, l': Local)
    requires l.dir.reader.Recording? ==> l.dir.reader.depth <= o.queueSize + 1
    requires ReaderProceed(l) == Some(l')
    ensures StatsMove(o, l, l')
  {
  }

  lemma WriterStats(o: Options, l: Local, a: WriterAction, l': Local)
    requires WriterStep(l, a) == Some(l')
    ensures StatsMove(o, l, l')
  {
  }

  lemma ReaderNotReturned(o: Options, l: Local, a: ReaderAction, l': Local)
    requires Ends(l.dir) && ReaderStep(o, l, a) == Some(l')
    ensures !l'.dir.returned
  {
  }

  lemma WriterNotReturned(l: Local, a: WriterAction, l': Local)
    requires Ends(l.dir) && WriterStep(l, a) == Some(l')
    ensures !l'.dir.returned
  {
  }

  // ---------------------------------------------------------------- whole steps

  function Other(side: Side): Side { if side.Sent? then Received else Sent }

  function LocalOf(s: State, side: Side): Local { Local(s.heap, s.stats, s.At(side)) }

  lemma LiftKeepsOwnership(s: State, side: Side, l': Local, made: bool, s': State)
    requires Ownership(s) && PoolSized(l'.heap)
    requires forall b: BufId :: Conserves(LocalOf(s, side), l', made, b)
    requires Lift(s, side, Some(l')) == Some(s')
    ensures Ownership(s')
  {
    forall b: BufId ensures Holders(s', b) == if b < |s'.heap.content| then 1 else 0 {
      assert Conserves(LocalOf(s, side), l', made, b);
      assert Holders(s, b) == if b < |s.heap.content| then 1 else 0;
    }
  }

  lemma LiftKeepsOther(o: Options, s: State, side: Side, l': Local)
    requires Inv(o, s)
    requires FillsOnly(s.heap, l'.heap, s.At(side).reader)
    ensures DirInv(o, l'.heap.content, s.At(Other(side)))
  {
    var d := s.At(Other(side));
    forall b: BufId | DirHolds(d, b) > 0 && b < |s.heap.content| ensures s.heap.content[b] == l'.heap.content[b] {
      assert Holders(s, b) == 1;
    }
    DirFrame(o, s.heap.content, l'.heap.content, d);
  }

  lemma IsExclusive(s: State, side: Side)
    requires Ownership(s)
    ensures Exclusive(s.At(side))
  {
    forall b: BufId ensures DirHolds(s.At(side), b) <= 1 {
      assert Holders(s, b) <= 1;
    }
  }

  lemma LiftKeepsInv(o: Options, s: State, side: Side, l': Local, s': State)
    requires Inv(o, s) && Lift(s, side, Some(l')) == Some(s')
    requires Ownership(s') && !l'.dir.returned
    requires FillsOnly(s.heap, l'.heap, s.At(side).reader)
    requires DirInv(o, l'.heap.content, l'.dir) && StatsMove(o, LocalOf(s, side), l')
    ensures Inv(o, s')
  {
    LiftKeepsOther(o, s, side, l');
  }

  lemma ReaderKeepsInv(o: Options, s: State, side: Side, a: ReaderAction, s': State)
    requires Inv(o, s) && Apply(o, s, ReaderDoes(side, a)) == Some(s')
    ensures Inv(o, s')
  {
    var l := LocalOf(s, side);
    var l' := ReaderStep(o, l, a).value;
    forall b: BufId ensures Conserves(l, l', a.GetFresh?, b) { ReaderConserves(o, l, a, l', b); }
    ReaderTouches(o, l, a, l');
    LiftKeepsOwnership(s, side, l', a.GetFresh?, s');
    IsExclusive(s, side);
    ReaderKeepsDir(o, l, a, l');
    ReaderStats(o, l, a, l');
    ReaderNotReturned(o, l, a, l');
    LiftKeepsInv(o, s, side, l', s');
  }

  lemma WriterKeepsInv(o: Options, s: State, side: Side, a: WriterAction, s': State)
    requires Inv(o, s) && Apply(o, s, WriterDoes(side, a)) == Some(s')
    ensures Inv(o, s')
  {
    var l := LocalOf(s, side);
    var l' := WriterStep(l, a).value;
    forall b: BufId ensures Conserves(l, l', false, b) { WriterConserves(l, a, l', b); }
    WriterTouches(l, a, l');
    LiftKeepsOwnership(s, side, l', false, s');
    WriterKeepsDir(o, l, a, l');
    WriterStats(o, l, a, l');
    WriterNotReturned(l, a, l');
    LiftKeepsInv(o, s, side, l', s');
  }

  /** The pool's own steps move buffers between pool, peers and garbage, and fill peers' only. */
  lemma PoolStepMoves(h: Heap, a: PoolAction, h': Heap, b: BufId)
    requires PoolStep(h, a) == Some(h')
    ensures |h'.content| == |h.content| + (if a.PeerMake? then 1 else 0)
    ensures HeapHolds(h', b) == HeapHolds(h, b) + (if a.PeerMake? then One(b, |h.content|) else 0)
    ensures b < |h.content| ==> |h'.content[b]| == |h.content[b]|
    ensures b < |h.content| && b !in h.peers ==> h'.content[b] == h.content[b]
    ensures PoolSized(h) && b in h'.pool ==> b < |h'.content| && |h'.content[b]| == DEFAULT_BUFFER_SIZE
  {
    assert b in h'.pool ==> b in h.pool || a == PeerRelease(b);
  }

  lemma PoolKeepsOwnership(o: Options, s: State, a: PoolAction, s': State)
    requires Ownership(s) && Apply(o, s, PoolDoes(a)) == Some(s')
    ensures Ownership(s')
    ensures forall b: BufId :: DirHolds(s.sent, b) + DirHolds(s.received, b) > 0 && b < |s.heap.content| ==>
              s.heap.content[b] == s'.heap.content[b]
  {
    var h, h' := s.heap, s'.heap;
    forall b: BufId
      ensures Holders(s', b) == if b < |h'.content| then 1 else 0
      ensures b in h'.pool ==> b < |h'.content| && |h'.content[b]| == DEFAULT_BUFFER_SIZE
      ensures DirHolds(s.sent, b) + DirHolds(s.received, b) > 0 && b < |h.content| ==> h.content[b] == h'.content[b]
    {
      PoolStepMoves(h, a, h', b);
      assert Holders(s, b) == if b < |h.content| then 1 else 0;
    }
  }

  lemma PoolKeepsInv(o: Options, s: State, a: PoolAction, s': State)
    requires Inv(o, s) && Apply(o, s, PoolDoes(a)) == Some(s')
    ensures Inv(o, s')
  {
    PoolKeepsOwnership(o, s, a, s');
    PoolStepMoves(s.heap, a, s'.heap, 0);
    DirFrame(o, s.heap.content, s'.heap.content, s.sent);
    DirFrame(o, s.heap.content, s'.heap.content, s.received);
  }

  /** Ending or returning changes nothing that is held or in flight. */
  lemma MarkKeepsDir(o: Options, content: Content, d: Dir, d': Dir)
    requires DirInv(o, content, d)
    requires d' == d.(ended := d'.ended, returned := d'.returned)
    requires d'.returned ==> d.reader.ReaderDone? && d.writer.WriterDone?
    ensures DirInv(o, content, d')
  {
    assert InFlight(content, d') == InFlight(content, d);
  }

  lemma MarkKeepsInv(o: Options, s: State, side: Side, d': Dir, s': State)
    requires Inv(o, s) && DirInv(o, s.heap.content, d') && GroupInv(s')
    requires d' == s.At(side).(ended := d'.ended, returned := d'.returned)
    requires s' == s.With(side, d').(ended := s'.ended, err := s'.err)
    ensures Inv(o, s')
  {
    forall b: BufId ensures Holders(s', b) == Holders(s, b) {
      assert DirHolds(d', b) == DirHolds(s.At(side), b);
    }
  }

  lemma ReturnKeepsInv(o: Options, s: State, side: Side, s': State)
    requires Inv(o, s) && ReturnStep(s, side) == Some(s')
    ensures Inv(o, s')
  {
    var d' := s.At(side).(returned := true);
    MarkKeepsDir(o, s.heap.content, s.At(side), d');
    MarkKeepsInv(o, s, side, d', s');
  }

  lemma HearKeepsInv(o: Options, s: State, side: Side, s': State)
    requires Inv(o, s) && HearStep(s, side) == Some(s')
    ensures Inv(o, s')
  {
    var d' := s.At(side).(ended := s.ended);
    MarkKeepsDir(o, s.heap.content, s.At(side), d');
    MarkKeepsInv(o, s, side, d', s');
  }

  lemma StepKeepsInv(o: Options, s: State, step: Step, s': State)
    requires Inv(o, s) && Apply(o, s, step) == Some(s')
    ensures Inv(o, s')
  {
    match step
    case ReaderDoes(side, a) => ReaderKeepsInv(o, s, side, a, s');
    case WriterDoes(side, a) => WriterKeepsInv(o, s, side, a, s');
    case GroupReturns(side) => ReturnKeepsInv(o, s, side, s');
    case CancelParent(_) => assert forall b: BufId :: Holders(s', b) == Holders(s, b);
    case HearCancel(side) => HearKeepsInv(o, s, side, s');
    case PoolDoes(a) => PoolKeepsInv(o, s, a, s');
  }

  // ---------------------------------------------------------------- theorems over runs

  lemma {:induction false} RunKeepsInv(o: Options, steps: seq<Step>, states: seq<State>, i: nat)
    requires IsRun(o, steps, states) && i < |states|
    ensures Inv(o, states[i])
  {
    if i == 0 {
      var s := states[0];
      forall b: BufId ensures Holders(s, b) == if b < |s.heap.content| then 1 else 0 {
        assert (s.heap.pool + s.heap.peers + s.heap.lost)[b] == HeapHolds(s.heap, b);
      }
    } else {
      RunKeepsInv(o, steps, states, i - 1);
      StepKeepsInv(o, states[i - 1], steps[i - 1], states[i]);
    }
  }

  lemma RunOneHolder(o: Options, steps: seq<Step>, states: seq<State>, i: nat, b: BufId)
    requires IsRun(o, steps, states) && i < |states|
    ensures Holders(states[i], b) == if b < |states[i].heap.content| then 1 else 0
  {
    RunKeepsInv(o, steps, states, i);
  }

  /** In every interleaving each buffer has exactly one holder among the pool, the peers, the
      garbage, the two readers, the two queues and the two writers. */
  lemma OneHolderPerBuffer(o: Options, steps: seq<Step>, states: seq<State>, i: nat, b: BufId)
    requires IsRun(o, steps, states) && i < |states| && b < |states[i].heap.content|
    ensures
      var s := states[i];
      s.heap.pool[b] + s.heap.peers[b] + s.heap.lost[b] + DirHolds(s.sent, b) + DirHolds(s.received, b) == 1
  {
    RunOneHolder(o, steps, states, i, b);
  }

  /** The step gives buffer `b` back. */
  ghost predicate GivesBack(s: State, step: Step, b: BufId) {
    match step
    case ReaderDoes(side, a) =>
      a.ReaderProceeds? && s.At(side).reader.Releasing? && s.At(side).reader.buf == b
    case WriterDoes(side, a) =>
      a.WriterProceeds? && s.At(side).writer.Freeing? && s.At(side).writer.chunk.buf == b
    case _ => false
  }

  predicate ChecksOut(step: Step, b: BufId) {
    step.ReaderDoes? && step.ra == GetPooled(b)
  }

  /** Only a checkout takes a buffer out of the heap's hands. */
  lemma HeapKeepsBuffer(o: Options, s: State, step: Step, s': State, b: BufId)
    requires Apply(o, s, step) == Some(s') && !ChecksOut(step, b)
    ensures HeapHolds(s'.heap, b) >= HeapHolds(s.heap, b)
  {
    match step
    case PoolDoes(a) => PoolStepMoves(s.heap, a, s'.heap, b);
    case ReaderDoes(side, a) =>
      if a.ReaderProceeds? { ReaderProceedHeap(LocalOf(s, side), b); }
    case _ =>
  }

  lemma ReaderProceedHeap(l: Local, b: BufId)
    ensures ReaderProceed(l).Some? ==> HeapHolds(ReaderProceed(l).value.heap, b) >= HeapHolds(l.heap, b)
  {
  }

  lemma GivenBackIsInHeap(o: Options, s: State, step: Step, s': State, b: BufId)
    requires Holders(s', b) <= 1 && Apply(o, s, step) == Some(s') && GivesBack(s, step, b)
    ensures HeapHolds(s'.heap, b) == 1
  {
  }

  lemma HeapKeepsAt(o: Options, steps: seq<Step>, states: seq<State>, k: nat, b: BufId)
    requires IsRun(o, steps, states) && k < |steps| && !ChecksOut(steps[k], b)
    requires HeapHolds(states[k].heap, b) == 1
    ensures HeapHolds(states[k + 1].heap, b) == 1
  {
    HeapKeepsBuffer(o, states[k], steps[k], states[k + 1], b);
    RunOneHolder(o, steps, states, k + 1, b);
  }

  lemma {:induction false} StaysInHeap(heaps: seq<Heap>, i: nat, j: nat, b: BufId)
    requires i <= j < |heaps| && HeapHolds(heaps[i], b) == 1
    requires forall k :: i <= k < j && HeapHolds(heaps[k], b) == 1 ==> HeapHolds(heaps[k + 1], b) == 1
    ensures HeapHolds(heaps[j], b) == 1
    decreases j
  {
    if i < j { StaysInHeap(heaps, i, j - 1, b); }
  }

  /** Without a checkout in between, a buffer the heap holds stays in its hands. */
  lemma StaysUnlessCheckedOut(o: Options, steps: seq<Step>, states: seq<State>, i: nat, j: nat, b: BufId)
    requires IsRun(o, steps, states) && i <= j < |states| && HeapHolds(states[i].heap, b) == 1
    requires forall k :: i <= k < j ==> !ChecksOut(steps[k], b)
    ensures HeapHolds(states[j].heap, b) == 1
  {
    var heaps := seq(|states|, k requires 0 <= k < |states| => states[k].heap);
    forall k | i <= k < j && HeapHolds(heaps[k], b) == 1 ensures HeapHolds(heaps[k + 1], b) == 1 {
      HeapKeepsAt(o, steps, states, k, b);
    }
    StaysInHeap(heaps, i, j, b);
  }

  /** Between two releases of one buffer there is a checkout of it. */
  lemma ReleasedOncePerCheckout(o: Options, steps: seq<Step>, states: seq<State>, i: nat, j: nat, b: BufId)
    requires IsRun(o, steps, states) && i < j < |steps|
    requires GivesBack(states[i], steps[i], b) && GivesBack(states[j], steps[j], b)
    ensures exists k :: i < k < j && ChecksOut(steps[k], b)
  {
    RunOneHolder(o, steps, states, i + 1, b);
    GivenBackIsInHeap(o, states[i], steps[i], states[i + 1], b);
    RunOneHolder(o, steps, states, j, b);
    if forall k :: i + 1 <= k < j ==> !ChecksOut(steps[k], b) {
      StaysUnlessCheckedOut(o, steps, states, i + 1, j, b);
    }
  }

  /** Bytes written to a destination are always a prefix of the bytes read from its source. */
  lemma DeliveredIsPrefix(o: Options, steps: seq<Step>, states: seq<State>, i: nat, side: Side)
    requires IsRun(o, steps, states) && i < |states|
    ensures states[i].At(side).dest <= states[i].At(side).source
  {
    RunKeepsInv(o, steps, states, i);
  }

  // ---------------------------------------------------------------- what was read

  predicate IsRead(step: Step, side: Side) {
    step.ReaderDoes? && step.side == side && step.ra.ReadReturns?
  }

  /** The bytes that the source reads of a direction returned, in order. */
  function BytesRead(steps: seq<Step>, side: Side): seq<Byte> {
    if steps == [] then []
    else
      var n := |steps| - 1;
      BytesRead(steps[..n], side) + if IsRead(steps[n], side) then steps[n].ra.data else []
  }

  /** The last source read of a direction reported the end of the source. */
  ghost predicate ReadToEnd(steps: seq<Step>, side: Side) {
    exists j :: 0 <= j < |steps| && IsRead(steps[j], side) && steps[j].ra.end == Eof
                && forall k :: j < k < |steps| ==> !IsRead(steps[k], side)
  }

  lemma SourceStep(o: Options, s: State, step: Step, s': State, side: Side)
    requires Apply(o, s, step) == Some(s')
    ensures s'.At(side).source == s.At(side).source + if IsRead(step, side) then step.ra.data else []
  {
    assert s.At(side).source + [] == s.At(side).source;
    match step
    case ReaderDoes(_, a) => if a.ReaderProceeds? { ReaderProceedSource(LocalOf(s, step.side)); }
    case _ =>
  }

  lemma ReaderProceedSource(l: Local)
    ensures ReaderProceed(l).Some? ==> ReaderProceed(l).value.dir.source == l.dir.source
  {
  }

  /** A direction's source is what its reads returned. */
  lemma {:induction false} SourceIsRead(o: Options, steps: seq<Step>, states: seq<State>, i: nat, side: Side)
    requires IsRun(o, steps, states) && i < |states|
    ensures states[i].At(side).source == BytesRead(steps[..i], side)
  {
    if i > 0 {
      SourceIsRead(o, steps, states, i - 1, side);
      SourceStep(o, states[i - 1], steps[i - 1], states[i], side);
      assert steps[..i][..i - 1] == steps[..i - 1];
    }
  }

  /** Where a reader can be only once the source has ended. */
  predicate PastEnd(r: Reader) {
    match r
    case Measuring(_, end) => end == Eof
    case Recording(_, end, _) => end == Eof
    case Sending(_, end) => end == Eof
    case Releasing(_, after) => after == EmptyRead(Eof)
    case ClosingQueue(out) => out == Clean
    case ReaderReporting(out) => out == Clean
    case ReaderDone(out) => out == Clean
    case _ => false
  }

  lemma ReaderPastEnd(o: Options, l: Local, a: ReaderAction, l': Local)
    requires ReaderStep(o, l, a) == Some(l') && PastEnd(l'.dir.reader)
    ensures if a.ReadReturns? then a.end == Eof else PastEnd(l.dir.reader)
  {
    if a.ReaderProceeds? { ReaderProceedPastEnd(l, l'); }
  }

  lemma ReaderProceedPastEnd(l: Local, l': Local)
    requires ReaderProceed(l) == Some(l') && PastEnd(l'.dir.reader)
    ensures PastEnd(l.dir.reader)
  {
  }

  lemma StepPastEnd(o: Options, s: State, step: Step, s': State, side: Side)
    requires Apply(o, s, step) == Some(s') && PastEnd(s'.At(side).reader)
    ensures if IsRead(step, side) then step.ra.end == Eof else PastEnd(s.At(side).reader)
  {
    match step
    case ReaderDoes(x, a) =>
      if x == side { ReaderPastEnd(o, LocalOf(s, x), a, ReaderStep(o, LocalOf(s, x), a).value); }
    case _ =>
  }

  lemma EndReadByStep(o: Options, s: State, step: Step, s': State, p: seq<Step>, side: Side)
    requires Apply(o, s, step) == Some(s') && PastEnd(s'.At(side).reader)
    requires PastEnd(s.At(side).reader) ==> ReadToEnd(p, side)
    ensures ReadToEnd(p + [step], side)
  {
    StepPastEnd(o, s, step, s', side);
    if IsRead(step, side) {
      assert (p + [step])[|p|] == step;
    } else {
      ReadToEndGrows(p, step, side);
    }
  }

  lemma EndWasRead(o: Options, steps: seq<Step>, states: seq<State>, i: nat, side: Side)
    requires IsRun(o, steps, states) && i < |states| && PastEnd(states[i].At(side).reader)
    ensures ReadToEnd(steps[..i], side)
  {
    var f := (s: State, step: Step) => Apply(o, s, step);
    var p := (s: State, q: seq<Step>) => PastEnd(s.At(side).reader) ==> ReadToEnd(q, side);
    forall s, q, step | p(s, q) && f(s, step).Some? ensures p(f(s, step).value, q + [step]) {
      if PastEnd(f(s, step).value.At(side).reader) { EndReadByStep(o, s, step, f(s, step).value, q, side); }
    }
    Along(f, p, steps, states, i);
  }

  lemma ReadToEndGrows(steps: seq<Step>, step: Step, side: Side)
    requires ReadToEnd(steps, side) && !IsRead(step, side)
    ensures ReadToEnd(steps + [step], side)
  {
    var j :| 0 <= j < |steps| && IsRead(steps[j], side) && steps[j].ra.end == Eof
             && forall k :: j < k < |steps| ==> !IsRead(steps[k], side);
    assert (steps + [step])[j] == steps[j];
  }

  /** A direction relayed its whole stream: its last read reported the end of the source, and the
      destination has exactly the bytes that the reads returned. */
  ghost predicate Relayed(steps: seq<Step>, s: State, side: Side) {
    ReadToEnd(steps, side) && s.At(side).dest == BytesRead(steps, side)
  }

  /** A direction that returns nil read its source to the end, delivered exactly that, and counted
      all of it. */
  lemma NilMeansDelivered(o: Options, steps: seq<Step>, states: seq<State>, i: nat, side: Side)
    requires IsRun(o, steps, states) && i < |states|
    requires states[i].At(side).returned && states[i].At(side).err == Clean
    ensures Relayed(steps[..i], states[i], side)
    ensures states[i].At(side).counted == |states[i].At(side).dest|
  {
    RunKeepsInv(o, steps, states, i);
    var s := states[i];
    NothingInFlight(o, s.heap.content, s.At(side));
    SourceIsRead(o, steps, states, i, side);
    EndWasRead(o, steps, states, i, side);
  }

  lemma NothingInFlight(o: Options, content: Content, d: Dir)
    requires DirInv(o, content, d) && d.returned && d.err == Clean
    ensures d.dest == d.source && d.counted == |d.dest| && d.reader == ReaderDone(Clean)
  {
    assert InFlight(content, d) == [];
  }

  /** The pair returns without an error of its own only if both directions were complete. */
  lemma PairNilMeansDelivered(o: Options, steps: seq<Step>, states: seq<State>, i: nat)
    requires IsRun(o, steps, states) && i < |states|
    requires states[i].sent.returned && states[i].received.returned && states[i].err == Clean
    ensures Relayed(steps[..i], states[i], Sent) && Relayed(steps[..i], states[i], Received)
  {
    RunKeepsInv(o, steps, states, i);
    NilMeansDelivered(o, steps, states, i, Sent);
    NilMeansDelivered(o, steps, states, i, Received);
  }

  /** The byte counter never runs ahead, and lags by at most one chunk. */
  lemma CounterLagsOneChunk(o: Options, steps: seq<Step>, states: seq<State>, i: nat, side: Side)
    requires IsRun(o, steps, states) && i < |states|
    ensures
      var d := states[i].At(side);
      d.counted <= |d.dest| <= d.counted + o.bufferSize
  {
    RunKeepsInv(o, steps, states, i);
  }

  lemma InFlightBound(o: Options, content: Content, d: Dir)
    requires DirInv(o, content, d)
    ensures |InFlight(content, d)| <= |d.queue| * o.bufferSize + 2 * o.bufferSize
  {
    QueueBound(o, content, d.queue);
    assert |WriterPart(content, d.writer, d.writeLost)| <= o.bufferSize;
    assert |ReaderPart(content, d.reader, d.readLost)| <= o.bufferSize;
  }

  lemma MulGrows(a: nat, b: nat, k: nat)
    requires a <= b
    ensures a * k + 2 * k <= (b + 2) * k
  {
    assert (b + 2) * k - a * k - 2 * k == (b - a) * k;
  }

  /** At most a queue of chunks, one with the reader and one with the writer are ever in flight. */
  lemma BacklogBounded(o: Options, steps: seq<Step>, states: seq<State>, i: nat, side: Side)
    requires IsRun(o, steps, states) && i < |states|
    ensures |states[i].At(side).source| - |states[i].At(side).dest| <= (o.queueSize + 2) * o.bufferSize
  {
    RunKeepsInv(o, steps, states, i);
    InFlightBound(o, states[i].heap.content, states[i].At(side));
    MulGrows(|states[i].At(side).queue|, o.queueSize, o.bufferSize);
  }

  /** The recorded depth stays within the queue plus the chunk about to enter it; once both
      directions returned, drops equal queue timeouts: one for each reader that hit backpressure. */
  lemma StatsAreExact(o: Options, steps: seq<Step>, states: seq<State>, i: nat)
    requires IsRun(o, steps, states) && i < |states|
    ensures states[i].stats.maxQueueDepth <= o.queueSize + 1
    ensures
      var s := states[i];
      s.sent.returned && s.received.returned ==>
        s.stats.droppedFrames == s.stats.queueTimeouts
        == (if s.sent.reader == ReaderDone(Dropped) then 1 else 0)
           + (if s.received.reader == ReaderDone(Dropped) then 1 else 0)
  {
    RunKeepsInv(o, steps, states, i);
  }
}
