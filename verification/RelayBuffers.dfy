/** Where the relay's buffers end up: one of the pooled size is never lost by the relay, so when a pair is
    done they are back in the pool. */
module RelayBuffers {
  import opened Common
  import opened Runs
  import opened Relay
  import opened RelayProofs
  import opened RelayResult

  /** The garbage collector takes a buffer out of the pool. */
  predicate Evicts(step: Step, b: BufId) { step == PoolDoes(Evict(b)) }

  ghost predicate Evicted(steps: seq<Step>, b: BufId) {
    exists j :: 0 <= j < |steps| && Evicts(steps[j], b)
  }

  predicate PooledSize(h: Heap, b: BufId) { b < |h.content| && |h.content[b]| == 32768 }

  /** `h'` keeps the sizes of `h`'s buffers, and garbage of the pooled size only if evicted. */
  ghost predicate HeapStep(h: Heap, h': Heap, b: BufId, evicts: bool) {
    && |h.content| <= |h'.content|
    && (b < |h.content| ==> |h'.content[b]| == |h.content[b]|)
    && (h'.lost[b] > h.lost[b] ==> b < |h.content| && (evicts || |h.content[b]| != 32768))
  }

  lemma ReaderOnHeap(o: Options, l: Local, a: ReaderAction, l': Local, b: BufId)
    requires ReaderStep(o, l, a) == Some(l')
    ensures HeapStep(l.heap, l'.heap, b, false)
  {
    if a.ReaderProceeds? { ReaderProceedOnHeap(l, l', b); }
  }

  lemma ReaderProceedOnHeap(l: Local, l': Local, b: BufId)
    requires ReaderProceed(l) == Some(l')
    ensures HeapStep(l.heap, l'.heap, b, false)
  {
  }

  lemma WriterOnHeap(l: Local, a: WriterAction, l': Local, b: BufId)
    requires WriterStep(l, a) == Some(l')
    ensures HeapStep(l.heap, l'.heap, b, false)
  {
  }

  lemma PoolOnHeap(h: Heap, a: PoolAction, h': Heap, b: BufId)
    requires PoolSized(h) && PoolStep(h, a) == Some(h')
    ensures HeapStep(h, h', b, a == Evict(b))
  {
  }

  lemma StepOnHeap(o: Options, s: State, step: Step, s': State, b: BufId)
    requires PoolSized(s.heap) && Apply(o, s, step) == Some(s')
    ensures HeapStep(s.heap, s'.heap, b, Evicts(step, b))
  {
    match step
    case ReaderDoes(x, a) => ReaderOnHeap(o, LocalOf(s, x), a, ReaderStep(o, LocalOf(s, x), a).value, b);
    case WriterDoes(x, a) => WriterOnHeap(LocalOf(s, x), a, WriterStep(LocalOf(s, x), a).value, b);
    case PoolDoes(a) => PoolOnHeap(s.heap, a, s'.heap, b);
    case _ =>
  }

  /** A buffer of the pooled size that is garbage was so at the start or was evicted. */
  ghost predicate LostFairly(start: Heap, h: Heap, steps: seq<Step>, b: BufId) {
    h.lost[b] > 0 && PooledSize(h, b) ==> start.lost[b] > 0 || Evicted(steps, b)
  }

  lemma EvictedGrows(steps: seq<Step>, step: Step, b: BufId)
    requires Evicted(steps, b) || Evicts(step, b)
    ensures Evicted(steps + [step], b)
  {
    var q := steps + [step];
    if Evicted(steps, b) {
      var j :| 0 <= j < |steps| && Evicts(steps[j], b);
      assert Evicts(q[j], b);
    } else {
      assert Evicts(q[|steps|], b);
    }
  }

  lemma FairStep(start: Heap, h: Heap, h': Heap, steps: seq<Step>, step: Step, b: BufId)
    requires LostFairly(start, h, steps, b) && HeapStep(h, h', b, Evicts(step, b))
    requires h.lost[b] > 0 ==> b < |h.content|
    ensures LostFairly(start, h', steps + [step], b)
  {
    if Evicted(steps, b) || Evicts(step, b) { EvictedGrows(steps, step, b); }
  }

  lemma NextFair(o: Options, start: Heap, s: State, step: Step, s': State, q: seq<Step>, b: BufId)
    requires Inv(o, s) && LostFairly(start, s.heap, q, b) && Apply(o, s, step) == Some(s')
    ensures Inv(o, s') && LostFairly(start, s'.heap, q + [step], b)
  {
    StepKeepsInv(o, s, step, s');
    HeldIsAllocated(s, b);
    StepOnHeap(o, s, step, s', b);
    FairStep(start, s.heap, s'.heap, q, step, b);
  }

  lemma HeldIsAllocated(s: State, b: BufId)
    requires Ownership(s)
    ensures s.heap.lost[b] > 0 ==> b < |s.heap.content|
  {
    assert Holders(s, b) == if b < |s.heap.content| then 1 else 0;
  }

  lemma NothingLeaks(o: Options, steps: seq<Step>, states: seq<State>, i: nat, b: BufId)
    requires IsRun(o, steps, states) && i < |states|
    ensures LostFairly(states[0].heap, states[i].heap, steps[..i], b)
  {
    var start := states[0].heap;
    var f := (s: State, step: Step) => Apply(o, s, step);
    var p := (s: State, q: seq<Step>) => Inv(o, s) && LostFairly(start, s.heap, q, b);
    forall s, q, step | p(s, q) && f(s, step).Some? ensures p(f(s, step).value, q + [step]) {
      NextFair(o, start, s, step, f(s, step).value, q, b);
    }
    RunKeepsInv(o, steps, states, 0);
    Along(f, p, steps, states, i);
  }

  lemma DoneHoldsNothing(o: Options, content: Content, d: Dir, b: BufId)
    requires DirInv(o, content, d) && d.returned && d.err == Clean
    ensures DirHolds(d, b) == 0
  {
    NothingInFlight(o, content, d);
  }

  /** When both directions have returned nil, every buffer of the pooled size is in the pool, unless another
      relay has it, the garbage collector took it out of the pool, or it was garbage to begin with. */
  lemma BuffersComeBack(o: Options, steps: seq<Step>, states: seq<State>, i: nat, b: BufId)
    requires IsRun(o, steps, states) && i < |states|
    requires forall side: Side :: states[i].At(side).returned && states[i].At(side).err == Clean
    requires PooledSize(states[i].heap, b)
    ensures b in states[i].heap.pool || b in states[i].heap.peers
            || Evicted(steps[..i], b) || b in states[0].heap.lost
  {
    var s := states[i];
    RunKeepsInv(o, steps, states, i);
    assert s.At(Sent).returned && s.At(Received).returned;
    DoneHoldsNothing(o, s.heap.content, s.sent, b);
    DoneHoldsNothing(o, s.heap.content, s.received, b);
    NothingLeaks(o, steps, states, i, b);
    assert Holders(s, b) == 1;
  }

  // ---------------------------------------------------------------- recycling

  /** Buffers really change hands: in some run without a timeout one direction reads into a buffer, gives it
      back, and the other direction then reads into the same one. */
  lemma BufferChangesHands(o: Options, c: Caller) returns (s: State, s': State)
    requires o.bufferSize == 32768
    ensures At(o, c, s) && At(o, c, s')
    ensures s.sent.reader == Reading(0) && s'.received.reader == Reading(0) && s'.sent.reader == Getting
  {
    s := Start(o, c);
    s := GetsBuffer(o, c, s, Sent);
    s' := ReadsAndGivesBack(o, c, s);
    var h := s'.heap.(pool := s'.heap.pool - multiset{0});
    s' := ReaderGoes(o, c, s', Received, GetPooled(0), Local(h, s'.stats, s'.received.(reader := Reading(0))));
  }

  lemma ReadsAndGivesBack(o: Options, c: Caller, s: State) returns (s': State)
    requires o.bufferSize == 32768 && At(o, c, s) && s.heap.content == [Blank(o.bufferSize)]
    requires s.sent.reader == Reading(0) && s.received.reader == Getting
    ensures At(o, c, s') && s'.sent.reader == Getting && s'.received.reader == Getting && 0 in s'.heap.pool
  {
    var blank := s.heap.content[0];
    assert [] + blank[0..] == blank && s.heap.content[0 := blank] == s.heap.content;
    assert s.sent.source + [] == s.sent.source;
    s' := ReaderGoes(o, c, s, Sent, ReadReturns([], More),
                     Local(s.heap, s.stats, s.sent.(reader := Releasing(0, EmptyRead(More)))));
    s' := ReaderGoes(o, c, s', Sent, ReaderProceeds,
                     Local(s'.heap.Release(0), s'.stats, s'.sent.(reader := Getting)));
  }
}
