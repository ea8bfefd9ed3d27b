/** Where the relay's errors and figures come from: every error a direction returns was reported by one
    of its own reads or writes or is that of the pair's context, and the statistics count what happened
    in the run. */
module RelayBlame {
  import opened Common
  import opened Runs
  import opened Relay
  import opened RelayProofs
  import opened RelayResult

  // ---------------------------------------------------------------- errors

  /** The error that a read or write of a direction reports. */
  function Reported(step: Step, side: Side): set<IoError> {
    match step
    case ReaderDoes(x, ReadReturns(_, ReadFailed(e))) => if x == side then {e} else {}
    case WriterDoes(x, WriteReturns(Some(e))) => if x == side then {e} else {}
    case _ => {}
  }

  function AllReported(steps: seq<Step>, side: Side): set<IoError> {
    if steps == [] then {}
    else AllReported(steps[..|steps| - 1], side) + Reported(steps[|steps| - 1], side)
  }

  /** What a direction may return: what was reported to it, and the error of the pair's context. */
  function Causes(steps: seq<Step>, side: Side, ended: Option<IoError>): set<IoError> {
    AllReported(steps, side) + if ended.Some? then {ended.value} else {}
  }

  /** What a goroutine may return: once the other one has failed, a cancellation too. */
  function Within(causes: set<IoError>, err: Outcome): set<IoError> {
    if err == Clean then causes else causes + {Canceled}
  }

  predicate TimesOut(step: Step, side: Side) { step == ReaderDoes(side, EnqueueTimeout) }

  ghost predicate HasTimedOut(steps: seq<Step>, side: Side) {
    exists j :: 0 <= j < |steps| && TimesOut(steps[j], side)
  }

  /** An outcome that `causes`, or a queue timeout if there was one, explains. */
  predicate Explained(out: Outcome, causes: set<IoError>, timedOut: bool) {
    match out
    case Clean => true
    case Dropped => timedOut
    case Failed(e) => e in causes
  }

  predicate ReadExplained(end: ReadEnd, causes: set<IoError>) {
    end.ReadFailed? ==> end.e in causes
  }

  predicate ReaderExplained(r: Reader, causes: set<IoError>, timedOut: bool) {
    match r
    case Measuring(_, end) => ReadExplained(end, causes)
    case Recording(_, end, _) => ReadExplained(end, causes)
    case Sending(_, end) => ReadExplained(end, causes)
    case Releasing(_, after) =>
      (match after
       case EmptyRead(end) => ReadExplained(end, causes)
       case OnCancel(e) => e in causes
       case OnTimeout => timedOut)
    case CountingDrop => timedOut
    case CountingTimeout => timedOut
    case ClosingQueue(out) => Explained(out, causes, timedOut)
    case ReaderReporting(out) => Explained(out, causes, timedOut)
    case ReaderDone(out) => Explained(out, causes, timedOut)
    case _ => true
  }

  predicate WriterExplained(w: Writer, causes: set<IoError>, timedOut: bool) {
    match w
    case Freeing(_, err) => err.Some? ==> err.value in causes
    case CountingWriteTimeout => Timeout in causes
    case ClosingDst(out) => Explained(out, causes, timedOut)
    case WriterReporting(out) => Explained(out, causes, timedOut)
    case WriterDone(out) => Explained(out, causes, timedOut)
    case _ => true
  }

  predicate DirExplained(d: Dir, causes: set<IoError>, timedOut: bool) {
    && ReaderExplained(d.reader, Within(causes, d.err), timedOut)
    && WriterExplained(d.writer, Within(causes, d.err), timedOut)
    && Explained(d.err, causes, timedOut)
    && (d.ended.Some? ==> d.ended.value in Within(causes, d.err))
  }

  lemma MoreCauses(d: Dir, causes: set<IoError>, timedOut: bool, causes': set<IoError>, timedOut': bool)
    requires DirExplained(d, causes, timedOut) && causes <= causes' && (timedOut ==> timedOut')
    ensures DirExplained(d, causes', timedOut')
  {
    assert Within(causes, d.err) <= Within(causes', d.err);
  }

  lemma ReportExplained(d: Dir, out: Outcome, causes: set<IoError>, timedOut: bool)
    requires DirExplained(d, causes, timedOut) && Explained(out, Within(causes, d.err), timedOut)
    ensures
      var d' := Report(d, out);
      && DirExplained(d', causes, timedOut) && Within(causes, d.err) <= Within(causes, d'.err)
      && Explained(out, Within(causes, d'.err), timedOut)
  {
  }

  lemma AfterReleasingExplained(b: BufId, after: AfterRelease, causes: set<IoError>, timedOut: bool)
    requires ReaderExplained(Releasing(b, after), causes, timedOut)
    ensures ReaderExplained(AfterReleasing(after), causes, timedOut)
  {
  }

  lemma ReaderProceedExplained(l: Local, l': Local, causes: set<IoError>, timedOut: bool)
    requires DirExplained(l.dir, causes, timedOut) && ReaderProceed(l) == Some(l')
    ensures DirExplained(l'.dir, causes, timedOut)
  {
    match l.dir.reader
    case ReaderReporting(out) =>
      ReportExplained(l.dir, out, causes, timedOut);
      assert l'.dir == Report(l.dir, out).(reader := ReaderDone(out));
    case Releasing(b, after) => AfterReleasingExplained(b, after, Within(causes, l.dir.err), timedOut);
    case _ =>
  }

  lemma ReaderStepExplained(o: Options, l: Local, a: ReaderAction, l': Local, causes: set<IoError>, timedOut: bool)
    requires DirExplained(l.dir, causes, timedOut) && ReaderStep(o, l, a) == Some(l')
    requires a.ReadReturns? && a.end.ReadFailed? ==> a.end.e in causes
    requires a.EnqueueTimeout? ==> timedOut
    ensures DirExplained(l'.dir, causes, timedOut)
  {
    if a.ReaderProceeds? { ReaderProceedExplained(l, l', causes, timedOut); }
  }

  lemma WriterProceedExplained(l: Local, l': Local, causes: set<IoError>, timedOut: bool)
    requires DirExplained(l.dir, causes, timedOut) && WriterProceed(l) == Some(l')
    ensures DirExplained(l'.dir, causes, timedOut)
  {
    match l.dir.writer
    case WriterReporting(out) =>
      ReportExplained(l.dir, out, causes, timedOut);
      assert l'.dir == Report(l.dir, out).(writer := WriterDone(out));
    case _ =>
  }

  lemma WriterStepExplained(l: Local, a: WriterAction, l': Local, causes: set<IoError>, timedOut: bool)
    requires DirExplained(l.dir, causes, timedOut) && WriterStep(l, a) == Some(l')
    requires a.WriteReturns? && a.err.Some? ==> a.err.value in causes
    ensures DirExplained(l'.dir, causes, timedOut)
  {
    if a.WriterProceeds? { WriterProceedExplained(l, l', causes, timedOut); }
  }

  lemma StepExplained(o: Options, s: State, step: Step, s': State, side: Side, causes: set<IoError>, timedOut: bool)
    requires DirExplained(s.At(side), causes, timedOut) && Apply(o, s, step) == Some(s')
    requires Reported(step, side) <= causes && (TimesOut(step, side) ==> timedOut)
    requires s.ended.Some? ==> s.ended.value in causes
    ensures DirExplained(s'.At(side), causes, timedOut)
  {
    match step
    case ReaderDoes(x, a) =>
      if x == side {
        ReaderStepExplained(o, LocalOf(s, x), a, ReaderStep(o, LocalOf(s, x), a).value, causes, timedOut);
      }
    case WriterDoes(x, a) =>
      if x == side { WriterStepExplained(LocalOf(s, x), a, WriterStep(LocalOf(s, x), a).value, causes, timedOut); }
    case _ =>
  }

  lemma TimedOutGrows(steps: seq<Step>, step: Step, side: Side)
    ensures HasTimedOut(steps + [step], side) <==> HasTimedOut(steps, side) || TimesOut(step, side)
  {
    var q := steps + [step];
    if HasTimedOut(steps, side) {
      var j :| 0 <= j < |steps| && TimesOut(steps[j], side);
      assert TimesOut(q[j], side);
    }
    assert TimesOut(step, side) ==> TimesOut(q[|steps|], side);
  }

  lemma EndStays(o: Options, s: State, step: Step, s': State)
    requires Apply(o, s, step) == Some(s')
    ensures s.ended.Some? ==> s'.ended == s.ended
  {
  }

  /** A direction's state, with everything that happened up to now. */
  ghost predicate StateExplained(s: State, side: Side, steps: seq<Step>) {
    DirExplained(s.At(side), Causes(steps, side, s.ended), HasTimedOut(steps, side))
  }

  lemma NextExplained(o: Options, s: State, step: Step, s': State, p: seq<Step>, side: Side)
    requires StateExplained(s, side, p) && Apply(o, s, step) == Some(s')
    ensures StateExplained(s', side, p + [step])
  {
    var q := p + [step];
    var before, after := Causes(p, side, s.ended), Causes(q, side, s'.ended);
    assert q[..|p|] == p;
    TimedOutGrows(p, step, side);
    EndStays(o, s, step, s');
    MoreCauses(s.At(side), before, HasTimedOut(p, side), after, HasTimedOut(q, side));
    StepExplained(o, s, step, s', side, after, HasTimedOut(q, side));
  }

  lemma StartExplained(s: State, side: Side)
    requires Init(s)
    ensures StateExplained(s, side, [])
  {
  }

  lemma RunExplained(o: Options, steps: seq<Step>, states: seq<State>, i: nat, side: Side)
    requires IsRun(o, steps, states) && i < |states|
    ensures StateExplained(states[i], side, steps[..i])
  {
    var f := (s: State, step: Step) => Apply(o, s, step);
    var p := (s: State, q: seq<Step>) => StateExplained(s, side, q);
    forall s, q, step | p(s, q) && f(s, step).Some? ensures p(f(s, step).value, q + [step]) {
      NextExplained(o, s, step, f(s, step).value, q, side);
    }
    StartExplained(states[0], side);
    Along(f, p, steps, states, i);
  }

  lemma {:induction false} ReportedOnce(steps: seq<Step>, side: Side, e: IoError)
    requires e in AllReported(steps, side)
    ensures exists j :: 0 <= j < |steps| && e in Reported(steps[j], side)
  {
    var n := |steps| - 1;
    if e !in Reported(steps[n], side) {
      ReportedOnce(steps[..n], side, e);
      var j :| 0 <= j < n && e in Reported(steps[..n][j], side);
      assert e in Reported(steps[j], side);
    }
  }

  /** The error a direction returns was reported by one of its own reads or writes or is that of the pair's
      context; the backpressure error follows a queue timeout of its own reader. */
  lemma ErrorsHaveCauses(o: Options, steps: seq<Step>, states: seq<State>, i: nat, side: Side)
    requires IsRun(o, steps, states) && i < |states|
    ensures
      match states[i].At(side).err
      case Clean => true
      case Dropped => HasTimedOut(steps[..i], side)
      case Failed(e) => states[i].ended == Some(e) || exists j :: 0 <= j < i && e in Reported(steps[j], side)
  {
    RunExplained(o, steps, states, i, side);
    var err := states[i].At(side).err;
    if err.Failed? && states[i].ended != Some(err.e) {
      ReportedOnce(steps[..i], side, err.e);
      var j :| 0 <= j < |steps[..i]| && err.e in Reported(steps[..i][j], side);
      assert err.e in Reported(steps[j], side);
    }
  }

  /** The pair's context ended with an error of the parent, or was cancelled by a direction that failed. */
  ghost predicate EndExplained(s: State, steps: seq<Step>) {
    s.ended.Some? ==>
      || (exists j :: 0 <= j < |steps| && steps[j] == CancelParent(s.ended.value))
      || (s.ended == Some(Canceled) && s.err != Clean)
  }

  lemma NextEndExplained(o: Options, s: State, step: Step, s': State, p: seq<Step>)
    requires EndExplained(s, p) && Apply(o, s, step) == Some(s')
    ensures EndExplained(s', p + [step])
  {
    EndStays(o, s, step, s');
    ErrorStays(o, s, step, s');
    var q := p + [step];
    if s.ended.Some? {
      if j :| 0 <= j < |p| && p[j] == CancelParent(s.ended.value) { assert q[j] == p[j]; }
    } else if s'.ended.Some? {
      assert q[|p|] == step;
    }
  }

  lemma ErrorStays(o: Options, s: State, step: Step, s': State)
    requires Apply(o, s, step) == Some(s')
    ensures s.err != Clean ==> s'.err == s.err
  {
  }

  lemma ContextHasCause(o: Options, steps: seq<Step>, states: seq<State>, i: nat)
    requires IsRun(o, steps, states) && i < |states|
    ensures EndExplained(states[i], steps[..i])
  {
    var f := (s: State, step: Step) => Apply(o, s, step);
    var p := (s: State, q: seq<Step>) => EndExplained(s, q);
    forall s, q, step | p(s, q) && f(s, step).Some? ensures p(f(s, step).value, q + [step]) {
      NextEndExplained(o, s, step, f(s, step).value, q);
    }
    Along(f, p, steps, states, i);
  }

  /** The pair's error, before timeouts are turned into nil, is that of a direction that returned it. */
  lemma {:induction false} PairErrorIsADirections(o: Options, steps: seq<Step>, states: seq<State>, i: nat)
    requires IsRun(o, steps, states) && i < |states| && states[i].err != Clean
    ensures exists side: Side :: states[i].At(side).returned && states[i].At(side).err == states[i].err
  {
    if i > 0 {
      RunKeepsInv(o, steps, states, i - 1);
      if states[i - 1].err != Clean { PairErrorIsADirections(o, steps, states, i - 1); }
      PairErrorStep(o, states[i - 1], steps[i - 1], states[i]);
    }
  }

  ghost predicate ErrorHeld(s: State) {
    s.err != Clean ==> exists side: Side :: s.At(side).returned && s.At(side).err == s.err
  }

  lemma PairErrorStep(o: Options, s: State, step: Step, s': State)
    requires Inv(o, s) && ErrorHeld(s) && Apply(o, s, step) == Some(s')
    ensures ErrorHeld(s')
  {
    match step
    case ReaderDoes(x, a) => ReaderHolds(o, s, x, a, s');
    case WriterDoes(x, a) => WriterHolds(o, s, x, a, s');
    case GroupReturns(x) => ReturnHolds(s, s', x);
    case HearCancel(x) => HearHolds(s, s', x);
    case _ => SameHolds(s, s');
  }

  lemma ReaderHolds(o: Options, s: State, x: Side, a: ReaderAction, s': State)
    requires Inv(o, s) && ErrorHeld(s) && Apply(o, s, ReaderDoes(x, a)) == Some(s')
    ensures ErrorHeld(s')
  {
    ReaderNotReturned(o, LocalOf(s, x), a, ReaderStep(o, LocalOf(s, x), a).value);
    KeepsReturned(s, s', x);
  }

  lemma WriterHolds(o: Options, s: State, x: Side, a: WriterAction, s': State)
    requires Inv(o, s) && ErrorHeld(s) && Apply(o, s, WriterDoes(x, a)) == Some(s')
    ensures ErrorHeld(s')
  {
    WriterNotReturned(LocalOf(s, x), a, WriterStep(LocalOf(s, x), a).value);
    KeepsReturned(s, s', x);
  }

  lemma SameHolds(s: State, s': State)
    requires ErrorHeld(s) && s'.sent == s.sent && s'.received == s.received && s'.err == s.err
    ensures ErrorHeld(s')
  {
    if s.err != Clean {
      var side: Side :| s.At(side).returned && s.At(side).err == s.err;
      assert s'.At(side).returned;
    }
  }

  lemma KeepsReturned(s: State, s': State, x: Side)
    requires ErrorHeld(s) && s'.At(Other(x)) == s.At(Other(x)) && s'.err == s.err && !s.At(x).returned
    ensures ErrorHeld(s')
  {
    if s.err != Clean {
      var side: Side :| s.At(side).returned && s.At(side).err == s.err;
      assert side == Other(x) && s'.At(side).returned;
    }
  }

  lemma ReturnHolds(s: State, s': State, x: Side)
    requires ErrorHeld(s) && ReturnStep(s, x) == Some(s')
    ensures ErrorHeld(s')
  {
    if s.err != Clean {
      var side: Side :| s.At(side).returned && s.At(side).err == s.err;
      assert side == Other(x) && s'.At(side).returned && s'.At(side).err == s'.err;
    } else if s'.err != Clean {
      assert s'.At(x).returned && s'.At(x).err == s'.err;
    }
  }

  lemma HearHolds(s: State, s': State, x: Side)
    requires ErrorHeld(s) && HearStep(s, x) == Some(s')
    ensures ErrorHeld(s')
  {
    if s.err != Clean {
      var side: Side :| s.At(side).returned && s.At(side).err == s.err;
      assert s'.At(side).returned && s'.At(side).err == s'.err;
    }
  }

  // ---------------------------------------------------------------- figures

  /** The queue depth that a step records, if any: the chunks queued when its reader measured, and the
      one about to be queued. */
  function DepthRecorded(s: State, step: Step): nat {
    if step.ReaderDoes? && step.ra.ReaderProceeds? && s.At(step.side).reader.Recording?
    then s.At(step.side).reader.depth else 0
  }

  function Deepest(steps: seq<Step>, states: seq<State>, i: nat): nat
    requires i <= |steps| <= |states|
  {
    if i == 0 then 0
    else
      var before, now := Deepest(steps, states, i - 1), DepthRecorded(states[i - 1], steps[i - 1]);
      if now > before then now else before
  }

  lemma DepthStep(o: Options, s: State, step: Step, s': State)
    requires Apply(o, s, step) == Some(s')
    ensures
      var now := DepthRecorded(s, step);
      s'.stats.maxQueueDepth == if now > s.stats.maxQueueDepth then now else s.stats.maxQueueDepth
  {
    match step
    case ReaderDoes(x, a) => ReaderDepth(o, LocalOf(s, x), a, ReaderStep(o, LocalOf(s, x), a).value);
    case WriterDoes(x, a) => WriterDepth(LocalOf(s, x), a, WriterStep(LocalOf(s, x), a).value);
    case _ =>
  }

  lemma ReaderDepth(o: Options, l: Local, a: ReaderAction, l': Local)
    requires ReaderStep(o, l, a) == Some(l')
    ensures
      var now := if a.ReaderProceeds? && l.dir.reader.Recording? then l.dir.reader.depth else 0;
      l'.stats.maxQueueDepth == if now > l.stats.maxQueueDepth then now else l.stats.maxQueueDepth
  {
  }

  lemma WriterDepth(l: Local, a: WriterAction, l': Local)
    requires WriterStep(l, a) == Some(l')
    ensures l'.stats.maxQueueDepth == l.stats.maxQueueDepth
  {
  }

  /** The recorded depth is the largest that any reader recorded. */
  lemma {:induction false} DepthIsDeepest(o: Options, steps: seq<Step>, states: seq<State>, i: nat)
    requires IsRun(o, steps, states) && i < |states|
    ensures states[i].stats.maxQueueDepth == Deepest(steps, states, i)
  {
    if i > 0 {
      DepthIsDeepest(o, steps, states, i - 1);
      DepthStep(o, states[i - 1], steps[i - 1], states[i]);
    }
  }

  lemma DepthMeasured(o: Options, l: Local, a: ReaderAction, l': Local)
    requires ReaderStep(o, l, a) == Some(l') && l'.dir.reader.Recording?
    ensures l.dir.reader.Measuring? && l'.dir.reader.depth == |l.dir.queue| + 1
  {
  }

  predicate ReadsOn(step: Step, side: Side) { step.ReaderDoes? && step.side == side }

  /** From step `j` on, where it measured, the reader has taken no other step up to `i`. */
  ghost predicate LastMeasured(steps: seq<Step>, states: seq<State>, side: Side, j: nat, i: nat)
    requires j < i <= |steps| < |states|
  {
    && ReadsOn(steps[j], side) && states[j].At(side).reader.Measuring?
    && forall k :: j < k < i ==> !ReadsOn(steps[k], side)
  }

  lemma MeasuresNow(o: Options, steps: seq<Step>, states: seq<State>, side: Side, i: nat)
    requires IsRun(o, steps, states) && i < |steps| && ReadsOn(steps[i], side)
    requires states[i + 1].At(side).reader.Recording?
    ensures LastMeasured(steps, states, side, i, i + 1)
    ensures states[i + 1].At(side).reader.depth == |states[i].At(side).queue| + 1
  {
    var l := LocalOf(states[i], side);
    assert Apply(o, states[i], steps[i]) == Some(states[i + 1]);
    DepthMeasured(o, l, steps[i].ra, ReaderStep(o, l, steps[i].ra).value);
  }

  lemma StillMeasured(o: Options, steps: seq<Step>, states: seq<State>, side: Side, i: nat)
    requires IsRun(o, steps, states) && i < |steps| && !ReadsOn(steps[i], side)
    ensures states[i + 1].At(side).reader == states[i].At(side).reader
    ensures forall j :: 0 <= j < i && LastMeasured(steps, states, side, j, i) ==>
                          LastMeasured(steps, states, side, j, i + 1)
  {
    ReaderStaysPut(o, states[i], steps[i], states[i + 1], side);
  }

  /** What a reader is about to record is one more than the chunks queued when it measured, which was its
      last step. */
  lemma {:induction false} DepthWasMeasured(o: Options, steps: seq<Step>, states: seq<State>, i: nat, side: Side)
    requires IsRun(o, steps, states) && i < |states| && states[i].At(side).reader.Recording?
    ensures exists j :: 0 <= j < i && LastMeasured(steps, states, side, j, i)
                        && states[i].At(side).reader.depth == |states[j].At(side).queue| + 1
  {
    if i > 0 {
      if ReadsOn(steps[i - 1], side) {
        MeasuresNow(o, steps, states, side, i - 1);
      } else {
        StillMeasured(o, steps, states, side, i - 1);
        DepthWasMeasured(o, steps, states, i - 1, side);
      }
    }
  }

  lemma ReaderStaysPut(o: Options, s: State, step: Step, s': State, side: Side)
    requires Apply(o, s, step) == Some(s') && !ReadsOn(step, side)
    ensures s'.At(side).reader == s.At(side).reader
  {
  }

  // ---------------------------------------------------------------- write timeouts

  predicate WriteTimesOut(step: Step) {
    step.WriterDoes? && step.wa == WriteReturns(Some(Timeout))
  }

  function TimedOutWrites(steps: seq<Step>): nat {
    if steps == [] then 0
    else (if WriteTimesOut(steps[|steps| - 1]) then 1 else 0) + TimedOutWrites(steps[..|steps| - 1])
  }

  /** A write that timed out and has not been counted yet. */
  function Uncounted(w: Writer): nat {
    match w
    case Freeing(_, err) => if err == Some(Timeout) then 1 else 0
    case CountingWriteTimeout => 1
    case _ => 0
  }

  lemma WriterCounts(l: Local, a: WriterAction, l': Local)
    requires WriterStep(l, a) == Some(l')
    ensures l'.stats.writeTimeouts + Uncounted(l'.dir.writer)
            == l.stats.writeTimeouts + Uncounted(l.dir.writer) + if a == WriteReturns(Some(Timeout)) then 1 else 0
  {
  }

  lemma ReaderCounts(o: Options, l: Local, a: ReaderAction, l': Local)
    requires ReaderStep(o, l, a) == Some(l')
    ensures l'.stats.writeTimeouts == l.stats.writeTimeouts && Uncounted(l'.dir.writer) == Uncounted(l.dir.writer)
  {
  }

  lemma CountStep(o: Options, s: State, step: Step, s': State)
    requires Apply(o, s, step) == Some(s')
    ensures s'.stats.writeTimeouts + Uncounted(s'.sent.writer) + Uncounted(s'.received.writer)
            == s.stats.writeTimeouts + Uncounted(s.sent.writer) + Uncounted(s.received.writer)
               + if WriteTimesOut(step) then 1 else 0
  {
    match step
    case ReaderDoes(x, a) => ReaderCounts(o, LocalOf(s, x), a, ReaderStep(o, LocalOf(s, x), a).value);
    case WriterDoes(x, a) => WriterCounts(LocalOf(s, x), a, WriterStep(LocalOf(s, x), a).value);
    case _ =>
  }

  lemma {:induction false} RunCounts(o: Options, steps: seq<Step>, states: seq<State>, i: nat)
    requires IsRun(o, steps, states) && i < |states|
    ensures states[i].stats.writeTimeouts + Uncounted(states[i].sent.writer) + Uncounted(states[i].received.writer)
            == TimedOutWrites(steps[..i])
  {
    if i > 0 {
      RunCounts(o, steps, states, i - 1);
      CountStep(o, states[i - 1], steps[i - 1], states[i]);
      assert steps[..i][..i - 1] == steps[..i - 1];
    }
  }

  /** Once both directions returned, the write timeouts are the writes that timed out. */
  lemma WriteTimeoutsAreExact(o: Options, steps: seq<Step>, states: seq<State>, i: nat)
    requires IsRun(o, steps, states) && i < |states| && states[i].sent.returned && states[i].received.returned
    ensures states[i].stats.writeTimeouts == TimedOutWrites(steps[..i])
  {
    RunKeepsInv(o, steps, states, i);
    RunCounts(o, steps, states, i);
  }

  // ---------------------------------------------------------------- the pair's result

  lemma CleanPairMeansClean(o: Options, s: State)
    requires Inv(o, s) && Returned(s) && s.err == Clean
    ensures s.sent.err == Clean && s.received.err == Clean
  {
  }

  /** Once both directions returned: the result is nil exactly if neither has an error, or the first error
      was a timeout and no write timed out; otherwise it is the error of a direction. */
  lemma PairResultMeans(o: Options, steps: seq<Step>, states: seq<State>, i: nat)
    requires IsRun(o, steps, states) && i < |states| && Returned(states[i])
    ensures
      var s, r := states[i], PairResult(states[i]);
      && (r == Clean <==> (s.sent.err == Clean && s.received.err == Clean)
                          || (s.err == Failed(Timeout) && TimedOutWrites(steps[..i]) == 0))
      && (r != Clean ==> s.sent.err == r || s.received.err == r)
  {
    var s := states[i];
    RunKeepsInv(o, steps, states, i);
    WriteTimeoutsAreExact(o, steps, states, i);
    if s.err == Clean {
      CleanPairMeansClean(o, s);
    } else {
      PairErrorIsADirections(o, steps, states, i);
    }
  }
}
