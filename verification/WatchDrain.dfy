/** A watch that streams can always catch up, and streams nothing before its snapshot. */
module WatchDrain {
  import opened Common
  import opened Runs
  import Coordinator
  import opened Watch

  /** Nothing left to publish and nothing in the channel. */
  predicate CaughtUp(s: State) { s.pending == multiset{} && s.channel == [] }

  /** A publish or a receive by which nothing is refused. */
  predicate Harmless(q: Request, s: State, a: Action) {
    (a.Publish? || a.Receive?) && (Apply(q, s, a).Some? ==> Apply(q, s, a).value.missed == s.missed)
  }

  function Behind(s: State): nat { 2 * |s.pending| + |s.channel| }

  lemma ReceiveHelps(q: Request, s: State) returns (s': State)
    requires s.phase.Streaming? && s.channel != []
    ensures Apply(q, s, Receive) == Some(s') && s'.missed == s.missed
    ensures s'.phase.Streaming? && Behind(s') + 1 == Behind(s)
  {
    s' := Apply(q, s, Receive).value;
  }

  lemma PublishHelps(q: Request, s: State, e: Event) returns (s': State)
    requires s.phase.Streaming? && s.channel == [] && e in s.pending
    ensures Apply(q, s, Publish(e)) == Some(s') && s'.missed == s.missed
    ensures s'.phase.Streaming? && Behind(s') + 1 == Behind(s)
  {
    s' := Apply(q, s, Publish(e)).value;
    assert |s.pending| == |s'.pending| + 1;
  }

  lemma SomethingHelps(q: Request, s: State) returns (a: Action)
    requires s.phase.Streaming? && !CaughtUp(s)
    ensures Harmless(q, s, a) && Apply(q, s, a).Some?
    ensures Apply(q, s, a).value.phase.Streaming? && Behind(Apply(q, s, a).value) < Behind(s)
  {
    if s.channel != [] {
      a := Receive;
      var s' := ReceiveHelps(q, s);
    } else {
      var e :| e in s.pending;
      a := Publish(e);
      var s' := PublishHelps(q, s, e);
    }
  }

  /** Without another operation and without refusing anything, a streaming watch catches up in two steps
      for each event still to be published and one for each in its channel; by `DrainedWatchSentAll` it
      has then sent all it should. */
  lemma StreamCatchesUp(q: Request, s: State)
    requires s.phase.Streaming?
    ensures Within((s, a) => Apply(q, s, a), (s, a) => Harmless(q, s, a), s => CaughtUp(s), s, Behind(s))
  {
    var f, g := (s, a) => Apply(q, s, a), (s, a) => Harmless(q, s, a);
    var goal, p, rank := s => CaughtUp(s), (s: State) => s.phase.Streaming?, s => Behind(s);
    forall s | p(s) && !goal(s)
      ensures exists a :: g(s, a) && f(s, a).Some? && p(f(s, a).value) && rank(f(s, a).value) < rank(s)
    {
      var a := SomethingHelps(q, s);
      assert g(s, a) && f(s, a).Some?;
    }
    RankBoundsSteps(f, g, goal, p, rank, s, Behind(s));
  }

  /** The watch's own next action before it streams, given how the listing turns out and what the clock
      reads. */
  function Own(s: State, ok: bool, sessions: seq<string>, now: int): Action {
    match s.phase
    case Opened => Subscribe
    case Subscribed => List(ok, sessions)
    case Visiting(rest) => if rest == [] then TakeSnapshot(now) else Visit(now)
    case Streaming => Receive
  }

  function Ahead(s: State, sessions: seq<string>): nat {
    match s.phase
    case Opened => |sessions| + 3
    case Subscribed => |sessions| + 2
    case Visiting(rest) => |rest| + 1
    case Streaming => 0
  }

  lemma OwnStep(q: Request, s: State, ok: bool, sessions: seq<string>, now: int)
    requires !s.phase.Streaming?
    ensures
      var next := Apply(q, s, Own(s, ok, sessions, now));
      next.Some? && Ahead(next.value, sessions) < Ahead(s, sessions)
  {
  }

  /** Whatever the listing returns and whatever the clock reads, a watch streams after one step for each
      listed session and at most three more. */
  lemma EveryWatchStreams(q: Request, s: State, ok: bool, sessions: seq<string>, now: int)
    ensures Within((s, a) => Apply(q, s, a), (s, a) => a == Own(s, ok, sessions, now),
                   (s: State) => s.phase.Streaming?, s, Ahead(s, sessions))
  {
    var f, g := (s, a) => Apply(q, s, a), (s, a) => a == Own(s, ok, sessions, now);
    var goal, p, rank := (s: State) => s.phase.Streaming?, (s: State) => true, s => Ahead(s, sessions);
    forall s | p(s) && !goal(s)
      ensures exists a :: g(s, a) && f(s, a).Some? && p(f(s, a).value) && rank(f(s, a).value) < rank(s)
    {
      OwnStep(q, s, ok, sessions, now);
      assert g(s, Own(s, ok, sessions, now)) && f(s, Own(s, ok, sessions, now)).Some?;
    }
    RankBoundsSteps(f, g, goal, p, rank, s, Ahead(s, sessions));
  }

  /** A watch never blocks the coordinator: in every state any operation can be performed, and any publish
      can run, whether or not the watch has room for it. */
  lemma NothingBlocks(q: Request, s: State, op: Coordinator.Op, e: Event)
    ensures Apply(q, s, Operate(op)).Some?
    ensures e in s.pending ==> Apply(q, s, Publish(e)).Some?
  {
  }

  lemma TakenStep(q: Request, s: State, a: Action, s': State)
    requires Apply(q, s, a) == Some(s') && (s.taken != [] ==> s.phase.Streaming?)
    ensures s'.taken != [] ==> s'.phase.Streaming?
  {
  }

  /** Nothing is taken off the channel before the snapshot is done; so nothing is sent before it, and what
      is sent comes after a snapshot exactly if one was asked for and the listing succeeded. */
  lemma SnapshotComesFirst(q: Request, actions: seq<Action>, states: seq<State>, i: nat)
    requires IsRun(q, actions, states) && i < |states| && states[i].taken != []
    ensures states[i].phase.Streaming?
    ensures q.includeExisting ==> (states[i].snapshot.Some? <==> Listed(actions, i))
  {
    var f := (s: State, a: Action) => Apply(q, s, a);
    var p := (s: State, before: seq<Action>) => s.taken != [] ==> s.phase.Streaming?;
    forall s, before, a | p(s, before) && f(s, a).Some? ensures p(f(s, a).value, before + [a]) {
      TakenStep(q, s, a, f(s, a).value);
    }
    Along(f, p, actions, states, i);
    if q.includeExisting { SnapshotIffListed(q, actions, states, i); }
  }

  predicate SkipsSnapshot(s: State) { (s.phase.Opened? || s.phase.Streaming?) && s.snapshot.None? }

  lemma SkipStep(q: Request, s: State, a: Action, s': State)
    requires !q.includeExisting && SkipsSnapshot(s) && Apply(q, s, a) == Some(s')
    ensures SkipsSnapshot(s') && (a.Subscribe? ==> s'.phase.Streaming?)
  {
  }

  /** A watch that does not ask for existing leases streams as soon as it has subscribed, and never lists
      sessions or takes a snapshot. */
  lemma UnaskedStreamsAtOnce(q: Request, actions: seq<Action>, states: seq<State>, i: nat)
    requires IsRun(q, actions, states) && i < |actions| && !q.includeExisting
    ensures states[i + 1].snapshot.None? && (actions[i].Subscribe? ==> states[i + 1].phase.Streaming?)
    ensures !actions[i].List? && !actions[i].Visit? && !actions[i].TakeSnapshot?
  {
    var f := (s: State, a: Action) => Apply(q, s, a);
    var p := (s: State, before: seq<Action>) => SkipsSnapshot(s);
    forall s, before, a | p(s, before) && f(s, a).Some? ensures p(f(s, a).value, before + [a]) {
      SkipStep(q, s, a, f(s, a).value);
    }
    Along(f, p, actions, states, i);
    SkipStep(q, states[i], actions[i], states[i + 1]);
  }
}
