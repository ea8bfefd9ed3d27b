/** A Watch stream over the coordinator: subscribe, send a snapshot, then stream events. Lease
    operations publish their events from separate goroutines, so publishing interleaves freely
    with everything else. */
module Watch {
  import opened Common
  import opened Runs
  import opened Coordinator
  import opened LeaseProofs

  const CHANNEL_SIZE: nat := 64

  /** An event of operation number `op`. */
  datatype Event = Event(op: nat, released: bool, lease: Lease)

  datatype Phase =
    | Opened
    | Subscribed
    | Visiting(sessions: seq<string>)
    | Streaming

  datatype Request = Request(tunnelFilter: string, relayFilter: string, includeExisting: bool)

  datatype Shot = Shot(at: nat, leases: set<Lease>)

  /** `log` is every lease operation so far, in lock order; `pending` the publishes not yet run;
      `missed` what a publish found no room for. */
  datatype State = State(
    log: seq<Op>, pending: multiset<Event>, phase: Phase, snapshot: Option<Shot>,
    channel: seq<Event>, taken: seq<Event>, sent: seq<Event>, missed: multiset<Event>)

  datatype Action =
    | Operate(op: Op)
    | Publish(e: Event)
    | Subscribe
    | List(ok: bool, sessions: seq<string>)
    | Visit(now: int)
    | TakeSnapshot(now: int)
    | Receive

  /** What an operation publishes: its grant, its release, or one release per swept lease. */
  function EventsOf(k: nat, op: Op, reply: Reply): multiset<Event> {
    match reply
    case Granted(l) => multiset{Event(k, false, l)}
    case Released(l) => multiset{Event(k, true, l)}
    case Leases(ls) => if op.Sweep? then multiset(set l | l in ls :: Event(k, true, l)) else multiset{}
    case _ => multiset{}
  }

  function Do(s: State, op: Op): State {
    s.(log := s.log + [op], pending := s.pending + EventsOf(|s.log|, op, Step(TableAfter(s.log), op).1))
  }

  predicate Listening(s: State) { !s.phase.Opened? }

  function Apply(q: Request, s: State, a: Action): Option<State> {
    match a
    case Operate(op) => Some(Do(s, op))
    case Publish(e) =>
      if e !in s.pending then None
      else
        var s1 := s.(pending := s.pending - multiset{e});
        if !Listening(s) then Some(s1)
        else if |s.channel| < CHANNEL_SIZE then Some(s1.(channel := s.channel + [e]))
        else Some(s1.(missed := s.missed + multiset{e}))
    case Subscribe =>
      if s.phase.Opened? then Some(s.(phase := if q.includeExisting then Subscribed else Streaming)) else None
    case List(ok, sessions) =>
      // A failed listing ends the snapshot early, without an error.
      if s.phase.Subscribed? then Some(s.(phase := if ok then Visiting(sessions) else Streaming)) else None
    case Visit(now) =>
      if s.phase.Visiting? && s.phase.sessions != [] then
        var tunnel, rest := s.phase.sessions[0], s.phase.sessions[1..];
        if q.tunnelFilter != "" && tunnel != q.tunnelFilter then Some(s.(phase := Visiting(rest)))
        else Some(Do(s, Current(tunnel, now)).(phase := Visiting(rest)))
      else None
    case TakeSnapshot(now) =>
      if s.phase == Visiting([]) then
        var reply := DoSnapshot(TableAfter(s.log), q.tunnelFilter, q.relayFilter, now);
        Some(s.(snapshot := Some(Shot(|s.log|, reply.leases)), phase := Streaming))
      else None
    case Receive =>
      if s.phase.Streaming? && s.channel != [] then
        var e := s.channel[0];
        var s1 := s.(channel := s.channel[1..], taken := s.taken + [e]);
        Some(if Matches(e.lease, q.tunnelFilter, q.relayFilter) then s1.(sent := s.sent + [e]) else s1)
      else None
  }

  /** Watching begins on a coordinator with any past and any publishes still to run. */
  ghost predicate Init(s: State) {
    && s.phase == Opened && s.snapshot == None
    && s.channel == [] && s.taken == [] && s.sent == [] && s.missed == multiset{}
    && (forall e :: e in s.pending ==> e.op < |s.log|)
  }

  ghost predicate IsRun(q: Request, actions: seq<Action>, states: seq<State>) {
    && |states| == |actions| + 1
    && Init(states[0])
    && (forall i :: 0 <= i < |actions| ==> Apply(q, states[i], actions[i]) == Some(states[i + 1]))
  }

  // ---------------------------------------------------------------- invariant

  /** How often an event is waiting to be published, queued, taken off the channel, or lost. */
  function Copies(s: State, e: Event): nat {
    s.pending[e] + multiset(s.channel)[e] + multiset(s.taken)[e] + s.missed[e]
  }

  function OpEvents(log: seq<Op>, k: nat): multiset<Event>
    requires k < |log|
  {
    EventsOf(k, log[k], ReplyAt(log, k))
  }

  /** Operations from `from` on: each of their events is somewhere, exactly once. */
  ghost predicate Tracked(s: State, from: nat) {
    forall k, e :: from <= k < |s.log| && e in OpEvents(s.log, k) ==> Copies(s, e) == 1
  }

  /** No copy of an event of an operation still to come. */
  ghost predicate NoFuture(s: State) {
    forall e :: Copies(s, e) > 0 ==> e.op < |s.log|
  }

  /** A lease the request asks for: on its tunnel, if it names one, and of its relay, if it names one. */
  predicate Passes(q: Request, l: Lease) {
    (q.tunnelFilter == "" || q.tunnelFilter == l.tunnel) && (q.relayFilter == "" || q.relayFilter == l.relay)
  }

  /** The events the request asks for, in order. */
  function Passing(q: Request, es: seq<Event>): seq<Event> {
    if es == [] then []
    else
      var n := |es| - 1;
      Passing(q, es[..n]) + if Passes(q, es[n].lease) then [es[n]] else []
  }

  lemma PassingMore(q: Request, es: seq<Event>, last: Event, e: Event)
    ensures multiset(Passing(q, es + [last]))[e]
            == multiset(Passing(q, es))[e] + if Passes(q, last.lease) && last == e then 1 else 0
    ensures multiset(es + [last])[e] == multiset(es)[e] + if last == e then 1 else 0
  {
    assert (es + [last])[..|es|] == es;
  }

  lemma {:induction false} PassingCount(q: Request, es: seq<Event>, e: Event)
    ensures multiset(Passing(q, es))[e] == if Passes(q, e.lease) then multiset(es)[e] else 0
  {
    if es != [] {
      var n := |es| - 1;
      PassingCount(q, es[..n], e);
      PassingMore(q, es[..n], es[n], e);
      assert es == es[..n] + [es[n]];
    }
  }

  /** What was sent is exactly what the request asks for of what was taken, in order. */
  predicate Forwarded(q: Request, s: State) { s.sent == Passing(q, s.taken) }

  ghost predicate Inv(q: Request, s: State, subscribedAt: nat) {
    && NoFuture(s)
    && (Listening(s) ==> subscribedAt <= |s.log| && Tracked(s, subscribedAt))
    && (s.snapshot.Some? ==>
          Listening(s) && subscribedAt <= s.snapshot.value.at <= |s.log|)
  }

  lemma EventsOnce(k: nat, op: Op, reply: Reply, e: Event)
    ensures EventsOf(k, op, reply)[e] <= 1
    ensures e in EventsOf(k, op, reply) ==> e.op == k
  {
  }

  lemma OpEventsOfPrefix(log: seq<Op>, op: Op, k: nat)
    requires k < |log|
    ensures OpEvents(log + [op], k) == OpEvents(log, k)
  {
    assert (log + [op])[..k] == log[..k];
  }

  lemma DoKeepsInv(q: Request, s: State, op: Op, at: nat)
    requires Inv(q, s, at)
    ensures Inv(q, Do(s, op), at)
  {
    var s', n := Do(s, op), |s.log|;
    var added := EventsOf(n, op, Step(TableAfter(s.log), op).1);
    assert s'.log[..n] == s.log && OpEvents(s'.log, n) == added;
    forall e ensures Copies(s', e) == Copies(s, e) + added[e] && added[e] <= 1 && (e in added ==> e.op == n) {
      EventsOnce(n, op, Step(TableAfter(s.log), op).1, e);
    }
    if Listening(s) {
      forall k, e | at <= k < |s'.log| && e in OpEvents(s'.log, k) ensures Copies(s', e) == 1 {
        if k < n {
          OpEventsOfPrefix(s.log, op, k);
          EventsOnce(k, s.log[k], ReplyAt(s.log, k), e);
        }
      }
    }
  }

  /** A state with the same operations, the same snapshot and the same copies of every event. */
  lemma SameCopiesKeepInv(q: Request, s: State, s': State, at: nat)
    requires Inv(q, s, at) && s'.log == s.log && s'.snapshot == s.snapshot && Listening(s') == Listening(s)
    requires forall x :: Copies(s', x) == Copies(s, x)
    ensures Inv(q, s', at)
  {
  }

  /** A publish nobody listens to takes its copy away. */
  lemma UnheardKeepsInv(q: Request, s: State, e: Event, at: nat)
    requires Inv(q, s, at) && !Listening(s) && e in s.pending
    ensures Inv(q, s.(pending := s.pending - multiset{e}), at)
  {
    var s' := s.(pending := s.pending - multiset{e});
    assert forall x :: Copies(s', x) <= Copies(s, x);
  }

  lemma PublishKeepsInv(q: Request, s: State, e: Event, s': State, at: nat)
    requires Inv(q, s, at) && Apply(q, s, Publish(e)) == Some(s')
    ensures Inv(q, s', at)
  {
    if Listening(s) {
      forall x ensures Copies(s', x) == Copies(s, x) {
        assert multiset(s.channel + [e])[x] == multiset(s.channel)[x] + multiset{e}[x];
      }
      SameCopiesKeepInv(q, s, s', at);
    } else {
      UnheardKeepsInv(q, s, e, at);
    }
  }

  lemma MoveKeepsCount<T>(from: seq<T>, to: seq<T>, x: T)
    requires from != []
    ensures multiset(from[1..])[x] + multiset(to + [from[0]])[x] == multiset(from)[x] + multiset(to)[x]
  {
    assert from == [from[0]] + from[1..];
  }

  lemma ReceiveKeepsInv(q: Request, s: State, s': State, at: nat)
    requires Inv(q, s, at) && Apply(q, s, Receive) == Some(s')
    ensures Inv(q, s', at)
  {
    forall x ensures Copies(s', x) == Copies(s, x) {
      MoveKeepsCount(s.channel, s.taken, x);
    }
    SameCopiesKeepInv(q, s, s', at);
  }

  lemma StepKeepsInv(q: Request, s: State, a: Action, s': State, at: nat)
    requires Inv(q, s, at) && Apply(q, s, a) == Some(s')
    ensures Inv(q, s', if a.Subscribe? then |s.log| else at)
  {
    match a
    case Operate(op) => DoKeepsInv(q, s, op, at);
    case Publish(e) => PublishKeepsInv(q, s, e, s', at);
    case Receive => ReceiveKeepsInv(q, s, s', at);
    case Visit(now) =>
      var tunnel := s.phase.sessions[0];
      DoKeepsInv(q, s, Current(tunnel, now), at);
      var s1 := Do(s, Current(tunnel, now));
      assert forall x :: Copies(s', x) == if s'.log == s.log then Copies(s, x) else Copies(s1, x);
    case _ => assert forall x :: Copies(s', x) == Copies(s, x);
  }

  lemma {:induction false} RunKeepsInv(q: Request, actions: seq<Action>, states: seq<State>, i: nat) returns (at: nat)
    requires IsRun(q, actions, states) && i < |states|
    ensures Inv(q, states[i], at)
  {
    if i == 0 {
      at := 0;
    } else {
      var before := RunKeepsInv(q, actions, states, i - 1);
      StepKeepsInv(q, states[i - 1], actions[i - 1], states[i], before);
      at := if actions[i - 1].Subscribe? then |states[i - 1].log| else before;
    }
  }

  lemma ReceiveForwards(q: Request, s: State, s': State)
    requires Forwarded(q, s) && Apply(q, s, Receive) == Some(s')
    ensures Forwarded(q, s')
  {
    var n := |s.taken|;
    assert s'.taken[..n] == s.taken && s'.taken[n] == s.channel[0];
    assert s.sent + [] == s.sent;
  }

  lemma {:induction false} RunForwards(q: Request, actions: seq<Action>, states: seq<State>, i: nat)
    requires IsRun(q, actions, states) && i < |states|
    ensures Forwarded(q, states[i])
  {
    if i > 0 {
      RunForwards(q, actions, states, i - 1);
      if actions[i - 1].Receive? {
        ReceiveForwards(q, states[i - 1], states[i]);
      } else {
        OthersForward(q, states[i - 1], actions[i - 1], states[i]);
      }
    }
  }

  lemma OthersForward(q: Request, s: State, a: Action, s': State)
    requires Apply(q, s, a) == Some(s') && !a.Receive?
    ensures s'.taken == s.taken && s'.sent == s.sent
  {
  }

  // ---------------------------------------------------------------- theorem

  /** A watch subscribes once, so the invariant counts from that subscription. */
  lemma {:induction false} InvSinceSubscribing(q: Request, actions: seq<Action>, states: seq<State>, j: nat, i: nat)
    requires IsRun(q, actions, states) && j < i < |states| && actions[j].Subscribe?
    ensures Inv(q, states[i], |states[j].log|) && Listening(states[i])
    decreases i
  {
    if i == j + 1 {
      var at := RunKeepsInv(q, actions, states, j);
      SubscribeCounts(q, states[j], states[i], at);
    } else {
      InvSinceSubscribing(q, actions, states, j, i - 1);
      ListeningStep(q, states[i - 1], actions[i - 1], states[i], |states[j].log|);
    }
  }

  lemma SubscribeCounts(q: Request, s: State, s': State, at: nat)
    requires Inv(q, s, at) && Apply(q, s, Subscribe) == Some(s')
    ensures Inv(q, s', |s.log|) && Listening(s')
  {
    StepKeepsInv(q, s, Subscribe, s', at);
  }

  lemma ListeningStep(q: Request, s: State, a: Action, s': State, at: nat)
    requires Inv(q, s, at) && Listening(s) && Apply(q, s, a) == Some(s')
    ensures Inv(q, s', at) && Listening(s')
  {
    StepKeepsInv(q, s, a, s', at);
  }

  /** With or without a snapshot, and whatever became of the session listing: every event of every
      operation after the subscription is, exactly once, still being published, in the channel,
      taken from it, or was refused by a full channel. */
  lemma SubscriberMissesNothing(
      q: Request, actions: seq<Action>, states: seq<State>, j: nat, i: nat, k: nat, e: Event)
    requires IsRun(q, actions, states) && j < i < |states| && actions[j].Subscribe?
    requires |states[j].log| <= k < |states[i].log| && e in OpEvents(states[i].log, k)
    ensures Copies(states[i], e) == 1
    ensures multiset(states[i].sent)[e] == if Passes(q, e.lease) then multiset(states[i].taken)[e] else 0
  {
    InvSinceSubscribing(q, actions, states, j, i);
    RunForwards(q, actions, states, i);
    PassingCount(q, states[i].taken, e);
  }

  /** `leases` are exactly those of the table after `log` that have not run out at `now` and that the
      request asks for. */
  ghost predicate Lists(q: Request, log: seq<Op>, now: int, leases: set<Lease>) {
    forall l :: l in leases <==> l in TableAfter(log).byID.Values && now <= l.expires && Passes(q, l)
  }

  /** The snapshot in state `i` is the one that action `j` took, of the operations up to then and at
      that action's reading. */
  ghost predicate TakenBy(q: Request, actions: seq<Action>, states: seq<State>, j: nat, i: nat)
    requires j < i < |states| <= |actions| + 1
  {
    var s, shot := states[i], states[i].snapshot;
    && actions[j].TakeSnapshot? && shot.Some?
    && shot.value.at == |states[j].log| && states[j].log <= s.log
    && Lists(q, states[j].log, actions[j].now, shot.value.leases)
  }

  lemma SnapshotLists(q: Request, s: State, now: int, s': State)
    requires Apply(q, s, TakeSnapshot(now)) == Some(s')
    ensures s'.log == s.log && s'.phase.Streaming?
    ensures s'.snapshot.Some? && s'.snapshot.value.at == |s.log| && Lists(q, s.log, now, s'.snapshot.value.leases)
  {
    var t, leases := TableAfter(s.log), s'.snapshot.value.leases;
    forall l ensures l in leases <==> l in t.byID.Values && now <= l.expires && Passes(q, l) {
      if l in t.byID.Values && now <= l.expires && Passes(q, l) {
        var id :| id in t.byID && t.byID[id] == l;
        assert id in ListedIDs(t, q.tunnelFilter, q.relayFilter, now);
      }
    }
  }

  /** The operations only grow, and a streaming watch keeps streaming, and its snapshot. */
  predicate Settles(s: State, s': State) {
    s.log <= s'.log && (s.phase.Streaming? ==> s'.phase.Streaming? && s'.snapshot == s.snapshot)
  }

  lemma SettlesStep(q: Request, s: State, a: Action, s': State)
    requires Apply(q, s, a) == Some(s')
    ensures Settles(s, s')
  {
  }

  /** The snapshot stays what the action that took it listed. */
  lemma SnapshotStays(q: Request, actions: seq<Action>, states: seq<State>, j: nat, i: nat)
    requires IsRun(q, actions, states) && j < i < |states| && actions[j].TakeSnapshot?
    ensures TakenBy(q, actions, states, j, i) && states[i].phase.Streaming?
  {
    SnapshotLists(q, states[j], actions[j].now, states[j + 1]);
    forall k | 0 <= k < |states| - 1 ensures Settles(states[k], states[k + 1]) {
      SettlesStep(q, states[k], actions[k], states[k + 1]);
    }
    Later((s, s') => Settles(s, s'), states, j + 1, i);
  }

  lemma LogGrows(q: Request, actions: seq<Action>, states: seq<State>, j: nat, i: nat)
    requires IsRun(q, actions, states) && j <= i < |states|
    ensures states[j].log <= states[i].log
  {
    forall k | 0 <= k < |states| - 1 ensures Settles(states[k], states[k + 1]) {
      SettlesStep(q, states[k], actions[k], states[k + 1]);
    }
    Later((s, s') => Settles(s, s'), states, j, i);
  }

  lemma TakeStep(q: Request, s: State, a: Action, s': State)
    requires Apply(q, s, a) == Some(s')
    ensures s'.snapshot.Some? ==> s.snapshot.Some? || a.TakeSnapshot?
  {
  }

  lemma SnapshotWasTaken(q: Request, actions: seq<Action>, states: seq<State>, i: nat) returns (j: nat)
    requires IsRun(q, actions, states) && i < |states| && states[i].snapshot.Some?
    ensures j < i && actions[j].TakeSnapshot?
  {
    var f := (s: State, a: Action) => Apply(q, s, a);
    var p := (s: State, before: seq<Action>) => s.snapshot.Some? ==> exists a :: a in before && a.TakeSnapshot?;
    forall s, before, a | p(s, before) && f(s, a).Some? ensures p(f(s, a).value, before + [a]) {
      TakeStep(q, s, a, f(s, a).value);
      assert forall b :: b in before || b == a ==> b in before + [a];
    }
    Along(f, p, actions, states, i);
    var a :| a in actions[..i] && a.TakeSnapshot?;
    j :| j < i && actions[..i][j] == a;
  }

  /** A watch takes its snapshot at most once. */
  lemma OneSnapshot(q: Request, actions: seq<Action>, states: seq<State>, j: nat, k: nat)
    requires IsRun(q, actions, states) && j < k < |actions| && actions[j].TakeSnapshot?
    ensures !actions[k].TakeSnapshot?
  {
    SnapshotStays(q, actions, states, j, k);
    assert Apply(q, states[k], actions[k]) == Some(states[k + 1]);
  }

  /** A Watch that took its snapshot misses nothing: the snapshot is what the action that took it read,
      namely every lease the request asks for that the operations up to then left in the table and that
      had not run out at that action's reading; and every event of every later operation is, exactly
      once, still being published, in the channel, taken from it, or was refused by a full channel. */
  lemma WatchMissesNothing(q: Request, actions: seq<Action>, states: seq<State>, i: nat)
    requires IsRun(q, actions, states) && i < |states| && states[i].snapshot.Some?
    ensures exists j :: 0 <= j < i && TakenBy(q, actions, states, j, i)
    ensures
      var s := states[i];
      forall k, e :: s.snapshot.value.at <= k < |s.log| && e in OpEvents(s.log, k) ==> Copies(s, e) == 1
  {
    var at := RunKeepsInv(q, actions, states, i);
    var j := SnapshotWasTaken(q, actions, states, i);
    SnapshotStays(q, actions, states, j, i);
  }

  /** Once publishing and the channel are drained and nothing was refused, every matching event
      after the snapshot has been sent on the stream. */
  lemma DrainedWatchSentAll(q: Request, actions: seq<Action>, states: seq<State>, i: nat, k: nat, e: Event)
    requires IsRun(q, actions, states) && i < |states| && states[i].snapshot.Some?
    requires states[i].pending == multiset{} && states[i].channel == [] && states[i].missed == multiset{}
    requires states[i].snapshot.value.at <= k < |states[i].log| && e in OpEvents(states[i].log, k)
    requires Passes(q, e.lease)
    ensures e in states[i].sent
  {
    var at := RunKeepsInv(q, actions, states, i);
    assert Copies(states[i], e) == 1;
    RunForwards(q, actions, states, i);
    PassingCount(q, states[i].taken, e);
  }

  /** Nothing is refused as long as the channel never fills. */
  lemma {:induction false} NothingMissedUnlessFull(q: Request, actions: seq<Action>, states: seq<State>, i: nat)
    requires IsRun(q, actions, states) && i < |states|
    requires forall j :: 0 <= j < i ==> |states[j].channel| < 64
    ensures states[i].missed == multiset{}
  {
    if i > 0 {
      NothingMissedUnlessFull(q, actions, states, i - 1);
      assert Apply(q, states[i - 1], actions[i - 1]) == Some(states[i]);
    }
  }

  /** Nothing that matches is lost after the snapshot, once publishing and the channel are drained, if
      the channel never filled. */
  lemma UnfilledWatchSentAll(q: Request, actions: seq<Action>, states: seq<State>, i: nat, k: nat, e: Event)
    requires IsRun(q, actions, states) && i < |states| && states[i].snapshot.Some?
    requires forall j :: 0 <= j < i ==> |states[j].channel| < 64
    requires states[i].pending == multiset{} && states[i].channel == []
    requires states[i].snapshot.value.at <= k < |states[i].log| && e in OpEvents(states[i].log, k)
    requires Passes(q, e.lease)
    ensures e in states[i].sent
  {
    NothingMissedUnlessFull(q, actions, states, i);
    DrainedWatchSentAll(q, actions, states, i, k, e);
  }

  // ---------------------------------------------------------------- what the stream shows

  /** The event of a publish that reaches the watch and finds room. */
  function AcceptedBy(s: State, a: Action): seq<Event> {
    if a.Publish? && !s.phase.Opened? && |s.channel| < 64 then [a.e] else []
  }

  /** The events that found room in the channel, in the order of their publishes. */
  function Accepted(actions: seq<Action>, states: seq<State>, i: nat): seq<Event>
    requires i <= |actions| <= |states|
  {
    Emitted(AcceptedBy, actions, states, i)
  }

  lemma ReceiveAccepts(q: Request, s: State, s': State)
    requires Apply(q, s, Receive) == Some(s')
    ensures s'.taken + s'.channel == s.taken + s.channel
  {
    assert s.channel == [s.channel[0]] + s.channel[1..];
  }

  lemma PublishAccepts(q: Request, s: State, e: Event, s': State)
    requires Apply(q, s, Publish(e)) == Some(s')
    ensures s'.taken + s'.channel == s.taken + s.channel + AcceptedBy(s, Publish(e))
  {
    assert s.taken + (s.channel + [e]) == s.taken + s.channel + [e];
  }

  lemma OthersAccept(q: Request, s: State, a: Action, s': State)
    requires Apply(q, s, a) == Some(s') && !a.Receive? && !a.Publish?
    ensures s'.taken == s.taken && s'.channel == s.channel
  {
  }

  lemma AcceptStep(q: Request, s: State, a: Action, s': State)
    requires Apply(q, s, a) == Some(s')
    ensures s'.taken + s'.channel == s.taken + s.channel + AcceptedBy(s, a)
  {
    if a.Receive? {
      ReceiveAccepts(q, s, s');
    } else if a.Publish? {
      PublishAccepts(q, s, a.e, s');
    } else {
      OthersAccept(q, s, a, s');
    }
  }

  lemma RunAccepts(q: Request, actions: seq<Action>, states: seq<State>, i: nat)
    requires IsRun(q, actions, states) && i < |states|
    ensures states[i].taken + states[i].channel == Accepted(actions, states, i)
  {
    var f, out := (s, a) => Apply(q, s, a), (s: State) => s.taken + s.channel;
    forall s, a | f(s, a).Some? ensures out(f(s, a).value) == out(s) + AcceptedBy(s, a) {
      AcceptStep(q, s, a, f(s, a).value);
    }
    OutputIsEmitted(f, out, AcceptedBy, actions, states, i);
  }

  /** In every run the stream carries exactly the events the request asks for, of those taken, in
      the order in which their publishes found room. */
  lemma SentInOrder(q: Request, actions: seq<Action>, states: seq<State>, i: nat)
    requires IsRun(q, actions, states) && i < |states|
    ensures states[i].taken + states[i].channel == Accepted(actions, states, i)
    ensures states[i].sent == Passing(q, states[i].taken)
  {
    RunAccepts(q, actions, states, i);
    RunForwards(q, actions, states, i);
  }

  /** A grant event for the lease granted, which the table then holds, and a release event for each
      lease that a release or a sweep took out of the table. */
  ghost predicate Tells(op: Op, t: Table, t': Table, e: Event) {
    var id := e.lease.id;
    if e.released
    then (op.Release? || op.Sweep?) && id in t.byID && t.byID[id] == e.lease && id !in t'.byID
    else (op.Acquire? || op.Renew?) && id in t'.byID && t'.byID[id] == e.lease
         && (id in t.byID ==> t.byID[id] != e.lease)
  }

  lemma SweepTells(t: Table, now: int, k: nat, e: Event)
    requires Consistent(t)
    ensures e in EventsOf(k, Sweep(now), Step(t, Sweep(now)).1)
            <==> e.op == k && Tells(Sweep(now), t, Step(t, Sweep(now)).0, e)
  {
    var ls := Step(t, Sweep(now)).1.leases;
    assert e in EventsOf(k, Sweep(now), Leases(ls)) <==> e.op == k && e.released && e.lease in ls;
    if e.lease.id in t.byID && t.byID[e.lease.id] == e.lease {
      assert e.lease in ls <==> e.lease.id in ExpiredIDs(t, now);
    }
  }

  lemma AcquireTells(t: Table, op: Op, k: nat, e: Event)
    requires Consistent(t) && FreshFor(t, op) && op.Acquire?
    ensures e in EventsOf(k, op, Step(t, op).1) <==> e.op == k && Tells(op, t, Step(t, op).0, e)
  {
    StepOnLease(t, op, e.lease.id);
  }

  lemma OpTells(t: Table, op: Op, k: nat, e: Event)
    requires Consistent(t) && FreshFor(t, op)
    ensures e in EventsOf(k, op, Step(t, op).1) <==> e.op == k && Tells(op, t, Step(t, op).0, e)
  {
    match op
    case Acquire(_, _, _, _, _) => AcquireTells(t, op, k, e);
    case Sweep(now) => SweepTells(t, now, k, e);
    case _ =>
  }

  /** What an operation publishes is what it did to the table. */
  lemma EventsTell(log: seq<Op>, k: nat, e: Event)
    requires FreshIDs(log) && k < |log|
    ensures e in OpEvents(log, k)
            <==> e.op == k && Tells(log[k], TableAfter(log[..k]), TableAfter(log[..k + 1]), e)
  {
    FreshPrefix(log, k);
    FreshPrefix(log, k + 1);
    RunHistory(log[..k]);
    assert log[..k + 1][..k] == log[..k];
    IssuedGrows(log[..k + 1]);
    OpTells(TableAfter(log[..k]), log[k], k, e);
  }

  // ---------------------------------------------------------------- the session listing

  ghost predicate Listed(actions: seq<Action>, i: nat)
    requires i <= |actions|
  {
    exists j :: 0 <= j < i && actions[j].List? && actions[j].ok
  }

  predicate PastListing(s: State) { s.phase.Visiting? || s.snapshot.Some? }

  lemma ListStep(q: Request, s: State, a: Action, s': State)
    requires q.includeExisting && Apply(q, s, a) == Some(s')
    requires s.phase.Opened? || s.phase.Subscribed? ==> s.snapshot.None?
    ensures PastListing(s') <==> PastListing(s) || (a.List? && a.ok)
    ensures s'.phase.Opened? || s'.phase.Subscribed? ==> s'.snapshot.None?
  {
  }

  lemma {:induction false} ListingDecides(q: Request, actions: seq<Action>, states: seq<State>, i: nat)
    requires IsRun(q, actions, states) && i < |states| && q.includeExisting
    ensures PastListing(states[i]) <==> Listed(actions, i)
    ensures states[i].phase.Opened? || states[i].phase.Subscribed? ==> states[i].snapshot.None?
  {
    if i > 0 {
      ListingDecides(q, actions, states, i - 1);
      ListStep(q, states[i - 1], actions[i - 1], states[i]);
      assert Listed(actions, i) <==> Listed(actions, i - 1) || (actions[i - 1].List? && actions[i - 1].ok);
    }
  }

  /** How many sessions are visited from action `j` up to but not including `i`. */
  function Visits(actions: seq<Action>, j: nat, i: nat): nat
    requires j <= i <= |actions|
    decreases i
  {
    if i == j then 0 else (if actions[i - 1].Visit? then 1 else 0) + Visits(actions, j, i - 1)
  }

  lemma VisitStep(q: Request, s: State, a: Action, s': State)
    requires Apply(q, s, a) == Some(s') && s.phase.Visiting?
    ensures a.TakeSnapshot? ==> s.phase.sessions == []
    ensures a.Visit? ==> s.phase.sessions != [] && s'.phase == Visiting(s.phase.sessions[1..])
    ensures !a.Visit? && !a.TakeSnapshot? ==> s'.phase == s.phase
  {
  }

  lemma ListStarts(q: Request, s: State, sessions: seq<string>, s': State)
    requires Apply(q, s, List(true, sessions)) == Some(s')
    ensures s'.phase == Visiting(sessions)
  {
  }

  /** A watch that has visited `n` of the listed sessions. */
  predicate Visited(s: State, sessions: seq<string>, n: nat) {
    n <= |sessions| && s.phase == Visiting(sessions[n..])
  }

  lemma OneVisit(q: Request, s: State, a: Action, s': State, sessions: seq<string>, n: nat)
    requires Apply(q, s, a) == Some(s') && !a.TakeSnapshot? && Visited(s, sessions, n)
    ensures Visited(s', sessions, if a.Visit? then n + 1 else n)
  {
    VisitStep(q, s, a, s');
  }

  lemma ListVisits(q: Request, actions: seq<Action>, states: seq<State>, j: nat)
    requires IsRun(q, actions, states) && j < |actions| && actions[j].List? && actions[j].ok
    ensures Visited(states[j + 1], actions[j].sessions, 0)
  {
    ListStarts(q, states[j], actions[j].sessions, states[j + 1]);
    assert actions[j].sessions[0..] == actions[j].sessions;
  }

  /** What one action does to a watch that has visited `n` sessions, whatever else it does. */
  ghost predicate VisitsOneByOne(f: (State, Action) -> Option<State>, sessions: seq<string>) {
    forall s, a, n: nat :: f(s, a).Some? && !a.TakeSnapshot? && Visited(s, sessions, n) ==>
      Visited(f(s, a).value, sessions, if a.Visit? then n + 1 else n)
  }

  lemma {:induction false} VisitsAlong(f: (State, Action) -> Option<State>, sessions: seq<string>,
                                       actions: seq<Action>, states: seq<State>, j: nat, i: nat)
    requires Chain(f, actions, states) && VisitsOneByOne(f, sessions) && j < i < |states|
    requires Visited(states[j + 1], sessions, 0) && !actions[j].Visit?
    requires forall k :: j < k < i ==> !actions[k].TakeSnapshot?
    ensures Visited(states[i], sessions, Visits(actions, j, i))
    decreases i
  {
    if i > j + 1 {
      VisitsAlong(f, sessions, actions, states, j, i - 1);
      assert f(states[i - 1], actions[i - 1]) == Some(states[i]);
    }
  }

  lemma ApplyVisitsOneByOne(q: Request, sessions: seq<string>)
    ensures VisitsOneByOne((s, a) => Apply(q, s, a), sessions)
  {
    forall s, a, n: nat | Apply(q, s, a).Some? && !a.TakeSnapshot? && Visited(s, sessions, n)
      ensures Visited(Apply(q, s, a).value, sessions, if a.Visit? then n + 1 else n)
    {
      OneVisit(q, s, a, Apply(q, s, a).value, sessions, n);
    }
  }

  lemma RunIsChain(q: Request, actions: seq<Action>, states: seq<State>)
    requires IsRun(q, actions, states)
    ensures Chain((s, a) => Apply(q, s, a), actions, states)
  {
  }

  /** The sessions still to visit are those listed, past the ones visited. */
  lemma VisitsLeft(q: Request, actions: seq<Action>, states: seq<State>, j: nat, i: nat)
    requires IsRun(q, actions, states) && j < i < |states| && actions[j].List? && actions[j].ok
    requires forall k :: j < k < i ==> !actions[k].TakeSnapshot?
    ensures Visited(states[i], actions[j].sessions, Visits(actions, j, i))
  {
    RunIsChain(q, actions, states);
    ApplyVisitsOneByOne(q, actions[j].sessions);
    ListVisits(q, actions, states, j);
    VisitsAlong((s, a) => Apply(q, s, a), actions[j].sessions, actions, states, j, i);
  }

  lemma VisitLogs(q: Request, s: State, now: int, s': State)
    requires Apply(q, s, Visit(now)) == Some(s')
    ensures s.phase.Visiting? && s.phase.sessions != []
    ensures
      var tunnel := s.phase.sessions[0];
      s'.log == if q.tunnelFilter == "" || q.tunnelFilter == tunnel then s.log + [Current(tunnel, now)] else s.log
  {
  }

  /** Visit number `n` looks up the lease of session number `n`, unless the request names another
      tunnel. */
  lemma VisitLooksUp(q: Request, actions: seq<Action>, states: seq<State>, j: nat, i: nat)
    requires IsRun(q, actions, states) && j < i < |actions| && actions[j].List? && actions[j].ok
    requires actions[i].Visit? && forall k :: j < k < i ==> !actions[k].TakeSnapshot?
    ensures Visits(actions, j, i) < |actions[j].sessions|
    ensures
      var tunnel := actions[j].sessions[Visits(actions, j, i)];
      states[i + 1].log
      == if q.tunnelFilter == "" || q.tunnelFilter == tunnel
         then states[i].log + [Current(tunnel, actions[i].now)] else states[i].log
  {
    VisitsLeft(q, actions, states, j, i);
    VisitLogs(q, states[i], actions[i].now, states[i + 1]);
  }

  /** The snapshot is taken once every listed session has been visited. */
  lemma SnapshotAfterVisits(q: Request, actions: seq<Action>, states: seq<State>, j: nat, i: nat)
    requires IsRun(q, actions, states) && j < i < |actions| && actions[j].List? && actions[j].ok
    requires actions[i].TakeSnapshot? && forall k :: j < k < i ==> !actions[k].TakeSnapshot?
    ensures Visits(actions, j, i) == |actions[j].sessions|
  {
    VisitsLeft(q, actions, states, j, i);
    VisitStep(q, states[i], actions[i], states[i + 1]);
  }

  /** A streaming watch that asked for existing leases has a snapshot exactly when its session
      listing succeeded. */
  lemma SnapshotIffListed(q: Request, actions: seq<Action>, states: seq<State>, i: nat)
    requires IsRun(q, actions, states) && i < |states| && q.includeExisting && states[i].phase.Streaming?
    ensures states[i].snapshot.Some? <==> Listed(actions, i)
  {
    ListingDecides(q, actions, states, i);
  }
}
