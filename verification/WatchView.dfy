/** What a client that has caught up knows about the leases: those the snapshot listed, and those it
    was told of since. */
module WatchView {
  import opened Common
  import opened Runs
  import opened Coordinator
  import opened LeaseProofs
  import opened LeaseRefinement
  import opened LeaseAnswers
  import opened Watch
  import opened WatchLoss

  /** The table after the first `n` operations holds `l`, as it is. */
  predicate Holds(log: seq<Op>, n: nat, l: Lease)
    requires n <= |log|
  {
    var t := TableAfter(log[..n]);
    l.id in t.byID && t.byID[l.id] == l
  }

  function GrantOf(k: nat, l: Lease): Event { Event(k, false, l) }

  function ReleaseOf(k: nat, l: Lease): Event { Event(k, true, l) }

  /** A lookup of the lease's tunnel, by itself or by an acquire, that finds it run out: it drops the
      lease, and publishes nothing. */
  predicate Purges(op: Op, l: Lease) {
    (op.Acquire? || op.Current?) && op.tunnel == l.tunnel && l.expires < op.now
  }

  lemma TablesAround(log: seq<Op>, k: nat)
    requires FreshIDs(log) && k < |log|
    ensures
      var t := TableAfter(log[..k]);
      Consistent(t) && FreshFor(t, log[k]) && TableAfter(log[..k + 1]) == Step(t, log[k]).0
  {
    FreshPrefix(log, k);
    FreshPrefix(log, k + 1);
    RunHistory(log[..k]);
    assert log[..k + 1][..k] == log[..k];
    IssuedGrows(log[..k + 1]);
  }

  /** What comes into the table is published as granted. */
  lemma ComesAsGrant(log: seq<Op>, k: nat, l: Lease)
    requires FreshIDs(log) && k < |log| && !Holds(log, k, l) && Holds(log, k + 1, l)
    ensures GrantOf(k, l) in OpEvents(log, k)
  {
    TablesAround(log, k);
    StepOnLease(TableAfter(log[..k]), log[k], l.id);
  }

  /** A later version of a lease: the same ID, tunnel and relay. */
  predicate Renewed(l: Lease, l': Lease) {
    l'.id == l.id && l'.tunnel == l.tunnel && l'.relay == l.relay && l'.version == l.version + 1
  }

  lemma RemovalPurges(t: Table, op: Op, l: Lease)
    requires Consistent(t) && FreshFor(t, op) && l.id in t.byID && t.byID[l.id] == l && l.id !in Step(t, op).0.byID
    ensures op.Release? || op.Sweep? || Purges(op, l)
  {
  }

  /** What operation `k` shows, or does not show, of a lease that it takes away. */
  ghost predicate Departs(log: seq<Op>, k: nat, l: Lease)
    requires k < |log|
  {
    || ReleaseOf(k, l) in OpEvents(log, k)
    || (exists l' :: Renewed(l, l') && GrantOf(k, l') in OpEvents(log, k))
    || Purges(log[k], l)
  }

  /** What goes out of the table is published as released or as granted anew, or was purged. */
  lemma GoesAs(log: seq<Op>, k: nat, l: Lease)
    requires FreshIDs(log) && k < |log| && Holds(log, k, l) && !Holds(log, k + 1, l)
    ensures Departs(log, k, l)
  {
    TablesAround(log, k);
    var t, op := TableAfter(log[..k]), log[k];
    StepOnLease(t, op, l.id);
    if l.id in Step(t, op).0.byID {
      assert Renewed(l, Step(t, op).1.lease) && GrantOf(k, Step(t, op).1.lease) in OpEvents(log, k);
    } else {
      RemovalPurges(t, op, l);
      EventsTell(log, k, ReleaseOf(k, l));
    }
  }

  lemma {:induction false} Comes(log: seq<Op>, m: nat, n: nat, l: Lease) returns (k: nat)
    requires FreshIDs(log) && m <= n <= |log| && !Holds(log, m, l) && Holds(log, n, l)
    ensures m <= k < n && GrantOf(k, l) in OpEvents(log, k)
    decreases n
  {
    if Holds(log, n - 1, l) {
      k := Comes(log, m, n - 1, l);
    } else {
      k := n - 1;
      ComesAsGrant(log, k, l);
    }
  }

  lemma {:induction false} Goes(log: seq<Op>, m: nat, n: nat, l: Lease) returns (k: nat)
    requires FreshIDs(log) && m <= n <= |log| && Holds(log, m, l) && !Holds(log, n, l)
    ensures m <= k < n && Departs(log, k, l)
    decreases n
  {
    if Holds(log, n - 1, l) {
      k := n - 1;
      GoesAs(log, k, l);
    } else {
      k := Goes(log, m, n - 1, l);
    }
  }

  // ---------------------------------------------------------------- the client

  /** Published, taken off the channel and refused by nobody. */
  predicate Drained(s: State) { s.pending == multiset{} && s.channel == [] && s.missed == multiset{} }

  lemma ValuesHold(log: seq<Op>, n: nat, l: Lease)
    requires FreshIDs(log) && n <= |log|
    ensures l in TableAfter(log[..n]).byID.Values <==> Holds(log, n, l)
  {
    FreshPrefix(log, n);
    RunHistory(log[..n]);
  }

  /** Read off the history: with ordered readings, the snapshot lists exactly the leases the request asks
      for that were granted, not released since, and not run out at the reading of the action that took it. */
  lemma SnapshotShowsStanding(
      q: Request, actions: seq<Action>, states: seq<State>, j: nat, i: nat, start: int, l: Lease)
    requires IsRun(q, actions, states) && j < i < |states| && actions[j].TakeSnapshot?
    requires FreshIDs(states[j].log) && InOrder(states[j].log, start) && ClockOf(states[j].log, start) <= actions[j].now
    ensures states[i].snapshot.Some?
    ensures l in states[i].snapshot.value.leases <==> Stands(states[j].log, l, actions[j].now) && Passes(q, l)
  {
    var log := states[j].log;
    SnapshotStays(q, actions, states, j, i);
    assert log[..|log|] == log;
    ValuesHold(log, |log|, l);
    TableHoldsStanding(log, start, l, actions[j].now);
  }

  /** Once everything is drained, the client knows every lease of the table that it asked for: the
      snapshot listed it, or its grant was sent, or it had run out before the snapshot. */
  lemma StandingIsKnown(q: Request, actions: seq<Action>, states: seq<State>, j: nat, i: nat, l: Lease)
    requires IsRun(q, actions, states) && j < i < |states| && actions[j].TakeSnapshot?
    requires FreshIDs(states[i].log) && Drained(states[i])
    requires l in TableAfter(states[i].log).byID.Values && Passes(q, l)
    ensures states[i].snapshot.Some?
    ensures
      || l in states[i].snapshot.value.leases
      || (exists k :: GrantOf(k, l) in states[i].sent)
      || (l in TableAfter(states[j].log).byID.Values && l.expires < actions[j].now)
  {
    var log, at := states[i].log, |states[j].log|;
    SnapshotStays(q, actions, states, j, i);
    assert log[..|log|] == log && log[..at] == states[j].log;
    ValuesHold(log, |log|, l);
    ValuesHold(log, at, l);
    if !Holds(log, at, l) {
      var k := Comes(log, at, |log|, l);
      DrainedWatchSentAll(q, actions, states, i, k, GrantOf(k, l));
    }
  }

  lemma SinceSubscribingSent(
      q: Request, actions: seq<Action>, states: seq<State>, j: nat, i: nat, k: nat, e: Event)
    requires IsRun(q, actions, states) && j < i < |states| && actions[j].Subscribe? && Drained(states[i])
    requires |states[j].log| <= k < |states[i].log| && e in OpEvents(states[i].log, k) && Passes(q, e.lease)
    ensures e in states[i].sent
  {
    SubscriberMissesNothing(q, actions, states, j, i, k, e);
  }

  /** Once everything is drained, a lease that the table held at some point since the subscription and
      no longer holds was taken back: its release or its next version was sent, unless a lookup found
      it run out and purged it. */
  lemma GoneIsKnown(q: Request, actions: seq<Action>, states: seq<State>, j: nat, i: nat, m: nat, l: Lease)
    requires IsRun(q, actions, states) && j < i < |states| && actions[j].Subscribe?
    requires FreshIDs(states[i].log) && Drained(states[i]) && Passes(q, l)
    requires |states[j].log| <= m <= |states[i].log| && Holds(states[i].log, m, l)
    requires !Holds(states[i].log, |states[i].log|, l)
    ensures
      || (exists k :: ReleaseOf(k, l) in states[i].sent)
      || (exists k, l' :: Renewed(l, l') && GrantOf(k, l') in states[i].sent)
      || (exists k :: m <= k < |states[i].log| && Purges(states[i].log[k], l))
  {
    var log := states[i].log;
    var k := Goes(log, m, |log|, l);
    if ReleaseOf(k, l) in OpEvents(log, k) {
      SinceSubscribingSent(q, actions, states, j, i, k, ReleaseOf(k, l));
    } else if !Purges(log[k], l) {
      var l' :| Renewed(l, l') && GrantOf(k, l') in OpEvents(log, k);
      SinceSubscribingSent(q, actions, states, j, i, k, GrantOf(k, l'));
    }
  }

  // ---------------------------------------------------------------- nothing is made up

  /** Whatever is anywhere, of an operation from `from` on, is an event of that operation. */
  ghost predicate Genuine(s: State, from: nat) {
    && from <= |s.log|
    && forall e :: Copies(s, e) > 0 && from <= e.op ==> e.op < |s.log| && e in OpEvents(s.log, e.op)
  }

  lemma DoIsGenuine(s: State, op: Op, from: nat)
    requires Genuine(s, from)
    ensures Genuine(Do(s, op), from)
  {
    var s', n := Do(s, op), |s.log|;
    var added := EventsOf(n, op, Step(TableAfter(s.log), op).1);
    assert s'.log[..n] == s.log && OpEvents(s'.log, n) == added;
    forall e | Copies(s', e) > 0 && from <= e.op ensures e.op < |s'.log| && e in OpEvents(s'.log, e.op) {
      EventsOnce(n, op, Step(TableAfter(s.log), op).1, e);
      assert Copies(s', e) == Copies(s, e) + added[e];
      if e !in added { OpEventsOfPrefix(s.log, op, e.op); }
    }
  }

  lemma FewerAreGenuine(s: State, s': State, from: nat)
    requires Genuine(s, from) && s'.log == s.log && forall e :: Copies(s', e) <= Copies(s, e)
    ensures Genuine(s', from)
  {
  }

  lemma PublishMovesCopy(q: Request, s: State, e: Event, s': State, x: Event)
    requires Apply(q, s, Publish(e)) == Some(s')
    ensures s'.log == s.log && Copies(s', x) <= Copies(s, x)
  {
    assert multiset(s.channel + [e])[x] == multiset(s.channel)[x] + multiset{e}[x];
  }

  lemma PublishIsGenuine(q: Request, s: State, e: Event, s': State, from: nat)
    requires Genuine(s, from) && Apply(q, s, Publish(e)) == Some(s')
    ensures Genuine(s', from)
  {
    forall x ensures s'.log == s.log && Copies(s', x) <= Copies(s, x) { PublishMovesCopy(q, s, e, s', x); }
    FewerAreGenuine(s, s', from);
  }

  lemma ReceiveIsGenuine(q: Request, s: State, s': State, from: nat)
    requires Genuine(s, from) && Apply(q, s, Receive) == Some(s')
    ensures Genuine(s', from)
  {
    forall x ensures Copies(s', x) == Copies(s, x) { MoveKeepsCount(s.channel, s.taken, x); }
    FewerAreGenuine(s, s', from);
  }

  lemma VisitIsGenuine(q: Request, s: State, now: int, s': State, from: nat)
    requires Genuine(s, from) && Apply(q, s, Visit(now)) == Some(s')
    ensures Genuine(s', from)
  {
    var s1 := Do(s, Current(s.phase.sessions[0], now));
    DoIsGenuine(s, Current(s.phase.sessions[0], now), from);
    FewerAreGenuine(if s'.log == s.log then s else s1, s', from);
  }

  lemma StepIsGenuine(q: Request, s: State, a: Action, s': State, from: nat)
    requires Genuine(s, from) && Apply(q, s, a) == Some(s')
    ensures Genuine(s', from)
  {
    match a
    case Operate(op) => DoIsGenuine(s, op, from);
    case Publish(e) => PublishIsGenuine(q, s, e, s', from);
    case Receive => ReceiveIsGenuine(q, s, s', from);
    case Visit(now) => VisitIsGenuine(q, s, now, s', from);
    case _ => FewerAreGenuine(s, s', from);
  }

  /** In every run, whatever is waiting, queued, taken or lost, and so whatever is sent, is an event of
      the operation it names, if that operation is one of the run's. */
  lemma NothingInvented(q: Request, actions: seq<Action>, states: seq<State>, i: nat, e: Event)
    requires IsRun(q, actions, states) && i < |states| && Copies(states[i], e) > 0 && |states[0].log| <= e.op
    ensures e.op < |states[i].log| && e in OpEvents(states[i].log, e.op)
  {
    var f, from := (s: State, a: Action) => Apply(q, s, a), |states[0].log|;
    var p := (s: State, before: seq<Action>) => Genuine(s, from);
    forall s, before, a | p(s, before) && f(s, a).Some? ensures p(f(s, a).value, before + [a]) {
      StepIsGenuine(q, s, a, f(s, a).value, from);
    }
    assert Genuine(states[0], from);
    Along(f, p, actions, states, i);
  }

  // ---------------------------------------------------------------- what the client was told

  /** The snapshot lists the lease, or its grant by an operation from `from` on was sent. */
  ghost predicate Told(s: State, from: nat, l: Lease) {
    (s.snapshot.Some? && l in s.snapshot.value.leases) || (exists k: nat :: from <= k && GrantOf(k, l) in s.sent)
  }

  lemma ListedWasHeld(q: Request, actions: seq<Action>, states: seq<State>, j: nat, i: nat, l: Lease) returns (m: nat)
    requires IsRun(q, actions, states) && j < i < |states| && actions[j].Subscribe? && FreshIDs(states[i].log)
    requires states[i].snapshot.Some? && l in states[i].snapshot.value.leases
    ensures |states[j].log| <= m <= |states[i].log| && Holds(states[i].log, m, l) && Passes(q, l)
  {
    var at := SnapshotWasTaken(q, actions, states, i);
    SnapshotStays(q, actions, states, at, i);
    InvSinceSubscribing(q, actions, states, j, i);
    m := states[i].snapshot.value.at;
    assert states[i].log[..m] == states[at].log;
    ValuesHold(states[i].log, m, l);
  }

  lemma SentWasHeld(q: Request, actions: seq<Action>, states: seq<State>, j: nat, i: nat, k: nat, l: Lease)
    requires IsRun(q, actions, states) && j < i < |states| && FreshIDs(states[i].log)
    requires |states[j].log| <= k && GrantOf(k, l) in states[i].sent
    ensures k < |states[i].log| && Holds(states[i].log, k + 1, l) && Passes(q, l)
  {
    RunForwards(q, actions, states, i);
    PassingCount(q, states[i].taken, GrantOf(k, l));
    LogGrows(q, actions, states, 0, j);
    NothingInvented(q, actions, states, i, GrantOf(k, l));
    EventsTell(states[i].log, k, GrantOf(k, l));
  }

  /** Once everything is drained, a lease the client was told of that is no longer in the table was
      taken back: its release or its next version was sent, unless a lookup found it run out and
      purged it. */
  lemma KnownIsStanding(q: Request, actions: seq<Action>, states: seq<State>, j: nat, i: nat, l: Lease)
    requires IsRun(q, actions, states) && j < i < |states| && actions[j].Subscribe?
    requires FreshIDs(states[i].log) && Drained(states[i])
    requires Told(states[i], |states[j].log|, l) && l !in TableAfter(states[i].log).byID.Values
    ensures
      || (exists k :: ReleaseOf(k, l) in states[i].sent)
      || (exists k, l' :: Renewed(l, l') && GrantOf(k, l') in states[i].sent)
      || (exists k :: |states[j].log| <= k < |states[i].log| && Purges(states[i].log[k], l))
  {
    var log, m := states[i].log, 0;
    if states[i].snapshot.Some? && l in states[i].snapshot.value.leases {
      m := ListedWasHeld(q, actions, states, j, i, l);
    } else {
      var k: nat :| |states[j].log| <= k && GrantOf(k, l) in states[i].sent;
      SentWasHeld(q, actions, states, j, i, k, l);
      m := k + 1;
    }
    assert log[..|log|] == log;
    ValuesHold(log, |log|, l);
    GoneIsKnown(q, actions, states, j, i, m, l);
  }

  /** A watch that has received the one grant there was. */
  function Received(q: Request): State {
    var es := [GrantEvent(q, 0)];
    State(Grants(q, 1), multiset{}, Streaming, Some(Shot(0, {})), [], es, es, multiset{})
  }

  lemma ReceivesGrant(q: Request)
    requires q.includeExisting
    ensures Reaches(q, true, true, Received(q))
  {
    UnreadGrants(q, 1);
    GrantPublishes(q, 0);
    var e := GrantEvent(q, 0);
    assert Queue(q, 1) == [e] && [e][1..] == [] && [] + [e] == [e];
    assert Matches(e.lease, q.tunnelFilter, q.relayFilter);
    Go(q, true, true, Unread(q, 1), Receive, Received(q));
  }

  lemma LookupPurges(q: Request)
    ensures
      var op := Current(Tunnel(q), 2);
      Step(TableAfter(Grants(q, 1)), op) == (Table(map[], map[]), Held(None))
  {
    TableAfterGrants(q, 1);
  }

  /** A purge is silent: the lease is granted and its grant sent, a lookup finds it run out, and
      nothing is left to send although the lease is gone. */
  lemma PurgeIsSilent(q: Request) returns (s: State, l: Lease)
    requires q.includeExisting
    ensures Reaches(q, true, true, s) && s.phase.Streaming? && Drained(s) && FreshIDs(s.log)
    ensures s.sent == [GrantOf(0, l)] && Passes(q, l) && TableAfter(s.log) == Table(map[], map[])
  {
    l := Version(q, 1);
    var op := Current(Tunnel(q), 2);
    ReceivesGrant(q);
    LookupPurges(q);
    s := Received(q).(log := Grants(q, 1) + [op]);
    assert multiset{} + EventsOf(1, op, Held(None)) == multiset{};
    Go(q, true, true, Received(q), Operate(op), s);
    assert s.log[..1] == Grants(q, 1);
  }
}
