/** The two ways a watch loses an event: a session listing that fails, so that nothing shows what
    was granted before, and a channel that fills, so that a publish finds no room. */
module WatchLoss {
  import opened Common
  import opened Runs
  import opened Coordinator
  import opened LeaseProofs
  import opened Watch

  /** How often an event is still being published, queued, or taken off the channel. */
  function Kept(s: State, e: Event): nat {
    s.pending[e] + multiset(s.channel)[e] + multiset(s.taken)[e]
  }

  /** The snapshot lists exactly the leases that the operations before it left standing, and operation
      `k` is one of those. */
  ghost predicate Shown(q: Request, actions: seq<Action>, states: seq<State>, k: nat)
    requires |states| == |actions| + 1
  {
    exists j :: 0 <= j < |actions| && TakenBy(q, actions, states, j, |actions|) && k < |states[j].log|
  }

  /** Every operation left its mark in what the snapshot shows, or each of its matching events is
      exactly once on its way or taken, and in the latter case sent. */
  ghost predicate NothingLost(q: Request, actions: seq<Action>, states: seq<State>)
    requires |states| == |actions| + 1
  {
    var s := states[|actions|];
    forall k, e :: 0 <= k < |s.log| && e in OpEvents(s.log, k) && Passes(q, e.lease) ==>
      || Shown(q, actions, states, k)
      || (Kept(s, e) == 1 && multiset(s.sent)[e] == multiset(s.taken)[e])
  }

  /** An action that a listing outcome `ok` allows; without `fills`, only while the channel has room. */
  predicate Allowed(ok: bool, fills: bool, s: State, a: Action) {
    (a.List? ==> a.ok == ok) && (fills || |s.channel| < 64)
  }

  /** A run of allowed actions. */
  ghost predicate AllowedRun(q: Request, ok: bool, fills: bool, actions: seq<Action>, states: seq<State>) {
    && IsRun(q, actions, states)
    && forall i :: 0 <= i < |actions| ==> Allowed(ok, fills, states[i], actions[i])
  }

  /** A run of allowed actions leads to `s`. */
  ghost predicate Reaches(q: Request, ok: bool, fills: bool, s: State) {
    exists actions, states :: AllowedRun(q, ok, fills, actions, states) && states[|actions|] == s
  }

  // ------------------------------------------- a listing that succeeds and a channel with room

  lemma {:induction false} ListedStreamHasShot(q: Request, actions: seq<Action>, states: seq<State>, i: nat)
    requires IsRun(q, actions, states) && i < |states| && q.includeExisting
    requires forall j :: 0 <= j < |actions| && actions[j].List? ==> actions[j].ok
    ensures states[i].phase.Streaming? ==> states[i].snapshot.Some?
  {
    if i > 0 {
      ListedStreamHasShot(q, actions, states, i - 1);
      assert Apply(q, states[i - 1], actions[i - 1]) == Some(states[i]);
    }
  }

  lemma SentAsTaken(q: Request, actions: seq<Action>, states: seq<State>, i: nat, e: Event)
    requires IsRun(q, actions, states) && i < |states| && Passes(q, e.lease)
    ensures multiset(states[i].sent)[e] == multiset(states[i].taken)[e]
  {
    SentInOrder(q, actions, states, i);
    PassingCount(q, states[i].taken, e);
  }

  lemma RoomKeepsAll(q: Request, actions: seq<Action>, states: seq<State>)
    requires q.includeExisting && AllowedRun(q, true, false, actions, states) && states[|actions|].phase.Streaming?
    ensures NothingLost(q, actions, states)
  {
    var n, s := |actions|, states[|actions|];
    ListedStreamHasShot(q, actions, states, n);
    NothingMissedUnlessFull(q, actions, states, n);
    WatchMissesNothing(q, actions, states, n);
    forall e: Event | Passes(q, e.lease) ensures multiset(s.sent)[e] == multiset(s.taken)[e] {
      SentAsTaken(q, actions, states, n, e);
    }
    assert forall e :: Kept(s, e) == Copies(s, e);
  }

  // ------------------------------------------- runs, step by step

  lemma Go(q: Request, ok: bool, fills: bool, s: State, a: Action, s': State)
    requires Reaches(q, ok, fills, s) && Allowed(ok, fills, s, a) && Apply(q, s, a) == Some(s')
    ensures Reaches(q, ok, fills, s')
  {
    var actions, states :| AllowedRun(q, ok, fills, actions, states) && states[|actions|] == s;
    var g := (s: State, a: Action) => Allowed(ok, fills, s, a);
    RunGrows(q, actions, states, a, s');
    assert Every(g, actions, states);
    EveryGrows(g, actions, states, a, s');
    assert AllowedRun(q, ok, fills, actions + [a], states + [s']);
  }

  lemma RunGrows(q: Request, actions: seq<Action>, states: seq<State>, a: Action, s': State)
    requires IsRun(q, actions, states) && Apply(q, states[|actions|], a) == Some(s')
    ensures IsRun(q, actions + [a], states + [s'])
  {
    var f := (s: State, a: Action) => Apply(q, s, a);
    assert Chain(f, actions, states);
    ChainGrows(f, actions, states, a, s');
  }

  function Fresh(): State { State([], multiset{}, Opened, None, [], [], [], multiset{}) }

  lemma Start(q: Request, ok: bool, fills: bool)
    ensures Reaches(q, ok, fills, Fresh())
  {
    var none: seq<Action> := [];
    assert AllowedRun(q, ok, fills, none, [Fresh()]) && [Fresh()][|none|] == Fresh();
  }

  // ------------------------------------------- a lease granted and then renewed

  function Tunnel(q: Request): string { if q.tunnelFilter == "" then "t" else q.tunnelFilter }

  function Relay(q: Request): string { if q.relayFilter == "" then "r" else q.relayFilter }

  /** The lease after `n` grants. */
  function Version(q: Request, n: nat): Lease { Lease("1", Tunnel(q), Relay(q), 1, n) }

  /** A grant that passes the filters, and its renewals. */
  function GrantOp(q: Request, i: nat): Op {
    if i == 0 then Acquire(Tunnel(q), Relay(q), 1, 0, "1") else Renew("1", 1, 0)
  }

  function Grants(q: Request, n: nat): seq<Op> { seq(n, i requires 0 <= i => GrantOp(q, i)) }

  function GrantEvent(q: Request, i: nat): Event { Event(i, false, Version(q, i + 1)) }

  function TableOf(q: Request, n: nat): Table {
    if n == 0 then Table(map[], map[]) else Table(map["1" := Version(q, n)], map[Tunnel(q) := "1"])
  }

  lemma GrantStep(q: Request, n: nat)
    ensures Step(TableOf(q, n), GrantOp(q, n)) == (TableOf(q, n + 1), Granted(Version(q, n + 1)))
  {
    if n > 0 { assert map["1" := Version(q, n)]["1" := Version(q, n + 1)] == map["1" := Version(q, n + 1)]; }
  }

  lemma {:induction false} TableAfterGrants(q: Request, n: nat)
    ensures TableAfter(Grants(q, n)) == TableOf(q, n)
  {
    if n > 0 {
      TableAfterGrants(q, n - 1);
      assert Grants(q, n)[..n - 1] == Grants(q, n - 1);
      GrantStep(q, n - 1);
    }
  }

  lemma GrantPublishes(q: Request, n: nat)
    ensures Passes(q, GrantEvent(q, n).lease)
    ensures Grants(q, n + 1) == Grants(q, n) + [GrantOp(q, n)]
    ensures EventsOf(n, GrantOp(q, n), Step(TableAfter(Grants(q, n)), GrantOp(q, n)).1) == multiset{GrantEvent(q, n)}
    ensures OpEvents(Grants(q, n + 1), n) == multiset{GrantEvent(q, n)}
  {
    TableAfterGrants(q, n);
    GrantStep(q, n);
    assert Grants(q, n + 1)[..n] == Grants(q, n);
  }

  /** Grant number `n`, and its publish, by a watch that has published everything before. */
  lemma GrantAndPublish(q: Request, ok: bool, fills: bool, s: State, s': State)
    requires Reaches(q, ok, fills, s) && s.log == Grants(q, |s.log|) && s.pending == multiset{}
    requires fills || |s.channel| < 64
    requires
      var n := |s.log|;
      var s1 := s.(log := Grants(q, n + 1), pending := multiset{GrantEvent(q, n)});
      Apply(q, s1, Publish(GrantEvent(q, n))) == Some(s')
    ensures Reaches(q, ok, fills, s')
  {
    var n := |s.log|;
    var s1 := s.(log := Grants(q, n + 1), pending := multiset{GrantEvent(q, n)});
    GrantPublishes(q, n);
    assert multiset{} + multiset{GrantEvent(q, n)} == multiset{GrantEvent(q, n)};
    Go(q, ok, fills, s, Operate(GrantOp(q, n)), s1);
    Go(q, ok, fills, s1, Publish(GrantEvent(q, n)), s');
  }

  // ------------------------------------------- a listing that fails

  /** A grant before the subscription, and a failed listing: the watch streams, and the grant is
      neither in a snapshot nor on its way. */
  lemma FailedListingHidesGrant(q: Request, fills: bool) returns (s: State, e: Event)
    requires q.includeExisting
    ensures Reaches(q, false, fills, s) && s.phase.Streaming? && s.snapshot.None?
    ensures Passes(q, e.lease)
    ensures |s.log| == 1 && e in OpEvents(s.log, 0) && Copies(s, e) == 0
  {
    e := GrantEvent(q, 0);
    Start(q, false, fills);
    GrantPublishes(q, 0);
    var s2 := Fresh().(log := Grants(q, 1));
    GrantAndPublish(q, false, fills, Fresh(), s2);
    var s3 := s2.(phase := Subscribed);
    Go(q, false, fills, s2, Subscribe, s3);
    s := s2.(phase := Streaming);
    Go(q, false, fills, s3, List(false, []), s);
  }

  // ------------------------------------------- a channel that fills

  function Queue(q: Request, n: nat): seq<Event> { seq(n, i requires 0 <= i => GrantEvent(q, i)) }

  /** A streaming watch that saw nothing in its snapshot and has `n` unread grants in its channel. */
  function Unread(q: Request, n: nat): State {
    State(Grants(q, n), multiset{}, Streaming, Some(Shot(0, {})), Queue(q, n), [], [], multiset{})
  }

  lemma StreamsEmpty(q: Request)
    requires q.includeExisting
    ensures Reaches(q, true, true, Unread(q, 0))
  {
    Start(q, true, true);
    var s0 := Fresh();
    var s1, s2 := s0.(phase := Subscribed), s0.(phase := Visiting([]));
    Go(q, true, true, s0, Subscribe, s1);
    Go(q, true, true, s1, List(true, []), s2);
    assert DoSnapshot(TableAfter([]), q.tunnelFilter, q.relayFilter, 0) == Leases({});
    assert Grants(q, 0) == [] && Queue(q, 0) == [];
    Go(q, true, true, s2, TakeSnapshot(0), Unread(q, 0));
  }

  lemma {:induction false} UnreadGrants(q: Request, n: nat)
    requires q.includeExisting && n <= 64
    ensures Reaches(q, true, true, Unread(q, n))
  {
    if n == 0 {
      StreamsEmpty(q);
    } else {
      UnreadGrants(q, n - 1);
      assert Queue(q, n) == Queue(q, n - 1) + [GrantEvent(q, n - 1)];
      GrantAndPublish(q, true, true, Unread(q, n - 1), Unread(q, n));
    }
  }

  /** Sixty-four unread grants and one more: the last is refused, although the listing succeeded. */
  lemma FullChannelLosesGrant(q: Request) returns (s: State, e: Event)
    requires q.includeExisting
    ensures Reaches(q, true, true, s) && s.phase.Streaming? && s.snapshot == Some(Shot(0, {}))
    ensures Passes(q, e.lease)
    ensures |s.log| == 64 + 1 && e in OpEvents(s.log, 64) && Kept(s, e) == 0 && e in s.missed
  {
    var n := 64;
    e := GrantEvent(q, n);
    UnreadGrants(q, n);
    GrantPublishes(q, n);
    s := Unread(q, n).(log := Grants(q, n + 1), missed := multiset{e});
    assert multiset{} + multiset{e} == multiset{e};
    GrantAndPublish(q, true, true, Unread(q, n), s);
    assert e !in Queue(q, n);
  }

  /** A matching event that is not kept, of an operation that the snapshot does not cover, is lost. */
  lemma Loses(q: Request, actions: seq<Action>, states: seq<State>, k: nat, e: Event)
    requires |states| == |actions| + 1
    requires
      var s := states[|actions|];
      && k < |s.log| && e in OpEvents(s.log, k) && Passes(q, e.lease)
      && Kept(s, e) == 0 && (s.snapshot.Some? ==> s.snapshot.value.at <= k)
    ensures !NothingLost(q, actions, states)
  {
    assert !Shown(q, actions, states, k);
  }

  lemma LosesOnTheWay(q: Request, ok: bool, fills: bool, s: State, k: nat, e: Event)
    requires Reaches(q, ok, fills, s) && s.phase.Streaming?
    requires k < |s.log| && e in OpEvents(s.log, k) && Passes(q, e.lease)
    requires Kept(s, e) == 0 && (s.snapshot.Some? ==> s.snapshot.value.at <= k)
    ensures !AlwaysKept(q, ok, fills)
  {
    var actions, states :| AllowedRun(q, ok, fills, actions, states) && states[|actions|] == s;
    Loses(q, actions, states, k, e);
  }

  /** No run of allowed actions to a streaming watch loses anything. */
  ghost predicate AlwaysKept(q: Request, ok: bool, fills: bool) {
    forall actions: seq<Action>, states: seq<State> ::
      AllowedRun(q, ok, fills, actions, states) && states[|actions|].phase.Streaming? ==>
        NothingLost(q, actions, states)
  }

  /** A streaming watch that asked for existing leases never loses anything exactly when its session
      listing succeeds and its channel never fills. */
  lemma NothingLostIff(q: Request, ok: bool, fills: bool)
    requires q.includeExisting
    ensures AlwaysKept(q, ok, fills) <==> ok && !fills
  {
    if !ok {
      var s, e := FailedListingHidesGrant(q, fills);
      LosesOnTheWay(q, ok, fills, s, 0, e);
    } else if fills {
      var s, e := FullChannelLosesGrant(q);
      LosesOnTheWay(q, ok, fills, s, 64, e);
    } else {
      forall actions: seq<Action>, states: seq<State>
        | AllowedRun(q, ok, fills, actions, states) && states[|actions|].phase.Streaming?
        ensures NothingLost(q, actions, states)
      {
        RoomKeepsAll(q, actions, states);
      }
    }
  }
}
