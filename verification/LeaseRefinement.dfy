/** The two-index table refines one map from tunnels to leases in which an expired lease is simply
    absent, so sweeps and lazy purges are invisible. */
module LeaseRefinement {
  import opened Common
  import opened Coordinator
  import opened LeaseProofs

  type Leasing = map<string, Lease>

  /** The unexpired leases of a map at a moment. */
  function Alive(m: Leasing, now: int): Leasing {
    map tun | tun in m && now <= m[tun].expires :: m[tun]
  }

  /** The unexpired leases of the two-index table at a moment. */
  function Live(t: Table, now: int): Leasing {
    map tun | tun in t.byTunnel && t.byTunnel[tun] in t.byID && now <= t.byID[t.byTunnel[tun]].expires
      :: t.byID[t.byTunnel[tun]]
  }

  ghost predicate HeldAs(m: Leasing, tun: string, id: string) { tun in m && m[tun].id == id }

  ghost function TunnelOf(m: Leasing, id: string): Option<string> {
    if exists tun :: HeldAs(m, tun, id) then (var tun :| HeldAs(m, tun, id); Some(tun)) else None
  }

  /** An acquire on the live leases `a`. */
  function AbsAcquire(a: Leasing, tunnel: string, relay: string, ttl: int, now: int, uuid: string): (Leasing, Reply) {
    if tunnel == "" || relay == "" then (a, InvalidArgument)
    else if tunnel !in a then
      var l := Lease(uuid, tunnel, relay, now + ttl, 1);
      (a[tunnel := l], Granted(l))
    else if a[tunnel].relay != relay then (a, AlreadyLeased(a[tunnel].relay))
    else
      var l := Lease(a[tunnel].id, tunnel, relay, now + ttl, a[tunnel].version + 1);
      (a[tunnel := l], Granted(l))
  }

  ghost function AbsRenew(a: Leasing, id: string, ttl: int, now: int): (Leasing, Reply) {
    var tun := TunnelOf(a, id);
    if id == "" then (a, InvalidArgument)
    else if tun.None? then (a, NotFound)
    else
      var l := a[tun.value].(expires := now + ttl, version := a[tun.value].version + 1);
      (a[tun.value := l], Granted(l))
  }

  ghost function AbsRelease(a: Leasing, id: string): (Leasing, Reply) {
    var tun := TunnelOf(a, id);
    if id == "" then (a, InvalidArgument)
    else if tun.None? then (a, NotFound)
    else (a - {tun.value}, Released(a[tun.value]))
  }

  function AbsSnapshot(a: Leasing, tf: string, rf: string): set<Lease> {
    set tun | tun in a && (tf == "" || tf == tun) && (rf == "" || rf == a[tun].relay) :: a[tun]
  }

  /** One operation on the abstract map. Sweeping has no effect to see, and a release of an
      expired lease finds nothing. */
  ghost function AbsStep(m: Leasing, op: Op, clock: int): (Leasing, Reply) {
    match op
    case Acquire(tunnel, relay, ttl, now, uuid) => AbsAcquire(Alive(m, now), tunnel, relay, ttl, now, uuid)
    case Renew(id, ttl, now) => AbsRenew(Alive(m, now), id, ttl, now)
    case Release(id) => AbsRelease(Alive(m, clock), id)
    case Current(tunnel, now) =>
      var a := Alive(m, now);
      (a, Held(if tunnel in a then Some(a[tunnel]) else None))
    case Sweep(now) => (Alive(m, now), Leases({}))
    case Snapshot(tf, rf, now) => (Alive(m, now), Leases(AbsSnapshot(Alive(m, now), tf, rf)))
  }

  /** The table and the map agree on every moment from `clock` on. */
  ghost predicate Agree(t: Table, m: Leasing, clock: int) {
    Consistent(t) && Live(t, clock) == Alive(m, clock)
  }

  function ClockAfter(clock: int, op: Op): int {
    if HasReading(op) then Reading(op) else clock
  }

  predicate OnTime(clock: int, op: Op) { clock <= ClockAfter(clock, op) }

  lemma AgreeLater(t: Table, m: Leasing, clock: int, later: int)
    requires Agree(t, m, clock) && clock <= later
    ensures Agree(t, m, later)
  {
    assert forall tun :: tun in Live(t, later) <==> tun in Live(t, clock) && later <= Live(t, clock)[tun].expires;
    assert forall tun :: tun in Alive(m, later) <==> tun in Alive(m, clock) && later <= Alive(m, clock)[tun].expires;
  }

  lemma TunnelOfLive(t: Table, now: int, id: string)
    requires Consistent(t)
    ensures
      TunnelOf(Live(t, now), id)
      == if id in t.byID && now <= t.byID[id].expires then Some(t.byID[id].tunnel) else None
  {
    var a := Live(t, now);
    if id in t.byID && now <= t.byID[id].expires {
      assert HeldAs(a, t.byID[id].tunnel, id);
    }
  }

  /** A lookup purges without changing what is live, and returns the live lease. */
  lemma LookupAgrees(t: Table, tunnel: string, now: int)
    requires Consistent(t)
    ensures
      var (t1, l) := Lookup(t, tunnel, now);
      var a := Live(t, now);
      && Consistent(t1) && Live(t1, now) == a
      && l == (if tunnel in a then Some(a[tunnel]) else None)
      && (l.None? ==> tunnel !in t1.byTunnel)
      && t1.byID.Keys <= t.byID.Keys
  {
  }

  lemma PutAgrees(t: Table, l: Lease, now: int)
    requires Consistent(t)
    requires if l.tunnel in t.byTunnel then t.byTunnel[l.tunnel] == l.id else l.id !in t.byID
    ensures Live(Put(t, l), now) == Alive(Live(t, now)[l.tunnel := l], now)
  {
  }

  lemma AliveTwice(m: Leasing, now: int)
    ensures Alive(Alive(m, now), now) == Alive(m, now)
  {
  }

  lemma AcquireAgrees(t: Table, m: Leasing, op: Op)
    requires op.Acquire? && Agree(t, m, op.now) && FreshFor(t, op)
    ensures Step(t, op).1 == AbsStep(m, op, op.now).1
    ensures Live(Step(t, op).0, op.now) == Alive(AbsStep(m, op, op.now).0, op.now)
  {
    AcquireAnswers(t, m, op);
    AcquireLeavesAlike(t, m, op);
  }

  lemma AcquireAnswers(t: Table, m: Leasing, op: Op)
    requires op.Acquire? && Agree(t, m, op.now)
    ensures Step(t, op).1 == AbsStep(m, op, op.now).1
  {
    LookupAgrees(t, op.tunnel, op.now);
    AcquireByLookup(t, op);
  }

  lemma AcquireByLookup(t: Table, op: Op)
    requires op.Acquire? && Consistent(t)
    ensures
      var l, r := Lookup(t, op.tunnel, op.now).1, Step(t, op).1;
      if op.tunnel == "" || op.relay == "" then r == InvalidArgument
      else if l.None? then r == Granted(Lease(op.uuid, op.tunnel, op.relay, op.now + op.ttl, 1))
      else if l.value.relay != op.relay then r == AlreadyLeased(l.value.relay)
      else r == Granted(Lease(l.value.id, op.tunnel, op.relay, op.now + op.ttl, l.value.version + 1))
  {
  }

  lemma AcquireLeavesAlike(t: Table, m: Leasing, op: Op)
    requires op.Acquire? && Agree(t, m, op.now) && FreshFor(t, op)
    ensures Live(Step(t, op).0, op.now) == Alive(AbsStep(m, op, op.now).0, op.now)
  {
    AliveTwice(m, op.now);
    AcquireAnswers(t, m, op);
    LookupAgrees(t, op.tunnel, op.now);
    var (t1, existing) := Lookup(t, op.tunnel, op.now);
    var r := Step(t, op).1;
    if r.Granted? {
      PutAgrees(t1, r.lease, op.now);
      assert AbsStep(m, op, op.now).0 == Alive(m, op.now)[op.tunnel := r.lease];
    }
  }

  lemma RenewAgrees(t: Table, m: Leasing, op: Op)
    requires op.Renew? && Agree(t, m, op.now)
    ensures Step(t, op).1 == AbsStep(m, op, op.now).1
    ensures Live(Step(t, op).0, op.now) == Alive(AbsStep(m, op, op.now).0, op.now)
  {
    AliveTwice(m, op.now);
    TunnelOfLive(t, op.now, op.id);
    var r := Step(t, op).1;
    if r.Granted? {
      PutAgrees(t, r.lease, op.now);
      assert Put(t, r.lease) == Step(t, op).0;
    }
  }

  /** Only the release of an expired lease can tell whether it was purged. */
  lemma ReleaseAgrees(t: Table, m: Leasing, op: Op, clock: int)
    requires op.Release? && Agree(t, m, clock)
    ensures
      var r, abs := Step(t, op).1, AbsStep(m, op, clock).1;
      r == abs || (abs == NotFound && r.Released? && r.lease.expires < clock)
    ensures Live(Step(t, op).0, clock) == Alive(AbsStep(m, op, clock).0, clock)
  {
    AliveTwice(m, clock);
    TunnelOfLive(t, clock, op.id);
    ReleaseLeavesAlike(t, m, op, clock);
  }

  lemma ReleaseLeavesAlike(t: Table, m: Leasing, op: Op, clock: int)
    requires op.Release? && Agree(t, m, clock)
    ensures Live(Step(t, op).0, clock) == Alive(AbsStep(m, op, clock).0, clock)
  {
    AliveTwice(m, clock);
    TunnelOfLive(t, clock, op.id);
    if op.id in t.byID { DropLive(t, op.id, clock); }
    AliveLess(Alive(m, clock), clock);
  }

  /** Dropping a lease takes its tunnel out of the unexpired leases, if it was among them. */
  lemma DropLive(t: Table, id: string, clock: int)
    requires Consistent(t) && id in t.byID
    ensures Live(Drop(t, id), clock) == Live(t, clock) - {t.byID[id].tunnel}
    ensures t.byID[id].expires < clock ==> t.byID[id].tunnel !in Live(t, clock)
  {
  }

  lemma AliveLess(a: Leasing, clock: int)
    requires Alive(a, clock) == a
    ensures forall tun :: Alive(a - {tun}, clock) == a - {tun}
  {
    forall tun ensures Alive(a - {tun}, clock) == a - {tun} {
      assert forall x :: x in a - {tun} ==> x in Alive(a, clock);
    }
  }

  lemma SweepAgrees(t: Table, m: Leasing, op: Op)
    requires op.Sweep? && Agree(t, m, op.now)
    ensures Live(Step(t, op).0, op.now) == Alive(AbsStep(m, op, op.now).0, op.now)
  {
    AliveTwice(m, op.now);
  }

  lemma ReadAgrees(t: Table, m: Leasing, op: Op)
    requires (op.Current? || op.Snapshot?) && Agree(t, m, op.now)
    ensures Step(t, op).1 == AbsStep(m, op, op.now).1
    ensures Live(Step(t, op).0, op.now) == Alive(AbsStep(m, op, op.now).0, op.now)
  {
    AliveTwice(m, op.now);
    if op.Current? {
      LookupAgrees(t, op.tunnel, op.now);
    } else {
      var a := Live(t, op.now);
      var listed := AbsStep(a, op, op.now).1.leases;
      var ids := ListedIDs(t, op.tunnelFilter, op.relayFilter, op.now);
      forall l ensures l in listed <==> l in Select(t.byID, ids) {
        if l in Select(t.byID, ids) {
          assert l.tunnel in a && a[l.tunnel] == l;
        }
        if l in listed {
          assert l.id in ids;
        }
      }
    }
  }

  /** The reply an outside observer compares: a sweep's own result is not one, and a release may
      find an expired lease that the map no longer has. */
  ghost predicate SameReply(op: Op, r: Reply, abs: Reply, clock: int) {
    || op.Sweep?
    || r == abs
    || (op.Release? && abs == NotFound && r.Released? && r.lease.expires < clock)
  }

  /** One step of the table is one step of the map, as long as readings do not go back. */
  lemma StepRefines(t: Table, m: Leasing, op: Op, clock: int)
    requires Agree(t, m, clock) && OnTime(clock, op) && FreshFor(t, op)
    ensures SameReply(op, Step(t, op).1, AbsStep(m, op, clock).1, clock)
    ensures Agree(Step(t, op).0, AbsStep(m, op, clock).0, ClockAfter(clock, op))
  {
    StepKeepsConsistent(t, op);
    AgreeLater(t, m, clock, ClockAfter(clock, op));
    match op
    case Acquire(_, _, _, _, _) => AcquireAgrees(t, m, op);
    case Renew(_, _, _) => RenewAgrees(t, m, op);
    case Release(_) => ReleaseAgrees(t, m, op, clock);
    case Sweep(_) => SweepAgrees(t, m, op);
    case _ => ReadAgrees(t, m, op);
  }

  // ---------------------------------------------------------------- runs

  /** The latest reading of a run whose readings do not go back. */
  function ClockOf(ops: seq<Op>, start: int): int {
    if ops == [] then start else ClockAfter(ClockOf(ops[..|ops| - 1], start), ops[|ops| - 1])
  }

  /** Readings are nondecreasing in lock order. */
  ghost predicate InOrder(ops: seq<Op>, start: int) {
    forall i :: 0 <= i < |ops| ==> OnTime(ClockOf(ops[..i], start), ops[i])
  }

  ghost function AbsAfter(ops: seq<Op>, start: int): Leasing {
    if ops == [] then map[]
    else
      var p := ops[..|ops| - 1];
      AbsStep(AbsAfter(p, start), ops[|ops| - 1], ClockOf(p, start)).0
  }

  ghost function AbsReplyAt(ops: seq<Op>, start: int, i: nat): Reply
    requires i < |ops|
  {
    AbsStep(AbsAfter(ops[..i], start), ops[i], ClockOf(ops[..i], start)).1
  }

  lemma FreshLast(ops: seq<Op>)
    requires FreshIDs(ops) && ops != []
    ensures FreshFor(TableAfter(ops[..|ops| - 1]), ops[|ops| - 1])
    ensures FreshIDs(ops[..|ops| - 1])
  {
    IssuedGrows(ops);
    RunHistory(ops[..|ops| - 1]);
  }

  lemma FreshAt(ops: seq<Op>, i: nat)
    requires FreshIDs(ops) && i < |ops|
    ensures FreshIDs(ops[..i]) && FreshFor(TableAfter(ops[..i]), ops[i])
  {
    FreshPrefix(ops, i);
    FreshPrefix(ops, i + 1);
    assert ops[..i + 1][..i] == ops[..i];
    FreshLast(ops[..i + 1]);
  }

  lemma OrderedPrefix(ops: seq<Op>, start: int, n: nat)
    requires InOrder(ops, start) && n <= |ops|
    ensures InOrder(ops[..n], start)
  {
    forall i | 0 <= i < n ensures OnTime(ClockOf(ops[..n][..i], start), ops[..n][i]) {
      assert ops[..n][..i] == ops[..i];
    }
  }

  lemma {:induction false} RunAgrees(ops: seq<Op>, start: int)
    requires FreshIDs(ops) && InOrder(ops, start)
    ensures Agree(TableAfter(ops), AbsAfter(ops, start), ClockOf(ops, start))
  {
    if ops == [] {
      assert Live(Table(map[], map[]), start) == Alive(map[], start);
    } else {
      var n := |ops| - 1;
      var p := ops[..n];
      FreshLast(ops);
      OrderedPrefix(ops, start, n);
      RunAgrees(p, start);
      StepRefines(TableAfter(p), AbsAfter(p, start), ops[n], ClockOf(p, start));
    }
  }

  /** Over every run with ordered readings, the coordinator answers as the single map does. */
  lemma CoordinatorRefinesMap(ops: seq<Op>, start: int, i: nat)
    requires FreshIDs(ops) && InOrder(ops, start) && i < |ops|
    ensures SameReply(ops[i], ReplyAt(ops, i), AbsReplyAt(ops, start, i), ClockOf(ops[..i], start))
  {
    FreshAt(ops, i);
    OrderedPrefix(ops, start, i);
    RunAgrees(ops[..i], start);
    StepRefines(TableAfter(ops[..i]), AbsAfter(ops[..i], start), ops[i], ClockOf(ops[..i], start));
  }

  // ---------------------------------------------------------------- purges are invisible

  ghost predicate SameLive(t1: Table, t2: Table, clock: int) {
    Consistent(t1) && Consistent(t2) && Live(t1, clock) == Live(t2, clock)
  }

  /** What two coordinators that agree on the live leases may answer differently: whether an
      expired lease can still be released, and what a sweep finds. */
  ghost predicate Indistinct(op: Op, r1: Reply, r2: Reply, clock: int) {
    || op.Sweep?
    || r1 == r2
    || (op.Release? && StaleRelease(r1, clock) && StaleRelease(r2, clock))
  }

  predicate StaleRelease(r: Reply, clock: int) {
    r == NotFound || (r.Released? && r.lease.expires < clock)
  }

  lemma StepPreservesSameLive(t1: Table, t2: Table, op: Op, clock: int)
    requires SameLive(t1, t2, clock) && OnTime(clock, op) && FreshFor(t1, op) && FreshFor(t2, op)
    ensures Indistinct(op, Step(t1, op).1, Step(t2, op).1, clock)
    ensures SameLive(Step(t1, op).0, Step(t2, op).0, ClockAfter(clock, op))
  {
    var m := Live(t1, clock);
    assert Alive(m, clock) == m;
    StepRefines(t1, m, op, clock);
    StepRefines(t2, m, op, clock);
  }

  lemma Snoc(ops: seq<Op>, op: Op, start: int)
    ensures (ops + [op])[..|ops|] == ops
    ensures TableAfter(ops + [op]) == Step(TableAfter(ops), op).0
    ensures ClockOf(ops + [op], start) == ClockAfter(ClockOf(ops, start), op)
  {
    assert (ops + [op])[..|ops + [op]| - 1] == ops;
  }

  lemma PurgeKeepsLive(t: Table, p: Op, clock: int)
    requires Consistent(t) && (p.Sweep? || p.Current?) && OnTime(clock, p)
    ensures SameLive(t, Step(t, p).0, ClockAfter(clock, p))
  {
    StepKeepsConsistent(t, p);
    if p.Current? { LookupAgrees(t, p.tunnel, p.now); }
  }

  /** Two runs that differ by one purge, after `n` further operations. */
  ghost predicate Twins(a: seq<Op>, p: Op, b: seq<Op>) {
    FreshIDs(a + [p] + b) && (p.Sweep? || p.Current?)
  }

  lemma TwinsFresh(a: seq<Op>, p: Op, b: seq<Op>, n: nat)
    requires Twins(a, p, b) && n <= |b|
    ensures FreshIDs(a + b[..n]) && FreshIDs(a + [p] + b[..n]) && FreshIDs(a)
  {
    var w, u, v := a + [p] + b, a + b[..n], a + [p] + b[..n];
    assert w[..|v|] == v && w[..|a|] == a;
    FreshPrefix(w, |v|);
    FreshPrefix(w, |a|);
    forall i | 0 <= i < |u| ensures u[i] == v[if i < |a| then i else i + 1] {
    }
  }

  /** One more operation, the same on both sides. */
  lemma TwinStep(u: seq<Op>, v: seq<Op>, op: Op, start: int)
    requires FreshIDs(u + [op]) && FreshIDs(v + [op])
    requires SameLive(TableAfter(u), TableAfter(v), ClockOf(v, start)) && OnTime(ClockOf(v, start), op)
    ensures SameLive(TableAfter(u + [op]), TableAfter(v + [op]), ClockOf(v + [op], start))
    ensures Indistinct(op, Step(TableAfter(u), op).1, Step(TableAfter(v), op).1, ClockOf(v, start))
  {
    Snoc(u, op, start);
    Snoc(v, op, start);
    FreshLast(u + [op]);
    FreshLast(v + [op]);
    StepPreservesSameLive(TableAfter(u), TableAfter(v), op, ClockOf(v, start));
  }

  lemma TwinsStartAlike(a: seq<Op>, p: Op, start: int)
    requires FreshIDs(a) && (p.Sweep? || p.Current?) && OnTime(ClockOf(a, start), p)
    ensures SameLive(TableAfter(a), TableAfter(a + [p]), ClockOf(a + [p], start))
  {
    RunHistory(a);
    Snoc(a, p, start);
    PurgeKeepsLive(TableAfter(a), p, ClockOf(a, start));
  }

  lemma TwinPrefixes(a: seq<Op>, p: Op, b: seq<Op>, n: nat)
    requires n < |b|
    ensures a + b[..n + 1] == (a + b[..n]) + [b[n]] && a + [p] + b[..n + 1] == (a + [p] + b[..n]) + [b[n]]
    ensures (a + [p] + b)[..|a| + 1 + n] == a + [p] + b[..n] && (a + [p] + b)[|a| + 1 + n] == b[n]
    ensures (a + b)[..|a| + n] == a + b[..n] && (a + b)[|a| + n] == b[n]
  {
  }

  /** The `n`th operation after the insertion, on both sides. */
  lemma TwinStepAt(a: seq<Op>, p: Op, b: seq<Op>, start: int, n: nat)
    requires Twins(a, p, b) && InOrder(a + [p] + b, start) && n < |b|
    requires SameLive(TableAfter(a + b[..n]), TableAfter(a + [p] + b[..n]), ClockOf(a + [p] + b[..n], start))
    ensures SameLive(TableAfter(a + b[..n + 1]), TableAfter(a + [p] + b[..n + 1]), ClockOf(a + [p] + b[..n + 1], start))
    ensures Indistinct(b[n], Step(TableAfter(a + b[..n]), b[n]).1, Step(TableAfter(a + [p] + b[..n]), b[n]).1,
                       ClockOf(a + [p] + b[..n], start))
  {
    TwinsFresh(a, p, b, n + 1);
    TwinPrefixes(a, p, b, n);
    TwinOnTime(a + [p] + b, start, |a| + 1 + n);
    TwinStep(a + b[..n], a + [p] + b[..n], b[n], start);
  }

  lemma TwinOnTime(w: seq<Op>, start: int, i: nat)
    requires InOrder(w, start) && i < |w|
    ensures OnTime(ClockOf(w[..i], start), w[i])
  {
  }

  lemma TwinsBeginAlike(a: seq<Op>, p: Op, b: seq<Op>, start: int)
    requires Twins(a, p, b) && InOrder(a + [p] + b, start)
    ensures SameLive(TableAfter(a + b[..0]), TableAfter(a + [p] + b[..0]), ClockOf(a + [p] + b[..0], start))
  {
    var w := a + [p] + b;
    TwinsFresh(a, p, b, 0);
    assert a + b[..0] == a && a + [p] + b[..0] == a + [p] && w[..|a|] == a && w[|a|] == p;
    TwinOnTime(w, start, |a|);
    TwinsStartAlike(a, p, start);
  }

  lemma {:induction false} TwinsStayAlike(a: seq<Op>, p: Op, b: seq<Op>, start: int, n: nat)
    requires Twins(a, p, b) && InOrder(a + [p] + b, start) && n <= |b|
    ensures SameLive(TableAfter(a + b[..n]), TableAfter(a + [p] + b[..n]), ClockOf(a + [p] + b[..n], start))
    decreases n
  {
    if n == 0 {
      TwinsBeginAlike(a, p, b, start);
    } else {
      TwinsStayAlike(a, p, b, start, n - 1);
      TwinStepAt(a, p, b, start, n - 1);
    }
  }

  /** Inserting a sweep or a lazy purge anywhere leaves every later reply as it was, except that
      the release of an expired lease may stop finding it. */
  lemma PurgesAreInvisible(a: seq<Op>, p: Op, b: seq<Op>, start: int, n: nat)
    requires Twins(a, p, b) && InOrder(a + [p] + b, start) && n < |b|
    ensures Indistinct(b[n], ReplyAt(a + b, |a| + n), ReplyAt(a + [p] + b, |a| + 1 + n),
                       ClockOf(a + [p] + b[..n], start))
  {
    TwinsStayAlike(a, p, b, start, n);
    TwinStepAt(a, p, b, start, n);
    TwinPrefixes(a, p, b, n);
  }
}
