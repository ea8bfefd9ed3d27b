/** The in-memory lease coordinator: two indexes over one set of leases, with lazy and eager
    removal of expired leases. Each operation is one locked section; the clock reading it uses
    is a parameter, because several operations read the clock before they take the lock. */
module Coordinator {
  import opened Common

  datatype Lease = Lease(id: string, tunnel: string, relay: string, expires: int, version: nat)

  /** leasesByID and leaseByTunnel. */
  datatype Table = Table(byID: map<string, Lease>, byTunnel: map<string, string>)

  datatype Op =
    | Acquire(tunnel: string, relay: string, ttl: int, now: int, uuid: string)
    | Renew(id: string, ttl: int, now: int)
    | Release(id: string)
    | Current(tunnel: string, now: int)
    | Sweep(now: int)
    | Snapshot(tunnelFilter: string, relayFilter: string, now: int)

  datatype Reply =
    | InvalidArgument
    | NotFound
    | AlreadyLeased(holder: string)
    | Granted(lease: Lease)
    | Released(lease: Lease)
    | Held(current: Option<Lease>)
    | Leases(leases: set<Lease>)

  predicate Expired(l: Lease, now: int) { l.expires < now }

  predicate Matches(l: Lease, tunnelFilter: string, relayFilter: string) {
    (tunnelFilter == "" || l.tunnel == tunnelFilter) && (relayFilter == "" || l.relay == relayFilter)
  }

  // ---------------------------------------------------------------- the locked sections

  /** currentLeaseLocked: the unexpired lease of a tunnel, purging what it finds expired. */
  function Lookup(t: Table, tunnel: string, now: int): (Table, Option<Lease>) {
    if tunnel !in t.byTunnel then (t, None)
    else
      var id := t.byTunnel[tunnel];
      if id !in t.byID then (t.(byTunnel := t.byTunnel - {tunnel}), None)
      else if Expired(t.byID[id], now) then (Table(t.byID - {id}, t.byTunnel - {tunnel}), None)
      else (t, Some(t.byID[id]))
  }

  function Put(t: Table, l: Lease): Table {
    Table(t.byID[l.id := l], t.byTunnel[l.tunnel := l.id])
  }

  function DoAcquire(t: Table, tunnel: string, relay: string, ttl: int, now: int, uuid: string): (Table, Reply) {
    if tunnel == "" || relay == "" then (t, InvalidArgument)
    else
      var (t1, existing) := Lookup(t, tunnel, now);
      if existing.Some? && existing.value.relay != relay then (t1, AlreadyLeased(existing.value.relay))
      else
        var l := if existing.None? then Lease(uuid, tunnel, relay, now + ttl, 1)
                 else existing.value.(relay := relay, version := existing.value.version + 1, expires := now + ttl);
        (Put(t1, l), Granted(l))
  }

  function DoRenew(t: Table, id: string, ttl: int, now: int): (Table, Reply) {
    if id == "" then (t, InvalidArgument)
    else if id !in t.byID || Expired(t.byID[id], now) then (t, NotFound)
    else
      var l := t.byID[id].(expires := now + ttl, version := t.byID[id].version + 1);
      (t.(byID := t.byID[id := l]), Granted(l))
  }

  function Drop(t: Table, id: string): Table
    requires id in t.byID
  {
    var tunnel := t.byID[id].tunnel;
    Table(t.byID - {id},
          if tunnel in t.byTunnel && t.byTunnel[tunnel] == id then t.byTunnel - {tunnel} else t.byTunnel)
  }

  function DoRelease(t: Table, id: string): (Table, Reply) {
    if id == "" then (t, InvalidArgument)
    else if id !in t.byID then (t, NotFound)
    else (Drop(t, id), Released(t.byID[id]))
  }

  function ExpiredIDs(t: Table, now: int): set<string> {
    set id | id in t.byID && Expired(t.byID[id], now)
  }

  function Select(byID: map<string, Lease>, ids: set<string>): set<Lease>
    requires ids <= byID.Keys
  {
    set id | id in ids :: byID[id]
  }

  function Elements(leases: seq<Lease>): set<Lease> { set l | l in leases }

  lemma SelectOneMore(byID: map<string, Lease>, ids: set<string>, leases: seq<Lease>, id: string)
    requires ids <= byID.Keys && id in byID
    requires Elements(leases) == Select(byID, ids)
    ensures Elements(leases + [byID[id]]) == Select(byID, ids + {id})
  {
    assert Elements(leases + [byID[id]]) == Elements(leases) + {byID[id]};
    assert Select(byID, ids + {id}) == Select(byID, ids) + {byID[id]};
  }

  /** Both indexes without the leases `gone`. */
  function Without(t: Table, gone: set<string>): Table
    requires gone <= t.byID.Keys
  {
    Table(t.byID - gone,
          map tun | tun in t.byTunnel
                    && !(t.byTunnel[tun] in gone && t.byID[t.byTunnel[tun]].tunnel == tun) :: t.byTunnel[tun])
  }

  lemma DropOneMore(t: Table, gone: set<string>, id: string)
    requires gone <= t.byID.Keys && id in t.byID && id !in gone
    ensures Drop(Without(t, gone), id) == Without(t, gone + {id})
  {
    assert t.byID - gone - {id} == t.byID - (gone + {id});
  }

  /** A sweep of `t` that still has to visit `todo`: what it has dropped and collected so far. */
  ghost predicate Sweeping(t: Table, now: int, todo: set<string>, left: Table, expired: seq<Lease>) {
    var gone := ExpiredIDs(t, now) - todo;
    && todo <= t.byID.Keys
    && left == Without(t, gone)
    && Elements(expired) == Select(t.byID, gone)
    && |expired| == |gone|
  }

  lemma SweepStarts(t: Table, now: int)
    ensures Sweeping(t, now, t.byID.Keys, t, [])
  {
    assert ExpiredIDs(t, now) - t.byID.Keys == {};
    assert Without(t, {}) == t;
  }

  lemma SweepKeeps(t: Table, now: int, todo: set<string>, left: Table, expired: seq<Lease>, id: string)
    requires Sweeping(t, now, todo, left, expired) && id in todo && !Expired(t.byID[id], now)
    ensures id in left.byID && left.byID[id] == t.byID[id]
    ensures Sweeping(t, now, todo - {id}, left, expired)
  {
    assert ExpiredIDs(t, now) - (todo - {id}) == ExpiredIDs(t, now) - todo;
  }

  lemma SweepDrops(t: Table, now: int, todo: set<string>, left: Table, expired: seq<Lease>, id: string)
    requires Sweeping(t, now, todo, left, expired) && id in todo && Expired(t.byID[id], now)
    ensures id in left.byID && left.byID[id] == t.byID[id]
    ensures Sweeping(t, now, todo - {id}, Drop(left, id), expired + [t.byID[id]])
  {
    var gone := ExpiredIDs(t, now) - todo;
    assert ExpiredIDs(t, now) - (todo - {id}) == gone + {id};
    SelectOneMore(t.byID, gone, expired, id);
    DropOneMore(t, gone, id);
  }

  lemma SweepVisits(t: Table, now: int, todo: set<string>, left: Table, expired: seq<Lease>, id: string)
    requires Sweeping(t, now, todo, left, expired) && id in todo
    ensures id in left.byID && left.byID[id] == t.byID[id]
    ensures if Expired(left.byID[id], now) then Sweeping(t, now, todo - {id}, Drop(left, id), expired + [left.byID[id]])
            else Sweeping(t, now, todo - {id}, left, expired)
  {
    if Expired(t.byID[id], now) { SweepDrops(t, now, todo, left, expired, id); }
    else { SweepKeeps(t, now, todo, left, expired, id); }
  }

  lemma SweepEnds(t: Table, now: int, left: Table, expired: seq<Lease>)
    requires Sweeping(t, now, {}, left, expired)
    ensures DoSweep(t, now) == (left, Leases(Elements(expired))) && |expired| == |ExpiredIDs(t, now)|
  {
    assert ExpiredIDs(t, now) - {} == ExpiredIDs(t, now);
  }

  function DoSweep(t: Table, now: int): (Table, Reply) {
    var gone := ExpiredIDs(t, now);
    (Without(t, gone), Leases(Select(t.byID, gone)))
  }

  function ListedIDs(t: Table, tunnelFilter: string, relayFilter: string, now: int): set<string> {
    set id | id in t.byID && !Expired(t.byID[id], now) && Matches(t.byID[id], tunnelFilter, relayFilter)
  }

  /** A listing of `t` that still has to visit `todo`: what it has collected so far. */
  ghost predicate Listing(t: Table, tf: string, rf: string, now: int, todo: set<string>, events: seq<Lease>) {
    var listed := ListedIDs(t, tf, rf, now) - todo;
    todo <= t.byID.Keys && Elements(events) == Select(t.byID, listed) && |events| == |listed|
  }

  lemma ListStarts(t: Table, tf: string, rf: string, now: int)
    ensures Listing(t, tf, rf, now, t.byID.Keys, [])
  {
    assert ListedIDs(t, tf, rf, now) - t.byID.Keys == {};
  }

  lemma ListVisits(t: Table, tf: string, rf: string, now: int, todo: set<string>, events: seq<Lease>, id: string)
    requires Listing(t, tf, rf, now, todo, events) && id in todo
    ensures Listing(t, tf, rf, now, todo - {id},
                    if id in ListedIDs(t, tf, rf, now) then events + [t.byID[id]] else events)
  {
    var listed := ListedIDs(t, tf, rf, now) - todo;
    if id in ListedIDs(t, tf, rf, now) {
      assert ListedIDs(t, tf, rf, now) - (todo - {id}) == listed + {id};
      SelectOneMore(t.byID, listed, events, id);
    } else {
      assert ListedIDs(t, tf, rf, now) - (todo - {id}) == listed;
    }
  }

  lemma ListEnds(t: Table, tf: string, rf: string, now: int, events: seq<Lease>)
    requires Listing(t, tf, rf, now, {}, events)
    ensures Leases(Elements(events)) == DoSnapshot(t, tf, rf, now) && |events| == |ListedIDs(t, tf, rf, now)|
  {
    assert ListedIDs(t, tf, rf, now) - {} == ListedIDs(t, tf, rf, now);
  }

  function DoSnapshot(t: Table, tunnelFilter: string, relayFilter: string, now: int): Reply {
    Leases(Select(t.byID, ListedIDs(t, tunnelFilter, relayFilter, now)))
  }

  function Step(t: Table, op: Op): (Table, Reply) {
    match op
    case Acquire(tunnel, relay, ttl, now, uuid) => DoAcquire(t, tunnel, relay, ttl, now, uuid)
    case Renew(id, ttl, now) => DoRenew(t, id, ttl, now)
    case Release(id) => DoRelease(t, id)
    case Current(tunnel, now) => var (t1, l) := Lookup(t, tunnel, now); (t1, Held(l))
    case Sweep(now) => DoSweep(t, now)
    case Snapshot(tf, rf, now) => (t, DoSnapshot(t, tf, rf, now))
  }

  // ---------------------------------------------------------------- the object

  class MemCoordinator {
    var leasesByID: map<string, Lease>
    var leaseByTunnel: map<string, string>

    ghost function View(): Table reads this { Table(leasesByID, leaseByTunnel) }

    constructor ()
      ensures View() == Table(map[], map[])
    {
      leasesByID, leaseByTunnel := map[], map[];
    }

    method CurrentLeaseLocked(tunnel: string, now: int) returns (lease: Option<Lease>)
      modifies this
      ensures (View(), lease) == Lookup(old(View()), tunnel, now)
    {
      if tunnel !in leaseByTunnel { return None; }
      var id := leaseByTunnel[tunnel];
      if id !in leasesByID {
        leaseByTunnel := leaseByTunnel - {tunnel};
        return None;
      }
      if leasesByID[id].expires < now {
        leasesByID := leasesByID - {id};
        leaseByTunnel := leaseByTunnel - {tunnel};
        return None;
      }
      return Some(leasesByID[id]);
    }

    method AcquireLease(tunnel: string, relay: string, ttl: int, now: int, uuid: string) returns (reply: Reply)
      modifies this
      ensures (View(), reply) == Step(old(View()), Acquire(tunnel, relay, ttl, now, uuid))
    {
      if tunnel == "" || relay == "" { return InvalidArgument; }
      var existing := CurrentLeaseLocked(tunnel, now);
      if existing.Some? && existing.value.relay != relay { return AlreadyLeased(existing.value.relay); }
      var lease;
      if existing.None? {
        lease := Lease(uuid, tunnel, relay, 0, 1);
      } else {
        lease := existing.value.(relay := relay, version := existing.value.version + 1);
      }
      lease := lease.(expires := now + ttl);
      leasesByID := leasesByID[lease.id := lease];
      leaseByTunnel := leaseByTunnel[lease.tunnel := lease.id];
      return Granted(lease);
    }

    method RenewLease(id: string, ttl: int, now: int) returns (reply: Reply)
      modifies this
      ensures (View(), reply) == Step(old(View()), Renew(id, ttl, now))
    {
      if id == "" { return InvalidArgument; }
      if id !in leasesByID || leasesByID[id].expires < now { return NotFound; }
      var lease := leasesByID[id];
      lease := lease.(expires := now + ttl);
      lease := lease.(version := lease.version + 1);
      leasesByID := leasesByID[id := lease];
      return Granted(lease);
    }

    method ReleaseLease(id: string) returns (reply: Reply)
      modifies this
      ensures (View(), reply) == Step(old(View()), Release(id))
    {
      if id == "" { return InvalidArgument; }
      if id !in leasesByID { return NotFound; }
      var lease := leasesByID[id];
      DeleteLease(id);
      return Released(lease);
    }

    method DeleteLease(id: string)
      requires id in leasesByID
      modifies this
      ensures View() == Drop(old(View()), id)
    {
      var lease := leasesByID[id];
      leasesByID := leasesByID - {id};
      if lease.tunnel in leaseByTunnel && leaseByTunnel[lease.tunnel] == id {
        leaseByTunnel := leaseByTunnel - {lease.tunnel};
      }
    }

    method CurrentLease(tunnel: string, now: int) returns (lease: Option<Lease>)
      modifies this
      ensures (View(), Held(lease)) == Step(old(View()), Current(tunnel, now))
    {
      lease := CurrentLeaseLocked(tunnel, now);
    }

    /** The sweep visits the leases in any order, drops the expired ones and returns them. */
    method ReleaseExpiredLeases(now: int) returns (expired: seq<Lease>)
      modifies this
      ensures (View(), Leases(Elements(expired))) == Step(old(View()), Sweep(now))
      ensures |expired| == |ExpiredIDs(old(View()), now)|
    {
      ghost var t := View();
      expired := [];
      var todo := leasesByID.Keys;
      SweepStarts(t, now);
      while todo != {}
        invariant Sweeping(t, now, todo, View(), expired)
        decreases |todo|
      {
        var id :| id in todo;
        SweepVisits(t, now, todo, View(), expired, id);
        var lease := leasesByID[id];
        if lease.expires < now {
          expired := expired + [lease];
          DeleteLease(id);
        }
        todo := todo - {id};
      }
      SweepEnds(t, now, View(), expired);
    }

    method SnapshotLeases(tunnelFilter: string, relayFilter: string, now: int) returns (events: seq<Lease>)
      ensures Leases(Elements(events)) == DoSnapshot(View(), tunnelFilter, relayFilter, now)
      ensures |events| == |ListedIDs(View(), tunnelFilter, relayFilter, now)|
    {
      events := [];
      var todo := leasesByID.Keys;
      ListStarts(View(), tunnelFilter, relayFilter, now);
      while todo != {}
        invariant Listing(View(), tunnelFilter, relayFilter, now, todo, events)
        decreases |todo|
      {
        var id :| id in todo;
        ListVisits(View(), tunnelFilter, relayFilter, now, todo, events, id);
        todo := todo - {id};
        var lease := leasesByID[id];
        if lease.expires < now { continue; }
        if tunnelFilter != "" && lease.tunnel != tunnelFilter { continue; }
        if relayFilter != "" && lease.relay != relayFilter { continue; }
        events := events + [lease];
      }
      ListEnds(View(), tunnelFilter, relayFilter, now, events);
    }
  }
}
