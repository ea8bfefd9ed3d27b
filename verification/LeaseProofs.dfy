/** Lease exclusivity, versions and index consistency over every run of the coordinator. */
module LeaseProofs {
  import opened Common
  import opened Coordinator

  /** The two indexes are mutually inverse. */
  ghost predicate Consistent(t: Table) {
    && (forall tun :: tun in t.byTunnel ==>
          t.byTunnel[tun] in t.byID && t.byID[t.byTunnel[tun]].tunnel == tun)
    && (forall id :: id in t.byID ==>
          id != "" && t.byID[id].id == id
          && t.byID[id].tunnel in t.byTunnel && t.byTunnel[t.byID[id].tunnel] == id)
  }

  predicate FreshFor(t: Table, op: Op) {
    op.Acquire? ==> op.uuid != "" && op.uuid !in t.byID
  }

  lemma LookupKeepsConsistent(t: Table, tunnel: string, now: int)
    requires Consistent(t)
    ensures Consistent(Lookup(t, tunnel, now).0) && Lookup(t, tunnel, now).0.byID.Keys <= t.byID.Keys
  {
  }

  lemma SweepKeepsConsistent(t: Table, gone: set<string>)
    requires Consistent(t) && gone <= t.byID.Keys
    ensures Consistent(Without(t, gone))
  {
  }

  lemma StepKeepsConsistent(t: Table, op: Op)
    requires Consistent(t) && FreshFor(t, op)
    ensures Consistent(Step(t, op).0)
  {
    match op
    case Acquire(tunnel, _, _, now, _) => LookupKeepsConsistent(t, tunnel, now);
    case Current(tunnel, now) => LookupKeepsConsistent(t, tunnel, now);
    case Sweep(now) => SweepKeepsConsistent(t, ExpiredIDs(t, now));
    case _ =>
  }

  predicate HasReading(op: Op) { !op.Release? }

  function Reading(op: Op): int
    requires HasReading(op)
  {
    match op
    case Acquire(_, _, _, now, _) => now
    case Renew(_, _, now) => now
    case Current(_, now) => now
    case Sweep(now) => now
    case Snapshot(_, _, now) => now
  }

  predicate GrantsTo(reply: Reply, id: string) { reply.Granted? && reply.lease.id == id }

  /** What one operation does to one lease ID. */
  lemma StepOnLease(t: Table, op: Op, id: string)
    requires Consistent(t) && FreshFor(t, op)
    ensures
      var (t', r) := Step(t, op);
      GrantsTo(r, id) ==>
        && id in t'.byID && t'.byID[id] == r.lease
        && (if id in t.byID
            then r.lease.version == t.byID[id].version + 1
                 && r.lease.relay == t.byID[id].relay && r.lease.tunnel == t.byID[id].tunnel
            else op.Acquire? && id == op.uuid && r.lease.version == 1)
    ensures
      var (t', r) := Step(t, op);
      !GrantsTo(r, id) && id in t'.byID ==> id in t.byID && t'.byID[id] == t.byID[id]
    ensures
      var (t', r) := Step(t, op);
      id in t.byID && id !in t'.byID ==>
        (op == Release(id) && r.Released?) || (HasReading(op) && t.byID[id].expires < Reading(op))
  {
  }

  // ---------------------------------------------------------------- runs

  function TableAfter(ops: seq<Op>): Table {
    if ops == [] then Table(map[], map[]) else Step(TableAfter(ops[..|ops| - 1]), ops[|ops| - 1]).0
  }

  function ReplyAt(ops: seq<Op>, i: nat): Reply
    requires i < |ops|
  {
    Step(TableAfter(ops[..i]), ops[i]).1
  }

  function Issued(ops: seq<Op>): set<string> {
    set i | 0 <= i < |ops| && ops[i].Acquire? :: ops[i].uuid
  }

  /** Generated lease IDs are non-empty and never repeat. */
  ghost predicate FreshIDs(ops: seq<Op>) {
    && (forall i :: 0 <= i < |ops| && ops[i].Acquire? ==> ops[i].uuid != "")
    && (forall i, j :: 0 <= i < j < |ops| && ops[i].Acquire? && ops[j].Acquire? ==> ops[i].uuid != ops[j].uuid)
  }

  function LastGrant(ops: seq<Op>, id: string): Option<Lease> {
    if ops == [] then None
    else
      var r := ReplyAt(ops, |ops| - 1);
      if GrantsTo(r, id) then Some(r.lease) else LastGrant(ops[..|ops| - 1], id)
  }

  function GrantCount(ops: seq<Op>, id: string): nat {
    if ops == [] then 0
    else (if GrantsTo(ReplyAt(ops, |ops| - 1), id) then 1 else 0) + GrantCount(ops[..|ops| - 1], id)
  }

  ghost predicate WasReleased(ops: seq<Op>, id: string) {
    exists k :: 0 <= k < |ops| && ops[k] == Release(id) && ReplyAt(ops, k).Released?
  }

  ghost predicate Outlived(ops: seq<Op>, expires: int) {
    exists k :: 0 <= k < |ops| && HasReading(ops[k]) && expires < Reading(ops[k])
  }

  ghost predicate History(ops: seq<Op>) {
    var t := TableAfter(ops);
    && Consistent(t)
    && t.byID.Keys <= Issued(ops)
    && (forall id :: id in t.byID ==>
          LastGrant(ops, id) == Some(t.byID[id]) && t.byID[id].version == GrantCount(ops, id))
    && (forall id :: id !in Issued(ops) ==> LastGrant(ops, id).None? && GrantCount(ops, id) == 0)
    && (forall id :: id !in t.byID && LastGrant(ops, id).Some? ==>
          WasReleased(ops, id) || Outlived(ops, LastGrant(ops, id).value.expires))
  }

  lemma ReplyOfPrefix(ops: seq<Op>, n: nat, i: nat)
    requires i < n <= |ops|
    ensures ReplyAt(ops[..n], i) == ReplyAt(ops, i)
  {
    assert ops[..n][..i] == ops[..i];
  }

  lemma GoneStaysGone(ops: seq<Op>, id: string, expires: int)
    requires ops != []
    ensures WasReleased(ops[..|ops| - 1], id) ==> WasReleased(ops, id)
    ensures Outlived(ops[..|ops| - 1], expires) ==> Outlived(ops, expires)
  {
    var p := ops[..|ops| - 1];
    if WasReleased(p, id) {
      var k :| 0 <= k < |p| && p[k] == Release(id) && ReplyAt(p, k).Released?;
      ReplyOfPrefix(ops, |ops| - 1, k);
      assert ops[k] == Release(id);
    }
    if Outlived(p, expires) {
      var k :| 0 <= k < |p| && HasReading(p[k]) && expires < Reading(p[k]);
      assert ops[k] == p[k];
    }
  }

  lemma IssuedGrows(ops: seq<Op>)
    requires ops != [] && FreshIDs(ops)
    ensures FreshIDs(ops[..|ops| - 1])
    ensures
      var p, op := ops[..|ops| - 1], ops[|ops| - 1];
      && Issued(ops) == Issued(p) + (if op.Acquire? then {op.uuid} else {})
      && (op.Acquire? ==> op.uuid != "" && op.uuid !in Issued(p))
  {
    var p, op := ops[..|ops| - 1], ops[|ops| - 1];
    assert forall i :: 0 <= i < |p| ==> p[i] == ops[i];
    if op.Acquire? {
      assert op.uuid in Issued(ops);
    }
    assert forall id :: id in Issued(ops) ==> id in Issued(p) || (op.Acquire? && id == op.uuid);
    assert forall id :: id in Issued(p) ==> id in Issued(ops);
  }

  lemma {:induction false} RunHistory(ops: seq<Op>)
    requires FreshIDs(ops)
    ensures History(ops)
  {
    if ops != [] {
      var p, op := ops[..|ops| - 1], ops[|ops| - 1];
      IssuedGrows(ops);
      RunHistory(p);
      var t, t' := TableAfter(p), TableAfter(ops);
      StepKeepsConsistent(t, op);
      forall id
        ensures id in t'.byID ==> id in Issued(ops)
        ensures id in t'.byID ==> LastGrant(ops, id) == Some(t'.byID[id]) && t'.byID[id].version == GrantCount(ops, id)
        ensures id !in Issued(ops) ==> LastGrant(ops, id).None? && GrantCount(ops, id) == 0
        ensures id !in t'.byID && LastGrant(ops, id).Some? ==>
                  WasReleased(ops, id) || Outlived(ops, LastGrant(ops, id).value.expires)
      {
        HistoryOfLease(ops, id);
      }
    }
  }

  lemma HistoryOfLease(ops: seq<Op>, id: string)
    requires ops != [] && FreshIDs(ops) && History(ops[..|ops| - 1])
    ensures
      var t' := TableAfter(ops);
      && (id in t'.byID ==> id in Issued(ops))
      && (id in t'.byID ==> LastGrant(ops, id) == Some(t'.byID[id]) && t'.byID[id].version == GrantCount(ops, id))
      && (id !in Issued(ops) ==> LastGrant(ops, id).None? && GrantCount(ops, id) == 0)
      && (id !in t'.byID && LastGrant(ops, id).Some? ==>
            WasReleased(ops, id) || Outlived(ops, LastGrant(ops, id).value.expires))
  {
    var n := |ops| - 1;
    var p, op := ops[..n], ops[n];
    IssuedGrows(ops);
    var t := TableAfter(p);
    StepOnLease(t, op, id);
    assert ReplyAt(ops, n) == Step(t, op).1;
    if LastGrant(p, id).Some? {
      GoneStaysGone(ops, id, LastGrant(p, id).value.expires);
    }
    var t', r := Step(t, op).0, Step(t, op).1;
    if id in t.byID && id !in t'.byID {
      if op == Release(id) && r.Released? {
        assert ops[n] == Release(id) && ReplyAt(ops, n).Released?;
      } else {
        assert HasReading(ops[n]) && t.byID[id].expires < Reading(ops[n]);
      }
    }
  }

  // ---------------------------------------------------------------- exclusivity

  lemma FreshPrefix(ops: seq<Op>, n: nat)
    requires FreshIDs(ops) && n <= |ops|
    ensures FreshIDs(ops[..n])
  {
    assert forall i :: 0 <= i < n ==> ops[..n][i] == ops[i];
  }

  /** A lease ID never changes hands: later grants of it go to the same relay and tunnel. */
  lemma {:induction false} LeaseKeepsOwner(ops: seq<Op>, j: nat, n: nat)
    requires FreshIDs(ops) && j < n <= |ops| && ReplyAt(ops, j).Granted?
    ensures
      var l, last := ReplyAt(ops, j).lease, LastGrant(ops[..n], ReplyAt(ops, j).lease.id);
      last.Some? && last.value.relay == l.relay && last.value.tunnel == l.tunnel && last.value.id == l.id
    decreases n
  {
    var p := ops[..n];
    assert p[..n - 1] == ops[..n - 1];
    ReplyOfPrefix(ops, n, n - 1);
    if j < n - 1 {
      LeaseKeepsOwner(ops, j, n - 1);
      FreshPrefix(ops, n);
      FreshPrefix(ops, n - 1);
      RunHistory(ops[..n - 1]);
      IssuedGrows(p);
      StepOnLease(TableAfter(ops[..n - 1]), ops[n - 1], ReplyAt(ops, j).lease.id);
    }
  }

  /** Grant `i` gives a tunnel to one relay after grant `j` gave it to another. */
  ghost predicate Conflict(ops: seq<Op>, j: nat, i: nat) {
    && j < i < |ops|
    && ReplyAt(ops, j).Granted? && ReplyAt(ops, i).Granted?
    && ReplyAt(ops, j).lease.tunnel == ReplyAt(ops, i).lease.tunnel
    && ReplyAt(ops, j).lease.relay != ReplyAt(ops, i).lease.relay
  }

  /** The expiry last granted to lease `j` before operation `i`. */
  function LastExpiry(ops: seq<Op>, j: nat, i: nat): int
    requires j < i < |ops| && ReplyAt(ops, j).Granted?
  {
    var last := LastGrant(ops[..i], ReplyAt(ops, j).lease.id);
    if last.Some? then last.value.expires else 0
  }

  /** A tunnel whose current lease another relay holds is granted away only past its expiry. */
  lemma GrantOverHeld(t: Table, op: Op, id: string)
    requires Consistent(t) && FreshFor(t, op) && id in t.byID && Step(t, op).1.Granted?
    requires Step(t, op).1.lease.tunnel == t.byID[id].tunnel && Step(t, op).1.lease.relay != t.byID[id].relay
    ensures HasReading(op) && t.byID[id].expires < Reading(op)
  {
  }

  lemma ConflictMeansGone(ops: seq<Op>, j: nat, i: nat)
    requires FreshIDs(ops) && Conflict(ops, j, i)
    ensures WasReleased(ops[..i], ReplyAt(ops, j).lease.id) || Outlived(ops[..i + 1], LastExpiry(ops, j, i))
  {
    var p, op, id := ops[..i], ops[i], ReplyAt(ops, j).lease.id;
    FreshPrefix(ops, i);
    FreshPrefix(ops, i + 1);
    RunHistory(p);
    LeaseKeepsOwner(ops, j, i);
    assert ops[..i + 1][..i] == p;
    var t, e := TableAfter(p), LastExpiry(ops, j, i);
    IssuedGrows(ops[..i + 1]);
    if id in t.byID {
      GrantOverHeld(t, op, id);
      assert HasReading(ops[..i + 1][i]) && e < Reading(ops[..i + 1][i]);
    } else if !WasReleased(p, id) {
      var k :| 0 <= k < |p| && HasReading(p[k]) && e < Reading(p[k]);
      assert ops[..i + 1][k] == p[k];
    }
  }

  /** Readings taken before the lock are no later than the real time at the lock step. */
  ghost predicate ReadingsBefore(ops: seq<Op>, at: seq<int>) {
    && |at| == |ops|
    && (forall i, j :: 0 <= i <= j < |at| ==> at[i] <= at[j])
    && (forall i :: 0 <= i < |ops| && HasReading(ops[i]) ==> Reading(ops[i]) <= at[i])
  }

  /** Exclusivity over whole runs: when a tunnel is granted to a relay, every earlier lease on it
      held by another relay was released by ID or had expired in real time. */
  lemma LeaseExclusivity(ops: seq<Op>, at: seq<int>, j: nat, i: nat)
    requires FreshIDs(ops) && ReadingsBefore(ops, at) && Conflict(ops, j, i)
    ensures WasReleased(ops[..i], ReplyAt(ops, j).lease.id) || LastExpiry(ops, j, i) < at[i]
  {
    ConflictMeansGone(ops, j, i);
    if !WasReleased(ops[..i], ReplyAt(ops, j).lease.id) {
      var p := ops[..i + 1];
      var k :| 0 <= k < |p| && HasReading(p[k]) && LastExpiry(ops, j, i) < Reading(p[k]);
      assert p[k] == ops[k];
    }
  }

  /** The stronger form: expired already by the granting operation's own clock reading. */
  ghost predicate ExpiredByReading(ops: seq<Op>, j: nat, i: nat)
    requires Conflict(ops, j, i)
  {
    WasReleased(ops[..i], ReplyAt(ops, j).lease.id)
    || (HasReading(ops[i]) && LastExpiry(ops, j, i) < Reading(ops[i]))
  }

  /** `latest` is the latest clock reading used before operation `i`. */
  ghost predicate LatestBefore(ops: seq<Op>, i: nat, latest: int) {
    && i < |ops|
    && (exists k :: 0 <= k < i && HasReading(ops[k]) && Reading(ops[k]) == latest)
    && (forall k :: 0 <= k < i && HasReading(ops[k]) ==> Reading(ops[k]) <= latest)
  }

  ghost predicate GrantWith(ops: seq<Op>, j: nat, i: nat, latest: int, now: int) {
    && FreshIDs(ops) && Conflict(ops, j, i) && LatestBefore(ops, i, latest)
    && HasReading(ops[i]) && Reading(ops[i]) == now
  }

  lemma FreshReadingExpires(ops: seq<Op>, j: nat, i: nat, latest: int, now: int)
    requires GrantWith(ops, j, i, latest, now) && latest <= now
    ensures ExpiredByReading(ops, j, i)
  {
    ConflictMeansGone(ops, j, i);
    if !WasReleased(ops[..i], ReplyAt(ops, j).lease.id) {
      var p := ops[..i + 1];
      var k :| 0 <= k < |p| && HasReading(p[k]) && LastExpiry(ops, j, i) < Reading(p[k]);
      assert p[k] == ops[k];
    }
  }

  /** A lease until `now`, a sweep reading `latest`, and a grant reading `now`. */
  function StaleRun(ttl: int, latest: int, now: int): seq<Op> {
    [Acquire("t", "a", ttl, now - ttl, "1"), Sweep(latest), Acquire("t", "b", ttl, now, "2")]
  }

  lemma StaleReplies(ttl: int, latest: int, now: int)
    requires now < latest
    ensures
      var ops := StaleRun(ttl, latest, now);
      && ReplyAt(ops, 0) == Granted(Lease("1", "t", "a", now, 1))
      && ReplyAt(ops, 1).Leases?
      && ReplyAt(ops, 2) == Granted(Lease("2", "t", "b", now + ttl, 1))
  {
    var ops := StaleRun(ttl, latest, now);
    var l := Lease("1", "t", "a", now, 1);
    assert ops[..0] == [] && ops[..1][..0] == [] && ops[..2][..1] == ops[..1];
    assert TableAfter(ops[..1]) == Table(map["1" := l], map["t" := "1"]);
    assert Expired(l, latest);
    assert TableAfter(ops[..2]) == Table(map[], map[]);
  }

  /** A grant whose reading was overtaken: a sweep with a later reading removed the other relay's
      lease first, although by the grant's own reading that lease had not expired. */
  lemma StaleReadingGrants(ttl: int, latest: int, now: int) returns (ops: seq<Op>, at: seq<int>)
    requires now < latest && ttl > 0
    ensures GrantWith(ops, 0, 2, latest, now) && !ExpiredByReading(ops, 0, 2)
    ensures ReadingsBefore(ops, at) && forall i :: 0 <= i < |ops| && ops[i].Acquire? ==> ops[i].ttl == ttl
  {
    ops, at := StaleRun(ttl, latest, now), [now - ttl, latest, latest];
    var l := Lease("1", "t", "a", now, 1);
    StaleReplies(ttl, latest, now);
    assert HasReading(ops[1]) && Reading(ops[1]) == latest;
    assert ops[..2][..1] == ops[..1] && ops[..1][..0] == [] == ops[..0];
    assert LastGrant(ops[..2], "1") == LastGrant(ops[..1], "1") == Some(l);
    assert LastExpiry(ops, 0, 2) == now;
  }

  /** The stronger form holds of every grant made with reading `now` exactly when no earlier
      operation used a later reading. */
  lemma StrongExclusivityIff(latest: int, now: int)
    ensures (forall ops, j: nat, i: nat :: GrantWith(ops, j, i, latest, now) ==> ExpiredByReading(ops, j, i))
            <==> latest <= now
  {
    if latest <= now {
      forall ops, j: nat, i: nat | GrantWith(ops, j, i, latest, now) ensures ExpiredByReading(ops, j, i) {
        FreshReadingExpires(ops, j, i, latest, now);
      }
    } else {
      var ops, at := StaleReadingGrants(1, latest, now);
      assert GrantWith(ops, 0, 2, latest, now);
    }
  }
}
