/** What the coordinator answers, read off the history of grants and releases alone: a lease stands at
    a moment if it has not been released and its last-granted expiry is at or after that moment. */
module LeaseAnswers {
  import opened Common
  import opened Coordinator
  import opened LeaseProofs
  import opened LeaseRefinement

  /** After `ops`, lease `l` is as last granted, has not been released, and has not run out by `now`. */
  ghost predicate Stands(ops: seq<Op>, l: Lease, now: int) {
    LastGrant(ops, l.id) == Some(l) && !WasReleased(ops, l.id) && now <= l.expires
  }

  // ---------------------------------------------------------------- the table holds what stands

  lemma ReleasedWasIssued(ops: seq<Op>, id: string)
    requires FreshIDs(ops) && WasReleased(ops, id)
    ensures id in Issued(ops)
  {
    var k :| 0 <= k < |ops| && ops[k] == Release(id) && ReplyAt(ops, k).Released?;
    FreshPrefix(ops, k);
    RunHistory(ops[..k]);
    assert id in Issued(ops[..k]);
    var i :| 0 <= i < k && ops[..k][i].Acquire? && ops[..k][i].uuid == id;
    assert ops[i].Acquire? && ops[i].uuid == id;
  }

  /** A released ID never comes back. */
  lemma {:induction false} ReleasedIsGone(ops: seq<Op>, id: string)
    requires FreshIDs(ops) && WasReleased(ops, id)
    ensures id !in TableAfter(ops).byID
  {
    var n := |ops| - 1;
    var p, op := ops[..n], ops[n];
    IssuedGrows(ops);
    RunHistory(p);
    StepOnLease(TableAfter(p), op, id);
    if WasReleased(p, id) {
      ReleasedIsGone(p, id);
      ReleasedWasIssued(p, id);
    } else {
      ReleasedAtLast(ops, id);
    }
  }

  lemma ReleasedAtLast(ops: seq<Op>, id: string)
    requires ops != [] && WasReleased(ops, id) && !WasReleased(ops[..|ops| - 1], id)
    ensures ops[|ops| - 1] == Release(id)
  {
    var n := |ops| - 1;
    var k :| 0 <= k < |ops| && ops[k] == Release(id) && ReplyAt(ops, k).Released?;
    if k < n { ReplyOfPrefix(ops, n, k); }
  }

  lemma {:induction false} ReadingsBelow(ops: seq<Op>, start: int, k: nat)
    requires InOrder(ops, start) && k < |ops| && HasReading(ops[k])
    ensures Reading(ops[k]) <= ClockOf(ops, start)
  {
    var n := |ops| - 1;
    assert OnTime(ClockOf(ops[..n], start), ops[n]);
    if k < n {
      OrderedPrefix(ops, start, n);
      ReadingsBelow(ops[..n], start, k);
    }
  }

  /** With ordered readings, what stands is what the table holds and has not run out. */
  lemma TableHoldsStanding(ops: seq<Op>, start: int, l: Lease, now: int)
    requires FreshIDs(ops) && InOrder(ops, start) && ClockOf(ops, start) <= now
    ensures Stands(ops, l, now) <==> l.id in TableAfter(ops).byID && TableAfter(ops).byID[l.id] == l && now <= l.expires
  {
    RunHistory(ops);
    if WasReleased(ops, l.id) {
      ReleasedIsGone(ops, l.id);
    } else if LastGrant(ops, l.id) == Some(l) && Outlived(ops, l.expires) {
      var k :| 0 <= k < |ops| && HasReading(ops[k]) && l.expires < Reading(ops[k]);
      ReadingsBelow(ops, start, k);
    }
  }

  /** The table before operation `i`, and the moment of its reading. */
  lemma TableAt(ops: seq<Op>, start: int, i: nat)
    requires FreshIDs(ops) && InOrder(ops, start) && i < |ops| && HasReading(ops[i])
    ensures
      var p, t, now := ops[..i], TableAfter(ops[..i]), Reading(ops[i]);
      && Consistent(t) && FreshFor(t, ops[i])
      && forall l :: Stands(p, l, now) <==> l.id in t.byID && t.byID[l.id] == l && now <= l.expires
  {
    FreshAt(ops, i);
    RunHistory(ops[..i]);
    OrderedPrefix(ops, start, i);
    assert OnTime(ClockOf(ops[..i], start), ops[i]);
    forall l
      ensures
        var p, t, now := ops[..i], TableAfter(ops[..i]), Reading(ops[i]);
        Stands(p, l, now) <==> l.id in t.byID && t.byID[l.id] == l && now <= l.expires
    {
      TableHoldsStanding(ops[..i], start, l, Reading(ops[i]));
    }
  }

  // ---------------------------------------------------------------- the answers

  lemma AcquireOnTable(t: Table, op: Op)
    requires Consistent(t) && op.Acquire? && op.tunnel != "" && op.relay != ""
    ensures
      var r := Step(t, op).1;
      if op.tunnel in t.byTunnel && op.now <= t.byID[t.byTunnel[op.tunnel]].expires then
        var l := t.byID[t.byTunnel[op.tunnel]];
        if l.relay != op.relay then r == AlreadyLeased(l.relay)
        else r == Granted(Lease(l.id, op.tunnel, op.relay, op.now + op.ttl, l.version + 1))
      else r == Granted(Lease(op.uuid, op.tunnel, op.relay, op.now + op.ttl, 1))
  {
  }

  /** An acquire is refused exactly when a lease on the tunnel stands with another relay, and then
      names that relay. Otherwise it re-grants the lease that stands, counting its version up, or, if
      none stands, grants a first version under the generated ID; in both cases until the reading
      plus the TTL. */
  lemma AcquireAnswer(ops: seq<Op>, start: int, i: nat)
    requires FreshIDs(ops) && InOrder(ops, start) && i < |ops|
    requires ops[i].Acquire? && ops[i].tunnel != "" && ops[i].relay != ""
    ensures
      var p, op, r := ops[..i], ops[i], ReplyAt(ops, i);
      && (r.AlreadyLeased? <==> exists l :: Stands(p, l, op.now) && l.tunnel == op.tunnel && l.relay != op.relay)
      && (forall l :: Stands(p, l, op.now) && l.tunnel == op.tunnel ==>
            if l.relay != op.relay then r == AlreadyLeased(l.relay)
            else r == Granted(Lease(l.id, op.tunnel, op.relay, op.now + op.ttl, l.version + 1)))
      && ((forall l :: Stands(p, l, op.now) ==> l.tunnel != op.tunnel) ==>
            r == Granted(Lease(op.uuid, op.tunnel, op.relay, op.now + op.ttl, 1)))
  {
    var p, op, t := ops[..i], ops[i], TableAfter(ops[..i]);
    TableAt(ops, start, i);
    AcquireOnTable(t, op);
    if op.tunnel in t.byTunnel && op.now <= t.byID[t.byTunnel[op.tunnel]].expires {
      assert Stands(p, t.byID[t.byTunnel[op.tunnel]], op.now);
    }
  }

  /** A request without a tunnel, a relay or a lease ID where it needs one. */
  predicate Incomplete(op: Op) {
    match op
    case Acquire(tunnel, relay, _, _, _) => tunnel == "" || relay == ""
    case Renew(id, _, _) => id == ""
    case Release(id) => id == ""
    case _ => false
  }

  /** Exactly the incomplete requests are refused as invalid, and they change nothing. */
  lemma InvalidIffIncomplete(ops: seq<Op>, i: nat)
    requires i < |ops|
    ensures ReplyAt(ops, i) == InvalidArgument <==> Incomplete(ops[i])
    ensures Incomplete(ops[i]) ==> TableAfter(ops[..i + 1]) == TableAfter(ops[..i])
  {
    assert ops[..i + 1][..i] == ops[..i];
  }

  /** A renewal finds exactly the leases that stand, extends them from the reading and counts the
      version up. */
  lemma RenewAnswer(ops: seq<Op>, start: int, i: nat)
    requires FreshIDs(ops) && InOrder(ops, start) && i < |ops| && ops[i].Renew? && ops[i].id != ""
    ensures
      var p, op, r := ops[..i], ops[i], ReplyAt(ops, i);
      && (r.Granted? <==> exists l :: Stands(p, l, op.now) && l.id == op.id)
      && (forall l :: Stands(p, l, op.now) && l.id == op.id ==>
            r == Granted(Lease(l.id, l.tunnel, l.relay, op.now + op.ttl, l.version + 1)))
      && (r.Granted? || r == NotFound)
  {
    var p, op, t := ops[..i], ops[i], TableAfter(ops[..i]);
    TableAt(ops, start, i);
    if ReplyAt(ops, i).Granted? {
      assert Stands(p, t.byID[op.id], op.now);
    }
  }

  /** A lookup returns exactly the lease on its tunnel that stands. */
  lemma CurrentAnswer(ops: seq<Op>, start: int, i: nat, l: Lease)
    requires FreshIDs(ops) && InOrder(ops, start) && i < |ops| && ops[i].Current?
    ensures ReplyAt(ops, i).Held?
    ensures ReplyAt(ops, i) == Held(Some(l)) <==> Stands(ops[..i], l, ops[i].now) && l.tunnel == ops[i].tunnel
  {
    TableAt(ops, start, i);
  }

  /** A snapshot lists exactly the leases that stand and pass both filters. */
  lemma SnapshotAnswer(ops: seq<Op>, start: int, i: nat, l: Lease)
    requires FreshIDs(ops) && InOrder(ops, start) && i < |ops| && ops[i].Snapshot?
    ensures ReplyAt(ops, i).Leases?
    ensures
      var op := ops[i];
      l in ReplyAt(ops, i).leases
      <==> Stands(ops[..i], l, op.now)
           && (op.tunnelFilter == "" || op.tunnelFilter == l.tunnel)
           && (op.relayFilter == "" || op.relayFilter == l.relay)
  {
    TableAt(ops, start, i);
  }

  /** A sweep removes exactly the leases whose expiry is before its reading, returns those, and
      leaves the others as they were; readings need not be ordered. */
  lemma SweepAnswer(ops: seq<Op>, i: nat)
    requires FreshIDs(ops) && i < |ops| && ops[i].Sweep?
    ensures
      var t, t', now := TableAfter(ops[..i]), TableAfter(ops[..i + 1]), ops[i].now;
      && t'.byID == (map id | id in t.byID && now <= t.byID[id].expires :: t.byID[id])
      && ReplyAt(ops, i).Leases?
      && forall l :: l in ReplyAt(ops, i).leases <==> l.id in t.byID && t.byID[l.id] == l && l.expires < now
  {
    FreshPrefix(ops, i);
    RunHistory(ops[..i]);
    assert ops[..i + 1][..i] == ops[..i];
  }

  /** A release finds a lease that stands, and none that was never granted or already released. */
  lemma ReleaseAnswer(ops: seq<Op>, start: int, i: nat)
    requires FreshIDs(ops) && InOrder(ops, start) && i < |ops| && ops[i].Release? && ops[i].id != ""
    ensures
      var p, id, r := ops[..i], ops[i].id, ReplyAt(ops, i);
      && (forall l :: Stands(p, l, ClockOf(p, start)) && l.id == id ==> r == Released(l))
      && (r.Released? ==> LastGrant(p, id) == Some(r.lease) && !WasReleased(p, id))
      && (r.Released? || r == NotFound)
  {
    var p, id := ops[..i], ops[i].id;
    FreshPrefix(ops, i);
    RunHistory(p);
    OrderedPrefix(ops, start, i);
    forall l | Stands(p, l, ClockOf(p, start)) && l.id == id ensures ReplyAt(ops, i) == Released(l) {
      TableHoldsStanding(p, start, l, ClockOf(p, start));
    }
    if WasReleased(p, id) { ReleasedIsGone(p, id); }
  }
}
