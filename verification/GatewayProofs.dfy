/** What every interleaving of the gateway's operations keeps. */
module GatewayProofs {
  import opened Common
  import opened Router
  import opened Gateway

  // ---------------------------------------------------------------- suspension

  /** Suspended holds exactly when no connection is attached. */
  ghost predicate Attached(g: Shared) {
    forall t :: t in g.tunnels ==> (g.tunnels[t].suspended <==> g.tunnels[t].conn.None?)
  }

  predicate TimerFor(g: Shared, x: nat, t: string) {
    x < g.nextTimer && (x in g.armed ==> g.armed[x] == t)
  }

  predicate ThreadTimer(g: Shared, op: Thread) {
    op.Resume? && op.resume.KeepingTimer? ==> TimerFor(g, op.resume.timer, op.tunnel)
  }

  /** A timer recorded under a tunnel finalizes that tunnel. */
  ghost predicate TimersMatch(s: State) {
    && (forall x :: x in s.shared.armed ==> x < s.shared.nextTimer)
    && (forall t :: t in s.shared.timers ==> TimerFor(s.shared, s.shared.timers[t], t))
    && (forall th :: th in s.threads ==> ThreadTimer(s.shared, s.threads[th]))
  }

  /** Operations that will arm a timer for the tunnel, re-attach a connection, or remove it. */
  predicate Covers(op: Thread, t: string) {
    && !op.Auth? && op.tunnel == t
    && match op
       case Removal(_, stage) => stage.FinalizeStop? || stage.Removing?
       case Resume(_, stage) => stage.StoringToken? || stage.ArmingTimer? || stage.Reattaching?
       case _ => false
  }

  ghost predicate TimerArmed(g: Shared, t: string) {
    exists x :: x in g.armed && g.armed[x] == t
  }

  ghost predicate OpCovers(s: State, t: string) {
    exists th :: th in s.threads && Covers(s.threads[th], t)
  }

  predicate IsSuspended(g: Shared, t: string) { t in g.tunnels && g.tunnels[t].suspended }

  ghost predicate NoneStranded(s: State) {
    forall t :: IsSuspended(s.shared, t) ==> TimerArmed(s.shared, t) || OpCovers(s, t)
  }

  /** Authentication changes the routes only, until it adds the tunnel or gives its lease back. */
  lemma AuthOnlyRoutes(domain: string, g: Shared, t: string, c: nat, stage: AuthStage, call: Call)
    requires !stage.Adding?
    ensures
      var e := AuthSection(domain, g, t, c, stage, call);
      && e.shared == g.(hostMap := e.shared.hostMap, released := e.shared.released)
      && (e.next.Some? ==> e.next.value.Auth?)
  {
  }

  lemma RemovalKeepsAttached(g: Shared, t: string, stage: RemovalStage)
    requires Attached(g)
    ensures Attached(RemovalSection(g, t, stage).shared)
  {
  }

  lemma ResumeKeepsAttached(g: Shared, t: string, stage: ResumeStage, ok: bool)
    requires Attached(g) && ResumeSection(g, t, stage, ok).Some?
    ensures Attached(ResumeSection(g, t, stage, ok).value.shared)
  {
  }

  lemma SectionKeepsAttached(domain: string, g: Shared, op: Thread, call: Call, e: Effect)
    requires Attached(g) && Section(domain, g, op, call) == Some(e)
    ensures Attached(e.shared)
  {
    match op
    case Auth(t, c, stage) => if !stage.Adding? { AuthOnlyRoutes(domain, g, t, c, stage, call); }
    case Announcing(_) =>
    case Serving(_) =>
    case Removal(t, stage) => RemovalKeepsAttached(g, t, stage);
    case Resume(t, stage) => ResumeKeepsAttached(g, t, stage, call.ok);
  }

  ghost predicate SameTimers(g: Shared, g': Shared) {
    g'.timers == g.timers && g'.armed == g.armed && g'.nextTimer == g.nextTimer
  }

  predicate TouchesTimers(op: Thread) {
    || (op.Removal? && op.removal.FinalizeStop?)
    || (op.Resume? && (op.resume.ArmingTimer? || op.resume.KeepingTimer? || op.resume.ResumeStop?))
  }

  ghost predicate LeavesTimers(g: Shared, e: Effect) {
    && SameTimers(g, e.shared)
    && (e.next.Some? ==> !(e.next.value.Resume? && e.next.value.resume.KeepingTimer?))
  }

  lemma RemovalLeavesTimers(g: Shared, t: string, stage: RemovalStage)
    requires !stage.FinalizeStop?
    ensures LeavesTimers(g, RemovalSection(g, t, stage))
  {
  }

  lemma ResumeLeavesTimers(g: Shared, t: string, stage: ResumeStage, ok: bool)
    requires ResumeSection(g, t, stage, ok).Some? && !TouchesTimers(Resume(t, stage))
    ensures LeavesTimers(g, ResumeSection(g, t, stage, ok).value)
  {
  }

  lemma SectionLeavesTimers(domain: string, g: Shared, op: Thread, call: Call, e: Effect)
    requires Section(domain, g, op, call) == Some(e) && !TouchesTimers(op)
    ensures LeavesTimers(g, e)
  {
    match op
    case Auth(t, c, stage) => if !stage.Adding? { AuthOnlyRoutes(domain, g, t, c, stage, call); }
    case Announcing(_) =>
    case Serving(_) =>
    case Removal(t, stage) => RemovalLeavesTimers(g, t, stage);
    case Resume(t, stage) => ResumeLeavesTimers(g, t, stage, call.ok);
  }

  ghost predicate TimersBounded(g: Shared) {
    forall x :: x in g.armed ==> x < g.nextTimer
  }

  ghost predicate TimersOwn(g: Shared) {
    TimersBounded(g) && forall t :: t in g.timers ==> TimerFor(g, g.timers[t], t)
  }

  /** A section keeps what is known of every timer, and of its own in the next section. */
  lemma SectionOnTimers(domain: string, g: Shared, op: Thread, call: Call, e: Effect)
    requires TimersOwn(g) && ThreadTimer(g, op) && Section(domain, g, op, call) == Some(e)
    ensures forall x: nat, t :: TimerFor(g, x, t) ==> TimerFor(e.shared, x, t)
    ensures TimersOwn(e.shared) && (e.next.Some? ==> ThreadTimer(e.shared, e.next.value))
  {
    if !TouchesTimers(op) { SectionLeavesTimers(domain, g, op, call, e); }
  }

  lemma SectionKeepsTimers(domain: string, s: State, th: nat, call: Call, e: Effect)
    requires TimersMatch(s) && th in s.threads && Section(domain, s.shared, s.threads[th], call) == Some(e)
    ensures TimersMatch(Continue(s, th, e))
  {
    var op, g, g', s' := s.threads[th], s.shared, e.shared, Continue(s, th, e);
    SectionOnTimers(domain, g, op, call, e);
    forall u | u in s'.threads ensures ThreadTimer(g', s'.threads[u]) {
      if u != th { assert ThreadTimer(g, s.threads[u]); }
    }
  }

  /** A section that uncovers a suspended tunnel arms a timer for it or covers it itself. */
  ghost predicate CoverKept(g: Shared, op: Thread, e: Effect, t: string) {
    IsSuspended(e.shared, t) ==>
      || (e.next.Some? && Covers(e.next.value, t))
      || TimerArmed(e.shared, t)
      || (IsSuspended(g, t) && !TimerArmed(g, t) && !Covers(op, t))
  }

  lemma RemovalKeepsCover(g: Shared, u: string, stage: RemovalStage, t: string)
    requires TimersOwn(g)
    ensures CoverKept(g, Removal(u, stage), RemovalSection(g, u, stage), t)
  {
    var e := RemovalSection(g, u, stage);
    if TimerArmed(g, t) && !(stage.FinalizeStop? && u == t) {
      var x :| x in g.armed && g.armed[x] == t;
      assert x in e.shared.armed && e.shared.armed[x] == t;
    }
  }

  lemma ResumeKeepsCover(g: Shared, u: string, stage: ResumeStage, ok: bool, t: string)
    requires TimersOwn(g) && ResumeSection(g, u, stage, ok).Some?
    ensures CoverKept(g, Resume(u, stage), ResumeSection(g, u, stage, ok).value, t)
  {
    var e := ResumeSection(g, u, stage, ok).value;
    if TimerArmed(g, t) && !(stage.ResumeStop? && u == t) {
      var x :| x in g.armed && g.armed[x] == t;
      assert x in e.shared.armed && e.shared.armed[x] == t;
    } else if stage.ArmingTimer? {
      assert g.nextTimer in e.shared.armed;
    }
  }

  lemma SectionKeepsCover(domain: string, g: Shared, op: Thread, call: Call, e: Effect, t: string)
    requires TimersOwn(g) && Section(domain, g, op, call) == Some(e)
    ensures CoverKept(g, op, e, t)
  {
    match op
    case Auth(u, c, stage) =>
      if !stage.Adding? { AuthOnlyRoutes(domain, g, u, c, stage, call); }
      assert e.shared.armed == g.armed && (IsSuspended(e.shared, t) ==> IsSuspended(g, t));
    case Announcing(_) =>
    case Serving(_) =>
    case Removal(u, stage) => RemovalKeepsCover(g, u, stage, t);
    case Resume(u, stage) => ResumeKeepsCover(g, u, stage, call.ok, t);
  }

  lemma AdvanceKeepsCover(domain: string, s: State, th: nat, call: Call, e: Effect)
    requires NoneStranded(s) && TimersMatch(s)
    requires th in s.threads && Section(domain, s.shared, s.threads[th], call) == Some(e)
    ensures NoneStranded(Continue(s, th, e))
  {
    var s' := Continue(s, th, e);
    forall t | IsSuspended(s'.shared, t) ensures TimerArmed(s'.shared, t) || OpCovers(s', t) {
      SectionKeepsCover(domain, s.shared, s.threads[th], call, e, t);
      if e.next.Some? && Covers(e.next.value, t) {
        assert th in s'.threads && Covers(s'.threads[th], t);
      } else if !TimerArmed(s'.shared, t) {
        var x :| x in s.threads && Covers(s.threads[x], t);
        assert x in s'.threads && Covers(s'.threads[x], t);
      }
    }
  }

  // ---------------------------------------------------------------- hostnames

  /** Operations that will add the tunnel of a registered host, or deregister the host. */
  predicate Keeps(domain: string, op: Thread, h: string, t: string) {
    && op.tunnel == t
    && match op
       case Auth(_, _, V1Lease) => h == HostnameForTunnel(domain, t)
       case Auth(_, _, V1Reply(_)) => h == HostnameForTunnel(domain, t)
       case Auth(_, _, V1Undo(_)) => h == HostnameForTunnel(domain, t)
       case Auth(_, _, stage) => !stage.V1Register? && !stage.V2Lease? && !stage.GivingBack?
       case Removal(_, stage) => stage.Deregistering?
       case _ => false
  }

  ghost predicate OpKeeps(domain: string, s: State, h: string) {
    exists th :: th in s.threads && h in s.shared.hostMap
                 && Keeps(domain, s.threads[th], h, s.shared.hostMap[h].tunnel)
  }

  ghost predicate NoOrphans(domain: string, s: State) {
    forall h :: h in s.shared.hostMap ==>
      s.shared.hostMap[h].tunnel in s.shared.tunnels || OpKeeps(domain, s, h)
  }

  /** A section leaves a host kept: by a table row, by itself, or by whoever kept it before. */
  ghost predicate HostKept(domain: string, g: Shared, op: Thread, e: Effect, h: string) {
    h in e.shared.hostMap ==>
      var t := e.shared.hostMap[h].tunnel;
      || t in e.shared.tunnels
      || (e.next.Some? && Keeps(domain, e.next.value, h, t))
      || (h in g.hostMap && g.hostMap[h].tunnel == t && t !in g.tunnels && !Keeps(domain, op, h, t))
  }

  lemma V1KeepsHost(domain: string, g: Shared, t: string, c: nat, stage: AuthStage, call: Call, h: string)
    requires stage.V1Register? || stage.V1Lease? || stage.V1Reply? || stage.V1Undo?
    ensures HostKept(domain, g, Auth(t, c, stage), AuthSection(domain, g, t, c, stage, call), h)
  {
  }

  lemma V2KeepsHost(domain: string, g: Shared, t: string, c: nat, stage: AuthStage, call: Call, h: string)
    requires !stage.V1Register? && !stage.V1Lease? && !stage.V1Reply? && !stage.V1Undo?
    ensures HostKept(domain, g, Auth(t, c, stage), AuthSection(domain, g, t, c, stage, call), h)
  {
  }

  lemma AuthKeepsHost(domain: string, g: Shared, t: string, c: nat, stage: AuthStage, call: Call, h: string)
    ensures HostKept(domain, g, Auth(t, c, stage), AuthSection(domain, g, t, c, stage, call), h)
  {
    if stage.V1Register? || stage.V1Lease? || stage.V1Reply? || stage.V1Undo? {
      V1KeepsHost(domain, g, t, c, stage, call, h);
    } else {
      V2KeepsHost(domain, g, t, c, stage, call, h);
    }
  }

  lemma RemovalKeepsHost(domain: string, g: Shared, t: string, stage: RemovalStage, h: string)
    ensures HostKept(domain, g, Removal(t, stage), RemovalSection(g, t, stage), h)
  {
  }

  lemma ResumeKeepsHost(domain: string, g: Shared, t: string, stage: ResumeStage, ok: bool, h: string)
    requires ResumeSection(g, t, stage, ok).Some?
    ensures HostKept(domain, g, Resume(t, stage), ResumeSection(g, t, stage, ok).value, h)
  {
  }

  lemma SectionKeepsHost(domain: string, g: Shared, op: Thread, call: Call, e: Effect, h: string)
    requires Section(domain, g, op, call) == Some(e)
    ensures HostKept(domain, g, op, e, h)
  {
    match op
    case Auth(t, c, stage) => AuthKeepsHost(domain, g, t, c, stage, call, h);
    case Announcing(_) =>
    case Serving(_) =>
    case Removal(t, stage) => RemovalKeepsHost(domain, g, t, stage, h);
    case Resume(t, stage) => ResumeKeepsHost(domain, g, t, stage, call.ok, h);
  }

  lemma AdvanceKeepsHosts(domain: string, s: State, th: nat, call: Call, e: Effect)
    requires NoOrphans(domain, s)
    requires th in s.threads && Section(domain, s.shared, s.threads[th], call) == Some(e)
    ensures NoOrphans(domain, Continue(s, th, e))
  {
    var s' := Continue(s, th, e);
    forall h | h in s'.shared.hostMap
      ensures s'.shared.hostMap[h].tunnel in s'.shared.tunnels || OpKeeps(domain, s', h)
    {
      var t := s'.shared.hostMap[h].tunnel;
      SectionKeepsHost(domain, s.shared, s.threads[th], call, e, h);
      if e.next.Some? && Keeps(domain, e.next.value, h, t) {
        assert th in s'.threads && Keeps(domain, s'.threads[th], h, t);
      } else if t !in s'.shared.tunnels {
        var x :| x in s.threads && Keeps(domain, s.threads[x], h, t);
        assert x in s'.threads && Keeps(domain, s'.threads[x], h, t);
      }
    }
  }

  // ---------------------------------------------------------------- lease releases

  predicate TableHas(g: Shared, t: string, row: nat) { t in g.tunnels && g.tunnels[t].id == row }

  /** An operation that took the row out of the table and has yet to release its lease. */
  predicate OpHas(op: Thread, row: nat) {
    op.Removal? && (op.removal.Deregistering? || op.removal.ReleasingLease?) && op.removal.entry.id == row
  }

  ghost predicate ThreadHas(s: State, th: nat, row: nat) { th in s.threads && OpHas(s.threads[th], row) }

  /** Each row is in one place only: the table, one operation, or the list of attempts. */
  ghost predicate RowsUnique(s: State) {
    var g := s.shared;
    && (forall t, row: nat :: TableHas(g, t, row) ==> row < g.nextEntry && row !in g.attempts)
    && (forall th, row: nat :: ThreadHas(s, th, row) ==> row < g.nextEntry && row !in g.attempts)
    && (forall row :: row in g.attempts ==> row < g.nextEntry)
    && (forall t1, t2, row: nat :: TableHas(g, t1, row) && TableHas(g, t2, row) ==> t1 == t2)
    && (forall t, th, row: nat :: TableHas(g, t, row) ==> !ThreadHas(s, th, row))
    && (forall th1, th2, row: nat :: ThreadHas(s, th1, row) && ThreadHas(s, th2, row) ==> th1 == th2)
    && (forall i, j :: 0 <= i < j < |g.attempts| ==> g.attempts[i] != g.attempts[j])
  }

  /** Where a section can have moved a row. */
  ghost predicate RowMoves(g: Shared, op: Thread, e: Effect, t: string, row: nat) {
    && g.nextEntry <= e.shared.nextEntry
    && (TableHas(e.shared, t, row) ==>
          TableHas(g, t, row) || (row == g.nextEntry < e.shared.nextEntry && t == op.tunnel))
    && (e.next.Some? && OpHas(e.next.value, row) ==>
          OpHas(op, row) || (TableHas(g, op.tunnel, row) && op.tunnel !in e.shared.tunnels))
    && (e.shared.attempts == g.attempts
        || (e.next.None? && op.Removal? && op.removal.ReleasingLease?
            && e.shared.attempts == g.attempts + [op.removal.entry.id]))
  }

  lemma RemovalOnRow(g: Shared, t: string, stage: RemovalStage, u: string, row: nat)
    ensures RowMoves(g, Removal(t, stage), RemovalSection(g, t, stage), u, row)
  {
  }

  lemma ResumeOnRow(g: Shared, t: string, stage: ResumeStage, ok: bool, u: string, row: nat)
    requires ResumeSection(g, t, stage, ok).Some?
    ensures RowMoves(g, Resume(t, stage), ResumeSection(g, t, stage, ok).value, u, row)
  {
  }

  lemma SectionOnRow(domain: string, g: Shared, op: Thread, call: Call, e: Effect, t: string, row: nat)
    requires Section(domain, g, op, call) == Some(e)
    ensures RowMoves(g, op, e, t, row)
  {
    match op
    case Auth(u, c, stage) => if !stage.Adding? { AuthOnlyRoutes(domain, g, u, c, stage, call); }
    case Announcing(_) =>
    case Serving(_) =>
    case Removal(u, stage) => RemovalOnRow(g, u, stage, t, row);
    case Resume(u, stage) => ResumeOnRow(g, u, stage, call.ok, t, row);
  }

  lemma AdvanceKeepsRows(domain: string, s: State, th: nat, call: Call, e: Effect)
    requires RowsUnique(s)
    requires th in s.threads && Section(domain, s.shared, s.threads[th], call) == Some(e)
    ensures RowsUnique(Continue(s, th, e))
  {
    var op, s' := s.threads[th], Continue(s, th, e);
    forall t, row: nat
      ensures TableHas(s'.shared, t, row) ==>
                TableHas(s.shared, t, row)
                || (row == s.shared.nextEntry < s'.shared.nextEntry && t == op.tunnel)
    {
      SectionOnRow(domain, s.shared, op, call, e, t, row);
    }
    forall x, row: nat
      ensures ThreadHas(s', x, row) ==>
                ThreadHas(s, x, row)
                || (x == th && TableHas(s.shared, op.tunnel, row) && op.tunnel !in s'.shared.tunnels)
    {
      SectionOnRow(domain, s.shared, op, call, e, op.tunnel, row);
    }
    SectionOnRow(domain, s.shared, op, call, e, op.tunnel, 0);
    if s'.shared.attempts != s.shared.attempts {
      var row := op.removal.entry.id;
      assert ThreadHas(s, th, row) && th !in s'.threads;
    }
  }

  /** A row taken out of the table: its lease is yet to be released by the operation that took
      it, has been tried, or was empty. */
  ghost predicate Accounted(s: State, row: nat) {
    row in s.shared.taken && s.shared.taken[row] != "" ==>
      row in s.shared.attempts || exists th :: HasLeased(s, th, row)
  }

  ghost predicate HasLeased(s: State, th: nat, row: nat) {
    ThreadHas(s, th, row) && s.threads[th].removal.entry.lease != ""
  }

  ghost predicate TakenAccounted(s: State) {
    forall row :: row in s.shared.taken ==> Accounted(s, row)
  }

  /** Where a section can have moved a taken row. */
  ghost predicate TakenMoves(g: Shared, op: Thread, e: Effect, row: nat) {
    && (row in g.attempts ==> row in e.shared.attempts)
    && (row in e.shared.taken ==>
          || (row in g.taken && e.shared.taken[row] == g.taken[row])
          || (e.next.Some? && OpHas(e.next.value, row) && e.next.value.removal.entry.lease == e.shared.taken[row]))
    && (OpHas(op, row) && op.removal.entry.lease != "" ==>
          || row in e.shared.attempts
          || (e.next.Some? && OpHas(e.next.value, row) && e.next.value.removal.entry == op.removal.entry))
  }

  lemma RemovalOnTaken(g: Shared, t: string, stage: RemovalStage, row: nat)
    ensures TakenMoves(g, Removal(t, stage), RemovalSection(g, t, stage), row)
  {
  }

  lemma ResumeOnTaken(g: Shared, t: string, stage: ResumeStage, ok: bool, row: nat)
    requires ResumeSection(g, t, stage, ok).Some?
    ensures TakenMoves(g, Resume(t, stage), ResumeSection(g, t, stage, ok).value, row)
  {
    var e := ResumeSection(g, t, stage, ok).value;
    assert e.shared.taken == g.taken && e.shared.attempts == g.attempts;
  }

  lemma SectionOnTaken(domain: string, g: Shared, op: Thread, call: Call, e: Effect, row: nat)
    requires Section(domain, g, op, call) == Some(e)
    ensures TakenMoves(g, op, e, row)
  {
    match op
    case Auth(t, c, stage) => if !stage.Adding? { AuthOnlyRoutes(domain, g, t, c, stage, call); }
    case Announcing(_) =>
    case Serving(_) =>
    case Removal(t, stage) => RemovalOnTaken(g, t, stage, row);
    case Resume(t, stage) => ResumeOnTaken(g, t, stage, call.ok, row);
  }

  lemma AdvanceKeepsTaken(domain: string, s: State, th: nat, call: Call, e: Effect)
    requires TakenAccounted(s)
    requires th in s.threads && Section(domain, s.shared, s.threads[th], call) == Some(e)
    ensures TakenAccounted(Continue(s, th, e))
  {
    var s' := Continue(s, th, e);
    forall row | row in s'.shared.taken && s'.shared.taken[row] != "" ensures Accounted(s', row) {
      SectionOnTaken(domain, s.shared, s.threads[th], call, e, row);
      if row in s.shared.taken && s'.shared.taken[row] == s.shared.taken[row] && row !in s'.shared.attempts {
        assert Accounted(s, row);
        var x :| HasLeased(s, x, row);
        assert HasLeased(s', x, row);
      } else if row !in s'.shared.attempts {
        assert HasLeased(s', th, row);
      }
    }
  }

  // ---------------------------------------------------------------- whole runs

  ghost predicate Inv(domain: string, s: State) {
    Attached(s.shared) && TimersMatch(s) && NoneStranded(s) && NoOrphans(domain, s) && RowsUnique(s)
    && TakenAccounted(s)
  }

  /** A new operation that holds no row changes nothing. */
  lemma StartKeepsInv(domain: string, s: State, th: nat, op: Thread)
    requires Inv(domain, s) && th !in s.threads && ThreadTimer(s.shared, op)
    requires forall row: nat :: !OpHas(op, row)
    ensures Inv(domain, State(s.shared, s.threads[th := op]))
  {
    var s' := State(s.shared, s.threads[th := op]);
    forall t | OpCovers(s, t) ensures OpCovers(s', t) {
      var x :| x in s.threads && Covers(s.threads[x], t);
      assert x in s'.threads && Covers(s'.threads[x], t);
    }
    forall h | OpKeeps(domain, s, h) ensures OpKeeps(domain, s', h) {
      var x :| x in s.threads && Keeps(domain, s.threads[x], h, s.shared.hostMap[h].tunnel);
      assert x in s'.threads && Keeps(domain, s'.threads[x], h, s.shared.hostMap[h].tunnel);
    }
    assert forall x, row: nat :: ThreadHas(s', x, row) ==> ThreadHas(s, x, row);
    StillAccounted(s, s');
  }

  lemma StillAccounted(s: State, s': State)
    requires TakenAccounted(s) && s'.shared.taken == s.shared.taken && s'.shared.attempts == s.shared.attempts
    requires forall th :: th in s.threads ==> th in s'.threads && s'.threads[th] == s.threads[th]
    ensures TakenAccounted(s')
  {
    forall row | row in s'.shared.taken && s'.shared.taken[row] != "" ensures Accounted(s', row) {
      assert Accounted(s, row);
      if row !in s.shared.attempts {
        var x :| HasLeased(s, x, row);
        assert HasLeased(s', x, row);
      }
    }
  }

  lemma FireKeepsInv(domain: string, s: State, timer: nat, th: nat, s': State)
    requires Inv(domain, s) && Apply(domain, s, TimerFires(timer, th)) == Some(s')
    ensures Inv(domain, s')
  {
    var t, op := s.shared.armed[timer], Removal(s.shared.armed[timer], FinalizeStop);
    var s1 := State(s.shared, s.threads[th := op]);
    StartKeepsInv(domain, s, th, op);
    forall u | IsSuspended(s'.shared, u) ensures TimerArmed(s'.shared, u) || OpCovers(s', u) {
      assert IsSuspended(s1.shared, u);
      if u == t {
        assert th in s'.threads && Covers(s'.threads[th], u);
      } else if OpCovers(s1, u) {
        var x :| x in s1.threads && Covers(s1.threads[x], u);
        assert x in s'.threads && Covers(s'.threads[x], u);
      } else {
        var x :| x in s1.shared.armed && s1.shared.armed[x] == u;
        assert x in s'.shared.armed && s'.shared.armed[x] == u;
      }
    }
    FireKeepsRest(domain, s1, s', timer);
  }

  /** Disarming a timer matters to nothing but coverage. */
  lemma FireKeepsRest(domain: string, s: State, s': State, timer: nat)
    requires Inv(domain, s) && s' == State(s.shared.(armed := s.shared.armed - {timer}), s.threads)
    ensures Attached(s'.shared) && TimersMatch(s') && NoOrphans(domain, s') && RowsUnique(s') && TakenAccounted(s')
  {
    assert forall x: nat, t :: TimerFor(s.shared, x, t) ==> TimerFor(s'.shared, x, t);
    forall u | u in s'.threads ensures ThreadTimer(s'.shared, s'.threads[u]) {
      assert ThreadTimer(s.shared, s.threads[u]);
    }
    forall h | OpKeeps(domain, s, h) ensures OpKeeps(domain, s', h) {
      var x :| x in s.threads && Keeps(domain, s.threads[x], h, s.shared.hostMap[h].tunnel);
      assert x in s'.threads && Keeps(domain, s'.threads[x], h, s.shared.hostMap[h].tunnel);
    }
    assert forall x, row: nat :: ThreadHas(s', x, row) <==> ThreadHas(s, x, row);
    assert forall t, row: nat :: TableHas(s'.shared, t, row) <==> TableHas(s.shared, t, row);
    StillAccounted(s, s');
  }

  lemma StepKeepsInv(domain: string, s: State, step: Step, s': State)
    requires Inv(domain, s) && Apply(domain, s, step) == Some(s')
    ensures Inv(domain, s')
  {
    match step
    case Start(th, op) => StartKeepsInv(domain, s, th, op);
    case TimerFires(timer, th) => FireKeepsInv(domain, s, timer, th, s');
    case Advance(th, call) =>
      var e := Section(domain, s.shared, s.threads[th], call).value;
      SectionKeepsAttached(domain, s.shared, s.threads[th], call, e);
      SectionKeepsTimers(domain, s, th, call, e);
      AdvanceKeepsCover(domain, s, th, call, e);
      AdvanceKeepsHosts(domain, s, th, call, e);
      AdvanceKeepsRows(domain, s, th, call, e);
      AdvanceKeepsTaken(domain, s, th, call, e);
  }

  lemma {:induction false} RunKeepsInv(domain: string, steps: seq<Step>, states: seq<State>, i: nat)
    requires IsRun(domain, steps, states) && i < |states|
    ensures Inv(domain, states[i])
  {
    if i > 0 {
      RunKeepsInv(domain, steps, states, i - 1);
      StepKeepsInv(domain, states[i - 1], steps[i - 1], states[i]);
    }
  }

  /** In every reachable state a tunnel is suspended exactly when it has no connection. */
  lemma SuspendedIffDetached(domain: string, steps: seq<Step>, states: seq<State>, i: nat, t: string)
    requires IsRun(domain, steps, states) && i < |states| && t in states[i].shared.tunnels
    ensures states[i].shared.tunnels[t].suspended <==> states[i].shared.tunnels[t].conn.None?
  {
    RunKeepsInv(domain, steps, states, i);
  }

  /** No operation is in flight but the stream loops of established connections. */
  ghost predicate Quiet(s: State) {
    forall th :: th in s.threads ==> s.threads[th].Serving?
  }

  /** Once no operation is in flight, every routed hostname names a tunnel in the table. */
  lemma QuietMeansNoOrphans(domain: string, steps: seq<Step>, states: seq<State>, i: nat, h: string)
    requires IsRun(domain, steps, states) && i < |states|
    requires Quiet(states[i]) && h in states[i].shared.hostMap
    ensures states[i].shared.hostMap[h].tunnel in states[i].shared.tunnels
  {
    RunKeepsInv(domain, steps, states, i);
  }

  /** Once no operation is in flight, a request for a routed hostname is served, on the connection
      attached to the tunnel and under its label, exactly unless that tunnel is suspended. */
  lemma QuietMeansServed(domain: string, steps: seq<Step>, states: seq<State>, i: nat, h: string)
    requires IsRun(domain, steps, states) && i < |states|
    requires Quiet(states[i]) && h in states[i].shared.hostMap
    ensures
      var g := states[i].shared;
      && g.hostMap[h].tunnel in g.tunnels
      && (Serve(g, h).None? <==> g.tunnels[g.hostMap[h].tunnel].suspended)
      && (Serve(g, h).Some? ==>
            g.tunnels[g.hostMap[h].tunnel].conn == Some(Serve(g, h).value.conn)
            && g.hostMap[h].name == Serve(g, h).value.name)
  {
    QuietMeansNoOrphans(domain, steps, states, i, h);
    SuspendedIffDetached(domain, steps, states, i, states[i].shared.hostMap[h].tunnel);
  }

  /** Removal and finalization together try to release the lease of a table row at most once. */
  lemma OneReleasePerRow(domain: string, steps: seq<Step>, states: seq<State>, i: nat, j: nat, k: nat)
    requires IsRun(domain, steps, states) && i < |states| && j < k < |states[i].shared.attempts|
    ensures states[i].shared.attempts[j] != states[i].shared.attempts[k]
  {
    RunKeepsInv(domain, steps, states, i);
  }

  /** Once no operation is in flight, the lease of every row taken out has been tried. */
  lemma QuietMeansReleased(domain: string, steps: seq<Step>, states: seq<State>, i: nat, row: nat)
    requires IsRun(domain, steps, states) && i < |states| && Quiet(states[i])
    requires row in states[i].shared.taken && states[i].shared.taken[row] != ""
    ensures row in states[i].shared.attempts
  {
    RunKeepsInv(domain, steps, states, i);
    assert Accounted(states[i], row);
  }

  // ---------------------------------------------------------------- suspension ends

  /** The gateway alone, with no new operation from an agent, can end the suspension of `t`
      within `n` steps. */
  ghost predicate EndsWithin(domain: string, s: State, t: string, n: nat)
    decreases n
  {
    || !IsSuspended(s.shared, t)
    || (n > 0 && exists step: Step :: !step.Start? && Apply(domain, s, step).Some?
                                && EndsWithin(domain, Apply(domain, s, step).value, t, n - 1))
  }

  lemma EndsAfter(domain: string, s: State, step: Step, t: string, n: nat)
    requires !step.Start? && Apply(domain, s, step).Some? && EndsWithin(domain, Apply(domain, s, step).value, t, n)
    ensures EndsWithin(domain, s, t, n + 1)
  {
  }

  lemma {:induction false} EndsLonger(domain: string, s: State, t: string, m: nat, n: nat)
    requires EndsWithin(domain, s, t, m) && m <= n
    ensures EndsWithin(domain, s, t, n)
    decreases m
  {
    if IsSuspended(s.shared, t) {
      var step: Step :|
        && !step.Start? && Apply(domain, s, step).Some?
        && EndsWithin(domain, Apply(domain, s, step).value, t, m - 1);
      EndsLonger(domain, Apply(domain, s, step).value, t, m - 1, n - 1);
      EndsAfter(domain, s, step, t, n - 1);
    }
  }

  lemma RemovingEnds(domain: string, s: State, th: nat, t: string)
    requires th in s.threads && s.threads[th] == Removal(t, Removing)
    ensures EndsWithin(domain, s, t, 1)
  {
    var step := Advance(th, Call(true, ""));
    assert !IsSuspended(Apply(domain, s, step).value.shared, t);
    EndsAfter(domain, s, step, t, 0);
  }

  lemma FinalizeEnds(domain: string, s: State, th: nat, t: string)
    requires th in s.threads && s.threads[th] == Removal(t, FinalizeStop)
    ensures EndsWithin(domain, s, t, 2)
  {
    var step := Advance(th, Call(true, ""));
    RemovingEnds(domain, Apply(domain, s, step).value, th, t);
    EndsAfter(domain, s, step, t, 1);
  }

  lemma {:induction false} Above(used: set<nat>) returns (th: nat)
    ensures forall x :: x in used ==> x < th
    decreases used
  {
    if used == {} {
      th := 0;
    } else {
      var x :| x in used;
      var y := Above(used - {x});
      th := if x < y then y else x + 1;
      forall z | z in used ensures z < th {
        assert z == x || z in used - {x};
      }
    }
  }

  lemma TimerEnds(domain: string, s: State, x: nat, t: string)
    requires x in s.shared.armed && s.shared.armed[x] == t
    ensures EndsWithin(domain, s, t, 3)
  {
    var th := Above(s.threads.Keys);
    var step := TimerFires(x, th);
    assert th !in s.threads;
    FinalizeEnds(domain, Apply(domain, s, step).value, th, t);
    EndsAfter(domain, s, step, t, 2);
  }

  lemma ArmingEnds(domain: string, s: State, th: nat, t: string)
    requires th in s.threads && s.threads[th] == Resume(t, ArmingTimer)
    ensures EndsWithin(domain, s, t, 4)
  {
    var step := Advance(th, Call(true, ""));
    TimerEnds(domain, Apply(domain, s, step).value, s.shared.nextTimer, t);
    EndsAfter(domain, s, step, t, 3);
  }

  lemma CoverEnds(domain: string, s: State, th: nat, t: string)
    requires th in s.threads && Covers(s.threads[th], t)
    ensures EndsWithin(domain, s, t, 5)
  {
    var step := Advance(th, Call(true, ""));
    match s.threads[th]
    case Removal(_, stage) =>
      if stage.Removing? {
        RemovingEnds(domain, s, th, t);
        EndsLonger(domain, s, t, 1, 5);
      } else {
        FinalizeEnds(domain, s, th, t);
        EndsLonger(domain, s, t, 2, 5);
      }
    case Resume(_, stage) =>
      if stage.StoringToken? {
        ArmingEnds(domain, Apply(domain, s, step).value, th, t);
        EndsAfter(domain, s, step, t, 4);
      } else if stage.ArmingTimer? {
        ArmingEnds(domain, s, th, t);
        EndsLonger(domain, s, t, 4, 5);
      } else {
        assert !IsSuspended(Apply(domain, s, step).value.shared, t);
        EndsAfter(domain, s, step, t, 0);
        EndsLonger(domain, s, t, 1, 5);
      }
  }

  /** No suspended tunnel is stranded: in every reachable state an armed timer or an operation in
      flight covers it, and the gateway's own next steps can end the suspension. */
  lemma NeverStranded(domain: string, steps: seq<Step>, states: seq<State>, i: nat, t: string)
    requires IsRun(domain, steps, states) && i < |states| && IsSuspended(states[i].shared, t)
    ensures TimerArmed(states[i].shared, t) || OpCovers(states[i], t)
    ensures EndsWithin(domain, states[i], t, 5)
  {
    RunKeepsInv(domain, steps, states, i);
    var s := states[i];
    if TimerArmed(s.shared, t) {
      var x :| x in s.shared.armed && s.shared.armed[x] == t;
      TimerEnds(domain, s, x, t);
      EndsLonger(domain, s, t, 3, 5);
    } else {
      var th :| th in s.threads && Covers(s.threads[th], t);
      CoverEnds(domain, s, th, t);
    }
  }
}
