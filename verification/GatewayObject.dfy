/** The gateway as one object: its tunnel table, its resume timers and its router, changed in
    place. Each method is a whole operation, proved to do, undisturbed, exactly what the sections of
    the lifecycle model do one after the other. */
module GatewayObject {
  import opened Common
  import opened Router
  import opened Gateway
  import opened GatewayAlone
  import opened GatewayOutcomes

  class Server {
    var tunnels: map<string, Entry>
    var pendingResumeTimers: map<string, nat>
    var armed: map<nat, string>
    var nextEntry: nat
    var nextTimer: nat
    const router: TunnelRouter
    ghost var taken: map<nat, string>
    ghost var attempts: seq<nat>
    /** The calls of ReleaseLease, by lease ID. */
    ghost var released: seq<string>

    ghost function View(): Shared reads this, router {
      Shared(tunnels, router.hostMap, pendingResumeTimers, armed, taken, attempts, released,
             nextEntry, nextTimer)
    }

    constructor (domain: string)
      ensures View() == EMPTY.shared && router.domain == domain && fresh(router)
    {
      router := new TunnelRouter(domain);
      tunnels, pendingResumeTimers, armed, nextEntry, nextTimer := map[], map[], map[], 0, 0;
      taken, attempts, released := map[], [], [];
    }

    method RemoveTunnel(t: string)
      modifies this, router
      ensures forall w :: Alone(router.domain, old(View()), Removal(t, Removing), w, 3) == Effect(View(), None)
      ensures if t in old(tunnels) then Cleared(old(View()), View(), t) && SameTimers(old(View()), View())
              else View() == old(View())
    {
      forall w ensures Alone(router.domain, View(), Removal(t, Removing), w, 3) == Effect(Removed(View(), t), None) {
        RemoveAlone(router.domain, View(), t, w, 3);
      }
      Remove(t);
    }

    /** The body of removeTunnel, which finalization repeats. */
    method Remove(t: string)
      modifies this, router
      ensures View() == Removed(old(View()), t)
    {
      if t !in tunnels { return; }
      var at := tunnels[t];
      tunnels := tunnels - {t};
      taken := taken[at.id := at.lease];
      router.DeregisterAll(t);
      if at.lease != "" {
        attempts, released := attempts + [at.id], released + [at.lease];
      }
    }

    /** The section under the timer lock that finalization and resumption share. */
    method CancelTimer(t: string)
      modifies this
      ensures View() == StopTimer(old(View()), t)
    {
      if t in pendingResumeTimers {
        armed := armed - {pendingResumeTimers[t]};
        pendingResumeTimers := pendingResumeTimers - {t};
      }
    }

    method FinalizeTunnelRemoval(t: string)
      modifies this, router
      ensures forall w :: Alone(router.domain, old(View()), Removal(t, FinalizeStop), w, 4) == Effect(View(), None)
    {
      forall w
        ensures Alone(router.domain, View(), Removal(t, FinalizeStop), w, 4)
                == Effect(Removed(StopTimer(View(), t), t), None)
      {
        FinalizeAlone(router.domain, View(), t, w);
      }
      CancelTimer(t);
      Remove(t);
    }

    /** `finished` is false where the source would close a connection that is not there. */
    method SuspendTunnel(t: string, w: Outcomes) returns (finished: bool)
      modifies this, router
      ensures Alone(router.domain, old(View()), Resume(t, Suspending), w, 5)
              == Effect(View(), if finished then None else Some(Resume(t, Suspending)))
      ensures
        var g := old(View());
        && (finished <==> t !in g.tunnels || !w.token || g.tunnels[t].conn.Some?)
        && (if t !in g.tunnels || !finished then View() == g
            else if w.token && w.store then Paused(g, View(), t)
            else Cleared(g, View(), t) && SameTimers(g, View()))
    {
      SuspendAlone(router.domain, View(), t, w);
      SuspendOutcome(router.domain, View(), t, w);
      if t !in tunnels { return true; }
      if !w.token {
        Remove(t);
        return true;
      }
      var at := tunnels[t];
      if at.conn.None? { return false; }
      at := at.(conn := None);
      at := at.(suspended := true);
      tunnels := tunnels[t := at];
      if !w.store {
        Remove(t);
        return true;
      }
      var timer := nextTimer;
      nextTimer := nextTimer + 1;
      armed := armed[timer := t];
      pendingResumeTimers := pendingResumeTimers[t := timer];
      return true;
    }

    /** handleSessionResume from the point where the token has named the tunnel to where the stream
        loop starts. */
    method ResumeSession(t: string, conn: nat, w: Outcomes) returns (serving: bool)
      modifies this
      ensures Alone(router.domain, old(View()), Resume(t, ResumeStop(conn)), w, 3)
              == Effect(View(), ServeIf(serving, t))
    {
      ResumeAlone(router.domain, View(), t, conn, w);
      CancelTimer(t);
      if t !in tunnels { return false; }
      var at := tunnels[t];
      at := at.(conn := Some(conn));
      at := at.(suspended := false);
      tunnels := tunnels[t := at];
      return w.reply;
    }

    /** addTunnel, then the registration with the registry. */
    method AddTunnel(t: string, conn: nat, lease: string, w: Outcomes)
      modifies this, router
      ensures View() == Announced(old(View()), t, conn, lease, w)
    {
      tunnels := tunnels[t := Entry(nextEntry, Some(conn), false, lease)];
      nextEntry := nextEntry + 1;
      if !w.announce { Remove(t); }
    }

    method HandleV1Auth(t: string, conn: nat, w: Outcomes) returns (serving: bool)
      modifies this, router
      ensures Alone(router.domain, old(View()), Auth(t, conn, V1Register), w, 8)
              == Effect(View(), ServeIf(serving, t))
      ensures serving <==> w.lease.Some? && w.reply && w.announce
      ensures if serving then Installed(old(View()), View(), t, conn, w.lease.value)
              else Abandoned(old(View()), View(), t, w)
    {
      V1Outcome(router.domain, View(), t, conn, w);
      V1AuthAlone(router.domain, View(), t, conn, w);
      ghost var hosts := router.hostMap;
      var host := router.Register(t);
      if w.lease.None? || !w.reply {
        router.Deregister(t);
        assert router.hostMap == hosts - {host};
        if w.lease.Some? { released := released + [w.lease.value]; }
        return false;
      }
      AddTunnel(t, conn, w.lease.value, w);
      serving := w.announce;
    }

    method HandleV2Auth(t: string, conn: nat, labels: seq<string>, w: Outcomes) returns (serving: bool)
      modifies this, router
      ensures Alone(router.domain, old(View()), Auth(t, conn, V2Lease(labels)), w, |labels| + 8)
              == Effect(View(), ServeIf(serving, t))
      ensures serving <==> w.lease.Some? && w.reply && w.announce
      ensures if serving then Installed(old(View()), View(), t, conn, w.lease.value)
              else Abandoned(old(View()), View(), t, w)
    {
      V2Outcome(router.domain, View(), t, conn, labels, w);
      V2AuthAlone(router.domain, View(), t, conn, labels, w);
      if w.lease.None? { return false; }
      RegisterLabels(t, labels);
      if !w.reply {
        router.DeregisterAll(t);
        released := released + [w.lease.value];
        return false;
      }
      AddTunnel(t, conn, w.lease.value, w);
      serving := w.announce;
    }

    /** The registration loop of handleV2Auth. */
    method RegisterLabels(t: string, labels: seq<string>)
      modifies router
      ensures router.hostMap == RegisterAll(router.domain, old(router.hostMap), t, labels)
    {
      var i := 0;
      while i < |labels|
        invariant i <= |labels|
        invariant RegisterAll(router.domain, router.hostMap, t, labels[i..])
                  == RegisterAll(router.domain, old(router.hostMap), t, labels)
      {
        var host := router.RegisterLabel(t, labels[i]);
        assert labels[i..][1..] == labels[i + 1..];
        i := i + 1;
      }
    }
  }
}
