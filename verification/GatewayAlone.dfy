/** What the gateway's operations achieve when nothing interferes. */
module GatewayAlone {
  import opened Common
  import opened Router
  import opened Gateway

  /** How the calls of an operation turn out: the lease request (granting a lease ID), the response
      write, the registration with the registry, the resume token and its storing. */
  datatype Outcomes = Outcomes(lease: Option<string>, reply: bool, announce: bool, token: bool, store: bool)

  /** The outcome of the call a section makes. */
  function CallOf(op: Thread, w: Outcomes): Call {
    match op
    case Auth(_, _, stage) =>
      if stage.V1Lease? || stage.V2Lease? then Call(w.lease.Some?, if w.lease.Some? then w.lease.value else "")
      else Call(w.reply, "")
    case Announcing(_) => Call(w.announce, "")
    case Resume(_, stage) =>
      Call(if stage.StoringToken? then w.store else if stage.Replying? then w.reply else w.token, "")
    case _ => Call(w.reply, "")
  }

  /** The first `n` sections of an operation run back to back, up to where it starts serving. */
  function Alone(domain: string, g: Shared, op: Thread, w: Outcomes, n: nat): Effect
    decreases n
  {
    if n == 0 || op.Serving? then Effect(g, Some(op))
    else
      var e := Section(domain, g, op, CallOf(op, w));
      if e.None? then Effect(g, Some(op))
      else if e.value.next.None? then e.value
      else Alone(domain, e.value.shared, e.value.next.value, w, n - 1)
  }

  /** One section that leads to another. */
  lemma OneSection(domain: string, g: Shared, op: Thread, w: Outcomes, n: nat, g': Shared, op': Thread)
    requires !op.Serving? && Section(domain, g, op, CallOf(op, w)) == Some(Effect(g', Some(op')))
    ensures Alone(domain, g, op, w, n + 1) == Alone(domain, g', op', w, n)
  {
  }

  /** A last section. */
  lemma LastSection(domain: string, g: Shared, op: Thread, w: Outcomes, n: nat, g': Shared)
    requires !op.Serving? && Section(domain, g, op, CallOf(op, w)) == Some(Effect(g', None))
    ensures Alone(domain, g, op, w, n + 1) == Effect(g', None)
  {
  }

  // ---------------------------------------------------------------- removal

  /** The state after the row of `t` has been taken, deregistered and its lease tried. */
  function Removed(g: Shared, t: string): Shared {
    if t !in g.tunnels then g
    else
      var e := g.tunnels[t];
      g.(tunnels := g.tunnels - {t}, taken := g.taken[e.id := e.lease], hostMap := WithoutTunnel(g.hostMap, t),
         attempts := if e.lease != "" then g.attempts + [e.id] else g.attempts,
         released := if e.lease != "" then g.released + [e.lease] else g.released)
  }

  lemma RemoveAlone(domain: string, g: Shared, t: string, w: Outcomes, n: nat)
    requires n >= 3
    ensures Alone(domain, g, Removal(t, Removing), w, n) == Effect(Removed(g, t), None)
  {
    if t !in g.tunnels {
      LastSection(domain, g, Removal(t, Removing), w, n - 1, g);
    } else {
      var e := g.tunnels[t];
      var g1 := g.(tunnels := g.tunnels - {t}, taken := g.taken[e.id := e.lease]);
      var g2 := g1.(hostMap := WithoutTunnel(g1.hostMap, t));
      OneSection(domain, g, Removal(t, Removing), w, n - 1, g1, Removal(t, Deregistering(e)));
      OneSection(domain, g1, Removal(t, Deregistering(e)), w, n - 2, g2, Removal(t, ReleasingLease(e)));
      LastSection(domain, g2, Removal(t, ReleasingLease(e)), w, n - 3, Removed(g, t));
    }
  }

  lemma FinalizeAlone(domain: string, g: Shared, t: string, w: Outcomes)
    ensures Alone(domain, g, Removal(t, FinalizeStop), w, 4) == Effect(Removed(StopTimer(g, t), t), None)
  {
    OneSection(domain, g, Removal(t, FinalizeStop), w, 3, StopTimer(g, t), Removal(t, Removing));
    RemoveAlone(domain, StopTimer(g, t), t, w, 3);
  }

  // ---------------------------------------------------------------- authentication

  function RegisterAll(domain: string, hosts: HostMap, t: string, labels: seq<string>): HostMap
    decreases |labels|
  {
    if labels == [] then hosts
    else RegisterAll(domain, hosts[HostnameForLabel(domain, t, labels[0]) := RouteKey(t, labels[0])], t, labels[1..])
  }

  /** One tunnel's label hostnames tell its labels apart. */
  lemma LabelInjective(domain: string, t: string, a: string, b: string)
    requires HostnameForLabel(domain, t, a) == HostnameForLabel(domain, t, b)
    ensures a == b
  {
    var tail := "-" + TrimPrefix(t, "t-") + "." + domain;
    assert HostnameForLabel(domain, t, a) == a + tail && HostnameForLabel(domain, t, b) == b + tail;
    assert |a| == |b|;
    assert a == (a + tail)[..|a|] && b == (b + tail)[..|b|];
  }

  ghost predicate IsLabelHost(domain: string, t: string, labels: seq<string>, h: string) {
    exists i :: 0 <= i < |labels| && h == HostnameForLabel(domain, t, labels[i])
  }

  /** Registering routes every label's hostname to the tunnel and that label, and leaves every
      other hostname as it was. */
  lemma {:induction false} RegisterAllRoutes(domain: string, hosts: HostMap, t: string, labels: seq<string>, h: string)
    ensures
      var r := RegisterAll(domain, hosts, t, labels);
      && (!IsLabelHost(domain, t, labels, h) ==> (h in r <==> h in hosts) && (h in hosts ==> r[h] == hosts[h]))
      && (forall i :: 0 <= i < |labels| && h == HostnameForLabel(domain, t, labels[i]) ==>
            h in r && r[h] == RouteKey(t, labels[i]))
    decreases |labels|
  {
    if labels != [] {
      var first := HostnameForLabel(domain, t, labels[0]);
      var hosts' := hosts[first := RouteKey(t, labels[0])];
      RegisterAllRoutes(domain, hosts', t, labels[1..], h);
      assert forall i :: 0 <= i < |labels| - 1 ==> labels[1..][i] == labels[i + 1];
      if h == first {
        assert IsLabelHost(domain, t, labels, h);
        forall i | 0 <= i < |labels| && h == HostnameForLabel(domain, t, labels[i]) ensures labels[i] == labels[0] {
          LabelInjective(domain, t, labels[i], labels[0]);
        }
      } else {
        forall i | 0 <= i < |labels| && h == HostnameForLabel(domain, t, labels[i])
          ensures i > 0 && labels[1..][i - 1] == labels[i]
        {
        }
        if IsLabelHost(domain, t, labels[1..], h) {
          var i :| 0 <= i < |labels[1..]| && h == HostnameForLabel(domain, t, labels[1..][i]);
          assert h == HostnameForLabel(domain, t, labels[i + 1]);
        }
      }
    }
  }

  function Added(g: Shared, t: string, c: nat, lease: string): Shared {
    g.(tunnels := g.tunnels[t := Entry(g.nextEntry, Some(c), false, lease)], nextEntry := g.nextEntry + 1)
  }

  /** Adding the row and announcing it; a failed announcement takes the row out again. */
  function Announced(g: Shared, t: string, c: nat, lease: string, w: Outcomes): Shared {
    if w.announce then Added(g, t, c, lease) else Removed(Added(g, t, c, lease), t)
  }

  /** An operation that went well goes on to serve its tunnel. */
  function ServeIf(ok: bool, t: string): Option<Thread> { if ok then Some(Serving(t)) else None }

  lemma AddAlone(domain: string, g: Shared, t: string, c: nat, lease: string, w: Outcomes, n: nat)
    requires n >= 5
    ensures Alone(domain, g, Auth(t, c, Adding(lease)), w, n)
            == Effect(Announced(g, t, c, lease, w), ServeIf(w.announce, t))
  {
    var g1 := Added(g, t, c, lease);
    OneSection(domain, g, Auth(t, c, Adding(lease)), w, n - 1, g1, Announcing(t));
    if w.announce {
      OneSection(domain, g1, Announcing(t), w, n - 2, g1, Serving(t));
    } else {
      OneSection(domain, g1, Announcing(t), w, n - 2, g1, Removal(t, Removing));
      RemoveAlone(domain, g1, t, w, n - 2);
    }
  }

  /** V1: the default hostname is routed first and given up again if the lease or the reply fails. */
  function V1Authenticated(domain: string, g: Shared, t: string, c: nat, w: Outcomes): Shared {
    var host := HostnameForTunnel(domain, t);
    if w.lease.Some? && w.reply then
      Announced(g.(hostMap := g.hostMap[host := RouteKey(t, "default")]), t, c, w.lease.value, w)
    else g.(hostMap := g.hostMap - {host}, released := g.released + if w.lease.Some? then [w.lease.value] else [])
  }

  predicate AllWell(w: Outcomes) { w.lease.Some? && w.reply && w.announce }

  lemma V1AuthAlone(domain: string, g: Shared, t: string, c: nat, w: Outcomes)
    ensures Alone(domain, g, Auth(t, c, V1Register), w, 8)
            == Effect(V1Authenticated(domain, g, t, c, w), ServeIf(AllWell(w), t))
  {
    var host := HostnameForTunnel(domain, t);
    var g1 := g.(hostMap := g.hostMap[host := RouteKey(t, "default")]);
    var undone := g1.(hostMap := g1.hostMap - {host});
    assert undone.hostMap == g.hostMap - {host};
    OneSection(domain, g, Auth(t, c, V1Register), w, 7, g1, Auth(t, c, V1Lease));
    if w.lease.None? {
      OneSection(domain, g1, Auth(t, c, V1Lease), w, 6, g1, Auth(t, c, V1Undo(None)));
      assert g.released + [] == g.released;
      LastSection(domain, g1, Auth(t, c, V1Undo(None)), w, 5, undone);
    } else {
      var l := w.lease.value;
      OneSection(domain, g1, Auth(t, c, V1Lease), w, 6, g1, Auth(t, c, V1Reply(l)));
      if w.reply {
        OneSection(domain, g1, Auth(t, c, V1Reply(l)), w, 5, g1, Auth(t, c, Adding(l)));
        AddAlone(domain, g1, t, c, l, w, 5);
      } else {
        OneSection(domain, g1, Auth(t, c, V1Reply(l)), w, 5, g1, Auth(t, c, V1Undo(Some(l))));
        OneSection(domain, g1, Auth(t, c, V1Undo(Some(l))), w, 4, undone, Auth(t, c, GivingBack(l)));
        LastSection(domain, undone, Auth(t, c, GivingBack(l)), w, 3, undone.(released := undone.released + [l]));
      }
    }
  }

  lemma {:induction false} RegisterAlone(
      domain: string, g: Shared, t: string, c: nat, lease: string, labels: seq<string>, w: Outcomes, n: nat)
    ensures Alone(domain, g, Auth(t, c, V2Register(lease, labels)), w, n + |labels|)
            == Alone(domain, g.(hostMap := RegisterAll(domain, g.hostMap, t, labels)),
                     Auth(t, c, V2Register(lease, [])), w, n)
    decreases |labels|
  {
    if labels != [] {
      var g' := g.(hostMap := g.hostMap[HostnameForLabel(domain, t, labels[0]) := RouteKey(t, labels[0])]);
      OneSection(domain, g, Auth(t, c, V2Register(lease, labels)), w, n + |labels| - 1,
                 g', Auth(t, c, V2Register(lease, labels[1..])));
      RegisterAlone(domain, g', t, c, lease, labels[1..], w, n);
    }
  }

  /** V2: the lease comes first, then all label hostnames, given up together if the reply fails. */
  function V2Authenticated(domain: string, g: Shared, t: string, c: nat, labels: seq<string>, w: Outcomes): Shared {
    if w.lease.None? then g
    else
      var routed := g.(hostMap := RegisterAll(domain, g.hostMap, t, labels));
      if w.reply then Announced(routed, t, c, w.lease.value, w)
      else routed.(hostMap := WithoutTunnel(routed.hostMap, t), released := g.released + [w.lease.value])
  }

  lemma V2AuthAlone(domain: string, g: Shared, t: string, c: nat, labels: seq<string>, w: Outcomes)
    ensures Alone(domain, g, Auth(t, c, V2Lease(labels)), w, |labels| + 8)
            == Effect(V2Authenticated(domain, g, t, c, labels, w), ServeIf(AllWell(w), t))
  {
    if w.lease.None? {
      LastSection(domain, g, Auth(t, c, V2Lease(labels)), w, |labels| + 7, g);
    } else {
      var l := w.lease.value;
      var routed := g.(hostMap := RegisterAll(domain, g.hostMap, t, labels));
      OneSection(domain, g, Auth(t, c, V2Lease(labels)), w, 7 + |labels|, g, Auth(t, c, V2Register(l, labels)));
      RegisterAlone(domain, g, t, c, l, labels, w, 7);
      OneSection(domain, routed, Auth(t, c, V2Register(l, [])), w, 6, routed, Auth(t, c, V2Reply(l)));
      if w.reply {
        OneSection(domain, routed, Auth(t, c, V2Reply(l)), w, 5, routed, Auth(t, c, Adding(l)));
        AddAlone(domain, routed, t, c, l, w, 5);
      } else {
        var undone := routed.(hostMap := WithoutTunnel(routed.hostMap, t));
        OneSection(domain, routed, Auth(t, c, V2Reply(l)), w, 5, routed, Auth(t, c, V2Undo(l)));
        OneSection(domain, routed, Auth(t, c, V2Undo(l)), w, 4, undone, Auth(t, c, GivingBack(l)));
        LastSection(domain, undone, Auth(t, c, GivingBack(l)), w, 3, undone.(released := undone.released + [l]));
      }
    }
  }

  /** After an authentication that nothing disturbs, a request for any of the labels' hostnames is
      served on the new connection under that label. */
  lemma AuthThenServe(domain: string, g: Shared, t: string, c: nat, labels: seq<string>, w: Outcomes, i: nat)
    requires AllWell(w) && i < |labels|
    ensures Serve(Alone(domain, g, Auth(t, c, V2Lease(labels)), w, |labels| + 8).shared,
                  HostnameForLabel(domain, t, labels[i]))
            == Some(Target(c, labels[i]))
  {
    V2AuthAlone(domain, g, t, c, labels, w);
    RegisterAllRoutes(domain, g.hostMap, t, labels, HostnameForLabel(domain, t, labels[i]));
  }

  /** A hostname of another tunnel, and not one of the new labels', is served as before. */
  lemma AuthLeavesOthers(domain: string, g: Shared, t: string, c: nat, labels: seq<string>, w: Outcomes, h: string)
    requires h in g.hostMap && g.hostMap[h].tunnel != t && !IsLabelHost(domain, t, labels, h)
    ensures Serve(Alone(domain, g, Auth(t, c, V2Lease(labels)), w, |labels| + 8).shared, h) == Serve(g, h)
  {
    V2AuthAlone(domain, g, t, c, labels, w);
    RegisterAllRoutes(domain, g.hostMap, t, labels, h);
  }

  // ---------------------------------------------------------------- the grace window

  function Detached(g: Shared, t: string): Shared
    requires t in g.tunnels
  {
    g.(tunnels := g.tunnels[t := g.tunnels[t].(conn := None, suspended := true)])
  }

  function Suspended(g: Shared, t: string): Shared
    requires t in g.tunnels
  {
    Detached(g, t).(armed := g.armed[g.nextTimer := t], timers := g.timers[t := g.nextTimer],
                    nextTimer := g.nextTimer + 1)
  }

  /** How a suspension ends: without a token or without storing it the tunnel is removed, and on a
      tunnel that is detached already it does not get past its first section. */
  function SuspendEffect(g: Shared, t: string, w: Outcomes): Effect {
    if t !in g.tunnels then Effect(g, None)
    else if !w.token then Effect(Removed(g, t), None)
    else if g.tunnels[t].conn.None? then Effect(g, Some(Resume(t, Suspending)))
    else if !w.store then Effect(Removed(Detached(g, t), t), None)
    else Effect(Suspended(g, t), None)
  }

  lemma StoreAlone(domain: string, g: Shared, t: string, w: Outcomes)
    requires t in g.tunnels && g.tunnels[t].conn.Some? && w.token
    ensures Alone(domain, g, Resume(t, Suspending), w, 5) == SuspendEffect(g, t, w)
  {
    var g1 := Detached(g, t);
    OneSection(domain, g, Resume(t, Suspending), w, 4, g1, Resume(t, StoringToken));
    if w.store {
      var g2 := g1.(armed := g1.armed[g1.nextTimer := t], nextTimer := g1.nextTimer + 1);
      OneSection(domain, g1, Resume(t, StoringToken), w, 3, g1, Resume(t, ArmingTimer));
      OneSection(domain, g1, Resume(t, ArmingTimer), w, 2, g2, Resume(t, KeepingTimer(g1.nextTimer)));
      LastSection(domain, g2, Resume(t, KeepingTimer(g1.nextTimer)), w, 1, Suspended(g, t));
    } else {
      OneSection(domain, g1, Resume(t, StoringToken), w, 3, g1, Removal(t, Removing));
      RemoveAlone(domain, g1, t, w, 3);
    }
  }

  lemma SuspendAlone(domain: string, g: Shared, t: string, w: Outcomes)
    ensures Alone(domain, g, Resume(t, Suspending), w, 5) == SuspendEffect(g, t, w)
  {
    if t !in g.tunnels {
      LastSection(domain, g, Resume(t, Suspending), w, 4, g);
    } else if !w.token {
      OneSection(domain, g, Resume(t, Suspending), w, 4, g, Removal(t, Removing));
      RemoveAlone(domain, g, t, w, 4);
    } else if g.tunnels[t].conn.Some? {
      StoreAlone(domain, g, t, w);
    }
  }

  function Reattached(g: Shared, t: string, c: nat): Shared {
    var g1 := StopTimer(g, t);
    if t !in g1.tunnels then g1
    else g1.(tunnels := g1.tunnels[t := g1.tunnels[t].(conn := Some(c), suspended := false)])
  }

  lemma ResumeAlone(domain: string, g: Shared, t: string, c: nat, w: Outcomes)
    ensures Alone(domain, g, Resume(t, ResumeStop(c)), w, 3)
            == Effect(Reattached(g, t, c), ServeIf(t in g.tunnels && w.reply, t))
  {
    var g1, g2 := StopTimer(g, t), Reattached(g, t, c);
    OneSection(domain, g, Resume(t, ResumeStop(c)), w, 2, g1, Resume(t, Reattaching(c)));
    if t !in g.tunnels {
      LastSection(domain, g1, Resume(t, Reattaching(c)), w, 1, g2);
    } else {
      OneSection(domain, g1, Resume(t, Reattaching(c)), w, 1, g2, Resume(t, Replying(c)));
      if w.reply {
        OneSection(domain, g2, Resume(t, Replying(c)), w, 0, g2, Serving(t));
      } else {
        LastSection(domain, g2, Resume(t, Replying(c)), w, 0, g2);
      }
    }
  }

  /** Suspension followed in time by a resumption gives the tunnel back its row, its lease and its
      hostnames on the new connection, and leaves no timer armed for it. */
  lemma SuspendThenResume(domain: string, g: Shared, t: string, c: nat, w: Outcomes)
    requires t in g.tunnels && g.tunnels[t].conn.Some? && w.token && w.store && g.nextTimer !in g.armed
    ensures
      var paused := Alone(domain, g, Resume(t, Suspending), w, 5).shared;
      Alone(domain, paused, Resume(t, ResumeStop(c)), w, 3)
      == Effect(g.(tunnels := g.tunnels[t := g.tunnels[t].(conn := Some(c), suspended := false)],
                   timers := g.timers - {t}, nextTimer := g.nextTimer + 1),
                ServeIf(w.reply, t))
  {
    SuspendAlone(domain, g, t, w);
    ResumeAlone(domain, Suspended(g, t), t, c, w);
    ReattachUndoes(g, t, c);
  }

  lemma ReattachUndoes(g: Shared, t: string, c: nat)
    requires t in g.tunnels && g.nextTimer !in g.armed
    ensures Reattached(Suspended(g, t), t, c)
            == g.(tunnels := g.tunnels[t := g.tunnels[t].(conn := Some(c), suspended := false)],
                  timers := g.timers - {t}, nextTimer := g.nextTimer + 1)
  {
    var back := Reattached(Suspended(g, t), t, c);
    assert back.armed == g.armed && back.timers == g.timers - {t};
    assert back.tunnels == g.tunnels[t := g.tunnels[t].(conn := Some(c), suspended := false)];
  }

  /** Suspension whose timer fires undisturbed removes the row and every hostname of the tunnel
      and tries to release its lease. */
  lemma SuspendThenExpire(domain: string, g: Shared, t: string, w: Outcomes)
    requires t in g.tunnels && g.tunnels[t].conn.Some? && w.token && w.store && g.nextTimer !in g.armed
    ensures
      var paused := Alone(domain, g, Resume(t, Suspending), w, 5).shared;
      var fired := paused.(armed := paused.armed - {g.nextTimer});
      var e := Alone(domain, fired, Removal(t, FinalizeStop), w, 4);
      && paused.armed == g.armed[g.nextTimer := t]
      && e == Effect(Removed(g, t).(timers := g.timers - {t}, nextTimer := g.nextTimer + 1), None)
  {
    SuspendAlone(domain, g, t, w);
    var paused := Suspended(g, t);
    var fired := paused.(armed := paused.armed - {g.nextTimer});
    FinalizeAlone(domain, fired, t, w);
    var e := Removed(StopTimer(fired, t), t);
    assert e.armed == g.armed && e.timers == g.timers - {t} && e.tunnels == g.tunnels - {t};
  }
}
