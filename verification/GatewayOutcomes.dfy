/** How each operation of the gateway leaves the table, the routes, the timers and the leases when
    nothing disturbs it, field by field and for every outcome of the calls it makes. */
module GatewayOutcomes {
  import opened Common
  import opened Router
  import opened Gateway
  import opened GatewayAlone

  // ---------------------------------------------------------------- comparing two states

  /** The rows of all other tunnels are untouched. */
  ghost predicate OtherRows(g: Shared, g': Shared, t: string) {
    forall u :: u != t ==> (u in g'.tunnels <==> u in g.tunnels) && (u in g.tunnels ==> g'.tunnels[u] == g.tunnels[u])
  }

  predicate SameTimers(g: Shared, g': Shared) { g'.timers == g.timers && g'.armed == g.armed }

  predicate SameLeases(g: Shared, g': Shared) { g'.attempts == g.attempts && g'.released == g.released }

  /** A hostname is routed as before, or not at all as before. */
  predicate SameRoute(g: Shared, g': Shared, h: string) {
    (h in g'.hostMap <==> h in g.hostMap) && (h in g.hostMap ==> g'.hostMap[h] == g.hostMap[h])
  }

  /** No hostname leads to the tunnel any more, and those of other tunnels lead where they led. */
  ghost predicate Unrouted(g: Shared, g': Shared, t: string) {
    && (forall h :: h in g'.hostMap ==> g'.hostMap[h].tunnel != t)
    && (forall h :: h !in g.hostMap || g.hostMap[h].tunnel != t ==> SameRoute(g, g', h))
  }

  /** The lease of a row is tried exactly once, and no other; an empty one is not tried. */
  predicate Tried(g: Shared, g': Shared, row: Entry) {
    if row.lease == "" then g'.attempts == g.attempts && g'.released == g.released
    else g'.attempts == g.attempts + [row.id] && g'.released == g.released + [row.lease]
  }

  /** The tunnel is gone: no row, no hostname, its lease tried; nothing else has changed. */
  ghost predicate Cleared(g: Shared, g': Shared, t: string) {
    && t in g.tunnels && t !in g'.tunnels
    && OtherRows(g, g', t) && Unrouted(g, g', t) && Tried(g, g', g.tunnels[t])
  }

  // ---------------------------------------------------------------- removal

  /** A removal clears the tunnel and no timer; without a row it does nothing. */
  lemma RemovalOutcome(domain: string, g: Shared, t: string, w: Outcomes)
    ensures
      var e := Alone(domain, g, Removal(t, Removing), w, 3);
      && e.next.None?
      && (if t in g.tunnels then Cleared(g, e.shared, t) && SameTimers(g, e.shared) else e.shared == g)
  {
    RemoveAlone(domain, g, t, w, 3);
  }

  /** A timer that fires clears the tunnel, the record of the timer and the timer recorded. */
  lemma ExpiryOutcome(domain: string, s: State, x: nat, th: nat, w: Outcomes)
    requires x in s.shared.armed && th !in s.threads
    ensures
      var t := s.shared.armed[x];
      var s1 := Apply(domain, s, TimerFires(x, th));
      && s1.Some? && th in s1.value.threads
      && var e := Alone(domain, s1.value.shared, s1.value.threads[th], w, 4);
         var g, g' := s.shared, e.shared;
         && e.next.None?
         && g'.timers == g.timers - {t}
         && g'.armed == g.armed - {x} - (if t in g.timers then {g.timers[t]} else {})
         && if t in g.tunnels then Cleared(g, g', t)
            else g'.tunnels == g.tunnels && g'.hostMap == g.hostMap && SameLeases(g, g')
  {
    var t := s.shared.armed[x];
    var fired := s.shared.(armed := s.shared.armed - {x});
    FinalizeAlone(domain, fired, t, w);
    assert t !in s.shared.timers ==> s.shared.timers - {t} == s.shared.timers;
  }

  // ---------------------------------------------------------------- authentication

  /** The tunnel has a new row on the connection, with the lease that was granted. */
  ghost predicate Installed(g: Shared, g': Shared, t: string, c: nat, lease: string) {
    && t in g'.tunnels && g'.tunnels[t] == Entry(g.nextEntry, Some(c), false, lease)
    && g'.nextEntry == g.nextEntry + 1
    && OtherRows(g, g', t) && SameLeases(g, g')
  }

  /** The row never came to be, or came and went; of the leases just the one granted was tried. */
  ghost predicate Abandoned(g: Shared, g': Shared, t: string, w: Outcomes) {
    && OtherRows(g, g', t)
    && (if w.lease.Some? && w.reply then
          // Announcing it failed, so that it was removed like any other row.
          t !in g'.tunnels && Tried(g, g', Entry(g.nextEntry, None, false, w.lease.value))
        else
          && g'.tunnels == g.tunnels && g'.attempts == g.attempts
          && g'.released == g.released + if w.lease.Some? then [w.lease.value] else [])
  }

  /** V1: with everything well the default hostname leads to the new row; otherwise no row is left,
      the hostname leads nowhere, and a lease that was granted is tried. */
  lemma V1Outcome(domain: string, g: Shared, t: string, c: nat, w: Outcomes)
    ensures
      var e := Alone(domain, g, Auth(t, c, V1Register), w, 8);
      var g', host := e.shared, HostnameForTunnel(domain, t);
      && SameTimers(g, g')
      && (if w.lease.Some? && w.reply && w.announce then
            && e.next == Some(Serving(t)) && Installed(g, g', t, c, w.lease.value)
            && host in g'.hostMap && g'.hostMap[host] == RouteKey(t, "default")
          else e.next.None? && Abandoned(g, g', t, w) && host !in g'.hostMap)
  {
    V1AuthAlone(domain, g, t, c, w);
  }

  /** A V1 authentication leaves every other hostname as it was, except that taking the row out again
      takes all hostnames of the tunnel. */
  lemma V1LeavesOthers(domain: string, g: Shared, t: string, c: nat, w: Outcomes, h: string)
    requires h != HostnameForTunnel(domain, t)
    requires w.lease.Some? && w.reply && !w.announce && h in g.hostMap ==> g.hostMap[h].tunnel != t
    ensures SameRoute(g, Alone(domain, g, Auth(t, c, V1Register), w, 8).shared, h)
  {
    V1AuthAlone(domain, g, t, c, w);
  }

  lemma V2Routes(domain: string, g: Shared, routed: Shared, t: string, labels: seq<string>)
    requires routed.hostMap == RegisterAll(domain, g.hostMap, t, labels)
    ensures forall i :: 0 <= i < |labels| ==>
              var h := HostnameForLabel(domain, t, labels[i]);
              h in routed.hostMap && routed.hostMap[h] == RouteKey(t, labels[i])
    ensures forall h :: !IsLabelHost(domain, t, labels, h) ==> SameRoute(g, routed, h)
    ensures forall h :: IsLabelHost(domain, t, labels, h) ==> h in routed.hostMap && routed.hostMap[h].tunnel == t
  {
    forall h
      ensures !IsLabelHost(domain, t, labels, h) ==> SameRoute(g, routed, h)
      ensures IsLabelHost(domain, t, labels, h) ==> h in routed.hostMap && routed.hostMap[h].tunnel == t
      ensures forall i :: 0 <= i < |labels| && h == HostnameForLabel(domain, t, labels[i]) ==>
                h in routed.hostMap && routed.hostMap[h] == RouteKey(t, labels[i])
    {
      RegisterAllRoutes(domain, g.hostMap, t, labels, h);
    }
  }

  /** V2: with everything well every label's hostname leads to the new row under its label; otherwise no
      row and, once a lease was granted, no hostname is left, and that lease is tried. */
  lemma V2Outcome(domain: string, g: Shared, t: string, c: nat, labels: seq<string>, w: Outcomes)
    ensures
      var e := Alone(domain, g, Auth(t, c, V2Lease(labels)), w, |labels| + 8);
      var g' := e.shared;
      && SameTimers(g, g')
      && (if w.lease.Some? && w.reply && w.announce then
            && e.next == Some(Serving(t)) && Installed(g, g', t, c, w.lease.value)
            && (forall i :: 0 <= i < |labels| ==>
                  var h := HostnameForLabel(domain, t, labels[i]);
                  h in g'.hostMap && g'.hostMap[h] == RouteKey(t, labels[i]))
          else
            && e.next.None? && Abandoned(g, g', t, w)
            && (w.lease.None? ==> g'.hostMap == g.hostMap)
            && (w.lease.Some? ==> forall h :: h in g'.hostMap ==> g'.hostMap[h].tunnel != t))
      && (forall h :: !IsLabelHost(domain, t, labels, h) && (h in g.hostMap ==> g.hostMap[h].tunnel != t) ==>
            SameRoute(g, g', h))
  {
    V2AuthAlone(domain, g, t, c, labels, w);
    var routed := g.(hostMap := RegisterAll(domain, g.hostMap, t, labels));
    V2Routes(domain, g, routed, t, labels);
  }

  /** The lease that an authentication was granted is the one that a removal of the tunnel then tries,
      once. */
  lemma AuthThenRemove(domain: string, g: Shared, t: string, c: nat, labels: seq<string>, w: Outcomes, w': Outcomes)
    requires w.lease.Some? && w.lease.value != "" && w.reply && w.announce
    ensures
      var on := Alone(domain, g, Auth(t, c, V2Lease(labels)), w, |labels| + 8).shared;
      var off := Alone(domain, on, Removal(t, Removing), w', 3).shared;
      && t in on.tunnels && on.tunnels[t].lease == w.lease.value
      && t !in off.tunnels && off.released == g.released + [w.lease.value]
    ensures
      var on := Alone(domain, g, Auth(t, c, V1Register), w, 8).shared;
      var off := Alone(domain, on, Removal(t, Removing), w', 3).shared;
      && t in on.tunnels && on.tunnels[t].lease == w.lease.value
      && t !in off.tunnels && off.released == g.released + [w.lease.value]
  {
    V2Outcome(domain, g, t, c, labels, w);
    RemovalOutcome(domain, Alone(domain, g, Auth(t, c, V2Lease(labels)), w, |labels| + 8).shared, t, w');
    V1Outcome(domain, g, t, c, w);
    RemovalOutcome(domain, Alone(domain, g, Auth(t, c, V1Register), w, 8).shared, t, w');
  }

  // ---------------------------------------------------------------- the grace window

  /** The row is kept without its connection, and one new timer is armed and recorded for it. */
  ghost predicate Paused(g: Shared, g': Shared, t: string) {
    && t in g.tunnels && t in g'.tunnels
    && g'.tunnels[t] == Entry(g.tunnels[t].id, None, true, g.tunnels[t].lease)
    && OtherRows(g, g', t) && g'.hostMap == g.hostMap && SameLeases(g, g')
    && g'.armed == g.armed[g.nextTimer := t] && g'.timers == g.timers[t := g.nextTimer]
    && g'.nextTimer == g.nextTimer + 1
  }

  /** A suspension pauses an attached tunnel; without a token or without storing it, it clears the tunnel
      and arms nothing. Without a row it does nothing, and with a token it gets nowhere on a tunnel that is
      detached already. */
  lemma SuspendOutcome(domain: string, g: Shared, t: string, w: Outcomes)
    ensures
      var e := Alone(domain, g, Resume(t, Suspending), w, 5);
      var g' := e.shared;
      if t !in g.tunnels then g' == g && e.next.None?
      else if w.token && g.tunnels[t].conn.None? then g' == g && e.next == Some(Resume(t, Suspending))
      else
        && e.next.None?
        && if w.token && w.store then Paused(g, g', t)
           else Cleared(g, g', t) && SameTimers(g, g') && g'.nextTimer == g.nextTimer
  {
    SuspendAlone(domain, g, t, w);
  }

  /** A resumption gives the row its new connection and keeps its ID and lease; the recorded timer is
      stopped and forgotten. Without a row only the timer goes. */
  lemma ResumeOutcome(domain: string, g: Shared, t: string, c: nat, w: Outcomes)
    ensures
      var e := Alone(domain, g, Resume(t, ResumeStop(c)), w, 3);
      var g' := e.shared;
      && g'.timers == g.timers - {t}
      && g'.armed == g.armed - (if t in g.timers then {g.timers[t]} else {})
      && OtherRows(g, g', t) && g'.hostMap == g.hostMap && SameLeases(g, g')
      && (t in g'.tunnels <==> t in g.tunnels)
      && (t in g.tunnels ==> g'.tunnels[t] == Entry(g.tunnels[t].id, Some(c), false, g.tunnels[t].lease))
      && e.next == if t in g.tunnels && w.reply then Some(Serving(t)) else None
  {
    ResumeAlone(domain, g, t, c, w);
    assert t !in g.timers ==> g.timers - {t} == g.timers && g.armed - {} == g.armed;
  }

  // ---------------------------------------------------------------- the stream loop

  /** The state once the stream loop of `th` has ended, by suspending the tunnel or not, and what it then
      does has been done undisturbed. */
  function LoopEnded(domain: string, s: State, th: nat, suspends: bool, w: Outcomes): Option<State> {
    var s1 := Apply(domain, s, Advance(th, Call(suspends, "")));
    if s1.None? || th !in s1.value.threads then None
    else Some(Continue(s1.value, th, Alone(domain, s1.value.shared, s1.value.threads[th], w, 5)))
  }

  /** A stream loop that ends because the gateway stops, or with resumption disabled, clears its tunnel and
      arms no timer. One that ends because the connection is lost, with resumption enabled, pauses it, or
      clears it if there is no token or it cannot be stored. The operation is then over. */
  lemma LoopOutcome(domain: string, s: State, th: nat, t: string, suspends: bool, w: Outcomes)
    requires th in s.threads && s.threads[th] == Serving(t)
    requires t in s.shared.tunnels && s.shared.tunnels[t].conn.Some?
    ensures
      var s' := LoopEnded(domain, s, th, suspends, w);
      && s'.Some? && s'.value.threads == s.threads - {th}
      && var g, g' := s.shared, s'.value.shared;
         if suspends && w.token && w.store then Paused(g, g', t)
         else Cleared(g, g', t) && SameTimers(g, g') && g'.nextTimer == g.nextTimer
  {
    if suspends {
      SuspendAlone(domain, s.shared, t, w);
    } else {
      RemoveAlone(domain, s.shared, t, w, 5);
    }
  }
}
