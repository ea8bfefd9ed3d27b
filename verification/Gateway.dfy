/** The gateway's tunnel lifecycle. Authentication, suspension, resumption, removal and timer
    finalization each run as several separately locked sections; every section is one step, and
    operations interleave freely between their sections. */
module Gateway {
  import opened Common
  import opened Router

  /** A row of the tunnel table. `id` tells rows apart, also when a tunnel is added again. */
  datatype Entry = Entry(id: nat, conn: Option<nat>, suspended: bool, lease: string)

  /** What the locks protect. `timers` is pendingResumeTimers; `armed` the timers that have
      neither fired nor been stopped, with the tunnel each finalizes; `taken` the rows a removal or
      finalization took out of the table, with their leases; `attempts` the rows whose lease it
      then tried to release; `released` the lease IDs that anything tried to release. */
  datatype Shared = Shared(
    tunnels: map<string, Entry>, hostMap: HostMap, timers: map<string, nat>, armed: map<nat, string>,
    taken: map<nat, string>, attempts: seq<nat>, released: seq<string>,
    nextEntry: nat, nextTimer: nat)

  /** Sections of a V1 or V2 authentication. */
  datatype AuthStage =
    | V1Register
    | V1Lease
    | V1Reply(lease: string)
    | V1Undo(granted: Option<string>)
    | V2Lease(labels: seq<string>)
    | V2Register(lease: string, labels: seq<string>)
    | V2Reply(lease: string)
    | V2Undo(lease: string)
    | GivingBack(lease: string)
    | Adding(lease: string)

  /** Sections of a removal or a finalization, before and after the row has been taken. */
  datatype RemovalStage =
    | FinalizeStop
    | Removing
    | Deregistering(entry: Entry)
    | ReleasingLease(entry: Entry)

  /** Sections of a suspension or a resumption. */
  datatype ResumeStage =
    | Suspending
    | StoringToken
    | ArmingTimer
    | KeepingTimer(timer: nat)
    | ResumeStop(conn: nat)
    | Reattaching(conn: nat)
    | Replying(conn: nat)

  /** An operation in flight on a tunnel, by the section it will run next. `Serving` is the stream
      loop of an established connection, which ends by suspending or removing the tunnel. */
  datatype Thread =
    | Auth(tunnel: string, conn: nat, auth: AuthStage)
    | Announcing(tunnel: string)
    | Serving(tunnel: string)
    | Removal(tunnel: string, removal: RemovalStage)
    | Resume(tunnel: string, resume: ResumeStage)

  datatype State = State(shared: Shared, threads: map<nat, Thread>)

  /** A section's effect: the shared state after it and the operation's next section, if any. */
  datatype Effect = Effect(shared: Shared, next: Option<Thread>)

  /** `ok` is the outcome of the call a section makes, if any: the lease request (granting
      `lease`), the response write, the registration, the token, the token store; for the stream
      loop, whether it ends by suspending. */
  datatype Call = Call(ok: bool, lease: string)

  // ---------------------------------------------------------------- sections

  function AuthSection(domain: string, g: Shared, t: string, c: nat, stage: AuthStage, call: Call): Effect {
    match stage
    case V1Register =>
      Effect(g.(hostMap := g.hostMap[HostnameForTunnel(domain, t) := RouteKey(t, "default")]),
             Some(Auth(t, c, V1Lease)))
    case V1Lease => Effect(g, Some(Auth(t, c, if call.ok then V1Reply(call.lease) else V1Undo(None))))
    case V1Reply(l) => Effect(g, Some(Auth(t, c, if call.ok then Adding(l) else V1Undo(Some(l)))))
    case V1Undo(granted) =>
      Effect(g.(hostMap := g.hostMap - {HostnameForTunnel(domain, t)}),
             if granted.Some? then Some(Auth(t, c, GivingBack(granted.value))) else None)
    case V2Lease(labels) => Effect(g, if call.ok then Some(Auth(t, c, V2Register(call.lease, labels))) else None)
    case V2Register(l, labels) =>
      if labels == [] then Effect(g, Some(Auth(t, c, V2Reply(l))))
      else Effect(g.(hostMap := g.hostMap[HostnameForLabel(domain, t, labels[0]) := RouteKey(t, labels[0])]),
                  Some(Auth(t, c, V2Register(l, labels[1..]))))
    case V2Reply(l) => Effect(g, Some(Auth(t, c, if call.ok then Adding(l) else V2Undo(l))))
    case V2Undo(l) => Effect(g.(hostMap := WithoutTunnel(g.hostMap, t)), Some(Auth(t, c, GivingBack(l))))
    case GivingBack(l) => Effect(g.(released := g.released + [l]), None)
    case Adding(l) =>
      Effect(g.(tunnels := g.tunnels[t := Entry(g.nextEntry, Some(c), false, l)], nextEntry := g.nextEntry + 1),
             Some(Announcing(t)))
  }

  function StopTimer(g: Shared, t: string): Shared {
    if t in g.timers then g.(armed := g.armed - {g.timers[t]}, timers := g.timers - {t}) else g
  }

  function RemovalSection(g: Shared, t: string, stage: RemovalStage): Effect {
    match stage
    case FinalizeStop => Effect(StopTimer(g, t), Some(Removal(t, Removing)))
    case Removing =>
      if t in g.tunnels then
        var e := g.tunnels[t];
        Effect(g.(tunnels := g.tunnels - {t}, taken := g.taken[e.id := e.lease]),
               Some(Removal(t, Deregistering(e))))
      else Effect(g, None)
    case Deregistering(e) =>
      Effect(g.(hostMap := WithoutTunnel(g.hostMap, t)), Some(Removal(t, ReleasingLease(e))))
    case ReleasingLease(e) =>
      Effect(if e.lease != "" then g.(attempts := g.attempts + [e.id], released := g.released + [e.lease]) else g, None)
  }

  /** Suspending closes the connection it finds attached; it has no section to run without one. */
  function ResumeSection(g: Shared, t: string, stage: ResumeStage, ok: bool): Option<Effect> {
    match stage
    case Suspending =>
      if t !in g.tunnels then Some(Effect(g, None))
      else if !ok then Some(Effect(g, Some(Removal(t, Removing))))
      else if g.tunnels[t].conn.None? then None
      else
        var e := g.tunnels[t].(conn := None, suspended := true);
        Some(Effect(g.(tunnels := g.tunnels[t := e]), Some(Resume(t, StoringToken))))
    case StoringToken => Some(Effect(g, Some(if ok then Resume(t, ArmingTimer) else Removal(t, Removing))))
    case ArmingTimer =>
      Some(Effect(g.(armed := g.armed[g.nextTimer := t], nextTimer := g.nextTimer + 1),
                  Some(Resume(t, KeepingTimer(g.nextTimer)))))
    case KeepingTimer(timer) => Some(Effect(g.(timers := g.timers[t := timer]), None))
    case ResumeStop(c) => Some(Effect(StopTimer(g, t), Some(Resume(t, Reattaching(c)))))
    case Reattaching(c) =>
      if t !in g.tunnels then Some(Effect(g, None))
      else
        var e := g.tunnels[t].(conn := Some(c), suspended := false);
        Some(Effect(g.(tunnels := g.tunnels[t := e]), Some(Resume(t, Replying(c)))))
    case Replying(_) => Some(Effect(g, if ok then Some(Serving(t)) else None))
  }

  function Section(domain: string, g: Shared, op: Thread, call: Call): Option<Effect> {
    match op
    case Auth(t, c, stage) => Some(AuthSection(domain, g, t, c, stage, call))
    case Announcing(t) => Some(Effect(g, Some(if call.ok then Serving(t) else Removal(t, Removing))))
    case Serving(t) => Some(Effect(g, Some(if call.ok then Resume(t, Suspending) else Removal(t, Removing))))
    case Removal(t, stage) => Some(RemovalSection(g, t, stage))
    case Resume(t, stage) => ResumeSection(g, t, stage, call.ok)
  }

  /** Where a public request for a hostname goes: the connection and the label. */
  datatype Target = Target(conn: nat, name: string)

  /** A request is served by the tunnel its hostname is routed to, if that tunnel is in the table
      and neither suspended nor detached. */
  function Serve(g: Shared, host: string): Option<Target> {
    if host !in g.hostMap || g.hostMap[host].tunnel !in g.tunnels then None
    else
      var e := g.tunnels[g.hostMap[host].tunnel];
      if e.suspended || e.conn.None? then None else Some(Target(e.conn.value, g.hostMap[host].name))
  }

  // ---------------------------------------------------------------- steps

  datatype Step =
    | Start(th: nat, op: Thread)
    | Advance(th: nat, call: Call)
    | TimerFires(timer: nat, th: nat)

  /** Where an operation can begin. A finalization begins when a timer fires, a suspension when a
      stream loop ends. */
  predicate Initial(op: Thread) {
    || (op.Auth? && (op.auth.V1Register? || op.auth.V2Lease?))
    || (op.Removal? && op.removal.Removing?)
    || (op.Resume? && op.resume.ResumeStop?)
  }

  function Continue(s: State, th: nat, e: Effect): State {
    State(e.shared, if e.next.Some? then s.threads[th := e.next.value] else s.threads - {th})
  }

  function Apply(domain: string, s: State, step: Step): Option<State> {
    match step
    case Start(th, op) =>
      if th !in s.threads && Initial(op) then Some(State(s.shared, s.threads[th := op])) else None
    case Advance(th, call) =>
      if th !in s.threads then None
      else
        var e := Section(domain, s.shared, s.threads[th], call);
        if e.None? then None else Some(Continue(s, th, e.value))
    case TimerFires(timer, th) =>
      if timer in s.shared.armed && th !in s.threads then
        Some(State(s.shared.(armed := s.shared.armed - {timer}),
                   s.threads[th := Removal(s.shared.armed[timer], FinalizeStop)]))
      else None
  }

  const EMPTY := State(Shared(map[], map[], map[], map[], map[], [], [], 0, 0), map[])

  /** `states` is what the interleaving `steps` passes through, from an empty gateway. */
  ghost predicate IsRun(domain: string, steps: seq<Step>, states: seq<State>) {
    && |states| == |steps| + 1
    && states[0] == EMPTY
    && (forall i :: 0 <= i < |steps| ==> Apply(domain, states[i], steps[i]) == Some(states[i + 1]))
  }
}
