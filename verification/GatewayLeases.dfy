/** Where the leases go: every lease that an authentication is granted is with an operation, on a row of
    the table, or has been tried for release, in every interleaving. */
module GatewayLeases {
  import opened Common
  import opened Runs
  import opened Router
  import opened Gateway
  import opened GatewayProofs

  // ---------------------------------------------------------------- counting

  /** The keys that lead to a value with `p`. */
  ghost function KeysOf<K, V>(m: map<K, V>, p: V -> bool): set<K> { set k | k in m && p(m[k]) }

  ghost function Count<K, V>(m: map<K, V>, p: V -> bool): nat { |KeysOf(m, p)| }

  function One(b: bool): nat { if b then 1 else 0 }

  lemma CountPut<K, V>(m: map<K, V>, k: K, v: V, p: V -> bool)
    ensures Count(m[k := v], p) + One(k in m && p(m[k])) == Count(m, p) + One(p(v))
  {
    CountDrop(m, k, p);
    var m', rest := m[k := v], KeysOf(m - {k}, p);
    assert KeysOf(m', p) == if p(v) then rest + {k} else rest;
  }

  lemma CountDrop<K, V>(m: map<K, V>, k: K, p: V -> bool)
    ensures Count(m - {k}, p) + One(k in m && p(m[k])) == Count(m, p)
  {
    var rest := KeysOf(m, p) - {k};
    assert KeysOf(m, p) == if k in m && p(m[k]) then rest + {k} else rest;
    var m' := m - {k};
    assert KeysOf(m', p) == rest;
  }

  // ---------------------------------------------------------------- who has a lease

  /** The lease an operation has to pass on: to a row, or to a release. */
  predicate Carries(op: Thread, l: string) {
    match op
    case Auth(_, _, V1Reply(lease)) => lease == l
    case Auth(_, _, V1Undo(granted)) => granted == Some(l)
    case Auth(_, _, V2Register(lease, _)) => lease == l
    case Auth(_, _, V2Reply(lease)) => lease == l
    case Auth(_, _, V2Undo(lease)) => lease == l
    case Auth(_, _, GivingBack(lease)) => lease == l
    case Auth(_, _, Adding(lease)) => lease == l
    case Removal(_, Deregistering(e)) => e.lease == l
    case Removal(_, ReleasingLease(e)) => e.lease == l
    case _ => false
  }

  ghost function Rows(g: Shared, l: string): nat { Count(g.tunnels, (e: Entry) => e.lease == l) }

  function TimesTried(g: Shared, l: string): nat { multiset(g.released)[l] }

  ghost function Carriers(s: State, l: string): nat { Count(s.threads, op => Carries(op, l)) }

  /** An authentication's lease call that grants `l` for tunnel `t`. */
  predicate GrantsFor(s: State, step: Step, t: string, l: string) {
    && step.Advance? && step.call == Call(true, l) && step.th in s.threads
    && var op := s.threads[step.th];
       op.Auth? && op.tunnel == t && (op.auth.V1Lease? || op.auth.V2Lease?)
  }

  predicate Grants(s: State, step: Step, l: string) {
    step.Advance? && step.th in s.threads && GrantsFor(s, step, s.threads[step.th].tunnel, l)
  }

  /** A row with lease `l` is replaced by that of another authentication of the same tunnel ID. */
  predicate Overwrites(s: State, step: Step, l: string) {
    && step.Advance? && step.th in s.threads && s.threads[step.th].Auth? && s.threads[step.th].auth.Adding?
    && var t := s.threads[step.th].tunnel; t in s.shared.tunnels && s.shared.tunnels[t].lease == l
  }

  // ---------------------------------------------------------------- one section

  ghost predicate Balanced(g: Shared, op: Thread, call: Call, e: Effect, l: string) {
    var asks, adds := op.Auth? && (op.auth.V1Lease? || op.auth.V2Lease?), op.Auth? && op.auth.Adding?;
    One(Carries(op, l)) + Rows(g, l) + TimesTried(g, l) + One(asks && call == Call(true, l))
    == One(e.next.Some? && Carries(e.next.value, l)) + Rows(e.shared, l) + TimesTried(e.shared, l)
       + One(adds && op.tunnel in g.tunnels && g.tunnels[op.tunnel].lease == l)
  }

  lemma OneMoreTried(ls: seq<string>, x: string, l: string)
    ensures multiset(ls + [x])[l] == multiset(ls)[l] + One(x == l)
  {
  }

  lemma AddingBalances(domain: string, g: Shared, t: string, c: nat, lease: string, call: Call, l: string)
    ensures Balanced(g, Auth(t, c, Adding(lease)), call, AuthSection(domain, g, t, c, Adding(lease), call), l)
  {
    CountPut(g.tunnels, t, Entry(g.nextEntry, Some(c), false, lease), (e: Entry) => e.lease == l);
  }

  lemma GivingBalances(domain: string, g: Shared, t: string, c: nat, lease: string, call: Call, l: string)
    ensures Balanced(g, Auth(t, c, GivingBack(lease)), call, AuthSection(domain, g, t, c, GivingBack(lease), call), l)
  {
    OneMoreTried(g.released, lease, l);
  }

  /** The other sections of an authentication change the routes, and pass the lease on. */
  lemma RoutingBalances(domain: string, g: Shared, t: string, c: nat, stage: AuthStage, call: Call, l: string)
    requires !stage.Adding? && !stage.GivingBack?
    ensures
      var e := AuthSection(domain, g, t, c, stage, call);
      && e.shared.tunnels == g.tunnels && e.shared.released == g.released
      && One(e.next.Some? && Carries(e.next.value, l))
         == One(Carries(Auth(t, c, stage), l)) + One((stage.V1Lease? || stage.V2Lease?) && call == Call(true, l))
  {
  }

  lemma AuthBalances(domain: string, g: Shared, t: string, c: nat, stage: AuthStage, call: Call, l: string)
    ensures Balanced(g, Auth(t, c, stage), call, AuthSection(domain, g, t, c, stage, call), l)
  {
    match stage
    case Adding(lease) => AddingBalances(domain, g, t, c, lease, call, l);
    case GivingBack(lease) => GivingBalances(domain, g, t, c, lease, call, l);
    case _ => RoutingBalances(domain, g, t, c, stage, call, l);
  }

  lemma RemovalBalances(g: Shared, t: string, stage: RemovalStage, call: Call, l: string)
    requires l != ""
    ensures Balanced(g, Removal(t, stage), call, RemovalSection(g, t, stage), l)
  {
    match stage
    case Removing => CountDrop(g.tunnels, t, (e: Entry) => e.lease == l);
    case ReleasingLease(e) => OneMoreTried(g.released, e.lease, l);
    case _ =>
  }

  lemma ResumeBalances(g: Shared, t: string, stage: ResumeStage, call: Call, l: string)
    requires ResumeSection(g, t, stage, call.ok).Some?
    ensures Balanced(g, Resume(t, stage), call, ResumeSection(g, t, stage, call.ok).value, l)
  {
    if (stage.Suspending? || stage.Reattaching?) && t in g.tunnels {
      var e' := ResumeSection(g, t, stage, call.ok).value.shared.tunnels[t];
      CountPut(g.tunnels, t, e', (e: Entry) => e.lease == l);
    }
  }

  lemma SectionBalances(domain: string, g: Shared, op: Thread, call: Call, e: Effect, l: string)
    requires Section(domain, g, op, call) == Some(e) && l != ""
    ensures Balanced(g, op, call, e, l)
  {
    match op
    case Auth(t, c, stage) => AuthBalances(domain, g, t, c, stage, call, l);
    case Announcing(_) =>
    case Serving(_) =>
    case Removal(t, stage) => RemovalBalances(g, t, stage, call, l);
    case Resume(t, stage) => ResumeBalances(g, t, stage, call, l);
  }

  // ---------------------------------------------------------------- whole runs

  /** In how many places a lease is. */
  ghost function Places(s: State, l: string): nat { Carriers(s, l) + Rows(s.shared, l) + TimesTried(s.shared, l) }

  lemma AdvanceBalances(domain: string, s: State, th: nat, call: Call, l: string)
    requires th in s.threads && Section(domain, s.shared, s.threads[th], call).Some? && l != ""
    ensures
      var step := Advance(th, call);
      var s' := Continue(s, th, Section(domain, s.shared, s.threads[th], call).value);
      Places(s', l) + One(Overwrites(s, step, l)) == Places(s, l) + One(Grants(s, step, l))
  {
    var op, e := s.threads[th], Section(domain, s.shared, s.threads[th], call).value;
    SectionBalances(domain, s.shared, op, call, e, l);
    if e.next.Some? {
      CountPut(s.threads, th, e.next.value, x => Carries(x, l));
    } else {
      CountDrop(s.threads, th, x => Carries(x, l));
    }
  }

  lemma StepBalances(domain: string, s: State, step: Step, s': State, l: string)
    requires Apply(domain, s, step) == Some(s') && l != ""
    ensures Places(s', l) + One(Overwrites(s, step, l)) == Places(s, l) + One(Grants(s, step, l))
  {
    match step
    case Start(th, op) => CountPut(s.threads, th, op, x => Carries(x, l));
    case Advance(th, call) => AdvanceBalances(domain, s, th, call, l);
    case TimerFires(x, th) =>
      CountPut(s.threads, th, Removal(s.shared.armed[x], FinalizeStop), y => Carries(y, l));
  }

  /** How often lease calls granted `l` in the first `i` steps. */
  function TimesGranted(steps: seq<Step>, states: seq<State>, i: nat, l: string): int
    requires i <= |steps| <= |states|
  {
    Tally((s: State, step: Step) => One(Grants(s, step, l)), steps, states, i)
  }

  function TimesOverwritten(steps: seq<Step>, states: seq<State>, i: nat, l: string): int
    requires i <= |steps| <= |states|
  {
    Tally((s: State, step: Step) => One(Overwrites(s, step, l)), steps, states, i)
  }

  /** Leases are conserved: however the operations interleave, a lease is with an operation, on a row or
      tried for release exactly as often as it was granted, less the rows replaced by another
      authentication of the same tunnel ID. */
  lemma LeasesConserved(domain: string, steps: seq<Step>, states: seq<State>, i: nat, l: string)
    requires IsRun(domain, steps, states) && i < |states| && l != ""
    ensures Carriers(states[i], l) + Rows(states[i].shared, l) + TimesTried(states[i].shared, l)
            == TimesGranted(steps, states, i, l) - TimesOverwritten(steps, states, i, l)
  {
    var f, p := (s: State, step: Step) => Apply(domain, s, step), (s: State) => true;
    var figure := (s: State) => Places(s, l) as int;
    var granted, over := (s: State, step: Step) => One(Grants(s, step, l)) as int,
                         (s: State, step: Step) => One(Overwrites(s, step, l)) as int;
    var net := (s: State, step: Step) => granted(s, step) - over(s, step);
    forall s, step | p(s) && f(s, step).Some? ensures figure(f(s, step).value) == figure(s) + net(s, step) {
      StepBalances(domain, s, step, f(s, step).value, l);
    }
    FigureIsTally(f, p, figure, net, steps, states, i);
    TallyMinus(net, granted, over, steps, states, i);
  }

  lemma NoneCounted<K, V>(m: map<K, V>, p: V -> bool)
    requires forall k :: k in m ==> !p(m[k])
    ensures Count(m, p) == 0
  {
    assert KeysOf(m, p) == {};
  }

  /** Once only stream loops are in flight, every grant of a lease is on a row or was tried for release,
      as long as no tunnel ID is authenticated twice. */
  lemma QuietLeases(domain: string, steps: seq<Step>, states: seq<State>, i: nat, l: string)
    requires IsRun(domain, steps, states) && i < |states| && l != ""
    requires forall th :: th in states[i].threads ==> states[i].threads[th].Serving?
    requires TimesOverwritten(steps, states, i, l) == 0
    ensures Rows(states[i].shared, l) + TimesTried(states[i].shared, l) == TimesGranted(steps, states, i, l)
  {
    LeasesConserved(domain, steps, states, i, l);
    NoneCounted(states[i].threads, op => Carries(op, l));
  }

  // ---------------------------------------------------------------- whose lease it is

  /** The lease an authentication was granted and has not yet put on a row. */
  predicate Brings(op: Thread, t: string, l: string) { op.Auth? && op.tunnel == t && Carries(op, l) }

  /** Whatever an authentication brings and whatever a row has satisfies `known`. */
  ghost predicate AllKnown(s: State, known: (string, string) -> bool) {
    && (forall th, t, l :: th in s.threads && Brings(s.threads[th], t, l) ==> known(t, l))
    && (forall t :: t in s.shared.tunnels ==> known(t, s.shared.tunnels[t].lease))
  }

  lemma BroughtBy(domain: string, g: Shared, op: Thread, call: Call, e: Effect, t: string, l: string)
    requires Section(domain, g, op, call) == Some(e) && e.next.Some? && Brings(e.next.value, t, l)
    ensures
      || Brings(op, t, l)
      || (op.Auth? && op.tunnel == t && (op.auth.V1Lease? || op.auth.V2Lease?) && call == Call(true, l))
  {
  }

  lemma ResumeKeepsLease(g: Shared, u: string, stage: ResumeStage, ok: bool, t: string)
    requires ResumeSection(g, u, stage, ok).Some? && t in ResumeSection(g, u, stage, ok).value.shared.tunnels
    ensures t in g.tunnels && ResumeSection(g, u, stage, ok).value.shared.tunnels[t].lease == g.tunnels[t].lease
  {
  }

  lemma RemovalKeepsLease(g: Shared, u: string, stage: RemovalStage, t: string)
    requires t in RemovalSection(g, u, stage).shared.tunnels
    ensures t in g.tunnels && RemovalSection(g, u, stage).shared.tunnels[t] == g.tunnels[t]
  {
  }

  lemma PutBy(domain: string, g: Shared, op: Thread, call: Call, e: Effect, t: string)
    requires Section(domain, g, op, call) == Some(e) && t in e.shared.tunnels
    ensures
      var l := e.shared.tunnels[t].lease;
      Brings(op, t, l) || (t in g.tunnels && g.tunnels[t].lease == l)
  {
    match op
    case Auth(u, c, stage) => if !stage.Adding? { AuthOnlyRoutes(domain, g, u, c, stage, call); }
    case Announcing(_) =>
    case Serving(_) =>
    case Removal(u, stage) => RemovalKeepsLease(g, u, stage, t);
    case Resume(u, stage) => ResumeKeepsLease(g, u, stage, call.ok, t);
  }

  lemma StepIsKnown(domain: string, s: State, step: Step, s': State, known: (string, string) -> bool)
    requires AllKnown(s, known) && Apply(domain, s, step) == Some(s')
    requires forall t, l :: GrantsFor(s, step, t, l) ==> known(t, l)
    ensures AllKnown(s', known)
  {
    if step.Advance? {
      var op, e := s.threads[step.th], Section(domain, s.shared, s.threads[step.th], step.call).value;
      forall th, t, l | th in s'.threads && Brings(s'.threads[th], t, l) ensures known(t, l) {
        if th == step.th { BroughtBy(domain, s.shared, op, step.call, e, t, l); }
      }
      forall t | t in s'.shared.tunnels ensures known(t, s'.shared.tunnels[t].lease) {
        PutBy(domain, s.shared, op, step.call, e, t);
      }
    }
  }

  /** Some lease call among the first `i` steps granted `l` for tunnel `t`. */
  ghost predicate WasGranted(steps: seq<Step>, states: seq<State>, i: nat, t: string, l: string)
    requires i <= |steps| <= |states|
  {
    exists k :: 0 <= k < i && GrantsFor(states[k], steps[k], t, l)
  }

  lemma KnownStays(s: State, known: (string, string) -> bool, known': (string, string) -> bool)
    requires AllKnown(s, known) && forall t, l :: known(t, l) ==> known'(t, l)
    ensures AllKnown(s, known')
  {
  }

  lemma {:induction false} RunIsKnown(domain: string, steps: seq<Step>, states: seq<State>, i: nat)
    requires IsRun(domain, steps, states) && i < |states|
    ensures AllKnown(states[i], (t, l) => WasGranted(steps, states, i, t, l))
  {
    if i > 0 {
      RunIsKnown(domain, steps, states, i - 1);
      var known := (t, l) => WasGranted(steps, states, i, t, l);
      KnownStays(states[i - 1], (t, l) => WasGranted(steps, states, i - 1, t, l), known);
      StepIsKnown(domain, states[i - 1], steps[i - 1], states[i], known);
    }
  }

  /** In every interleaving the lease of a row is one that a lease call granted for that very tunnel. */
  lemma RowLeaseWasGranted(domain: string, steps: seq<Step>, states: seq<State>, i: nat, t: string)
    requires IsRun(domain, steps, states) && i < |states| && t in states[i].shared.tunnels
    ensures exists k :: 0 <= k < i && GrantsFor(states[k], steps[k], t, states[i].shared.tunnels[t].lease)
  {
    RunIsKnown(domain, steps, states, i);
    assert WasGranted(steps, states, i, t, states[i].shared.tunnels[t].lease);
  }
}
