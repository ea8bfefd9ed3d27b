/** Who looks after an attached tunnel. Every connection the gateway attaches to a row is meant to have
    a stream loop that will suspend or remove the tunnel when the connection is gone; a resumption
    whose reply fails leaves a row attached without one. */
module GatewayTending {
  import opened Common
  import opened Runs
  import opened Router
  import opened Gateway
  import opened GatewayAlone
  import opened GatewayProofs

  predicate IsAttached(g: Shared, t: string) { t in g.tunnels && g.tunnels[t].conn.Some? }

  /** Operations that go on to suspend or remove the tunnel, or to the loop that will. */
  predicate Tends(op: Thread, t: string) {
    && op.tunnel == t
    && match op
       case Announcing(_) => true
       case Serving(_) => true
       case Removal(_, stage) => stage.FinalizeStop? || stage.Removing?
       case Resume(_, stage) => stage.Suspending? || stage.Replying?
       case _ => false
  }

  ghost predicate Tended(s: State, t: string) {
    exists th :: th in s.threads && Tends(s.threads[th], t)
  }

  ghost predicate AllTended(s: State) {
    forall t :: IsAttached(s.shared, t) ==> Tended(s, t)
  }

  /** The step is a resumption's reply that does not reach the agent. */
  predicate ReplyFails(s: State, step: Step) {
    && step.Advance? && !step.call.ok && step.th in s.threads
    && s.threads[step.th].Resume? && s.threads[step.th].resume.Replying?
  }

  /** A run leads to `s`; without `failures`, one in which every resumption's reply succeeds. */
  ghost predicate Reaches(domain: string, failures: bool, s: State) {
    exists steps, states ::
      && IsRun(domain, steps, states)
      && states[|steps|] == s
      && forall i :: 0 <= i < |steps| ==> ReplyFails(states[i], steps[i]) ==> failures
  }

  // ------------------------------------------- replies that succeed

  /** A section whose tunnel is attached afterwards tends it next, or left it to whoever did. */
  predicate TendKept(g: Shared, op: Thread, e: Effect, t: string) {
    IsAttached(e.shared, t) ==>
      || (e.next.Some? && Tends(e.next.value, t))
      || (IsAttached(g, t) && !Tends(op, t))
  }

  lemma RemovalKeepsTended(g: Shared, u: string, stage: RemovalStage, t: string)
    ensures TendKept(g, Removal(u, stage), RemovalSection(g, u, stage), t)
  {
  }

  lemma ResumeKeepsTended(g: Shared, u: string, stage: ResumeStage, ok: bool, t: string)
    requires ResumeSection(g, u, stage, ok).Some? && (stage.Replying? ==> ok)
    ensures TendKept(g, Resume(u, stage), ResumeSection(g, u, stage, ok).value, t)
  {
  }

  lemma SectionKeepsTended(domain: string, g: Shared, op: Thread, call: Call, e: Effect, t: string)
    requires Section(domain, g, op, call) == Some(e) && (op.Resume? && op.resume.Replying? ==> call.ok)
    ensures TendKept(g, op, e, t)
  {
    match op
    case Auth(u, c, stage) => if !stage.Adding? { AuthOnlyRoutes(domain, g, u, c, stage, call); }
    case Announcing(_) =>
    case Serving(_) =>
    case Removal(u, stage) => RemovalKeepsTended(g, u, stage, t);
    case Resume(u, stage) => ResumeKeepsTended(g, u, stage, call.ok, t);
  }

  lemma AdvanceKeepsTended(domain: string, s: State, th: nat, call: Call, e: Effect)
    requires AllTended(s) && th in s.threads && Section(domain, s.shared, s.threads[th], call) == Some(e)
    requires !ReplyFails(s, Advance(th, call))
    ensures AllTended(Continue(s, th, e))
  {
    var s' := Continue(s, th, e);
    forall t | IsAttached(s'.shared, t) ensures Tended(s', t) {
      SectionKeepsTended(domain, s.shared, s.threads[th], call, e, t);
      if e.next.Some? && Tends(e.next.value, t) {
        assert th in s'.threads && Tends(s'.threads[th], t);
      } else {
        var x :| x in s.threads && Tends(s.threads[x], t);
        assert x in s'.threads && Tends(s'.threads[x], t);
      }
    }
  }

  /** A new operation leaves the others in charge. */
  lemma ArrivalKeepsTended(s: State, s': State, th: nat, op: Thread)
    requires AllTended(s) && th !in s.threads && s'.threads == s.threads[th := op]
    requires s'.shared.tunnels == s.shared.tunnels
    ensures AllTended(s')
  {
    forall t | IsAttached(s'.shared, t) ensures Tended(s', t) {
      assert IsAttached(s.shared, t);
      var x :| x in s.threads && Tends(s.threads[x], t);
      assert x in s'.threads && Tends(s'.threads[x], t);
    }
  }

  lemma StepKeepsTended(domain: string, s: State, step: Step, s': State)
    requires AllTended(s) && Apply(domain, s, step) == Some(s') && !ReplyFails(s, step)
    ensures AllTended(s')
  {
    match step
    case Start(th, op) => ArrivalKeepsTended(s, s', th, op);
    case TimerFires(timer, th) => ArrivalKeepsTended(s, s', th, Removal(s.shared.armed[timer], FinalizeStop));
    case Advance(th, call) =>
      AdvanceKeepsTended(domain, s, th, call, Section(domain, s.shared, s.threads[th], call).value);
  }

  lemma {:induction false} RunKeepsTended(domain: string, steps: seq<Step>, states: seq<State>, i: nat)
    requires IsRun(domain, steps, states) && i < |states|
    requires forall k :: 0 <= k < |steps| ==> !ReplyFails(states[k], steps[k])
    ensures AllTended(states[i])
  {
    if i > 0 {
      RunKeepsTended(domain, steps, states, i - 1);
      StepKeepsTended(domain, states[i - 1], steps[i - 1], states[i]);
    }
  }

  // ------------------------------------------- what tending is good for

  /** The gateway alone, with no new operation from an agent, can take the connection off `t` within
      `n` steps. */
  ghost predicate LetsGoWithin(domain: string, s: State, t: string, n: nat)
    decreases n
  {
    || !IsAttached(s.shared, t)
    || (n > 0 && exists step: Step :: !step.Start? && Apply(domain, s, step).Some?
                                && LetsGoWithin(domain, Apply(domain, s, step).value, t, n - 1))
  }

  lemma LetsGoAfter(domain: string, s: State, step: Step, t: string, n: nat)
    requires !step.Start? && Apply(domain, s, step).Some? && LetsGoWithin(domain, Apply(domain, s, step).value, t, n)
    ensures LetsGoWithin(domain, s, t, n + 1)
  {
  }

  lemma {:induction false} LetsGoLonger(domain: string, s: State, t: string, m: nat, n: nat)
    requires LetsGoWithin(domain, s, t, m) && m <= n
    ensures LetsGoWithin(domain, s, t, n)
    decreases m
  {
    if IsAttached(s.shared, t) {
      var step: Step :|
        && !step.Start? && Apply(domain, s, step).Some?
        && LetsGoWithin(domain, Apply(domain, s, step).value, t, m - 1);
      LetsGoLonger(domain, Apply(domain, s, step).value, t, m - 1, n - 1);
      LetsGoAfter(domain, s, step, t, n - 1);
    }
  }

  /** One section of the tending operation, whose call succeeds. */
  function Tending(domain: string, s: State, th: nat): State
    requires th in s.threads && Section(domain, s.shared, s.threads[th], Call(true, "")).Some?
  {
    Continue(s, th, Section(domain, s.shared, s.threads[th], Call(true, "")).value)
  }

  lemma TendingStep(domain: string, s: State, th: nat, t: string, n: nat)
    requires th in s.threads && Section(domain, s.shared, s.threads[th], Call(true, "")).Some?
    requires LetsGoWithin(domain, Tending(domain, s, th), t, n)
    ensures LetsGoWithin(domain, s, t, n + 1)
  {
    LetsGoAfter(domain, s, Advance(th, Call(true, "")), t, n);
  }

  lemma LastTending(domain: string, s: State, th: nat, t: string)
    requires th in s.threads && IsAttached(s.shared, t)
    requires s.threads[th] == Resume(t, Suspending) || s.threads[th] == Removal(t, Removing)
    ensures LetsGoWithin(domain, s, t, 1)
  {
    assert !IsAttached(Tending(domain, s, th).shared, t);
    TendingStep(domain, s, th, t, 0);
  }

  lemma ServingLetsGo(domain: string, s: State, th: nat, t: string)
    requires th in s.threads && IsAttached(s.shared, t)
    requires s.threads[th] == Serving(t) || s.threads[th] == Removal(t, FinalizeStop)
    ensures LetsGoWithin(domain, s, t, 2)
  {
    LastTending(domain, Tending(domain, s, th), th, t);
    TendingStep(domain, s, th, t, 1);
  }

  lemma TendingLetsGo(domain: string, s: State, th: nat, t: string)
    requires th in s.threads && Tends(s.threads[th], t) && IsAttached(s.shared, t)
    ensures LetsGoWithin(domain, s, t, 3)
  {
    var op := s.threads[th];
    if op.Announcing? || (op.Resume? && op.resume.Replying?) {
      ServingLetsGo(domain, Tending(domain, s, th), th, t);
      TendingStep(domain, s, th, t, 2);
    } else if op == Serving(t) || op == Removal(t, FinalizeStop) {
      ServingLetsGo(domain, s, th, t);
      LetsGoLonger(domain, s, t, 2, 3);
    } else {
      LastTending(domain, s, th, t);
      LetsGoLonger(domain, s, t, 1, 3);
    }
  }

  /** As long as every resumption's reply succeeds, each attached tunnel has an operation in flight that
      looks after it, and the gateway alone can suspend or remove the tunnel within three steps. */
  lemma AttachedIsTended(domain: string, s: State, t: string)
    requires Reaches(domain, false, s) && IsAttached(s.shared, t)
    ensures Tended(s, t) && LetsGoWithin(domain, s, t, 3)
  {
    var steps, states :|
      && IsRun(domain, steps, states)
      && states[|steps|] == s
      && forall i :: 0 <= i < |steps| ==> ReplyFails(states[i], steps[i]) ==> false;
    RunKeepsTended(domain, steps, states, |steps|);
    var th :| th in s.threads && Tends(s.threads[th], t);
    TendingLetsGo(domain, s, th, t);
  }

  // ------------------------------------------- undisturbed operations are runs

  lemma Go(domain: string, failures: bool, s: State, step: Step, s': State)
    requires Reaches(domain, failures, s) && (ReplyFails(s, step) ==> failures) && Apply(domain, s, step) == Some(s')
    ensures Reaches(domain, failures, s')
  {
    var steps, states :|
      && IsRun(domain, steps, states)
      && states[|steps|] == s
      && forall i :: 0 <= i < |steps| ==> ReplyFails(states[i], steps[i]) ==> failures;
    var f := (s: State, step: Step) => Apply(domain, s, step);
    ChainGrows(f, steps, states, step, s');
    var steps', states' := steps + [step], states + [s'];
    assert Chain(f, steps', states') && states'[0] == states[0];
    assert IsRun(domain, steps', states') && states'[|steps'|] == s';
  }

  lemma Begin(domain: string, failures: bool)
    ensures Reaches(domain, failures, EMPTY)
  {
    var none: seq<Step> := [];
    assert IsRun(domain, none, [EMPTY]) && [EMPTY][|none|] == EMPTY;
  }

  /** What an operation achieves undisturbed is what it achieves in the interleaving in which only it
      moves: the state is reachable, with the operation at its next section. */
  lemma {:induction false} AloneRuns(
      domain: string, failures: bool, s: State, th: nat, w: Outcomes, n: nat)
    requires Reaches(domain, failures, s) && th in s.threads && (w.reply || failures)
    ensures Reaches(domain, failures, Continue(s, th, Alone(domain, s.shared, s.threads[th], w, n)))
    decreases n
  {
    var op := s.threads[th];
    var e := Section(domain, s.shared, op, CallOf(op, w));
    if n == 0 || op.Serving? || e.None? {
      assert s.threads[th := op] == s.threads;
    } else {
      var s' := Continue(s, th, e.value);
      Go(domain, failures, s, Advance(th, CallOf(op, w)), s');
      if e.value.next.Some? {
        AloneRuns(domain, failures, s', th, w, n - 1);
        SameContinue(s, th, e.value, Alone(domain, s'.shared, s'.threads[th], w, n - 1));
      }
    }
  }

  lemma SameContinue(s: State, th: nat, e: Effect, e': Effect)
    requires th in s.threads && e.next.Some?
    ensures Continue(Continue(s, th, e), th, e') == Continue(s, th, e')
  {
    assert s.threads[th := e.next.value] - {th} == s.threads - {th};
  }

  // ------------------------------------------- a reply that fails

  const WELL := Outcomes(Some("l"), true, true, true, true)

  /** A tunnel established over connection 0, and nothing else. */
  lemma Established(domain: string, t: string) returns (s: State)
    ensures Reaches(domain, true, s) && s.threads == map[0 := Serving(t)] && s.shared.armed == map[]
    ensures t in s.shared.tunnels && s.shared.tunnels[t].conn == Some(0)
  {
    var op := Auth(t, 0, V2Lease([]));
    Begin(domain, true);
    var s1 := State(EMPTY.shared, map[0 := op]);
    assert EMPTY.threads[0 := op] == map[0 := op];
    Go(domain, true, EMPTY, Start(0, op), s1);
    AloneRuns(domain, true, s1, 0, WELL, 8);
    V2AuthAlone(domain, EMPTY.shared, t, 0, [], WELL);
    s := Continue(s1, 0, Alone(domain, s1.shared, op, WELL, 8));
  }

  /** Its connection is lost, and the tunnel is suspended. */
  lemma Lost(domain: string, t: string) returns (s: State)
    ensures Reaches(domain, true, s) && s.threads == map[] && t in s.shared.tunnels
  {
    var s0 := Established(domain, t);
    var s1 := State(s0.shared, map[0 := Resume(t, Suspending)]);
    assert s0.threads[0 := Resume(t, Suspending)] == s1.threads;
    Go(domain, true, s0, Advance(0, Call(true, "")), s1);
    AloneRuns(domain, true, s1, 0, WELL, 5);
    SuspendAlone(domain, s1.shared, t, WELL);
    s := Continue(s1, 0, Alone(domain, s1.shared, Resume(t, Suspending), WELL, 5));
  }

  /** The agent resumes over connection 1, and the reply to it fails: the row stays attached to a
      connection that its handler closes, and no operation is left to notice. */
  lemma FailedReplyStrands(domain: string, t: string) returns (s: State)
    ensures Reaches(domain, true, s) && s.threads == map[]
    ensures t in s.shared.tunnels && s.shared.tunnels[t].conn == Some(1)
  {
    var s0 := Lost(domain, t);
    var op, w := Resume(t, ResumeStop(1)), WELL.(reply := false);
    var s1 := State(s0.shared, map[0 := op]);
    assert s0.threads[0 := op] == s1.threads;
    Go(domain, true, s0, Start(0, op), s1);
    AloneRuns(domain, true, s1, 0, w, 3);
    ResumeAlone(domain, s1.shared, t, 1, w);
    s := Continue(s1, 0, Alone(domain, s1.shared, op, w, 3));
  }

  /** Every attached tunnel is looked after in every run exactly when resumption replies never fail. */
  lemma TendedIff(domain: string, failures: bool)
    ensures (forall s :: Reaches(domain, failures, s) ==> AllTended(s)) <==> !failures
  {
    if failures {
      var s := FailedReplyStrands(domain, "t");
      assert IsAttached(s.shared, "t") && !Tended(s, "t");
    } else {
      forall s, t | Reaches(domain, failures, s) && IsAttached(s.shared, t) ensures Tended(s, t) {
        AttachedIsTended(domain, s, t);
      }
    }
  }
}
