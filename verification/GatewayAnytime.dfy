/** What the gateway can do from every state it can reach: authenticate another agent and serve it, and
    remove a tunnel. */
module GatewayAnytime {
  import opened Common
  import opened Router
  import opened Gateway
  import opened GatewayAlone
  import opened GatewayOutcomes
  import GatewayProofs
  import opened GatewayTending

  /** In every reachable state an operation can begin. */
  lemma Begins(domain: string, failures: bool, s: State, op: Thread) returns (th: nat, s': State)
    requires Reaches(domain, failures, s) && Initial(op)
    ensures th !in s.threads && s' == State(s.shared, s.threads[th := op]) && Reaches(domain, failures, s')
  {
    th := GatewayProofs.Above(s.threads.Keys);
    s' := State(s.shared, s.threads[th := op]);
    Go(domain, failures, s, Start(th, op), s');
  }

  /** It runs undisturbed. */
  lemma RunsAlone(domain: string, failures: bool, s: State, op: Thread, w: Outcomes, n: nat)
    returns (th: nat, s': State)
    requires Reaches(domain, failures, s) && Initial(op) && (w.reply || failures)
    ensures th !in s.threads && Reaches(domain, failures, s')
    ensures
      var e := Alone(domain, s.shared, op, w, n);
      && s'.shared == e.shared
      && (e.next.Some? ==> th in s'.threads && s'.threads[th] == e.next.value)
  {
    var s1;
    th, s1 := Begins(domain, failures, s, op);
    AloneRuns(domain, failures, s1, th, w, n);
    s' := Continue(s1, th, Alone(domain, s1.shared, op, w, n));
  }

  /** From every reachable state a V1 authentication can end with its default hostname served on its
      connection. */
  lemma V1Anytime(domain: string, failures: bool, s: State, t: string, c: nat, w: Outcomes) returns (s': State)
    requires Reaches(domain, failures, s) && AllWell(w)
    ensures Reaches(domain, failures, s')
    ensures Serve(s'.shared, HostnameForTunnel(domain, t)) == Some(Target(c, "default"))
    ensures exists th :: th in s'.threads && s'.threads[th] == Serving(t)
  {
    var th;
    V1AuthAlone(domain, s.shared, t, c, w);
    th, s' := RunsAlone(domain, failures, s, Auth(t, c, V1Register), w, 8);
  }

  /** From every reachable state a V2 authentication can end with every label's hostname served on its
      connection. */
  lemma V2Anytime(domain: string, failures: bool, s: State, t: string, c: nat, labels: seq<string>, w: Outcomes)
    returns (s': State)
    requires Reaches(domain, failures, s) && AllWell(w)
    ensures Reaches(domain, failures, s')
    ensures forall i :: 0 <= i < |labels| ==>
              Serve(s'.shared, HostnameForLabel(domain, t, labels[i])) == Some(Target(c, labels[i]))
    ensures exists th :: th in s'.threads && s'.threads[th] == Serving(t)
  {
    var th;
    V2AuthAlone(domain, s.shared, t, c, labels, w);
    th, s' := RunsAlone(domain, failures, s, Auth(t, c, V2Lease(labels)), w, |labels| + 8);
    forall i | 0 <= i < |labels|
      ensures Serve(s'.shared, HostnameForLabel(domain, t, labels[i])) == Some(Target(c, labels[i]))
    {
      AuthThenServe(domain, s.shared, t, c, labels, w, i);
    }
  }

  /** From every reachable state a resumption can end with every hostname of its tunnel served on its
      connection. */
  lemma ResumeAnytime(domain: string, failures: bool, s: State, t: string, c: nat, w: Outcomes) returns (s': State)
    requires Reaches(domain, failures, s) && t in s.shared.tunnels && w.reply
    ensures Reaches(domain, failures, s')
    ensures forall h :: h in s.shared.hostMap && s.shared.hostMap[h].tunnel == t ==>
              Serve(s'.shared, h) == Some(Target(c, s.shared.hostMap[h].name))
    ensures exists th :: th in s'.threads && s'.threads[th] == Serving(t)
  {
    var th;
    ResumeOutcome(domain, s.shared, t, c, w);
    th, s' := RunsAlone(domain, failures, s, Resume(t, ResumeStop(c)), w, 3);
  }

  /** No operation waits for another: its next section can run in every state and with every outcome of its
      call, but for the suspension of a tunnel that has no connection to close; and an armed timer can fire
      at any time. */
  lemma OperationsAdvance(domain: string, s: State, th: nat, call: Call, x: nat)
    ensures th in s.threads ==>
              var op, rows := s.threads[th], s.shared.tunnels;
              Apply(domain, s, Advance(th, call)).None? <==>
                call.ok && op == Resume(op.tunnel, Suspending) && op.tunnel in rows && rows[op.tunnel].conn.None?
    ensures x in s.shared.armed && th !in s.threads ==> Apply(domain, s, TimerFires(x, th)).Some?
  {
  }

  /** From every reachable state a removal can leave neither the tunnel's row nor, if it had one, a
      hostname of it. */
  lemma RemovalAnytime(domain: string, failures: bool, s: State, t: string) returns (s': State)
    requires Reaches(domain, failures, s)
    ensures Reaches(domain, failures, s') && t !in s'.shared.tunnels
    ensures t in s.shared.tunnels ==> forall h :: h in s'.shared.hostMap ==> s'.shared.hostMap[h].tunnel != t
  {
    var th;
    RemoveAlone(domain, s.shared, t, WELL, 3);
    th, s' := RunsAlone(domain, failures, s, Removal(t, Removing), WELL, 3);
  }
}
