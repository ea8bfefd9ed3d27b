/** What a run of the watch does to the coordinator, read off its actions alone: which operations are
    performed, in which order, and what each of them publishes. */
module WatchHistory {
  import opened Common
  import opened Runs
  import opened Coordinator
  import opened LeaseProofs
  import opened Watch

  /** The listed sessions that are still to be visited after `done`. */
  function ToVisit(done: seq<Action>): seq<string> {
    if done == [] then []
    else
      var n := |done| - 1;
      var left := ToVisit(done[..n]);
      match done[n]
      case List(ok, sessions) => if ok then sessions else []
      case Visit(_) => if left == [] then [] else left[1..]
      case _ => left
  }

  /** The lease operations that an action performs after `done`: its own, or the lookup of the visited
      session, unless the request names another tunnel. */
  function Performs(q: Request, done: seq<Action>, a: Action): seq<Op> {
    match a
    case Operate(op) => [op]
    case Visit(now) =>
      var left := ToVisit(done);
      if left != [] && (q.tunnelFilter == "" || q.tunnelFilter == left[0]) then [Current(left[0], now)] else []
    case _ => []
  }

  function Performed(q: Request, done: seq<Action>): seq<Op> {
    if done == [] then []
    else
      var n := |done| - 1;
      Performed(q, done[..n]) + Performs(q, done[..n], done[n])
  }

  /** A watch that is visiting has those sessions left, and the log has grown by what was performed. */
  ghost predicate Follows(q: Request, start: seq<Op>, s: State, done: seq<Action>) {
    s.log == start + Performed(q, done) && (s.phase.Visiting? ==> s.phase.sessions == ToVisit(done))
  }

  lemma OneMore(q: Request, done: seq<Action>, a: Action)
    ensures Performed(q, done + [a]) == Performed(q, done) + Performs(q, done, a)
    ensures
      var left, left' := ToVisit(done), ToVisit(done + [a]);
      match a
      case List(ok, sessions) => left' == if ok then sessions else []
      case Visit(_) => left' == if left == [] then [] else left[1..]
      case _ => left' == left
  {
    assert (done + [a])[..|done|] == done;
  }

  lemma StepPerforms(q: Request, s: State, done: seq<Action>, a: Action, s': State)
    requires Apply(q, s, a) == Some(s') && (s.phase.Visiting? ==> s.phase.sessions == ToVisit(done))
    ensures s'.log == s.log + Performs(q, done, a)
    ensures s'.phase.Visiting? ==> s'.phase.sessions == ToVisit(done + [a])
  {
    OneMore(q, done, a);
    assert s.log + [] == s.log;
  }

  lemma StepFollows(q: Request, start: seq<Op>, s: State, done: seq<Action>, a: Action, s': State)
    requires Follows(q, start, s, done) && Apply(q, s, a) == Some(s')
    ensures Follows(q, start, s', done + [a])
  {
    StepPerforms(q, s, done, a, s');
    OneMore(q, done, a);
    assert start + Performed(q, done) + Performs(q, done, a) == start + (Performed(q, done) + Performs(q, done, a));
  }

  lemma RunFollows(q: Request, actions: seq<Action>, states: seq<State>, i: nat)
    requires IsRun(q, actions, states) && i < |states|
    ensures Follows(q, states[0].log, states[i], actions[..i])
  {
    var f, start := (s: State, a: Action) => Apply(q, s, a), states[0].log;
    var p := (s: State, done: seq<Action>) => Follows(q, start, s, done);
    forall s, done, a | p(s, done) && f(s, a).Some? ensures p(f(s, a).value, done + [a]) {
      StepFollows(q, start, s, done, a, f(s, a).value);
    }
    assert start + [] == start;
    Along(f, p, actions, states, i);
  }

  /** In every run the operations are those of the coordinator's past and then exactly those that the
      actions perform, in order: nothing is left out and nothing added. */
  lemma LogIsPerformed(q: Request, actions: seq<Action>, states: seq<State>, i: nat)
    requires IsRun(q, actions, states) && i < |states|
    ensures states[i].log == states[0].log + Performed(q, actions[..i])
  {
    RunFollows(q, actions, states, i);
  }

  // ---------------------------------------------------------------- what is published

  function One(b: bool): nat { if b then 1 else 0 }

  /** The action performs an operation that granted this lease or took it out of the table. */
  ghost predicate Announces(q: Request, actions: seq<Action>, states: seq<State>, i: nat, e: Event)
    requires i < |actions| <= |states|
  {
    var log, ops := states[i].log, Performs(q, actions[..i], actions[i]);
    ops != [] && e.op == |log| && Tells(ops[0], TableAfter(log), TableAfter(log + [ops[0]]), e)
  }

  lemma PendingStep(q: Request, s: State, done: seq<Action>, a: Action, s': State, e: Event)
    requires Apply(q, s, a) == Some(s') && (s.phase.Visiting? ==> s.phase.sessions == ToVisit(done))
    ensures
      var ops := Performs(q, done, a);
      s'.pending[e] + One(a == Publish(e))
      == s.pending[e] + if ops == [] then 0 else EventsOf(|s.log|, ops[0], Step(TableAfter(s.log), ops[0]).1)[e]
  {
  }

  lemma LastTells(log: seq<Op>, op: Op, e: Event)
    requires FreshIDs(log + [op])
    ensures EventsOf(|log|, op, Step(TableAfter(log), op).1)[e]
            == One(e.op == |log| && Tells(op, TableAfter(log), TableAfter(log + [op]), e))
  {
    var all, n := log + [op], |log|;
    assert all[..n] == log && all[..n + 1] == all;
    EventsTell(all, n, e);
    EventsOnce(n, op, Step(TableAfter(log), op).1, e);
  }

  lemma AnnouncedAtLog(log: seq<Op>, rest: seq<Op>, op: Op, e: Event)
    requires FreshIDs(log + [op]) && e.op == |log| && Tells(op, TableAfter(log), TableAfter(log + [op]), e)
    ensures e in OpEvents(log + [op] + rest, |log|)
  {
    LastTells(log, op, e);
    var all := log + [op] + rest;
    assert all[..|log|] == log && all[|log|] == op;
  }

  /** An operation that an action performs stays in the log where it was put. */
  lemma PerformedStays(q: Request, actions: seq<Action>, states: seq<State>, k: nat, i: nat)
    requires IsRun(q, actions, states) && k < i < |states| && Performs(q, actions[..k], actions[k]) != []
    ensures states[k].log + Performs(q, actions[..k], actions[k])[..1] <= states[i].log
  {
    RunFollows(q, actions, states, k);
    StepPerforms(q, states[k], actions[..k], actions[k], states[k + 1]);
    LogGrows(q, actions, states, k + 1, i);
  }

  /** Whatever an action announces after the subscription is from then on exactly once still to be
      published, in the channel, taken from it or refused, and is sent as often as it is taken if the request
      asks for its lease. */
  lemma AnnouncedIsTracked(
      q: Request, actions: seq<Action>, states: seq<State>, j: nat, k: nat, i: nat, e: Event)
    requires IsRun(q, actions, states) && j < k < i < |states| && actions[j].Subscribe?
    requires FreshIDs(states[i].log) && Announces(q, actions, states, k, e)
    ensures Copies(states[i], e) == 1
    ensures multiset(states[i].sent)[e] == if Passes(q, e.lease) then multiset(states[i].taken)[e] else 0
  {
    var log, ops := states[k].log, Performs(q, actions[..k], actions[k]);
    PerformedStays(q, actions, states, k, i);
    LogGrows(q, actions, states, j, k);
    var upTo := log + [ops[0]];
    assert ops[..1] == [ops[0]] && states[i].log == upTo + states[i].log[|upTo|..];
    FreshPrefix(states[i].log, |upTo|);
    assert states[i].log[..|upTo|] == upTo;
    AnnouncedAtLog(log, states[i].log[|upTo|..], ops[0], e);
    SubscriberMissesNothing(q, actions, states, j, i, |log|, e);
  }

  /** What an action adds to the publishes that are still to run is exactly one event for each lease that
      its operation granted or took out of the table, and only a publish takes one away. */
  lemma PendingIsAnnounced(q: Request, actions: seq<Action>, states: seq<State>, i: nat, e: Event)
    requires IsRun(q, actions, states) && i < |actions| && FreshIDs(states[i + 1].log)
    ensures states[i + 1].pending[e] + One(actions[i] == Publish(e))
            == states[i].pending[e] + One(Announces(q, actions, states, i, e))
  {
    var s, done, a := states[i], actions[..i], actions[i];
    RunFollows(q, actions, states, i);
    PendingStep(q, s, done, a, states[i + 1], e);
    StepPerforms(q, s, done, a, states[i + 1]);
    var ops := Performs(q, done, a);
    if ops != [] {
      assert ops == [ops[0]];
      LastTells(s.log, ops[0], e);
    }
  }
}
