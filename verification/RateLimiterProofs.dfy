/** Pruning does not change what is admitted, exactly when a bucket refills within the cleanup
    interval; and no window admits more than the burst plus the refill. */
module RateLimiterProofs {
  import opened Common
  import opened RateLimiter

  /** A full bucket refills within the time after which an idle one can be pruned. */
  predicate RefillsInTime(c: Config) { c.full <= c.cleanup + 1 }

  ghost predicate BucketOk(c: Config, b: Bucket, now: int) { b.credit <= c.full && b.last <= now }

  /** The cached buckets are those of the plain limiter; a pruned one is full again by `now`. */
  ghost predicate Alike(c: Config, l: Limiter, m: map<string, Bucket>, now: int) {
    && l.limiters.Keys <= m.Keys
    && (forall k :: k in m ==> BucketOk(c, m[k], now))
    && (forall k :: k in l.limiters ==>
          l.limiters[k].bucket == m[k] && m[k].last <= l.limiters[k].lastSeen <= now)
    && (forall k :: k in m && k !in l.limiters ==> m[k].credit + (now - m[k].last) >= c.full)
  }

  lemma FullCoversToken(c: Config)
    requires c.Valid()
    ensures c.full >= c.interval
  {
    assert c.burst * c.interval >= 1 * c.interval;
  }

  lemma PruneKeepsAlike(c: Config, l: Limiter, m: map<string, Bucket>, before: int, now: int)
    requires RefillsInTime(c) && Alike(c, l, m, before) && before <= now
    ensures Alike(c, Prune(c, l, now), m, now)
  {
  }

  lemma StepKeepsAlike(c: Config, l: Limiter, m: map<string, Bucket>, before: int, key: string, now: int)
    requires RefillsInTime(c) && c.full >= c.interval && Alike(c, l, m, before) && before <= now
    ensures Step(c, l, key, now).1 == PlainStep(c, m, key, now).1
    ensures Alike(c, Step(c, l, key, now).0, PlainStep(c, m, key, now).0, now)
  {
    PruneKeepsAlike(c, l, m, before, now);
  }

  lemma InOrderPrefix(start: int, trace: seq<Request>, n: nat)
    requires InOrder(start, trace) && n <= |trace|
    ensures InOrder(start, trace[..n])
  {
  }

  function Clock(start: int, trace: seq<Request>): int {
    if trace == [] then start else trace[|trace| - 1].now
  }

  lemma {:induction false} RunsAlike(c: Config, start: int, trace: seq<Request>)
    requires RefillsInTime(c) && c.full >= c.interval && InOrder(start, trace)
    ensures Alike(c, After(c, start, trace), PlainAfter(c, trace), Clock(start, trace))
  {
    if trace != [] {
      var n := |trace| - 1;
      InOrderPrefix(start, trace, n);
      RunsAlike(c, start, trace[..n]);
      StepKeepsAlike(c, After(c, start, trace[..n]), PlainAfter(c, trace[..n]), Clock(start, trace[..n]),
                     trace[n].key, trace[n].now);
    }
  }

  /** The pruning limiter admits exactly what the plain one admits. */
  lemma PruningIsInvisible(c: Config, start: int, trace: seq<Request>, i: nat)
    requires RefillsInTime(c) && c.Valid() && InOrder(start, trace) && i < |trace|
    ensures Admits(c, start, trace, i) == PlainAdmits(c, trace, i)
  {
    FullCoversToken(c);
    var p := trace[..i];
    InOrderPrefix(start, trace, i);
    RunsAlike(c, start, p);
    StepKeepsAlike(c, After(c, start, p), PlainAfter(c, p), Clock(start, p), trace[i].key, trace[i].now);
  }

  /** Both callers pass their rate as the burst: a bucket then refills within a minute. */
  lemma EqualBurstRefillsInTime(rpm: int)
    ensures RefillsInTime(Configured(rpm, rpm))
  {
    var r := if rpm <= 0 then 60 else rpm;
    assert r * (MINUTE / r) <= MINUTE;
  }

  /** The limiter in numbers: a minute of 60 thousand million nanoseconds shared by the rate, cleanups five
      minutes apart, a rate of 60 unless one is given, and a burst equal to the rate unless one is
      given. */
  lemma ConfiguredIs(rpm: int, burst: int)
    ensures
      var c := Configured(rpm, burst);
      && c.cleanup == 300_000_000_000
      && (rpm > 0 ==> c.interval == 60_000_000_000 / rpm && c.burst == if burst > 0 then burst else rpm)
      && (rpm <= 0 ==> c.interval == 1_000_000_000 && c.burst == if burst > 0 then burst else 60)
  {
  }

  // ---------------------------------------------------------------- what the cache keeps

  /** Cleanups are less than their interval apart, and leave nothing idle for longer than that. */
  ghost predicate Recent(c: Config, l: Limiter, now: int) {
    && now - l.lastCleanup < c.cleanup
    && forall k :: k in l.limiters ==> l.lastCleanup - c.cleanup <= l.limiters[k].lastSeen
  }

  lemma {:induction false} StaysRecent(c: Config, start: int, trace: seq<Request>)
    requires InOrder(start, trace) && c.cleanup > 0
    ensures start <= After(c, start, trace).lastCleanup <= Clock(start, trace)
    ensures Recent(c, After(c, start, trace), Clock(start, trace))
  {
    if trace != [] {
      var n := |trace| - 1;
      InOrderPrefix(start, trace, n);
      StaysRecent(c, start, trace[..n]);
      RecentStep(c, After(c, start, trace[..n]), Clock(start, trace[..n]), trace[n].key, trace[n].now);
    }
  }

  lemma RecentStep(c: Config, l: Limiter, before: int, key: string, now: int)
    requires Recent(c, l, before) && l.lastCleanup <= before <= now && c.cleanup > 0
    ensures
      var l' := Step(c, l, key, now).0;
      Recent(c, l', now) && l.lastCleanup <= l'.lastCleanup <= now
  {
  }

  /** When a key last asked, admitted or not. */
  function LastRequest(trace: seq<Request>, key: string): Option<int> {
    if trace == [] then None
    else
      var n := |trace| - 1;
      if trace[n].key == key then Some(trace[n].now) else LastRequest(trace[..n], key)
  }

  /** The cache dates each of its keys by the last request, and keeps it for a cleanup interval. */
  ghost predicate Dated(c: Config, l: Limiter, trace: seq<Request>, now: int, key: string) {
    && (key in l.limiters ==> LastRequest(trace, key) == Some(l.limiters[key].lastSeen))
    && (LastRequest(trace, key).Some? && now - LastRequest(trace, key).value <= c.cleanup ==> key in l.limiters)
  }

  lemma DatedStep(c: Config, l: Limiter, trace: seq<Request>, before: int, q: Request, key: string)
    requires Dated(c, l, trace, before, key) && before <= q.now
    ensures Dated(c, Step(c, l, q.key, q.now).0, trace + [q], q.now, key)
  {
    assert (trace + [q])[..|trace|] == trace;
  }

  /** A key is in the cache under the time of its last request, for at least a cleanup interval after it. */
  lemma {:induction false} CacheIsDated(c: Config, start: int, trace: seq<Request>, key: string)
    requires InOrder(start, trace)
    ensures Dated(c, After(c, start, trace), trace, Clock(start, trace), key)
  {
    if trace != [] {
      var n := |trace| - 1;
      InOrderPrefix(start, trace, n);
      CacheIsDated(c, start, trace[..n], key);
      DatedStep(c, After(c, start, trace[..n]), trace[..n], Clock(start, trace[..n]), trace[n], key);
      assert trace == trace[..n] + [trace[n]];
    }
  }

  /** The cache holds only keys seen within the last two cleanup intervals. */
  lemma CacheIsRecent(c: Config, start: int, trace: seq<Request>, key: string)
    requires InOrder(start, trace) && c.cleanup > 0 && key in After(c, start, trace).limiters
    ensures After(c, start, trace).limiters[key].lastSeen > Clock(start, trace) - 2 * c.cleanup
  {
    StaysRecent(c, start, trace);
  }

  // ---------------------------------------------------------------- windows

  /** The credit a key has at a moment; a key not seen yet has a full bucket. */
  function Credit(c: Config, m: map<string, Bucket>, key: string, now: int): nat {
    if key in m then CreditAt(c, m[key], now) else c.full
  }

  ghost predicate PlainOk(c: Config, m: map<string, Bucket>, now: int) {
    forall k :: k in m ==> BucketOk(c, m[k], now)
  }

  /** A request costs its key one token if admitted; time gives back at most what passes. */
  lemma StepCredit(c: Config, m: map<string, Bucket>, before: int, q: Request, key: string)
    requires PlainOk(c, m, before) && before <= q.now
    ensures
      var (m', ok) := PlainStep(c, m, q.key, q.now);
      && PlainOk(c, m', q.now)
      && Credit(c, m', key, q.now) + (if ok && q.key == key then c.interval else 0)
         <= Credit(c, m, key, before) + (q.now - before)
      && Credit(c, m', key, q.now) <= c.full
  {
  }

  /** How many requests of `key` numbered from `i` up to but not including `j` are granted. */
  function Tally(trace: seq<Request>, granted: seq<bool>, key: string, i: nat, j: nat): nat
    requires i <= j <= |trace| == |granted|
    decreases j
  {
    if i == j then 0
    else (if trace[j - 1].key == key && granted[j - 1] then 1 else 0) + Tally(trace, granted, key, i, j - 1)
  }

  function PlainVerdicts(c: Config, trace: seq<Request>): seq<bool> {
    seq(|trace|, i requires 0 <= i < |trace| => PlainAdmits(c, trace, i))
  }

  function Verdicts(c: Config, start: int, trace: seq<Request>): seq<bool> {
    seq(|trace|, i requires 0 <= i < |trace| => Admits(c, start, trace, i))
  }

  /** How many requests of `key` the limiter that never prunes admits in a window. */
  function Admitted(c: Config, trace: seq<Request>, key: string, i: nat, j: nat): nat
    requires i <= j <= |trace|
  {
    Tally(trace, PlainVerdicts(c, trace), key, i, j)
  }

  lemma {:induction false} PlainStaysOk(c: Config, start: int, trace: seq<Request>, n: nat)
    requires InOrder(start, trace) && n <= |trace|
    ensures PlainOk(c, PlainAfter(c, trace[..n]), Clock(start, trace[..n]))
    decreases n
  {
    if n > 0 {
      PlainStaysOk(c, start, trace, n - 1);
      assert trace[..n][..n - 1] == trace[..n - 1];
      StepCredit(c, PlainAfter(c, trace[..n - 1]), Clock(start, trace[..n - 1]), trace[n - 1], "");
    }
  }

  /** What `n` tokens are worth. */
  function Worth(c: Config, n: nat): nat {
    if n == 0 then 0 else c.interval + Worth(c, n - 1)
  }

  lemma {:induction false} WorthIsProduct(c: Config, n: nat)
    ensures Worth(c, n) == n * c.interval
  {
    if n > 0 {
      WorthIsProduct(c, n - 1);
      assert n * c.interval == (n - 1) * c.interval + c.interval;
    }
  }

  /** One more request in the window costs a token if it is of `key` and admitted. */
  lemma AdmittedStep(c: Config, trace: seq<Request>, key: string, i: nat, j: nat)
    requires i < j <= |trace|
    ensures Worth(c, Admitted(c, trace, key, i, j))
            == Worth(c, Admitted(c, trace, key, i, j - 1)) + Spent(c, trace, key, j - 1)
  {
    TallyStep(c, trace, PlainVerdicts(c, trace), key, i, j);
  }

  lemma TallyStep(c: Config, trace: seq<Request>, granted: seq<bool>, key: string, i: nat, j: nat)
    requires i < j <= |trace| == |granted|
    ensures Worth(c, Tally(trace, granted, key, i, j))
            == Worth(c, Tally(trace, granted, key, i, j - 1))
               + if trace[j - 1].key == key && granted[j - 1] then c.interval else 0
  {
  }

  /** What request `k` takes out of the bucket of `key`. */
  function Spent(c: Config, trace: seq<Request>, key: string, k: nat): nat
    requires k < |trace|
  {
    if trace[k].key == key && PlainAdmits(c, trace, k) then c.interval else 0
  }

  function CreditAfter(c: Config, trace: seq<Request>, key: string, n: nat): int
    requires 0 < n <= |trace|
  {
    Credit(c, PlainAfter(c, trace[..n]), key, trace[n - 1].now)
  }

  /** One request leaves at most a full bucket, less its token. */
  lemma CreditAtOnce(c: Config, start: int, trace: seq<Request>, key: string, n: nat)
    requires InOrder(start, trace) && 0 < n <= |trace|
    ensures CreditAfter(c, trace, key, n) + Spent(c, trace, key, n - 1) <= c.full
  {
    var p, q := trace[..n - 1], trace[n - 1];
    assert trace[..n][..n - 1] == p;
    PlainStaysOk(c, start, trace, n - 1);
    StepCredit(c, PlainAfter(c, p), Clock(start, p), q, key);
  }

  /** From one request to the next, credit grows by no more than the time between them. */
  lemma CreditGrows(c: Config, start: int, trace: seq<Request>, key: string, n: nat)
    requires InOrder(start, trace) && 1 < n <= |trace|
    ensures CreditAfter(c, trace, key, n) + Spent(c, trace, key, n - 1)
            <= CreditAfter(c, trace, key, n - 1) + (trace[n - 1].now - trace[n - 2].now)
  {
    var p, q := trace[..n - 1], trace[n - 1];
    assert trace[..n][..n - 1] == p && p[|p| - 1] == trace[n - 2];
    PlainStaysOk(c, start, trace, n - 1);
    StepCredit(c, PlainAfter(c, p), p[|p| - 1].now, q, key);
  }

  lemma {:induction false} WindowCredit(c: Config, start: int, trace: seq<Request>, key: string, i: nat, j: nat)
    requires InOrder(start, trace) && i < j <= |trace|
    ensures Worth(c, Admitted(c, trace, key, i, j)) + CreditAfter(c, trace, key, j)
            <= c.full + (trace[j - 1].now - trace[i].now)
    decreases j
  {
    AdmittedStep(c, trace, key, i, j);
    if i < j - 1 {
      WindowCredit(c, start, trace, key, i, j - 1);
      CreditGrows(c, start, trace, key, j);
    } else {
      CreditAtOnce(c, start, trace, key, j);
    }
  }

  lemma MulCancels(a: nat, b: nat, k: nat)
    requires k > 0 && a * k < b * k
    ensures a < b
  {
  }

  lemma DivideBound(n: nat, w: nat, burst: nat, interval: nat)
    requires interval > 0 && n * interval <= burst * interval + w
    ensures n <= burst + w / interval
  {
    var q := w / interval;
    assert w < (q + 1) * interval;
    assert (burst + (q + 1)) * interval == burst * interval + (q + 1) * interval;
    MulCancels(n, burst + (q + 1), interval);
  }

  /** How many requests of `key` a window holds. */
  function Requested(trace: seq<Request>, key: string, i: nat, j: nat): nat
    requires i <= j <= |trace|
    decreases j
  {
    if i == j then 0 else (if trace[j - 1].key == key then 1 else 0) + Requested(trace, key, i, j - 1)
  }

  /** A rate so high that the interval is zero admits everything. */
  lemma {:induction false} AllAdmitted(c: Config, trace: seq<Request>, key: string, i: nat, j: nat)
    requires c.interval == 0 && i <= j <= |trace|
    ensures Admitted(c, trace, key, i, j) == Requested(trace, key, i, j)
    decreases j
  {
    if i < j { AllAdmitted(c, trace, key, i, j - 1); }
  }

  /** What a window of `elapsed` time may admit out of `requested`: at most the burst plus one
      request per interval, and everything if the interval is zero. */
  predicate WithinRate(c: Config, admitted: nat, requested: nat, elapsed: nat) {
    if c.interval > 0 then admitted <= c.burst + elapsed / c.interval else admitted == requested
  }

  lemma WindowBound(c: Config, start: int, trace: seq<Request>, key: string, i: nat, j: nat)
    requires c.Valid() && InOrder(start, trace) && i < j <= |trace|
    ensures WithinRate(c, Admitted(c, trace, key, i, j), Requested(trace, key, i, j), trace[j - 1].now - trace[i].now)
  {
    if c.interval == 0 {
      AllAdmitted(c, trace, key, i, j);
    } else {
      WindowCredit(c, start, trace, key, i, j);
      WorthIsProduct(c, Admitted(c, trace, key, i, j));
      DivideBound(Admitted(c, trace, key, i, j), trace[j - 1].now - trace[i].now, c.burst, c.interval);
    }
  }

  /** How many requests of `key` the pruning limiter admits in a window. */
  function CacheAdmitted(c: Config, start: int, trace: seq<Request>, key: string, i: nat, j: nat): nat
    requires i <= j <= |trace|
  {
    Tally(trace, Verdicts(c, start, trace), key, i, j)
  }

  lemma SameVerdicts(c: Config, start: int, trace: seq<Request>)
    requires RefillsInTime(c) && c.Valid() && InOrder(start, trace)
    ensures Verdicts(c, start, trace) == PlainVerdicts(c, trace)
  {
    forall i | 0 <= i < |trace| ensures Verdicts(c, start, trace)[i] == PlainVerdicts(c, trace)[i] {
      PruningIsInvisible(c, start, trace, i);
    }
  }

  /** The limiters the gateway and the registry build bound every window of every run. */
  lemma CallersWindowBound(rpm: int, start: int, trace: seq<Request>, key: string, i: nat, j: nat)
    requires InOrder(start, trace) && i < j <= |trace|
    ensures
      var c := Configured(rpm, rpm);
      WithinRate(c, CacheAdmitted(c, start, trace, key, i, j), Requested(trace, key, i, j),
                 trace[j - 1].now - trace[i].now)
  {
    var c := Configured(rpm, rpm);
    EqualBurstRefillsInTime(rpm);
    SameVerdicts(c, start, trace);
    WindowBound(c, start, trace, key, i, j);
  }

  // ---------------------------------------------------------------- the condition is exact

  /** A burst at one moment, and another just past the cleanup interval. */
  function TwoBursts(c: Config, start: int): seq<Request> {
    seq(2 * c.burst, i => Request("k", if i < c.burst then start else start + c.cleanup + 1))
  }

  predicate Has(l: Limiter, now: int, credit: int) {
    "k" in l.limiters && l.limiters["k"].bucket.last == l.limiters["k"].lastSeen == now
    && l.limiters["k"].bucket.credit == credit
  }

  lemma BurstStep(c: Config, l: Limiter, now: int, credit: nat)
    requires credit >= c.interval && (Has(l, now, credit) || ("k" !in Prune(c, l, now).limiters && credit == c.full))
    ensures
      var (l', ok) := Step(c, l, "k", now);
      ok && Has(l', now, credit - c.interval) && (l'.lastCleanup == l.lastCleanup || l'.lastCleanup == now)
  {
  }

  /** One request of a burst, wherever it stands in a trace. */
  lemma BurstRequest(c: Config, start: int, t: seq<Request>, k: nat, now: int, credit: nat)
    requires k < |t| && t[k] == Request("k", now) && credit >= c.interval
    requires
      var l := After(c, start, t[..k]);
      Has(l, now, credit) || ("k" !in Prune(c, l, now).limiters && credit == c.full)
    ensures Has(After(c, start, t[..k + 1]), now, credit - c.interval)
    ensures Admits(c, start, t, k)
    ensures
      var l, l' := After(c, start, t[..k]), After(c, start, t[..k + 1]);
      l'.lastCleanup == l.lastCleanup || l'.lastCleanup == now
  {
    assert t[..k + 1][..k] == t[..k];
    BurstStep(c, After(c, start, t[..k]), now, credit);
  }

  lemma {:induction false} FirstBurst(c: Config, start: int, n: nat)
    requires c.full == Worth(c, c.burst) && n <= c.burst
    ensures
      var l := After(c, start, TwoBursts(c, start)[..n]);
      l.lastCleanup == start && (if n == 0 then l.limiters == map[] else Has(l, start, Worth(c, c.burst - n)))
    ensures n > 0 ==> Admits(c, start, TwoBursts(c, start), n - 1)
  {
    if n > 0 {
      FirstBurst(c, start, n - 1);
      BurstRequest(c, start, TwoBursts(c, start), n - 1, start, Worth(c, c.burst - (n - 1)));
    }
  }

  /** A bucket last seen at the latest cleanup is pruned just past the cleanup interval. */
  lemma IdleIsPruned(c: Config, l: Limiter, start: int, credit: int)
    requires l.lastCleanup == start && Has(l, start, credit)
    ensures "k" !in Prune(c, l, start + c.cleanup + 1).limiters
  {
  }

  /** Past request `k` of the second burst, the bucket is short of the tokens spent in it. */
  predicate InSecondBurst(c: Config, start: int, k: nat) {
    && c.burst < k <= 2 * c.burst
    && Has(After(c, start, TwoBursts(c, start)[..k]), start + c.cleanup + 1, Worth(c, 2 * c.burst - k))
  }

  /** The first request of the second burst finds a full bucket again. */
  lemma SecondBurstStarts(c: Config, start: int)
    requires c.full == Worth(c, c.burst) && c.burst >= 1
    ensures InSecondBurst(c, start, c.burst + 1)
    ensures Admits(c, start, TwoBursts(c, start), c.burst)
  {
    FirstBurst(c, start, c.burst);
    IdleIsPruned(c, After(c, start, TwoBursts(c, start)[..c.burst]), start, Worth(c, 0));
    BurstRequest(c, start, TwoBursts(c, start), c.burst, start + c.cleanup + 1, Worth(c, c.burst));
  }

  lemma SecondBurstAdmits(c: Config, start: int, k: nat)
    requires InSecondBurst(c, start, k) && k < 2 * c.burst
    ensures InSecondBurst(c, start, k + 1)
    ensures Admits(c, start, TwoBursts(c, start), k)
  {
    BurstRequest(c, start, TwoBursts(c, start), k, start + c.cleanup + 1, Worth(c, 2 * c.burst - k));
  }

  lemma SecondBurstStep(c: Config, start: int, k: nat)
    requires k > 0 && InSecondBurst(c, start, k - 1) && k <= 2 * c.burst
    ensures InSecondBurst(c, start, k)
  {
    SecondBurstAdmits(c, start, k - 1);
  }

  lemma SecondBurstBegun(c: Config, start: int)
    requires c.full == Worth(c, c.burst) && c.burst >= 1
    ensures InSecondBurst(c, start, c.burst + 1)
  {
    SecondBurstStarts(c, start);
  }

  lemma {:induction false} SecondBurst(c: Config, start: int, k: nat)
    requires c.full == Worth(c, c.burst) && c.burst < k <= 2 * c.burst
    ensures InSecondBurst(c, start, k)
    decreases k
  {
    if k == c.burst + 1 {
      SecondBurstBegun(c, start);
    } else {
      SecondBurst(c, start, k - 1);
      SecondBurstStep(c, start, k);
    }
  }

  lemma {:induction false} TallyOfAll(trace: seq<Request>, granted: seq<bool>, key: string, j: nat)
    requires j <= |trace| == |granted| && forall i :: 0 <= i < j ==> trace[i].key == key && granted[i]
    ensures Tally(trace, granted, key, 0, j) == j
    decreases j
  {
    if j > 0 { TallyOfAll(trace, granted, key, j - 1); }
  }

  lemma {:induction false} WorthAdds(c: Config, m: nat, n: nat)
    ensures Worth(c, m + n) == Worth(c, m) + Worth(c, n)
  {
    if n > 0 { WorthAdds(c, m, n - 1); }
  }

  lemma BurstsAdmitted(c: Config, start: int, i: nat)
    requires c.full == Worth(c, c.burst) && i < 2 * c.burst
    ensures Admits(c, start, TwoBursts(c, start), i)
  {
    if i < c.burst {
      FirstBurst(c, start, i + 1);
    } else if i == c.burst {
      SecondBurstStarts(c, start);
    } else {
      SecondBurst(c, start, i);
      SecondBurstAdmits(c, start, i);
    }
  }

  lemma BurstsInOrder(c: Config, start: int)
    requires c.burst >= 1
    ensures InOrder(start, TwoBursts(c, start))
  {
  }

  /** Requests worth more than a full bucket and the time they take are not all admitted. */
  lemma TooCostly(c: Config, start: int, t: seq<Request>)
    requires InOrder(start, t) && t != [] && forall i :: 0 <= i < |t| ==> t[i].key == "k"
    requires Worth(c, |t|) > c.full + (t[|t| - 1].now - t[0].now)
    ensures exists i :: 0 <= i < |t| && !PlainAdmits(c, t, i)
  {
    WindowCredit(c, start, t, "k", 0, |t|);
    if forall i :: 0 <= i < |t| ==> PlainAdmits(c, t, i) {
      TallyOfAll(t, PlainVerdicts(c, t), "k", |t|);
      assert false;
    }
  }

  lemma BurstsTooCostly(c: Config, start: int)
    requires c.full == Worth(c, c.burst) && !RefillsInTime(c) && c.burst >= 1
    ensures exists i :: 0 <= i < |TwoBursts(c, start)| && !PlainAdmits(c, TwoBursts(c, start), i)
  {
    BurstsInOrder(c, start);
    WorthAdds(c, c.burst, c.burst);
    assert |TwoBursts(c, start)| == c.burst + c.burst;
    TooCostly(c, start, TwoBursts(c, start));
  }

  /** If a bucket does not refill in time, pruning hands out a second burst too early. */
  lemma LateRefillDiffers(c: Config, start: int)
    requires c.Valid() && !RefillsInTime(c)
    ensures InOrder(start, TwoBursts(c, start))
    ensures exists i: nat :: i < |TwoBursts(c, start)|
              && Admits(c, start, TwoBursts(c, start), i) != PlainAdmits(c, TwoBursts(c, start), i)
  {
    WorthIsProduct(c, c.burst);
    BurstsInOrder(c, start);
    BurstsTooCostly(c, start);
    var i :| 0 <= i < |TwoBursts(c, start)| && !PlainAdmits(c, TwoBursts(c, start), i);
    BurstsAdmitted(c, start, i);
  }

  ghost predicate Agrees(c: Config, start: int, trace: seq<Request>) {
    InOrder(start, trace) ==> forall i: nat :: i < |trace| ==> Admits(c, start, trace, i) == PlainAdmits(c, trace, i)
  }

  /** Pruning never changes what is admitted exactly when a bucket refills in time. */
  lemma PruningInvisibleIff(c: Config, start: int)
    requires c.Valid()
    ensures (forall trace :: Agrees(c, start, trace)) <==> RefillsInTime(c)
  {
    if RefillsInTime(c) {
      forall trace, i: nat | InOrder(start, trace) && i < |trace|
        ensures Admits(c, start, trace, i) == PlainAdmits(c, trace, i)
      {
        PruningIsInvisible(c, start, trace, i);
      }
    } else {
      LateRefillDiffers(c, start);
      assert !Agrees(c, start, TwoBursts(c, start));
    }
  }
}
