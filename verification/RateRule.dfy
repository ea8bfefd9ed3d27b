/** The exact rule by which the rate limiter admits: a request is admitted if and only if, counting back
    to any earlier request, the tokens spent on its key since then leave one for it. */
module RateRule {
  import opened RateLimiter
  import opened RateLimiterProofs

  /** The credit of `key` just before request `i`. */
  function Avail(c: Config, trace: seq<Request>, key: string, i: nat): int
    requires i < |trace|
  {
    Credit(c, PlainAfter(c, trace[..i]), key, trace[i].now)
  }

  /** One request, exactly: it takes its token if admitted, and time then refills up to a full bucket. */
  lemma StepCreditExactly(c: Config, m: map<string, Bucket>, q: Request, key: string, later: int)
    requires PlainOk(c, m, q.now) && q.now <= later
    ensures
      var (m', ok) := PlainStep(c, m, q.key, q.now);
      Credit(c, m', key, later)
      == Min(c.full, Credit(c, m, key, q.now) - (if ok && q.key == key then c.interval else 0) + (later - q.now))
  {
  }

  lemma AvailStep(c: Config, start: int, trace: seq<Request>, key: string, i: nat)
    requires InOrder(start, trace) && i + 1 < |trace|
    ensures Avail(c, trace, key, i + 1)
            == Min(c.full, Avail(c, trace, key, i) - Spent(c, trace, key, i) + (trace[i + 1].now - trace[i].now))
  {
    PlainStaysOk(c, start, trace, i);
    assert trace[..i + 1][..i] == trace[..i];
    StepCreditExactly(c, PlainAfter(c, trace[..i]), trace[i], key, trace[i + 1].now);
  }

  /** What the window from request `j` leaves for request `i`. */
  function Headroom(c: Config, trace: seq<Request>, key: string, j: nat, i: nat): int
    requires j <= i < |trace|
  {
    c.full + (trace[i].now - trace[j].now) - Worth(c, Admitted(c, trace, key, j, i))
  }

  lemma HeadroomStep(c: Config, trace: seq<Request>, key: string, j: nat, i: nat)
    requires j <= i && i + 1 < |trace|
    ensures Headroom(c, trace, key, j, i + 1)
            == Headroom(c, trace, key, j, i) - Spent(c, trace, key, i) + (trace[i + 1].now - trace[i].now)
  {
    AdmittedStep(c, trace, key, j, i + 1);
  }

  ghost predicate IsTightest(c: Config, trace: seq<Request>, key: string, i: nat)
    requires i < |trace|
  {
    && (forall j :: 0 <= j <= i ==> Avail(c, trace, key, i) <= Headroom(c, trace, key, j, i))
    && (exists j :: 0 <= j <= i && Avail(c, trace, key, i) == Headroom(c, trace, key, j, i))
  }

  /** The credit is what the tightest window leaves. */
  lemma {:induction false} AvailIsTightest(c: Config, start: int, trace: seq<Request>, key: string, i: nat)
    requires InOrder(start, trace) && i < |trace|
    ensures IsTightest(c, trace, key, i)
  {
    assert Headroom(c, trace, key, i, i) == c.full;
    if i == 0 {
      assert Avail(c, trace, key, 0) == Headroom(c, trace, key, 0, 0);
    } else {
      AvailIsTightest(c, start, trace, key, i - 1);
      TightestStep(c, start, trace, key, i - 1);
    }
  }

  lemma TightestStep(c: Config, start: int, trace: seq<Request>, key: string, i: nat)
    requires InOrder(start, trace) && i + 1 < |trace| && IsTightest(c, trace, key, i)
    ensures IsTightest(c, trace, key, i + 1)
  {
    var n := i + 1;
    AvailStep(c, start, trace, key, i);
    assert Headroom(c, trace, key, n, n) == c.full;
    forall j | 0 <= j <= n ensures Avail(c, trace, key, n) <= Headroom(c, trace, key, j, n) {
      if j <= i { HeadroomStep(c, trace, key, j, i); }
    }
    var j :| 0 <= j <= i && Avail(c, trace, key, i) == Headroom(c, trace, key, j, i);
    HeadroomStep(c, trace, key, j, i);
    assert Avail(c, trace, key, i + 1) == Headroom(c, trace, key, j, i + 1)
           || Avail(c, trace, key, i + 1) == Headroom(c, trace, key, i + 1, i + 1);
  }

  lemma AdmitsOnCredit(c: Config, trace: seq<Request>, i: nat)
    requires i < |trace|
    ensures PlainAdmits(c, trace, i) <==> Avail(c, trace, trace[i].key, i) >= c.interval
  {
  }

  /** With `spent` requests of its key admitted in a window of `elapsed` time, one more fits the rate. */
  predicate Fits(c: Config, spent: nat, elapsed: int) {
    (spent + 1) * c.interval <= c.burst * c.interval + elapsed
  }

  lemma FitsWorth(c: Config, n: nat, elapsed: int)
    requires c.Valid()
    ensures Fits(c, n, elapsed) <==> c.full + elapsed - Worth(c, n) >= c.interval
  {
    WorthIsProduct(c, n);
    OneMore(n, c.interval);
  }

  lemma OneMore(n: nat, k: nat)
    ensures (n + 1) * k == n * k + k
  {
  }

  lemma FitsHeadroom(c: Config, trace: seq<Request>, key: string, j: nat, i: nat)
    requires c.Valid() && j <= i < |trace|
    ensures Fits(c, Admitted(c, trace, key, j, i), trace[i].now - trace[j].now)
            <==> Headroom(c, trace, key, j, i) >= c.interval
  {
    FitsWorth(c, Admitted(c, trace, key, j, i), trace[i].now - trace[j].now);
  }

  /** A request is admitted exactly when it fits every window that ends with it. */
  lemma AdmittedIff(c: Config, start: int, trace: seq<Request>, i: nat)
    requires c.Valid() && InOrder(start, trace) && i < |trace|
    ensures PlainAdmits(c, trace, i)
            <==> forall j :: 0 <= j <= i ==>
                   Fits(c, Admitted(c, trace, trace[i].key, j, i), trace[i].now - trace[j].now)
  {
    var key := trace[i].key;
    AdmitsOnCredit(c, trace, i);
    AvailIsTightest(c, start, trace, key, i);
    forall j | 0 <= j <= i
      ensures Fits(c, Admitted(c, trace, key, j, i), trace[i].now - trace[j].now)
              <==> Headroom(c, trace, key, j, i) >= c.interval
    {
      FitsHeadroom(c, trace, key, j, i);
    }
  }

  /** The same rule for a limiter that prunes, if a bucket refills in time. */
  lemma PruningAdmitsIff(c: Config, start: int, trace: seq<Request>, i: nat)
    requires c.Valid() && RefillsInTime(c) && InOrder(start, trace) && i < |trace|
    ensures Admits(c, start, trace, i)
            <==> forall j :: 0 <= j <= i ==>
                   Fits(c, CacheAdmitted(c, start, trace, trace[i].key, j, i), trace[i].now - trace[j].now)
  {
    PruningIsInvisible(c, start, trace, i);
    SameVerdicts(c, start, trace);
    AdmittedIff(c, start, trace, i);
    assert forall j :: 0 <= j <= i ==>
             CacheAdmitted(c, start, trace, trace[i].key, j, i) == Admitted(c, trace, trace[i].key, j, i);
  }

  /** The rule for the limiters that the gateway and the registry build. */
  lemma CallersAdmitIff(rpm: int, start: int, trace: seq<Request>, i: nat)
    requires InOrder(start, trace) && i < |trace|
    ensures
      var c := Configured(rpm, rpm);
      Admits(c, start, trace, i)
      <==> forall j :: 0 <= j <= i ==>
             Fits(c, CacheAdmitted(c, start, trace, trace[i].key, j, i), trace[i].now - trace[j].now)
  {
    EqualBurstRefillsInTime(rpm);
    PruningAdmitsIff(Configured(rpm, rpm), start, trace, i);
  }
}
