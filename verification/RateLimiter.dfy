/** The per-key rate limiter: a cache of token buckets from which idle buckets are pruned.

    A bucket counts in nanoseconds of credit: a token is worth `interval`, a full bucket
    `burst * interval`, and credit accrues one for one with time. One clock reading per call. */
module RateLimiter {
  const MINUTE: nat := 60_000_000_000

  /** `full` is the credit of a full bucket. */
  datatype Config = Config(interval: nat, burst: nat, full: nat, cleanup: nat) {
    predicate Valid() { burst >= 1 && full == burst * interval }
  }

  datatype Bucket = Bucket(last: int, credit: nat)

  datatype Entry = Entry(bucket: Bucket, lastSeen: int)

  datatype Limiter = Limiter(limiters: map<string, Entry>, lastCleanup: int)

  function Min(a: int, b: int): int { if a < b then a else b }

  /** The credit of a bucket at a moment. */
  function CreditAt(c: Config, b: Bucket, now: int): nat {
    if now <= b.last then b.credit else Min(c.full, b.credit + (now - b.last))
  }

  function Spend(c: Config, b: Bucket, now: int): (Bucket, bool) {
    var credit := CreditAt(c, b, now);
    if credit >= c.interval then (Bucket(now, credit - c.interval), true) else (b, false)
  }

  function Prune(c: Config, l: Limiter, now: int): Limiter {
    if now - l.lastCleanup < c.cleanup then l
    else Limiter(map k | k in l.limiters && !(l.limiters[k].lastSeen < now - c.cleanup) :: l.limiters[k], now)
  }

  function Step(c: Config, l: Limiter, key: string, now: int): (Limiter, bool) {
    var l1 := Prune(c, l, now);
    var b := if key in l1.limiters then l1.limiters[key].bucket else Bucket(now, c.full);
    var (b1, ok) := Spend(c, b, now);
    (l1.(limiters := l1.limiters[key := Entry(b1, now)]), ok)
  }

  /** The limiter that keeps every bucket for ever. */
  function PlainStep(c: Config, m: map<string, Bucket>, key: string, now: int): (map<string, Bucket>, bool) {
    var b := if key in m then m[key] else Bucket(now, c.full);
    var (b1, ok) := Spend(c, b, now);
    (m[key := b1], ok)
  }

  // ---------------------------------------------------------------- the object

  class IPRateLimiter {
    const config: Config
    var limiters: map<string, Entry>
    var lastCleanup: int

    ghost function View(): Limiter reads this { Limiter(limiters, lastCleanup) }

    /** `rpm` requests per minute and key; non-positive arguments take their defaults. */
    constructor (rpm: int, burst: int, now: int)
      ensures View() == Limiter(map[], now) && config == Configured(rpm, burst)
    {
      var r := if rpm <= 0 then 60 else rpm;
      var b := if burst <= 0 then r else burst;
      config := Config(MINUTE / r, b, b * (MINUTE / r), 5 * MINUTE);
      limiters := map[];
      lastCleanup := now;
    }

    /** The scan visits the entries in any order and deletes those idle for too long. */
    method MaybeCleanup(now: int)
      modifies this
      ensures View() == Prune(config, old(View()), now)
    {
      if now - lastCleanup < config.cleanup { return; }
      var cutoff := now - config.cleanup;
      var todo := limiters.Keys;
      while todo != {}
        invariant todo <= limiters.Keys <= old(limiters).Keys
        invariant forall k :: k in limiters ==> limiters[k] == old(limiters)[k]
        invariant forall k :: k in old(limiters) && k !in limiters ==> old(limiters)[k].lastSeen < cutoff
        invariant forall k :: k in limiters && k !in todo ==> !(limiters[k].lastSeen < cutoff)
        decreases |todo|
      {
        var key :| key in todo;
        todo := todo - {key};
        if limiters[key].lastSeen < cutoff {
          limiters := limiters - {key};
        }
      }
      lastCleanup := now;
    }

    method Allow(key: string, now: int) returns (ok: bool)
      modifies this
      ensures (View(), ok) == Step(config, old(View()), key, now)
    {
      MaybeCleanup(now);
      var bucket := if key in limiters then limiters[key].bucket else Bucket(now, config.full);
      var spent := Spend(config, bucket, now);
      limiters := limiters[key := Entry(spent.0, now)];
      ok := spent.1;
    }
  }

  function Configured(rpm: int, burst: int): (c: Config)
    ensures c.Valid()
  {
    var r := if rpm <= 0 then 60 else rpm;
    var b := if burst <= 0 then r else burst;
    Config(MINUTE / r, b, b * (MINUTE / r), 5 * MINUTE)
  }

  // ---------------------------------------------------------------- runs

  datatype Request = Request(key: string, now: int)

  ghost predicate InOrder(start: int, trace: seq<Request>) {
    && (forall i :: 0 <= i < |trace| ==> start <= trace[i].now)
    && (forall i, j :: 0 <= i <= j < |trace| ==> trace[i].now <= trace[j].now)
  }

  function After(c: Config, start: int, trace: seq<Request>): Limiter {
    if trace == [] then Limiter(map[], start)
    else
      var n := |trace| - 1;
      Step(c, After(c, start, trace[..n]), trace[n].key, trace[n].now).0
  }

  function PlainAfter(c: Config, trace: seq<Request>): map<string, Bucket> {
    if trace == [] then map[]
    else
      var n := |trace| - 1;
      PlainStep(c, PlainAfter(c, trace[..n]), trace[n].key, trace[n].now).0
  }

  predicate Admits(c: Config, start: int, trace: seq<Request>, i: nat)
    requires i < |trace|
  {
    Step(c, After(c, start, trace[..i]), trace[i].key, trace[i].now).1
  }

  predicate PlainAdmits(c: Config, trace: seq<Request>, i: nat)
    requires i < |trace|
  {
    PlainStep(c, PlainAfter(c, trace[..i]), trace[i].key, trace[i].now).1
  }
}
