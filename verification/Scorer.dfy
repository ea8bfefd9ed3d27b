/** Smoothed health scores of peer relays, over the real numbers. */
module Scorer {
  const ALPHA: real := 0.3

  datatype Health = Health(rttMillis: int, lossPct: real, cpuPct: real, memPct: real, region: string, addr: string)

  function Max(a: real, b: real): real { if a < b then b else a }

  /** Round-trip time 40%, packet loss 40%, utilisation 20%. */
  function ComputeScore(h: Health): real
    requires h.rttMillis != -500
  {
    var rtt := 1.0 / (1.0 + (h.rttMillis as real) / 500.0);
    var loss := Max(0.0, 1.0 - h.lossPct / 100.0);
    var util := Max(0.0, 1.0 - (h.cpuPct + h.memPct) / 200.0);
    0.4 * rtt + 0.4 * loss + 0.2 * util
  }

  /** The smoothed score after a history of report scores. */
  function Smooth(scores: seq<real>): real
    requires scores != []
  {
    var n := |scores| - 1;
    if n == 0 then scores[0] else ALPHA * scores[n] + (1.0 - ALPHA) * Smooth(scores[..n])
  }

  // ---------------------------------------------------------------- scores

  lemma ReciprocalDecreases(x: real, y: real)
    requires 0.0 < x <= y
    ensures 0.0 < 1.0 / y <= 1.0 / x
  {
    var p, q := 1.0 / x, 1.0 / y;
    assert p * x == 1.0 && q * y == 1.0;
    assert p > 0.0 && q > 0.0;
    assert p * y >= p * x;
    assert (p - q) * y >= 0.0;
  }

  /** The share of a percentage, which counts for no more than a hundred. */
  function Share(pct: real): real { if pct >= 100.0 then 1.0 else pct / 100.0 }

  /** A report starts from 1 and loses 0.4 times the round-trip time's part of itself plus 500 ms, 0.4
      times the packet loss, and 0.2 times the mean of the two utilisations. */
  lemma ScoreIs(h: Health)
    requires h.rttMillis != -500
    ensures ComputeScore(h)
            == 1.0 - 0.4 * ((h.rttMillis as real) / ((h.rttMillis as real) + 500.0))
               - 0.4 * Share(h.lossPct) - 0.2 * Share((h.cpuPct + h.memPct) / 2.0)
  {
    var r := h.rttMillis as real;
    RttPart(r);
    assert (h.cpuPct + h.memPct) / 2.0 / 100.0 == (h.cpuPct + h.memPct) / 200.0;
  }

  lemma RttPart(r: real)
    requires r != -500.0
    ensures 1.0 + r / 500.0 != 0.0
    ensures 1.0 / (1.0 + r / 500.0) == 1.0 - r / (r + 500.0)
  {
    assert 500.0 * (1.0 + r / 500.0) == r + 500.0;
    var x, y := 1.0 / (1.0 + r / 500.0), r / (r + 500.0);
    assert x * (r + 500.0) == 500.0;
    assert y * (r + 500.0) == r;
    assert (x + y - 1.0) * (r + 500.0) == 0.0;
  }

  /** A score is positive as long as the round-trip time is above -500 ms, and at most 1 if the report
      has no negative figures. */
  lemma ScoreRange(h: Health)
    requires h.rttMillis != -500
    ensures h.rttMillis > -500 ==> 0.0 < ComputeScore(h)
    ensures h.rttMillis >= 0 && h.lossPct >= 0.0 && h.cpuPct + h.memPct >= 0.0 ==> ComputeScore(h) <= 1.0
  {
    var x := 1.0 + (h.rttMillis as real) / 500.0;
    if h.rttMillis > -500 { ReciprocalDecreases(x, x); }
    if h.rttMillis >= 0 { ReciprocalDecreases(1.0, x); }
  }

  predicate NoWorse(a: Health, b: Health) {
    a.rttMillis <= b.rttMillis && a.lossPct <= b.lossPct && a.cpuPct <= b.cpuPct && a.memPct <= b.memPct
  }

  /** Two round-trip times with -500 ms not between them. */
  predicate SameSide(rtt: int, rtt': int) { (rtt > -500 && rtt' > -500) || (rtt < -500 && rtt' < -500) }

  lemma NegativeReciprocal(x: real, y: real)
    requires x <= y < 0.0
    ensures 1.0 / y <= 1.0 / x < 0.0
  {
    ReciprocalDecreases(-y, -x);
    assert 1.0 / -y == -(1.0 / y) && 1.0 / -x == -(1.0 / x);
  }

  /** A report that is nowhere worse scores no lower. */
  lemma ScoreMonotone(a: Health, b: Health)
    requires NoWorse(a, b) && SameSide(a.rttMillis, b.rttMillis)
    ensures ComputeScore(a) >= ComputeScore(b)
  {
    var x, y := 1.0 + (a.rttMillis as real) / 500.0, 1.0 + (b.rttMillis as real) / 500.0;
    if a.rttMillis > -500 {
      ReciprocalDecreases(x, y);
    } else {
      NegativeReciprocal(x, y);
    }
  }

  lemma AcrossThePole(a: Health, b: Health)
    requires a.rttMillis < -500 < b.rttMillis && a == b.(rttMillis := a.rttMillis)
    ensures ComputeScore(a) < ComputeScore(b)
  {
    var x, y := 1.0 + (a.rttMillis as real) / 500.0, 1.0 + (b.rttMillis as real) / 500.0;
    NegativeReciprocal(x, x);
    ReciprocalDecreases(y, y);
  }

  /** Being nowhere worse means scoring no lower, for all reports with these round-trip times, exactly
      when -500 ms does not lie between them. */
  lemma ScoreMonotoneIff(rtt: int, rtt': int)
    requires rtt != -500 && rtt' != -500 && rtt <= rtt'
    ensures (forall a: Health, b: Health :: a.rttMillis == rtt && b.rttMillis == rtt' && NoWorse(a, b) ==>
               ComputeScore(a) >= ComputeScore(b))
            <==> SameSide(rtt, rtt')
  {
    if SameSide(rtt, rtt') {
      forall a: Health, b: Health | a.rttMillis == rtt && b.rttMillis == rtt' && NoWorse(a, b)
        ensures ComputeScore(a) >= ComputeScore(b)
      {
        ScoreMonotone(a, b);
      }
    } else {
      var b := Health(rtt', 0.0, 0.0, 0.0, "", "");
      var a := b.(rttMillis := rtt);
      AcrossThePole(a, b);
      assert NoWorse(a, b);
    }
  }

  // ---------------------------------------------------------------- smoothing

  lemma SmoothNext(past: seq<real>, score: real)
    ensures Smooth(past + [score]) == if past == [] then score else ALPHA * score + (1.0 - ALPHA) * Smooth(past)
  {
    assert (past + [score])[..|past|] == past;
  }

  /** A smoothed score stays between any bounds of its reports: in [0, 1], and between its
      smallest and largest report score. */
  lemma {:induction false} SmoothBetween(scores: seq<real>, lo: real, hi: real)
    requires scores != [] && forall i :: 0 <= i < |scores| ==> lo <= scores[i] <= hi
    ensures lo <= Smooth(scores) <= hi
  {
    var n := |scores| - 1;
    if n > 0 { SmoothBetween(scores[..n], lo, hi); }
  }

  lemma {:induction false} SmoothMonotone(a: seq<real>, b: seq<real>)
    requires |a| == |b| && a != [] && forall i :: 0 <= i < |a| ==> a[i] >= b[i]
    ensures Smooth(a) >= Smooth(b)
  {
    var n := |a| - 1;
    if n > 0 { SmoothMonotone(a[..n], b[..n]); }
  }

  function Pow(x: real, k: nat): real {
    if k == 0 then 1.0 else x * Pow(x, k - 1)
  }

  function Repeat(x: real, k: nat): seq<real> { seq(k, _ => x) }

  /** Repeating one report k times shrinks the distance to it by exactly 0.7 to the k. */
  lemma {:induction false} RepeatsConverge(scores: seq<real>, x: real, k: nat)
    requires scores != []
    ensures Smooth(scores + Repeat(x, k)) - x == Pow(0.7, k) * (Smooth(scores) - x)
  {
    var s := scores + Repeat(x, k);
    if k == 0 {
      assert s == scores;
    } else {
      RepeatsConverge(scores, x, k - 1);
      assert s[..|s| - 1] == scores + Repeat(x, k - 1) && s[|s| - 1] == x;
      var gap, p := Smooth(scores) - x, Pow(0.7, k - 1);
      assert 0.7 * (p * gap) == (0.7 * p) * gap;
    }
  }

  function ScoresOf(reports: seq<Health>): seq<real>
    requires forall i :: 0 <= i < |reports| ==> reports[i].rttMillis != -500
  {
    seq(|reports|, i requires 0 <= i < |reports| => ComputeScore(reports[i]))
  }

  /** A history of reports that is nowhere worse ends with a score no lower. */
  lemma HistoryMonotone(a: seq<Health>, b: seq<Health>)
    requires |a| == |b| && a != []
    requires forall i :: 0 <= i < |a| ==> a[i].rttMillis != -500
    requires forall i :: 0 <= i < |b| ==> b[i].rttMillis != -500
    requires forall i :: 0 <= i < |a| ==> NoWorse(a[i], b[i]) && SameSide(a[i].rttMillis, b[i].rttMillis)
    ensures Smooth(ScoresOf(a)) >= Smooth(ScoresOf(b))
  {
    forall i | 0 <= i < |a| ensures ScoresOf(a)[i] >= ScoresOf(b)[i] {
      ScoreMonotone(a[i], b[i]);
    }
    SmoothMonotone(ScoresOf(a), ScoresOf(b));
  }

  /** A history without negative figures ends with a score in [0, 1]. */
  lemma HistoryRange(a: seq<Health>)
    requires a != []
    requires forall i :: 0 <= i < |a| ==>
               a[i].rttMillis >= 0 && a[i].lossPct >= 0.0 && a[i].cpuPct + a[i].memPct >= 0.0
    ensures 0.0 <= Smooth(ScoresOf(a)) <= 1.0
  {
    forall i | 0 <= i < |a| ensures 0.0 <= ScoresOf(a)[i] <= 1.0 {
      ScoreRange(a[i]);
    }
    SmoothBetween(ScoresOf(a), 0.0, 1.0);
  }

  // ---------------------------------------------------------------- the object

  ghost predicate Ranked(scores: map<string, real>, ids: seq<string>) {
    && (forall i :: 0 <= i < |ids| ==> ids[i] in scores)
    && (forall i, j :: 0 <= i < j < |ids| ==> ids[i] != ids[j])
    && (forall i, j :: 0 <= i < j < |ids| ==> scores[ids[i]] >= scores[ids[j]])
  }

  /** What a ranking's first `i` relays leave out scores no higher than any of them. */
  lemma LeftOutIsNoBetter(scores: map<string, real>, ids: seq<string>, i: nat, id: string)
    requires Ranked(scores, ids) && i <= |ids| && id in ids && id !in ids[..i]
    ensures i < |ids| && forall j :: 0 <= j < i ==> scores[ids[..i][j]] >= scores[id]
  {
    var k :| 0 <= k < |ids| && ids[k] == id;
    assert forall m :: 0 <= m < i ==> ids[..i][m] == ids[m];
  }

  /** Each relay's score is the smoothing of its history. */
  ghost predicate Smoothed(scores: map<string, real>, history: map<string, seq<real>>) {
    && scores.Keys == history.Keys
    && forall id :: id in history ==> history[id] != [] && scores[id] == Smooth(history[id])
  }

  lemma Recorded(scores: map<string, real>, history: map<string, seq<real>>, id: string, next: real, all: seq<real>)
    requires Smoothed(scores, history) && all != [] && next == Smooth(all)
    ensures Smoothed(scores[id := next], history[id := all])
  {
  }

  function Members(ids: seq<string>): set<string> { set id | id in ids }

  function Inserted(ids: seq<string>, id: string, k: nat): seq<string>
    requires k <= |ids|
  {
    ids[..k] + [id] + ids[k..]
  }

  lemma InsertedMembers(ids: seq<string>, id: string, k: nat)
    requires k <= |ids|
    ensures Members(Inserted(ids, id, k)) == Members(ids) + {id} && |Inserted(ids, id, k)| == |ids| + 1
    ensures forall i :: 0 <= i <= |ids| ==>
              Inserted(ids, id, k)[i] == if i < k then ids[i] else if i == k then id else ids[i - 1]
  {
    assert ids == ids[..k] + ids[k..];
  }

  /** A relay put behind those that score at least as high and before those that score lower. */
  lemma InsertedAt(scores: map<string, real>, ids: seq<string>, id: string, k: nat)
    requires Ranked(scores, ids) && id in scores && id !in ids && k <= |ids|
    requires forall i :: 0 <= i < k ==> scores[ids[i]] >= scores[id]
    requires k < |ids| ==> scores[ids[k]] < scores[id]
    ensures Ranked(scores, Inserted(ids, id, k))
    ensures Members(Inserted(ids, id, k)) == Members(ids) + {id} && |Inserted(ids, id, k)| == |ids| + 1
  {
    InsertedMembers(ids, id, k);
  }

  class RelayScorer {
    var scores: map<string, real>
    var regions: map<string, string>
    var addrs: map<string, string>
    /** The report scores of each relay so far, oldest first. */
    ghost var history: map<string, seq<real>>

    /** Each relay's score is the smoothing of its whole history. */
    ghost predicate Valid() reads this { Smoothed(scores, history) }

    constructor ()
      ensures Valid() && history == map[] && regions == map[] && addrs == map[]
    {
      scores, regions, addrs, history := map[], map[], map[], map[];
    }

    method Update(relay: string, h: Health)
      requires Valid() && h.rttMillis != -500
      modifies this
      ensures Valid()
      ensures
        var earlier := if relay in old(history) then old(history)[relay] else [];
        history == old(history)[relay := earlier + [ComputeScore(h)]]
      ensures regions == if h.region != "" then old(regions)[relay := h.region] else old(regions)
      ensures addrs == if h.addr != "" then old(addrs)[relay := h.addr] else old(addrs)
    {
      var score := ComputeScore(h);
      ghost var past := if relay in history then history[relay] else [];
      SmoothNext(past, score);
      var next := score;
      if relay in scores {
        next := ALPHA * score + (1.0 - ALPHA) * scores[relay];
      }
      assert next == Smooth(past + [score]);
      Recorded(scores, history, relay, next, past + [score]);
      scores := scores[relay := next];
      history := history[relay := past + [score]];
      if h.region != "" { regions := regions[relay := h.region]; }
      if h.addr != "" { addrs := addrs[relay := h.addr]; }
    }

    predicate Eligible(id: string, region: string) reads this {
      && id in scores
      && (region == "" || (id in regions && regions[id] == region))
      && id in addrs && addrs[id] != ""
    }

    /** Puts a relay behind every one that scores at least as high. */
    method Insert(ids: seq<string>, id: string) returns (r: seq<string>)
      requires Ranked(scores, ids) && id in scores && id !in ids
      ensures Ranked(scores, r) && Members(r) == Members(ids) + {id} && |r| == |ids| + 1
    {
      var k := 0;
      while k < |ids| && scores[ids[k]] >= scores[id]
        invariant 0 <= k <= |ids|
        invariant forall i :: 0 <= i < k ==> scores[ids[i]] >= scores[id]
      {
        k := k + 1;
      }
      r := ids[..k] + [id] + ids[k..];
      InsertedAt(scores, ids, id, k);
    }

    /** Every eligible relay, best first. */
    method Candidates(region: string) returns (ids: seq<string>)
      ensures Ranked(scores, ids) && forall id :: id in ids <==> Eligible(id, region)
    {
      ids := [];
      var todo := scores.Keys;
      while todo != {}
        invariant todo <= scores.Keys && Ranked(scores, ids)
        invariant forall id :: id in ids <==> id !in todo && Eligible(id, region)
        decreases |todo|
      {
        var id :| id in todo;
        todo := todo - {id};
        if region != "" && !(id in regions && regions[id] == region) { continue; }
        if id in addrs && addrs[id] != "" {
          var next := Insert(ids, id);
          assert forall x :: x in next <==> x in Members(next);
          assert forall x :: x in ids <==> x in Members(ids);
          ids := next;
        }
      }
    }

    /** The addresses of the n best eligible relays, best first; `chosen` names the relays. No
        eligible relay left out scores higher than one chosen. */
    method BestRelaysForRegion(region: string, n: nat) returns (result: seq<string>, chosen: seq<string>)
      ensures Ranked(scores, chosen) && |result| == |chosen| <= n
      ensures forall i :: 0 <= i < |chosen| ==>
                && chosen[i] in addrs && result[i] == addrs[chosen[i]] != ""
                && (region == "" || (chosen[i] in regions && regions[chosen[i]] == region))
      ensures forall id :: id in scores && id in addrs && addrs[id] != ""
                           && (region == "" || (id in regions && regions[id] == region)) && id !in chosen ==>
                |chosen| == n && forall i :: 0 <= i < n ==> scores[chosen[i]] >= scores[id]
    {
      var ids := Candidates(region);
      assert forall j :: 0 <= j < |ids| ==> ids[j] in ids && Eligible(ids[j], region);
      result := [];
      var i := 0;
      while i < |ids| && i < n
        invariant 0 <= i <= |ids| && i <= n && |result| == i
        invariant forall j :: 0 <= j < i ==> ids[j] in addrs && result[j] == addrs[ids[j]]
      {
        result := result + [addrs[ids[i]]];
        i := i + 1;
      }
      chosen := ids[..i];
      forall id | id in scores && id in addrs && addrs[id] != ""
                  && (region == "" || (id in regions && regions[id] == region)) && id !in chosen
        ensures |chosen| == n && forall j :: 0 <= j < n ==> scores[chosen[j]] >= scores[id]
      {
        assert Eligible(id, region);
        LeftOutIsNoBetter(scores, ids, i, id);
      }
    }
  }
}
