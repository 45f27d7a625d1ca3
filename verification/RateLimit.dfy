// Per-node token bucket. Instants and token counts are real numbers of seconds and tokens.
// The constant-state bucket is proved equal to a specification that remembers every admission.

module RateLimit {
  import opened Base

  datatype RateLimitConfig = RateLimitConfig(maxPerSecond: real, burstSize: nat)
  {
    predicate Enabled() { maxPerSecond > 0.0 && burstSize > 0 }
  }

  datatype TokenBucket = TokenBucket(tokens: real, capacity: real, refillRate: real, lastCheck: real)

  /** Tokens earned in `dt` seconds. */
  function Earned(rate: real, dt: real): real { rate * dt }

  lemma EarnedAdds(rate: real, a: real, b: real)
    ensures Earned(rate, a + b) == Earned(rate, a) + Earned(rate, b)
    ensures Earned(rate, 0.0) == 0.0
    ensures rate > 0.0 && a >= 0.0 ==> Earned(rate, a) >= 0.0
  {
  }

  function RMin(a: real, b: real): real { if a <= b then a else b }

  /** Tokens available at `now`, before the request at `now` takes one. */
  function Refilled(b: TokenBucket, now: real): real {
    RMin(b.tokens + Earned(b.refillRate, now - b.lastCheck), b.capacity)
  }

  // ---- the specification: admissions only, no bucket ----

  /** A request at `t` fits if, counting back to any earlier admission, the admissions from that one on and
      this request number at most burst + rate * (time since it). */
  ghost predicate Fits(c: RateLimitConfig, admitted: seq<real>, t: real) {
    forall j :: 0 <= j < |admitted| ==>
      (|admitted| - j) as real + 1.0 <= c.burstSize as real + c.maxPerSecond * (t - admitted[j])
  }

  /** The admissions a run of requests earns under `Fits`. */
  ghost function Admissions(c: RateLimitConfig, requests: seq<real>): seq<real> {
    if requests == [] then []
    else
      var before := Admissions(c, requests[..|requests| - 1]);
      var t := requests[|requests| - 1];
      if Fits(c, before, t) then before + [t] else before
  }

  ghost predicate InTimeOrder(ts: seq<real>) {
    forall i, j :: 0 <= i < j < |ts| ==> ts[i] <= ts[j]
  }

  /** Tokens as a function of the admissions: the least of burst and, for each admission, what is left of
      burst + refill since then after the admissions from it on. */
  ghost function Level(c: RateLimitConfig, admitted: seq<real>, t: real): real {
    if admitted == [] then c.burstSize as real
    else RMin(c.burstSize as real + Earned(c.maxPerSecond, t - admitted[0]) - |admitted| as real,
              Level(c, admitted[1..], t))
  }

  lemma FitsSplits(c: RateLimitConfig, admitted: seq<real>, t: real)
    requires admitted != []
    ensures Fits(c, admitted, t) <==>
      |admitted| as real + 1.0 <= c.burstSize as real + Earned(c.maxPerSecond, t - admitted[0]) &&
      Fits(c, admitted[1..], t)
  {
    var rest := admitted[1..];
    forall j | 1 <= j < |admitted| && Fits(c, rest, t)
      ensures (|admitted| - j) as real + 1.0 <= c.burstSize as real + c.maxPerSecond * (t - admitted[j])
    {
      assert rest[j - 1] == admitted[j];
    }
    forall j | 0 <= j < |rest| && Fits(c, admitted, t)
      ensures (|rest| - j) as real + 1.0 <= c.burstSize as real + c.maxPerSecond * (t - rest[j])
    {
      assert rest[j] == admitted[j + 1];
    }
  }

  lemma {:induction false} LevelDecides(c: RateLimitConfig, admitted: seq<real>, t: real)
    requires c.Enabled()
    ensures Level(c, admitted, t) >= 1.0 <==> Fits(c, admitted, t)
  {
    hide Earned;
    if admitted != [] {
      LevelDecides(c, admitted[1..], t);
      FitsSplits(c, admitted, t);
      hide Fits;
    }
  }

  /** Refilling commutes with the specification's level. */
  lemma {:induction false} LevelRefills(c: RateLimitConfig, admitted: seq<real>, s: real, t: real)
    requires c.Enabled() && s <= t
    ensures Level(c, admitted, t) == RMin(Level(c, admitted, s) + Earned(c.maxPerSecond, t - s), c.burstSize as real)
    ensures Level(c, admitted, s) <= c.burstSize as real
  {
    hide Earned;
    EarnedAdds(c.maxPerSecond, t - s, 0.0);
    if admitted != [] {
      LevelRefills(c, admitted[1..], s, t);
      EarnedAdds(c.maxPerSecond, t - s, s - admitted[0]);
      assert (t - s) + (s - admitted[0]) == t - admitted[0];
    }
  }

  lemma {:induction false} LevelAdmits(c: RateLimitConfig, admitted: seq<real>, t: real)
    requires c.Enabled()
    ensures Level(c, admitted + [t], t) == Level(c, admitted, t) - 1.0
  {
    hide Earned;
    EarnedAdds(c.maxPerSecond, 0.0, 0.0);
    LevelRefills(c, admitted, t, t);
    var more := admitted + [t];
    if admitted == [] {
      assert more[1..] == [] && t - t == 0.0;
    } else {
      LevelAdmits(c, admitted[1..], t);
      assert more[1..] == admitted[1..] + [t] && |more| as real == |admitted| as real + 1.0;
    }
  }

  /** The bucket `b`, last checked when its tokens were set, represents the admissions so far. */
  ghost predicate Represents(c: RateLimitConfig, b: TokenBucket, admitted: seq<real>) {
    b.capacity == c.burstSize as real && b.refillRate == c.maxPerSecond &&
    b.tokens == Level(c, admitted, b.lastCheck)
  }

  function NewBucket(c: RateLimitConfig, now: real): TokenBucket {
    TokenBucket(c.burstSize as real, c.burstSize as real, c.maxPerSecond, now)
  }

  function Consumed(b: TokenBucket, now: real): (r: (bool, TokenBucket)) {
    var t := Refilled(b, now);
    (t >= 1.0, b.(lastCheck := now, tokens := if t >= 1.0 then t - 1.0 else t))
  }

  /** The limiter is exact: one call decides as the specification does, and a denied call leaves the
      admissions, hence every later decision, as they were. */
  lemma ConsumeIsExact(c: RateLimitConfig, b: TokenBucket, admitted: seq<real>, now: real)
    requires c.Enabled() && Represents(c, b, admitted) && b.lastCheck <= now
    ensures Consumed(b, now).0 <==> Fits(c, admitted, now)
    ensures Represents(c, Consumed(b, now).1, if Fits(c, admitted, now) then admitted + [now] else admitted)
  {
    hide Earned, Level;
    LevelRefills(c, admitted, b.lastCheck, now);
    LevelDecides(c, admitted, now);
    LevelAdmits(c, admitted, now);
  }

  // ---- the limiter over all nodes ----

  type Buckets = map<string, TokenBucket>

  datatype Request = Request(node: string, at: real)

  function Checked(c: RateLimitConfig, bs: Buckets, r: Request): (bool, Buckets) {
    if !c.Enabled() then (true, bs)
    else
      var b := if r.node in bs then bs[r.node] else NewBucket(c, r.at);
      (Consumed(b, r.at).0, bs[r.node := Consumed(b, r.at).1])
  }

  /** The instants of the requests of one node, out of an interleaving of all nodes. */
  function OfNode(node: string, rs: seq<Request>): seq<real> {
    if rs == [] then []
    else
      var before := OfNode(node, rs[..|rs| - 1]);
      if rs[|rs| - 1].node == node then before + [rs[|rs| - 1].at] else before
  }

  function RunLimiter(c: RateLimitConfig, rs: seq<Request>): (r: (seq<bool>, Buckets))
    ensures |r.0| == |rs|
  {
    if rs == [] then ([], map[])
    else
      var (ds, bs) := RunLimiter(c, rs[..|rs| - 1]);
      var (d, bs') := Checked(c, bs, rs[|rs| - 1]);
      (ds + [d], bs')
  }

  ghost predicate RequestsInOrder(rs: seq<Request>) {
    forall i, j :: 0 <= i < j < |rs| ==> rs[i].at <= rs[j].at
  }

  ghost predicate Tracks(c: RateLimitConfig, bs: Buckets, rs: seq<Request>, node: string) {
    if node in bs then
      Represents(c, bs[node], Admissions(c, OfNode(node, rs))) && OfNode(node, rs) != [] &&
      exists k :: 0 <= k < |rs| && rs[k].at == bs[node].lastCheck
    else OfNode(node, rs) == []
  }

  lemma {:induction false} CheckKeepsTrack(c: RateLimitConfig, bs: Buckets, rs: seq<Request>, r: Request, node: string)
    requires c.Enabled() && RequestsInOrder(rs + [r]) && Tracks(c, bs, rs, node)
    ensures Tracks(c, Checked(c, bs, r).1, rs + [r], node)
    ensures r.node == node ==> (Checked(c, bs, r).0 <==> Fits(c, Admissions(c, OfNode(node, rs)), r.at))
  {
    var rs' := rs + [r];
    assert rs'[..|rs|] == rs && rs'[|rs|] == r;
    var mine := OfNode(node, rs);
    if r.node == node {
      assert (mine + [r.at])[..|mine|] == mine;
      if node in bs {
        var k :| 0 <= k < |rs| && rs[k].at == bs[node].lastCheck;
        assert rs'[k] == rs[k];
        ConsumeIsExact(c, bs[node], Admissions(c, mine), r.at);
      } else {
        ConsumeIsExact(c, NewBucket(c, r.at), [], r.at);
      }
      assert rs'[|rs|].at == r.at;
    } else if node in bs {
      var k :| 0 <= k < |rs| && rs[k].at == bs[node].lastCheck;
      assert rs'[k].at == bs[node].lastCheck;
    }
  }

  /** Whatever the interleaving of nodes, the limiter decides request k as the specification run on that
      node's earlier requests alone would: no other node, and no denied request, has any influence. */
  lemma {:induction false} LimiterIsExactPerNode(c: RateLimitConfig, rs: seq<Request>, node: string)
    requires c.Enabled() && RequestsInOrder(rs)
    ensures Tracks(c, RunLimiter(c, rs).1, rs, node)
    ensures forall k :: 0 <= k < |rs| && rs[k].node == node ==>
      (RunLimiter(c, rs).0[k] <==> Fits(c, Admissions(c, OfNode(node, rs[..k])), rs[k].at))
  {
    if rs != [] {
      var before, r := rs[..|rs| - 1], rs[|rs| - 1];
      assert before + [r] == rs;
      LimiterIsExactPerNode(c, before, node);
      CheckKeepsTrack(c, RunLimiter(c, before).1, before, r, node);
      forall k | 0 <= k < |rs| && rs[k].node == node
        ensures RunLimiter(c, rs).0[k] <==> Fits(c, Admissions(c, OfNode(node, rs[..k])), rs[k].at)
      {
        if k < |before| { assert before[..k] == rs[..k] && before[k] == rs[k]; }
      }
    }
  }

  /** With a zero rate or a zero burst nothing is ever dropped. */
  lemma {:induction false} DisabledAdmitsAll(c: RateLimitConfig, rs: seq<Request>)
    requires !c.Enabled()
    ensures forall k :: 0 <= k < |rs| ==> RunLimiter(c, rs).0[k]
  {
    if rs != [] { DisabledAdmitsAll(c, rs[..|rs| - 1]); }
  }

  // ---- the sliding window ----

  lemma FitsAt(c: RateLimitConfig, admitted: seq<real>, t: real, j: nat)
    requires Fits(c, admitted, t) && j < |admitted|
    ensures (|admitted| - j) as real + 1.0 <= c.burstSize as real + Earned(c.maxPerSecond, t - admitted[j])
  {
  }

  lemma {:induction false} BlockEarned(c: RateLimitConfig, requests: seq<real>, i: nat, j: nat)
    requires c.Enabled()
    requires i <= j < |Admissions(c, requests)|
    ensures (j - i + 1) as real
         <= c.burstSize as real + Earned(c.maxPerSecond, Admissions(c, requests)[j] - Admissions(c, requests)[i])
  {
    hide Earned, Fits;
    var before, t := requests[..|requests| - 1], requests[|requests| - 1];
    var a := Admissions(c, before);
    if j < |a| {
      BlockEarned(c, before, i, j);
    } else if i == j {
      EarnedAdds(c.maxPerSecond, 0.0, 0.0);
      assert t - t == 0.0;
    } else {
      FitsAt(c, a, t, i);
    }
  }

  /** Any block of consecutive admissions is bounded by burst + rate * its length in time. */
  lemma {:induction false} BlockBound(c: RateLimitConfig, requests: seq<real>, i: nat, j: nat)
    requires c.Enabled()
    requires i <= j < |Admissions(c, requests)|
    ensures (j - i + 1) as real
         <= c.burstSize as real + c.maxPerSecond * (Admissions(c, requests)[j] - Admissions(c, requests)[i])
  {
    BlockEarned(c, requests, i, j);
    hide Admissions;
  }

  ghost function CountWithin(ts: seq<real>, from: real, w: real): nat {
    if ts == [] then 0
    else (if from <= ts[0] <= from + w then 1 else 0) + CountWithin(ts[1..], from, w)
  }

  lemma {:induction false} CountIsABlock(ts: seq<real>, from: real, w: real) returns (i: nat, n: nat)
    requires InTimeOrder(ts)
    ensures i + n <= |ts| && n == CountWithin(ts, from, w)
    ensures forall k :: i <= k < i + n ==> from <= ts[k] <= from + w
    ensures forall k :: 0 <= k < |ts| && from <= ts[k] <= from + w ==> i <= k < i + n
  {
    if ts == [] {
      i, n := 0, 0;
    } else {
      i, n := CountIsABlock(ts[1..], from, w);
      assert forall k :: 0 < k < |ts| ==> ts[1..][k - 1] == ts[k];
      if from <= ts[0] <= from + w {
        assert n > 0 ==> ts[1..][i] == ts[1 + i] && ts[1..][0] == ts[1];
        i, n := 0, n + 1;
      } else {
        i := i + 1;
      }
    }
  }

  lemma {:induction false} AdmissionsInOrder(c: RateLimitConfig, requests: seq<real>)
    requires InTimeOrder(requests)
    ensures InTimeOrder(Admissions(c, requests))
    ensures forall a :: a in Admissions(c, requests) ==> a in requests
  {
    if requests != [] {
      var before := requests[..|requests| - 1];
      AdmissionsInOrder(c, before);
      assert requests == before + [requests[|requests| - 1]];
      var a := Admissions(c, before);
      forall k | 0 <= k < |a| ensures a[k] <= requests[|requests| - 1] { assert a[k] in before; }
    }
  }

  lemma {:induction false} WindowEarned(c: RateLimitConfig, requests: seq<real>, from: real, w: real)
    requires c.Enabled() && InTimeOrder(requests) && w >= 0.0
    ensures CountWithin(Admissions(c, requests), from, w) as real <= c.burstSize as real + Earned(c.maxPerSecond, w)
  {
    AdmissionsInOrder(c, requests);
    var a := Admissions(c, requests);
    var i, n := CountIsABlock(a, from, w);
    hide Earned, Admissions, CountWithin;
    EarnedAdds(c.maxPerSecond, w, 0.0);
    if n > 0 {
      BlockEarned(c, requests, i, i + n - 1);
      var d := a[i + n - 1] - a[i];
      EarnedAdds(c.maxPerSecond, w - d, d);
      assert w - d >= 0.0 && (w - d) + d == w;
    }
  }

  /** In any window of length w at most burst + rate * w requests are admitted. */
  lemma {:induction false} WindowBound(c: RateLimitConfig, requests: seq<real>, from: real, w: real)
    requires c.Enabled() && InTimeOrder(requests) && w >= 0.0
    ensures CountWithin(Admissions(c, requests), from, w) as real <= c.burstSize as real + c.maxPerSecond * w
  {
    WindowEarned(c, requests, from, w);
    hide Admissions, CountWithin, InTimeOrder;
  }

  // ---- the limiter itself ----

  class DetectionLimiter {
    var buckets: Buckets
    const config: RateLimitConfig
    const enabled: bool
    /** Every request so far, of every node, in the order the mutex served them. */
    ghost var requests: seq<Request>

    ghost predicate Valid()
      reads this
    {
      enabled == config.Enabled() && RequestsInOrder(requests) && buckets == RunLimiter(config, requests).1
    }

    constructor (config: RateLimitConfig)
      ensures Valid() && this.config == config && requests == []
    {
      this.config := config;
      enabled := config.maxPerSecond > 0.0 && config.burstSize > 0;
      buckets := map[];
      requests := [];
    }

    method Check(node: string, now: real) returns (admitted: bool)
      requires Valid() && forall k :: 0 <= k < |requests| ==> requests[k].at <= now
      modifies this
      ensures Valid() && requests == old(requests) + [Request(node, now)]
      ensures admitted == RunLimiter(config, requests).0[|requests| - 1]
      ensures enabled ==> (admitted <==> Fits(config, Admissions(config, OfNode(node, old(requests))), now))
    {
      hide Earned, Fits, RunLimiter, Admissions;
      ghost var r := Request(node, now);
      assert (requests + [r])[..|requests|] == requests;
      LimiterStep(config, requests, r);
      if !enabled {
        requests := requests + [r];
        return true;
      }
      var bucket := if node in buckets then buckets[node] else NewBucket(config, now);
      // try_consume
      var elapsed := now - bucket.lastCheck;
      bucket := bucket.(lastCheck := now);
      bucket := bucket.(tokens := RMin(bucket.tokens + Earned(bucket.refillRate, elapsed), bucket.capacity));
      if bucket.tokens >= 1.0 {
        bucket := bucket.(tokens := bucket.tokens - 1.0);
        admitted := true;
      } else {
        admitted := false;
      }
      buckets := buckets[node := bucket];
      requests := requests + [r];
    }
  }

  lemma {:induction false} LimiterStep(c: RateLimitConfig, rs: seq<Request>, r: Request)
    requires RequestsInOrder(rs) && forall k :: 0 <= k < |rs| ==> rs[k].at <= r.at
    ensures RequestsInOrder(rs + [r])
    ensures RunLimiter(c, rs + [r]).1 == Checked(c, RunLimiter(c, rs).1, r).1
    ensures RunLimiter(c, rs + [r]).0 == RunLimiter(c, rs).0 + [Checked(c, RunLimiter(c, rs).1, r).0]
    ensures c.Enabled() ==>
      (Checked(c, RunLimiter(c, rs).1, r).0 <==> Fits(c, Admissions(c, OfNode(r.node, rs)), r.at))
  {
    assert (rs + [r])[..|rs|] == rs;
    if c.Enabled() {
      LimiterIsExactPerNode(c, rs, r.node);
      CheckKeepsTrack(c, RunLimiter(c, rs).1, rs, r, r.node);
    }
  }
}
