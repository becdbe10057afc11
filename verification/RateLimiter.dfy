/**
 The gateway's per-agent token bucket (internal/coreapi/rate.go).

 Time and tokens are reals. `Step` says what one call does to the table of buckets; the class
 is proved to do exactly that, and the lemmas below characterise whole runs of calls.
 */
module RateLimiting {
  import opened Prelude

  type AgentId = string

  datatype Limits = Limits(rps: real, burst: real) {
    ghost predicate Positive() { rps > 0.0 && burst > 0.0 }

    // What a bucket is refilled by between two times.
    function Earned(from: real, to: real): real { (to - from) * rps }
  }

  // The value of one bucket.
  datatype Level = Level(tokens: real, last: real)

  function Lookup(levels: map<AgentId, Level>, id: AgentId): Option<Level> {
    if id in levels then Some(levels[id]) else None
  }

  // What an agent can spend at time `now`: an unknown agent starts with a full bucket.
  function Available(lim: Limits, level: Option<Level>, now: real): real {
    match level
    case None => lim.burst
    case Some(b) =>
      var refilled := b.tokens + lim.Earned(b.last, now);
      if refilled > lim.burst then lim.burst else refilled
  }

  function Step(lim: Limits, levels: map<AgentId, Level>, id: AgentId, now: real): (r: (map<AgentId, Level>, bool)) {
    var tokens := Available(lim, Lookup(levels, id), now);
    if tokens < 1.0
    then (levels[id := Level(tokens, now)], false)
    else (levels[id := Level(tokens - 1.0, now)], true)
  }

  class Bucket {
    var tokens: real
    var last: real

    constructor (tokens: real, last: real)
      ensures this.tokens == tokens && this.last == last
    {
      this.tokens, this.last := tokens, last;
    }
  }

  class RateLimiter {
    var buckets: map<AgentId, Bucket>
    const limits: Limits

    // No two agents share a bucket.
    ghost predicate Valid()
      reads this
    {
      && limits.Positive()
      && forall a, b | a in buckets && b in buckets && a != b :: buckets[a] != buckets[b]
    }

    ghost function Levels(): map<AgentId, Level>
      reads this, buckets.Values
    {
      map a | a in buckets :: Level(buckets[a].tokens, buckets[a].last)
    }

    constructor (rps: real, burst: real)
      ensures Valid() && Levels() == map[]
      ensures limits == Limits(if rps <= 0.0 then 50.0 else rps, if burst <= 0.0 then 100.0 else burst)
    {
      var r, b := rps, burst;
      if r <= 0.0 { r := 50.0; }
      if b <= 0.0 { b := 100.0; }
      limits := Limits(r, b);
      buckets := map[];
    }

    method Allow(id: AgentId, now: real) returns (ok: bool)
      requires Valid()
      modifies this, buckets.Values
      ensures Valid() && fresh(buckets.Values - old(buckets.Values))
      ensures (Levels(), ok) == Step(limits, old(Levels()), id, now)
    {
      hide Limits.Earned;
      ghost var before := Levels();
      EarnedAdds(limits, now, now, now);
      var b: Bucket;
      if id in buckets {
        b := buckets[id];
      } else {
        b := new Bucket(limits.burst, now);
        buckets := buckets[id := b];
      }
      b.tokens := b.tokens + limits.Earned(b.last, now);
      if b.tokens > limits.burst {
        b.tokens := limits.burst;
      }
      b.last := now;
      assert b.tokens == Available(limits, Lookup(before, id), now);
      ok := b.tokens >= 1.0;
      if ok {
        b.tokens := b.tokens - 1.0;
      }
      EqualMaps(Levels(), before[id := Level(b.tokens, b.last)]);
    }
  }

  // --- Runs ---

  datatype Call = Call(agent: AgentId, at: real)

  ghost predicate Timed(run: seq<Call>) {
    forall i, j | 0 <= i < j < |run| :: run[i].at <= run[j].at
  }

  // The buckets after the first n calls, starting from a new limiter.
  function After(lim: Limits, run: seq<Call>, n: nat): map<AgentId, Level>
    requires n <= |run|
  {
    if n == 0 then map[] else Step(lim, After(lim, run, n - 1), run[n - 1].agent, run[n - 1].at).0
  }

  predicate Allowed(lim: Limits, run: seq<Call>, i: nat)
    requires i < |run|
  {
    Step(lim, After(lim, run, i), run[i].agent, run[i].at).1
  }

  // How many of agent a's calls k, ..., n-1 were allowed.
  function Granted(lim: Limits, run: seq<Call>, a: AgentId, k: nat, n: nat): nat
    requires n <= |run|
  {
    if n <= k then 0
    else Granted(lim, run, a, k, n - 1) + if run[n - 1].agent == a && Allowed(lim, run, n - 1) then 1 else 0
  }

  // The allowance a window that opens with call k leaves for a further call at time t: burst and
  // rps times its length, less what it has granted.
  function Headroom(lim: Limits, run: seq<Call>, a: AgentId, k: nat, n: nat, t: real): real
    requires k < |run| && n <= |run|
  {
    lim.burst + (t - run[k].at) * lim.rps - Granted(lim, run, a, k, n) as real
  }

  lemma OrderTimesRate(x: real, y: real, rate: real)
    requires rate > 0.0 && x >= y
    ensures x * rate >= y * rate
  {
  }

  lemma NotNegative(x: real, rate: real)
    requires rate > 0.0 && x >= 0.0
    ensures x * rate >= 0.0
  {
  }

  lemma SumTimesRate(x: real, y: real, rate: real)
    ensures (x + y) * rate == x * rate + y * rate
  {
  }

  lemma TimeForOneToken(x: real, rate: real)
    requires rate > 0.0 && x >= 1.0 / rate
    ensures x * rate >= 1.0
  {
    var y := 1.0 / rate;
    assert y * rate == 1.0;
    OrderTimesRate(x, y, rate);
  }

  // What is earned is rps times the time that has passed.
  lemma EarnedIs(lim: Limits, from: real, to: real)
    ensures lim.Earned(from, to) == (to - from) * lim.rps
  {
  }

  lemma HeadroomIs(lim: Limits, run: seq<Call>, a: AgentId, k: nat, n: nat, t: real)
    requires k < |run| && n <= |run|
    ensures Headroom(lim, run, a, k, n, t)
      == lim.burst + lim.Earned(run[k].at, t) - Granted(lim, run, a, k, n) as real
  {
    EarnedIs(lim, run[k].at, t);
    hide Limits.Earned; hide Granted;
  }

  lemma EarnedSums(lim: Limits, a: real, b: real, c: real)
    ensures lim.Earned(a, c) == lim.Earned(a, b) + lim.Earned(b, c)
    ensures lim.Earned(a, a) == 0.0
  {
    assert c - a == (b - a) + (c - b);
    SumTimesRate(b - a, c - b, lim.rps);
  }

  lemma EarnedNotNegative(lim: Limits, a: real, b: real)
    requires lim.Positive()
    ensures a <= b ==> lim.Earned(a, b) >= 0.0
  {
    if a <= b { NotNegative(b - a, lim.rps); }
  }

  lemma EarnedOne(lim: Limits, a: real, b: real)
    requires lim.Positive()
    ensures b - a >= 1.0 / lim.rps ==> lim.Earned(a, b) >= 1.0
  {
    if b - a >= 1.0 / lim.rps { TimeForOneToken(b - a, lim.rps); }
  }

  lemma EarnedAdds(lim: Limits, a: real, b: real, c: real)
    requires lim.Positive()
    ensures lim.Earned(a, c) == lim.Earned(a, b) + lim.Earned(b, c)
    ensures lim.Earned(a, a) == 0.0
    ensures a <= b ==> lim.Earned(a, b) >= 0.0
    ensures b <= c ==> lim.Earned(b, c) >= 0.0
    ensures c - b >= 1.0 / lim.rps ==> lim.Earned(b, c) >= 1.0
  {
    hide Limits.Earned;
    EarnedSums(lim, a, b, c);
    EarnedNotNegative(lim, a, b);
    EarnedNotNegative(lim, b, c);
    EarnedOne(lim, b, c);
  }

  // The bucket is the minimum of the headrooms of all windows that open with a call of the
  // agent, capped at burst: no window is exceeded, and one of them is exactly used up.
  lemma {:induction false} AvailableIsLeastHeadroom(lim: Limits, run: seq<Call>, a: AgentId, n: nat, t: real)
    requires lim.Positive() && Timed(run) && n <= |run|
    requires forall j | 0 <= j < n :: run[j].at <= t
    ensures var tokens := Available(lim, Lookup(After(lim, run, n), a), t);
      && tokens <= lim.burst
      && (forall k | 0 <= k < n && run[k].agent == a :: tokens <= Headroom(lim, run, a, k, n, t))
      && (tokens == lim.burst
          || exists k :: 0 <= k < n && run[k].agent == a && tokens == Headroom(lim, run, a, k, n, t))
    decreases n, 0
  {
    hide Limits.Earned; hide Headroom;
    if n > 0 {
      var m := n - 1;
      if run[m].agent != a {
        AvailableIsLeastHeadroom(lim, run, a, m, t);
        forall k | 0 <= k < m ensures Headroom(lim, run, a, k, n, t) == Headroom(lim, run, a, k, m, t) {
          HeadroomIs(lim, run, a, k, n, t);
          HeadroomIs(lim, run, a, k, m, t);
        }
        assert Lookup(After(lim, run, n), a) == Lookup(After(lim, run, m), a);
      } else {
        AvailableAfterOwnCall(lim, run, a, m, t);
      }
    }
  }

  // What call m takes from its agent's bucket.
  function Spent(lim: Limits, run: seq<Call>, m: nat): real
    requires m < |run|
  {
    if Allowed(lim, run, m) then 1.0 else 0.0
  }

  lemma HeadroomAfterOwnCall(lim: Limits, run: seq<Call>, k: nat, m: nat, t: real)
    requires lim.Positive() && k <= m < |run|
    ensures var a, s := run[m].agent, run[m].at;
      Headroom(lim, run, a, k, m + 1, t)
        == (if k == m then lim.burst else Headroom(lim, run, a, k, m, s)) - Spent(lim, run, m) + lim.Earned(s, t)
  {
    EarnedAdds(lim, run[k].at, run[m].at, t);
    HeadroomIs(lim, run, run[m].agent, k, m + 1, t);
    HeadroomIs(lim, run, run[m].agent, k, m, run[m].at);
    hide Limits.Earned; hide Headroom;
    assert Granted(lim, run, run[m].agent, m, m) == 0;
  }

  lemma BucketAfterOwnCall(lim: Limits, run: seq<Call>, m: nat, t: real)
    requires m < |run|
    ensures var a, s := run[m].agent, run[m].at;
      var left := Available(lim, Lookup(After(lim, run, m), a), s) - Spent(lim, run, m) + lim.Earned(s, t);
      Available(lim, Lookup(After(lim, run, m + 1), a), t) == if left > lim.burst then lim.burst else left
  {
    hide Limits.Earned;
  }

  lemma {:induction false} AvailableAfterOwnCall(lim: Limits, run: seq<Call>, a: AgentId, m: nat, t: real)
    requires lim.Positive() && Timed(run) && m < |run| && run[m].agent == a
    requires forall j | 0 <= j <= m :: run[j].at <= t
    ensures var tokens := Available(lim, Lookup(After(lim, run, m + 1), a), t);
      && tokens <= lim.burst
      && (forall k | 0 <= k <= m && run[k].agent == a :: tokens <= Headroom(lim, run, a, k, m + 1, t))
      && (tokens == lim.burst
          || exists k :: 0 <= k <= m && run[k].agent == a && tokens == Headroom(lim, run, a, k, m + 1, t))
    decreases m, 1
  {
    hide Limits.Earned; hide Headroom;
    var s := run[m].at;
    AvailableIsLeastHeadroom(lim, run, a, m, s);
    BucketAfterOwnCall(lim, run, m, t);
    HeadroomAfterOwnCall(lim, run, m, m, t);
    forall k | 0 <= k < m
      ensures Headroom(lim, run, a, k, m + 1, t)
        == Headroom(lim, run, a, k, m, s) - Spent(lim, run, m) + lim.Earned(s, t)
    {
      HeadroomAfterOwnCall(lim, run, k, m, t);
    }
    var before := Available(lim, Lookup(After(lim, run, m), a), s);
    if before < lim.burst {
      var k :| 0 <= k < m && run[k].agent == a && before == Headroom(lim, run, a, k, m, s);
      assert Headroom(lim, run, a, k, m + 1, t) == before - Spent(lim, run, m) + lim.Earned(s, t);
    } else {
      assert Headroom(lim, run, a, m, m + 1, t) == before - Spent(lim, run, m) + lim.Earned(s, t);
    }
  }

  // One more call at time run[i].at would take the window that opens with call k over
  // burst + rps * length.
  ghost predicate Overspent(lim: Limits, run: seq<Call>, k: nat, i: nat)
    requires k <= i < |run|
  {
    1.0 + Granted(lim, run, run[i].agent, k, i) as real > lim.burst + (run[i].at - run[k].at) * lim.rps
  }

  lemma OverspentIs(lim: Limits, run: seq<Call>, k: nat, i: nat)
    requires k <= i < |run|
    ensures Overspent(lim, run, k, i) <==>
      1.0 + Granted(lim, run, run[i].agent, k, i) as real > lim.burst + lim.Earned(run[k].at, run[i].at)
  {
    EarnedIs(lim, run[k].at, run[i].at);
    hide Limits.Earned; hide Granted;
  }

  lemma OverspentIsLackOfHeadroom(lim: Limits, run: seq<Call>, k: nat, i: nat)
    requires lim.Positive() && k <= i < |run|
    ensures Overspent(lim, run, k, i) <==> Headroom(lim, run, run[i].agent, k, i, run[i].at) < 1.0
    ensures k == i ==> Headroom(lim, run, run[i].agent, k, i, run[i].at) == lim.burst
  {
    EarnedSums(lim, run[k].at, run[k].at, run[i].at);
    HeadroomIs(lim, run, run[i].agent, k, i, run[i].at);
    OverspentIs(lim, run, k, i);
    hide Limits.Earned; hide Headroom; hide Overspent;
  }

  // Main result: a call is refused exactly when some window ending with it is over its allowance.
  lemma RefusedIffWindowOverspent(lim: Limits, run: seq<Call>, i: nat)
    requires lim.Positive() && Timed(run) && i < |run|
    ensures !Allowed(lim, run, i)
      <==> exists k :: 0 <= k <= i && run[k].agent == run[i].agent && Overspent(lim, run, k, i)
  {
    hide Limits.Earned; hide Headroom; hide Overspent;
    var a, t := run[i].agent, run[i].at;
    AvailableIsLeastHeadroom(lim, run, a, i, t);
    var tokens := Available(lim, Lookup(After(lim, run, i), a), t);
    assert Allowed(lim, run, i) == (tokens >= 1.0);
    forall k | 0 <= k <= i
      ensures Overspent(lim, run, k, i) <==> Headroom(lim, run, a, k, i, t) < 1.0
    {
      OverspentIsLackOfHeadroom(lim, run, k, i);
    }
    OverspentIsLackOfHeadroom(lim, run, i, i);
    if tokens < 1.0 {
      var k: nat := if tokens == lim.burst then i else
        var k :| 0 <= k < i && run[k].agent == a && tokens == Headroom(lim, run, a, k, i, t); k;
      assert Overspent(lim, run, k, i);
    }
  }

  lemma {:induction false} GrantedSkipsOthers(lim: Limits, run: seq<Call>, a: AgentId, k: nat, n: nat)
    requires k < n <= |run| && run[k].agent != a
    ensures Granted(lim, run, a, k, n) == Granted(lim, run, a, k + 1, n)
  {
    if k + 1 < n { GrantedSkipsOthers(lim, run, a, k, n - 1); }
  }

  lemma {:induction false} WindowEarned(lim: Limits, run: seq<Call>, a: AgentId, k: nat, n: nat, from: real, to: real)
    requires lim.Positive() && Timed(run) && k < n <= |run|
    requires from <= run[k].at && run[n - 1].at <= to
    ensures Granted(lim, run, a, k, n) as real <= lim.burst + lim.Earned(from, to)
    decreases n - k
  {
    EarnedAdds(lim, from, run[k].at, to);
    EarnedAdds(lim, run[k].at, run[n - 1].at, to);
    hide Limits.Earned; hide Allowed; hide After; hide Overspent;
    assert Granted(lim, run, a, k, k) == 0 && Granted(lim, run, a, k + 1, k + 1) == 0;
    if run[k].agent != a {
      GrantedSkipsOthers(lim, run, a, k, n);
      if k + 1 < n { WindowEarned(lim, run, a, k + 1, n, from, to); }
    } else if run[n - 1].agent == a && Allowed(lim, run, n - 1) {
      RefusedIffWindowOverspent(lim, run, n - 1);
      OverspentIs(lim, run, k, n - 1);
      assert !Overspent(lim, run, k, n - 1);
    } else if k + 1 < n {
      WindowEarned(lim, run, a, k, n - 1, from, to);
    }
  }

  // Main result: over any stretch of time an agent gets at most burst + rps * length calls.
  lemma WindowBound(lim: Limits, run: seq<Call>, a: AgentId, k: nat, n: nat, from: real, to: real)
    requires lim.Positive() && Timed(run) && k < n <= |run|
    requires from <= run[k].at && run[n - 1].at <= to
    ensures Granted(lim, run, a, k, n) as real <= lim.burst + (to - from) * lim.rps
  {
    hide Limits.Earned; hide Granted;
    WindowEarned(lim, run, a, k, n, from, to);
    EarnedIs(lim, from, to);
  }

  // Any two calls of agent a are at least 1/rps apart.
  ghost predicate Spaced(lim: Limits, run: seq<Call>, a: AgentId)
    requires lim.Positive()
  {
    forall i, j | 0 <= i < j < |run| && run[i].agent == a && run[j].agent == a ::
      run[j].at - run[i].at >= 1.0 / lim.rps
  }

  lemma {:induction false} SpacedKeepsUp(lim: Limits, run: seq<Call>, a: AgentId, k: nat, n: nat, i: nat)
    requires lim.Positive() && Timed(run) && Spaced(lim, run, a)
    requires k < n <= i < |run| && run[k].agent == a && run[i].agent == a
    ensures Granted(lim, run, a, k, n) as real <= lim.Earned(run[k].at, run[i].at)
    decreases n
  {
    var m := n - 1;
    EarnedAdds(lim, run[k].at, run[m].at, run[i].at);
    hide Limits.Earned; hide Allowed; hide After;
    assert Granted(lim, run, a, k, k) == 0;
    if run[m].agent == a {
      if k < m { SpacedKeepsUp(lim, run, a, k, m, m); }
    } else {
      SpacedKeepsUp(lim, run, a, k, m, i);
    }
  }

  // An agent that keeps to the configured rate is never refused, as long as one token fits.
  lemma SpacedNeverRefused(lim: Limits, run: seq<Call>, i: nat)
    requires lim.Positive() && Timed(run) && i < |run| && Spaced(lim, run, run[i].agent)
    requires lim.burst >= 1.0
    ensures Allowed(lim, run, i)
  {
    EarnedAdds(lim, run[i].at, run[i].at, run[i].at);
    hide Limits.Earned; hide Overspent; hide Allowed;
    OverspentIs(lim, run, i, i);
    RefusedIffWindowOverspent(lim, run, i);
    forall k | 0 <= k < i && run[k].agent == run[i].agent
      ensures !Overspent(lim, run, k, i)
    {
      SpacedKeepsUp(lim, run, run[i].agent, k, i, i);
      OverspentIs(lim, run, k, i);
    }
  }

  // With a burst below one the limiter never lets anything through; otherwise an agent's
  // first call always passes. So `burst >= 1` above cannot be dropped.
  lemma FirstCallAllowedIffBurst(lim: Limits, run: seq<Call>, i: nat)
    requires lim.Positive() && Timed(run) && i < |run|
    ensures lim.burst < 1.0 ==> !Allowed(lim, run, i)
    ensures lim.burst >= 1.0 && (forall j | 0 <= j < i :: run[j].agent != run[i].agent) ==> Allowed(lim, run, i)
  {
    hide Limits.Earned;
    AvailableIsLeastHeadroom(lim, run, run[i].agent, i, run[i].at);
  }

  // --- Invisible calls ---

  // The calls among the first n that `keep` marks.
  function Filter(run: seq<Call>, keep: seq<bool>, n: nat): seq<Call>
    requires n <= |run| == |keep|
  {
    if n == 0 then []
    else Filter(run, keep, n - 1) + if keep[n - 1] then [run[n - 1]] else []
  }

  // Only refused calls of agent a are dropped; calls of other agents may be dropped freely.
  ghost predicate DropsOnlyRefused(lim: Limits, run: seq<Call>, keep: seq<bool>, a: AgentId)
    requires |run| == |keep|
  {
    forall i | 0 <= i < |run| && !keep[i] && run[i].agent == a :: !Allowed(lim, run, i)
  }

  lemma {:induction false} FilterExtends(run: seq<Call>, keep: seq<bool>, n: nat, m: nat)
    requires n <= m <= |run| == |keep|
    ensures Filter(run, keep, n) <= Filter(run, keep, m)
  {
    if n < m { FilterExtends(run, keep, n, m - 1); }
  }

  lemma {:induction false} AfterDependsOnPrefix(lim: Limits, run: seq<Call>, other: seq<Call>, n: nat)
    requires n <= |run| && run <= other
    ensures After(lim, run, n) == After(lim, other, n)
  {
    hide Limits.Earned;
    if n > 0 { AfterDependsOnPrefix(lim, run, other, n - 1); }
  }

  // Capped refills compose: refilling at s without spending changes nothing seen at t >= s.
  lemma RefillsCompose(lim: Limits, level: Option<Level>, s: real, t: real)
    requires lim.Positive() && s <= t
    requires level.Some? ==> level.value.last <= s
    ensures Available(lim, Some(Level(Available(lim, level, s), s)), t) == Available(lim, level, t)
  {
    var last := if level.Some? then level.value.last else s;
    EarnedAdds(lim, last, s, t);
    EarnedAdds(lim, s, t, t);
    hide Limits.Earned;
  }

  lemma {:induction false} LastIsOld(lim: Limits, run: seq<Call>, a: AgentId, n: nat, t: real)
    requires n <= |run| && forall j | 0 <= j < n :: run[j].at <= t
    ensures a in After(lim, run, n) ==> After(lim, run, n)[a].last <= t
  {
    if n > 0 { LastIsOld(lim, run, a, n - 1, t); }
  }

  lemma {:induction false} FilteredBucketLooksTheSame(lim: Limits, run: seq<Call>, keep: seq<bool>, a: AgentId, n: nat,
                                                      t: real)
    requires lim.Positive() && Timed(run) && n <= |run| == |keep| && DropsOnlyRefused(lim, run, keep, a)
    requires forall j | 0 <= j < n :: run[j].at <= t
    ensures var kept := Filter(run, keep, n);
      Available(lim, Lookup(After(lim, kept, |kept|), a), t) == Available(lim, Lookup(After(lim, run, n), a), t)
  {
    hide Limits.Earned;
    if n > 0 {
      var m, s := n - 1, run[n - 1].at;
      var short, kept := Filter(run, keep, m), Filter(run, keep, n);
      AfterDependsOnPrefix(lim, short, kept, |short|);
      if run[m].agent != a {
        FilteredBucketLooksTheSame(lim, run, keep, a, m, t);
        assert Lookup(After(lim, run, n), a) == Lookup(After(lim, run, m), a);
        assert Lookup(After(lim, kept, |kept|), a) == Lookup(After(lim, short, |short|), a);
      } else {
        FilteredBucketLooksTheSame(lim, run, keep, a, m, s);
        if keep[m] {
          assert After(lim, kept, |kept|)[a] == After(lim, run, n)[a];
        } else {
          FilteredBucketLooksTheSame(lim, run, keep, a, m, t);
          LastIsOld(lim, run, a, m, s);
          RefillsCompose(lim, Lookup(After(lim, run, m), a), s, t);
          assert !Allowed(lim, run, m);
          assert kept == short;
        }
      }
    }
  }

  // Main result: dropping any refused calls of agent a, and any calls of other agents, leaves
  // the decision on every kept call of a as it was.
  lemma RefusedAndForeignCallsInvisible(lim: Limits, run: seq<Call>, keep: seq<bool>, i: nat)
    requires lim.Positive() && Timed(run) && |run| == |keep| && i < |run| && keep[i]
    requires DropsOnlyRefused(lim, run, keep, run[i].agent)
    ensures var kept, pos := Filter(run, keep, |run|), |Filter(run, keep, i)|;
      pos < |kept| && kept[pos] == run[i] && Allowed(lim, kept, pos) == Allowed(lim, run, i)
  {
    hide Limits.Earned;
    var kept, short := Filter(run, keep, |run|), Filter(run, keep, i);
    FilterExtends(run, keep, i + 1, |run|);
    FilterExtends(run, keep, i, |run|);
    assert Filter(run, keep, i + 1) == short + [run[i]];
    AfterDependsOnPrefix(lim, short, kept, |short|);
    FilteredBucketLooksTheSame(lim, run, keep, run[i].agent, i, run[i].at);
  }
}
