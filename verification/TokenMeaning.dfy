/**
 When token bucket limiters must admit a request, in plain arithmetic over the stored tokens, the time of
 the last admission and the rate, without the scripts' floors and minima.
 */
module TokenMeaning {
  import opened Prelude
  import opened TokenBucket
  import opened RequestLimiters
  import opened TierExpiry

  /** What was stored, plus what has flowed in since, makes n tokens, and the bucket can hold as many. */
  predicate HasTokens(c: Config, e: Option<Entry>, now: int, n: int) {
    c.burst >= n &&
    (e.Some? ==> e.value.tokens as real + c.rate * (now - e.value.last) as real >= n as real)
  }

  lemma GainExactly(c: Config, elapsed: int)
    ensures Gain(c, elapsed) as real <= c.rate * elapsed as real < Gain(c, elapsed) as real + 1.0
  {
    assert elapsed as real * c.rate == c.rate * elapsed as real;
  }

  lemma LevelExactly(c: Config, e: Option<Entry>, now: int, n: int)
    ensures Level(c, e, now) >= n <==> HasTokens(c, e, now, n)
  {
    if e.Some? {
      GainExactly(c, now - e.value.last);
    } else {
      GainExactly(c, 0);
    }
  }

  /** One token fewer than there were, stored with the time of the call. */
  predicate Debited(c: Config, before: Option<Entry>, now: int, after: Option<Entry>) {
    && after.Some? && after.value.last == now
    && HasTokens(c, before, now, after.value.tokens + 1) && !HasTokens(c, before, now, after.value.tokens + 2)
  }

  lemma DebitExactly(c: Config, e: Option<Entry>, now: int)
    ensures Debited(c, e, now, Some(Entry(Level(c, e, now) - 1, now)))
  {
    hide Level, HasTokens;
    LevelExactly(c, e, now, Level(c, e, now));
    LevelExactly(c, e, now, Level(c, e, now) + 1);
  }

  /** What flows in during a number of seconds. */
  function Inflow(c: Config, seconds: int): real {
    c.rate * seconds as real
  }

  /** The chosen TTL is one second longer than the least whole number of seconds that fill the bucket. */
  lemma TtlExactly(c: Config)
    requires c.burst > 0 && c.rate > 0.0
    ensures TtlOf(c) >= 2
    ensures Inflow(c, TtlOf(c) - 1) >= c.burst as real > Inflow(c, TtlOf(c) - 2)
  {
    hide Ceil, Inflow;
    var need := c.burst as real / c.rate;
    var n := Ceil(need);
    CeilExactly(need);
    NeedExactly(c.burst as real, c.rate);
    assert n >= 1;
    InflowAround(c, n, need);
    assert TtlOf(c) - 1 == n && TtlOf(c) - 2 == n - 1;
  }

  lemma InflowAround(c: Config, n: int, need: real)
    requires c.rate > 0.0 && n as real >= need > (n - 1) as real && c.rate * need == c.burst as real
    ensures Inflow(c, n) >= c.burst as real > Inflow(c, n - 1)
  {
    var above, below := n as real, (n - 1) as real;
    Around(c.rate, above, need, below);
    assert Inflow(c, n) == c.rate * above && Inflow(c, n - 1) == c.rate * below;
  }

  lemma Around(r: real, above: real, need: real, below: real)
    requires r > 0.0 && above >= need > below
    ensures r * above >= r * need > r * below
  {
    Scaled(r, need, above);
    Scaled(r, below, need);
  }

  lemma CeilExactly(x: real)
    ensures Ceil(x) as real >= x > (Ceil(x) - 1) as real
  {
  }

  lemma NeedExactly(burst: real, rate: real)
    requires burst > 0.0 && rate > 0.0
    ensures burst / rate > 0.0 && rate * (burst / rate) == burst
  {
    var need := burst / rate;
    assert need * rate == burst;
    assert need <= 0.0 ==> need * rate <= 0.0;
  }

  lemma Scaled(r: real, x: real, y: real)
    requires r > 0.0
    ensures x <= y ==> r * x <= r * y
    ensures x < y ==> r * x < r * y
  {
    assert r * y - r * x == r * (y - x);
  }

  // ----- One bucket -----

  /** A request is admitted exactly when a token is there; admission takes one, rejection changes nothing. */
  lemma AttemptExactly(c: Config, e: Option<Entry>, now: int)
    ensures var (after, ok) := Attempt(c, e, now);
      (ok <==> HasTokens(c, e, now, 1)) && (if ok then Debited(c, e, now, after) else after == e)
  {
    hide Level, HasTokens, Debited;
    LevelExactly(c, e, now, 1);
    DebitExactly(c, e, now);
  }

  /** Over every run, the next request is admitted exactly when the bucket the run leaves has a token. */
  lemma NextAdmittedExactly(c: Config, times: seq<int>, now: int)
    requires c.burst >= 0 && c.rate > 0.0
    ensures Decisions(c, Some(TtlOf(c)), None, times + [now]).0 ==
      Decisions(c, None, None, times).0 + [HasTokens(c, Decisions(c, None, None, times).1, now, 1)]
  {
    hide HasTokens, Attempt, TtlOf;
    TtlUnobservableInRuns(c, times + [now]);
    assert (times + [now])[..|times|] == times;
    AttemptExactly(c, Decisions(c, None, None, times).1, now);
  }

  /** In particular once the rate has brought one token since the last admission. */
  lemma AdmittedAfterPauseInRuns(c: Config, times: seq<int>, now: int)
    requires c.burst >= 1 && c.rate > 0.0
    requires var e := Decisions(c, None, None, times).1;
      e.Some? ==> c.rate * (now - e.value.last) as real >= 1.0
    ensures var n := |times|;
      |Decisions(c, Some(TtlOf(c)), None, times + [now]).0| == n + 1 &&
      Decisions(c, Some(TtlOf(c)), None, times + [now]).0[n]
  {
    hide Attempt, TtlOf;
    NextAdmittedExactly(c, times, now);
    TtlUnobservableInRuns(c, times);
    DecisionsLength(c, None, None, times);
  }

  /** The window bound in reals: burst plus what flows in during the window. */
  lemma WindowBoundInReals(c: Config, e: Option<Entry>, times: seq<int>, t1: int, t2: int)
    requires Sensible(c) && Sane(c, e) && Ordered(times) && t1 <= t2
    requires times != [] ==> NotBefore(e, times[0]) && t1 <= times[0] && times[|times| - 1] <= t2
    ensures |Admitted(c, e, times)| as real <= c.burst as real + c.rate * (t2 - t1) as real
  {
    hide Admitted, Gain;
    WindowBoundInRuns(c, e, times, t1, t2);
    GainExactly(c, t2 - t1);
  }

  // ----- The marker -----

  /** Tier i takes the request exactly when it has a token and no higher tier has one; else nobody does. */
  lemma FirstReadyExactly(cs: seq<Config>, bs: Buckets, now: int, i: nat)
    requires |cs| == |bs| && i <= |cs|
    ensures FirstReady(cs, bs, now, 0) == i <==>
      (i < |cs| ==> HasTokens(cs[i], bs[i], now, 1)) && (forall k :: 0 <= k < i ==> !HasTokens(cs[k], bs[k], now, 1))
  {
    hide Level;
    forall k | 0 <= k < |cs| ensures TierReady(cs, bs, now, k) <==> HasTokens(cs[k], bs[k], now, 1) {
      LevelExactly(cs[k], bs[k], now, 1);
    }
    hide HasTokens, TierReady;
    var f := FirstReady(cs, bs, now, 0);
    assert f < |cs| ==> TierReady(cs, bs, now, f);
  }

  /**
   Over every run with expiring keys: the next request is taken by the first tier that has a token, which
   alone is debited; it is rejected, and nothing changes, exactly when no tier has one.
   */
  lemma MarkedExactly(cs: seq<Config>, ttls: seq<int>, start: Buckets, times: seq<int>, now: int, i: nat)
    requires Timed(cs, ttls) && SaneTiers(cs, start) && i < |cs|
    ensures var bs := MarkAll(cs, start, times);
      var after := MarkAllExpiring(cs, ttls, start, times + [now]);
      var here := HasTokens(cs[i], bs[i], now, 1) && forall k :: 0 <= k < i ==> !HasTokens(cs[k], bs[k], now, 1);
      if here then Debited(cs[i], bs[i], now, after[i]) else after[i] == bs[i]
  {
    hide HasTokens, Debited, FirstReady, MarkAllExpiring, Mark, Timed, SaneTiers, Level;
    assert |cs| == |ttls| == |start| by { TimedSizes(cs, ttls, start); }
    var bs := MarkAll(cs, start, times);
    MarkerExpiryUnobservable(cs, ttls, start, times + [now], now);
    assert (times + [now])[..|times|] == times;
    FirstReadyExactly(cs, bs, now, i);
    MarkAt(cs, bs, now, i);
    DebitExactly(cs[i], bs[i], now);
  }

  lemma MarkerBoundInReals(cs: seq<Config>, bs: Buckets, times: seq<int>, i: nat, t1: int, t2: int)
    requires i < |cs| == |bs| && Sensible(cs[i]) && Sane(cs[i], bs[i]) && Ordered(times) && t1 <= t2
    requires times != [] ==> NotBefore(bs[i], times[0]) && t1 <= times[0] && times[|times| - 1] <= t2
    ensures |TakenBy(cs, bs, times, i)| as real <= cs[i].burst as real + cs[i].rate * (t2 - t1) as real
  {
    hide TakenBy, Gain;
    MarkerWindowBound(cs, bs, times, i, t1, t2);
    GainExactly(cs[i], t2 - t1);
  }

  // ----- The color limiter -----

  /** A token of the own tier, and one more token of tier 0 than are reserved. */
  predicate MayTake(cs: seq<Config>, bs: Buckets, tier: nat, now: int)
    requires tier < |cs| == |bs|
  {
    HasTokens(cs[0], bs[0], now, tier + 1) && (tier > 0 ==> HasTokens(cs[tier], bs[tier], now, 1))
  }

  lemma ReadyExactly(cs: seq<Config>, bs: Buckets, tier: nat, now: int)
    requires tier < |cs| == |bs|
    ensures Ready(cs, bs, tier, now) <==> MayTake(cs, bs, tier, now)
  {
    hide Level, HasTokens;
    LevelExactly(cs[0], bs[0], now, tier + 1);
    LevelExactly(cs[tier], bs[tier], now, 1);
  }

  /**
   Over every run with expiring keys: the next request of a tier must be admitted exactly when its own
   bucket has a token and tier 0 has more than the reserved number; then both are debited, else nothing
   changes, and no other bucket ever does.
   */
  lemma TakenExactly(
    cs: seq<Config>, ttls: seq<int>, start: Buckets, rs: seq<Request>, tier: nat, now: int, i: nat)
    requires tier < |cs| && i < |cs| && Timed(cs, ttls) && SaneTiers(cs, start) && forall q :: q in rs ==> q.tier < |cs|
    ensures var bs := TakeAll(cs, start, rs);
      var after := TakeExpiring(cs, ttls, TakeAllExpiring(cs, ttls, start, rs), tier, now);
      && (Ready(cs, VisibleAll(ttls, TakeAllExpiring(cs, ttls, start, rs), now), tier, now) <==> MayTake(cs, bs, tier, now))
      && (if MayTake(cs, bs, tier, now) && (i == 0 || i == tier) then Debited(cs[i], bs[i], now, after[i])
          else after[i] == bs[i])
  {
    hide HasTokens, Debited, MayTake, Ready, TakeAllExpiring, TakeAll, TakeExpiring, Take, Timed, SaneTiers, Level;
    TimedSizes(cs, ttls, start);
    LimiterExpiryUnobservable(cs, ttls, start, rs, tier, now);
    var bs := TakeAll(cs, start, rs);
    TakeAlike(cs, ttls, bs, tier, now);
    TakeAt(cs, bs, tier, now, i);
    ReadyExactly(cs, bs, tier, now);
    DebitExactly(cs[i], bs[i], now);
  }

  lemma LimiterBoundInReals(cs: seq<Config>, bs: Buckets, rs: seq<Request>, i: nat, t1: int, t2: int)
    requires i < |cs| == |bs| && (forall q :: q in rs ==> q.tier < |cs|)
    requires Sensible(cs[i]) && Sane(cs[i], bs[i]) && InOrder(rs) && t1 <= t2
    requires rs != [] ==> NotBefore(bs[i], rs[0].now) && t1 <= rs[0].now && rs[|rs| - 1].now <= t2
    ensures |Debits(cs, bs, rs, i)| as real <= cs[i].burst as real + cs[i].rate * (t2 - t1) as real
  {
    hide Debits, Gain;
    LimiterWindowBound(cs, bs, rs, i, t1, t2);
    GainExactly(cs[i], t2 - t1);
  }
}
