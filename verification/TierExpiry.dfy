/**
 Expiry of tiered token buckets: the constructors of pkg/engines/limiter/request_color_limiter.go (lines
 74-88) and request_color_marker.go choose rates and TTLs so that no run of either engine can tell whether
 its keys expire.
 */
module TierExpiry {
  import opened Prelude
  import opened TokenBucket
  import opened RequestLimiters

  /** A disabled tier never fills; every other one lives long enough to be full when it expires. */
  predicate TimedAt(c: Config, ttl: int) {
    if c.burst <= 0 then c.rate == 0.0 else c.rate > 0.0 && ttl == TtlOf(c)
  }

  predicate Timed(cs: seq<Config>, ttls: seq<int>) {
    |cs| == |ttls| && forall i :: 0 <= i < |cs| ==> TimedAt(cs[i], ttls[i])
  }

  /** The constructors' loop; the window is in seconds. */
  method FillTiers(limits: seq<int>, window: real) returns (configs: seq<Config>, ttls: seq<int>)
    requires window > 0.0
    ensures Timed(configs, ttls) && |configs| == |limits|
    ensures forall i :: 0 <= i < |limits| ==>
      configs[i].burst == limits[i] && (limits[i] > 0 ==> configs[i].rate * window == limits[i] as real)
  {
    configs, ttls := [], [];
    for i := 0 to |limits|
      invariant |configs| == |ttls| == i && Timed(configs, ttls)
      invariant forall k :: 0 <= k < i ==>
        configs[k].burst == limits[k] && (limits[k] > 0 ==> configs[k].rate * window == limits[k] as real)
    {
      if limits[i] <= 0 {
        configs, ttls := configs + [Config(limits[i], 0.0)], ttls + [1];
      } else {
        var c := Config(limits[i], limits[i] as real / window);
        assert c.rate > 0.0;
        var ttlSec := Ceil(c.burst as real / c.rate) + 1;
        if ttlSec < 1 {
          ttlSec := 1;
        }
        configs, ttls := configs + [c], ttls + [ttlSec];
      }
    }
  }

  predicate SaneTier(c: Config, e: Option<Entry>) {
    if c.burst <= 0 then e == None else Sane(c, e)
  }

  predicate SaneTiers(cs: seq<Config>, bs: Buckets) {
    |cs| == |bs| && forall i :: 0 <= i < |cs| ==> SaneTier(cs[i], bs[i])
  }

  lemma LevelAlike(c: Config, ttl: int, e: Option<Entry>, now: int)
    requires TimedAt(c, ttl) && SaneTier(c, e)
    ensures Level(c, Visible(ttl, e, now), now) == Level(c, e, now)
    ensures c.burst <= 0 ==> Level(c, e, now) <= 0
    ensures Level(c, e, now) <= Max(0, c.burst)
  {
    hide TtlOf;
    if c.burst > 0 {
      TtlUnobservable(c, e, now);
    }
  }

  lemma Spent(c: Config, e: Option<Entry>, now: int)
    requires c.burst > 0 && 1 <= Level(c, e, now) <= c.burst
    ensures SaneTier(c, Some(Entry(Level(c, e, now) - 1, now)))
  {
    hide Level;
  }

  // ----- The marker -----

  function MarkAllExpiring(cs: seq<Config>, ttls: seq<int>, bs: Buckets, times: seq<int>): (r: Buckets)
    requires |cs| == |ttls| == |bs|
    ensures |r| == |bs|
  {
    if times == [] then bs
    else MarkExpiring(cs, ttls, MarkAllExpiring(cs, ttls, bs, times[..|times| - 1]), times[|times| - 1])
  }

  lemma {:induction false} FirstReadyAlike(cs: seq<Config>, ttls: seq<int>, bs: Buckets, now: int, from: nat)
    requires Timed(cs, ttls) && SaneTiers(cs, bs) && from <= |cs|
    ensures FirstReady(cs, VisibleAll(ttls, bs, now), now, from) == FirstReady(cs, bs, now, from)
    decreases |cs| - from
  {
    hide Level, TimedAt, SaneTier;
    if from < |cs| {
      LevelAlike(cs[from], ttls[from], bs[from], now);
      FirstReadyAlike(cs, ttls, bs, now, from + 1);
    }
  }

  lemma MarkAlike(cs: seq<Config>, ttls: seq<int>, bs: Buckets, now: int)
    requires Timed(cs, ttls) && SaneTiers(cs, bs)
    ensures MarkExpiring(cs, ttls, bs, now) == Mark(cs, bs, now)
    ensures SaneTiers(cs, Mark(cs, bs, now))
  {
    hide Level, TimedAt, SaneTier;
    FirstReadyAlike(cs, ttls, bs, now, 0);
    var i := FirstReady(cs, bs, now, 0);
    if i < |cs| {
      LevelAlike(cs[i], ttls[i], bs[i], now);
      Spent(cs[i], bs[i], now);
    }
  }

  /** Over every run, expiring marker keys hold the same buckets and give the next request the same tier. */
  lemma {:induction false} MarkerExpiryUnobservable(cs: seq<Config>, ttls: seq<int>, bs: Buckets, times: seq<int>, now: int)
    requires Timed(cs, ttls) && SaneTiers(cs, bs)
    ensures var kept := MarkAll(cs, bs, times);
      MarkAllExpiring(cs, ttls, bs, times) == kept && SaneTiers(cs, kept) &&
      FirstReady(cs, VisibleAll(ttls, kept, now), now, 0) == FirstReady(cs, kept, now, 0)
    decreases |times|
  {
    hide Mark, MarkExpiring, FirstReady, Timed, SaneTiers;
    TimedSizes(cs, ttls, bs);
    if times != [] {
      var n := |times| - 1;
      MarkerExpiryUnobservable(cs, ttls, bs, times[..n], now);
      MarkAlike(cs, ttls, MarkAll(cs, bs, times[..n]), times[n]);
    }
    FirstReadyAlike(cs, ttls, MarkAll(cs, bs, times), now, 0);
  }

  // ----- The color limiter -----

  function TakeAllExpiring(cs: seq<Config>, ttls: seq<int>, bs: Buckets, rs: seq<Request>): (r: Buckets)
    requires |cs| == |ttls| == |bs| && forall q :: q in rs ==> q.tier < |cs|
    ensures |r| == |bs|
  {
    if rs == [] then bs
    else
      var n := |rs| - 1;
      assert rs[n] in rs;
      TakeExpiring(cs, ttls, TakeAllExpiring(cs, ttls, bs, rs[..n]), rs[n].tier, rs[n].now)
  }

  lemma TakeAlike(cs: seq<Config>, ttls: seq<int>, bs: Buckets, tier: nat, now: int)
    requires tier < |cs| && Timed(cs, ttls) && SaneTiers(cs, bs)
    ensures Ready(cs, VisibleAll(ttls, bs, now), tier, now) == Ready(cs, bs, tier, now)
    ensures TakeExpiring(cs, ttls, bs, tier, now) == Take(cs, bs, tier, now)
    ensures SaneTiers(cs, Take(cs, bs, tier, now))
  {
    hide Level, TimedAt, SaneTier;
    LevelAlike(cs[0], ttls[0], bs[0], now);
    LevelAlike(cs[tier], ttls[tier], bs[tier], now);
    if Ready(cs, bs, tier, now) {
      Spent(cs[0], bs[0], now);
      Spent(cs[tier], bs[tier], now);
    }
  }

  /** Over every run, expiring limiter keys hold the same buckets and the next request is decided alike. */
  lemma {:induction false} LimiterExpiryUnobservable(
    cs: seq<Config>, ttls: seq<int>, bs: Buckets, rs: seq<Request>, tier: nat, now: int)
    requires tier < |cs| && Timed(cs, ttls) && SaneTiers(cs, bs) && forall q :: q in rs ==> q.tier < |cs|
    ensures var kept := TakeAll(cs, bs, rs);
      TakeAllExpiring(cs, ttls, bs, rs) == kept && SaneTiers(cs, kept) &&
      Ready(cs, VisibleAll(ttls, kept, now), tier, now) == Ready(cs, kept, tier, now)
    decreases |rs|
  {
    hide Take, TakeExpiring, Ready, Timed, SaneTiers;
    TimedSizes(cs, ttls, bs);
    if rs != [] {
      var n := |rs| - 1;
      assert rs[n] in rs;
      LimiterExpiryUnobservable(cs, ttls, bs, rs[..n], tier, now);
      TakeAlike(cs, ttls, TakeAll(cs, bs, rs[..n]), rs[n].tier, rs[n].now);
    }
    TakeAlike(cs, ttls, TakeAll(cs, bs, rs), tier, now);
  }

  lemma TimedSizes(cs: seq<Config>, ttls: seq<int>, bs: Buckets)
    requires Timed(cs, ttls) && SaneTiers(cs, bs)
    ensures |cs| == |ttls| == |bs|
  {
  }
}
