/**
 The three token bucket limiters: pkg/engines/limiter/request_limiter.go (one bucket),
 request_color_marker.go (the first tier with a token), request_color_limiter.go (own tier and tier 0
 together, with a reservation).
 */
module RequestLimiters {
  import opened Prelude
  import opened TokenBucket

  // ----- One bucket -----

  function Attempt(c: Config, e: Option<Entry>, now: int): (Option<Entry>, bool) {
    if Level(c, e, now) >= 1 then (Some(Entry(Level(c, e, now) - 1, now)), true) else (e, false)
  }

  /** HMGET and refill: the part every script starts with. */
  method BucketTokens(c: Config, ttl: int, hash: Option<Entry>, now: int) returns (tokens: int)
    ensures tokens == Level(c, Visible(ttl, hash, now), now)
  {
    var seen := Visible(ttl, hash, now);
    tokens := if seen.Some? then seen.value.tokens else c.burst;
    var lastRefill := if seen.Some? then seen.value.last else now;
    var elapsed := now - lastRefill;
    var tokensToAdd := (elapsed as real * c.rate).Floor;
    tokens := Min(c.burst, tokens + tokensToAdd);
  }

  /** The hash behind one limiter key; it expires ttl seconds after its last write. */
  class RequestLimiter {
    const config: Config
    const ttl: int
    var hash: Option<Entry>

    constructor (config: Config, ttl: int)
      ensures this.config == config && this.ttl == ttl && hash == None
    {
      this.config, this.ttl, hash := config, ttl, None;
    }

    /** The script of allow. */
    method Allow(now: int) returns (allowed: bool, tokens: int)
      modifies `hash
      ensures var seen := Visible(ttl, old(hash), now);
        && allowed == Attempt(config, seen, now).1
        && hash == (if allowed then Attempt(config, seen, now).0 else old(hash))
        && tokens == Level(config, seen, now) - (if allowed then 1 else 0)
    {
      tokens := BucketTokens(config, ttl, hash, now);
      allowed := false;
      if tokens >= 1 {
        tokens := tokens - 1;
        allowed := true;
        hash := Some(Entry(tokens, now));
      }
    }
  }

  /** Decisions for attempts at the given times; ttl None never expires. */
  function Decisions(c: Config, ttl: Option<int>, e: Option<Entry>, times: seq<int>): (seq<bool>, Option<Entry>) {
    if times == [] then ([], e)
    else
      var (ds, mid) := Decisions(c, ttl, e, times[..|times| - 1]);
      var now := times[|times| - 1];
      var seen := if ttl.Some? then Visible(ttl.value, mid, now) else mid;
      var (next, ok) := Attempt(c, seen, now);
      (ds + [ok], if ok then next else mid)
  }

  predicate Ordered(times: seq<int>) {
    forall i, j :: 0 <= i <= j < |times| ==> times[i] <= times[j]
  }

  lemma AttemptSane(c: Config, e: Option<Entry>, now: int)
    requires Sane(c, e)
    ensures Sane(c, Attempt(c, e, now).0)
  {
  }

  /** Over every run the bucket with expiry and the one without decide alike and hold the same state. */
  lemma {:induction false} TtlUnobservableInRuns(c: Config, times: seq<int>)
    requires c.burst >= 0 && c.rate > 0.0
    ensures Decisions(c, Some(TtlOf(c)), None, times) == Decisions(c, None, None, times)
    ensures Sane(c, Decisions(c, None, None, times).1)
    decreases |times|
  {
    if times != [] {
      hide TtlOf, Level, Visible;
      var n := |times| - 1;
      TtlUnobservableInRuns(c, times[..n]);
      var mid := Decisions(c, None, None, times[..n]).1;
      TtlUnobservable(c, mid, times[n]);
      AttemptSane(c, mid, times[n]);
    }
  }

  /** The times of the attempts that were admitted. */
  function Admitted(c: Config, e: Option<Entry>, times: seq<int>): seq<int> {
    if times == [] then []
    else
      var rest := Admitted(c, e, times[..|times| - 1]);
      var (ds, _) := Decisions(c, None, e, times);
      if ds[|ds| - 1] then rest + [times[|times| - 1]] else rest
  }

  lemma {:induction false} DecisionsLength(c: Config, ttl: Option<int>, e: Option<Entry>, times: seq<int>)
    ensures |Decisions(c, ttl, e, times).0| == |times|
    decreases |times|
  {
    if times != [] {
      DecisionsLength(c, ttl, e, times[..|times| - 1]);
    }
  }

  /** Rejected attempts leave no trace: the admitted attempts alone produce the same state. */
  lemma {:induction false} RejectionsLeaveNoTrace(c: Config, e: Option<Entry>, times: seq<int>)
    requires Ordered(times) && (times != [] ==> NotBefore(e, times[0]))
    ensures var admits := Admitted(c, e, times);
      && Admissible(c, e, admits)
      && Drained(c, e, admits) == Decisions(c, None, e, times).1
      && (times != [] ==> NotBefore(Drained(c, e, admits), times[|times| - 1]))
      && (admits != [] ==> times != [] && times[0] <= admits[0] && admits[|admits| - 1] <= times[|times| - 1])
    decreases |times|
  {
    hide Level, Admissible, Drained;
    NoAdmits(c, e);
    if times != [] {
      var n := |times| - 1;
      var init, now := times[..n], times[n];
      RejectionsLeaveNoTrace(c, e, init);
      DecisionsLength(c, None, e, init);
      AdmitOnce(c, e, Admitted(c, e, init), now);
      assert init != [] ==> init[|init| - 1] <= now && init[0] == times[0];
    } else {
      assert Admitted(c, e, times) == [];
    }
  }

  /** In any window, whatever was attempted, at most burst + floor(rate * length) requests pass. */
  lemma WindowBoundInRuns(c: Config, e: Option<Entry>, times: seq<int>, t1: int, t2: int)
    requires Sensible(c) && Sane(c, e) && Ordered(times) && t1 <= t2
    requires times != [] ==> NotBefore(e, times[0]) && t1 <= times[0] && times[|times| - 1] <= t2
    ensures |Admitted(c, e, times)| <= c.burst + Gain(c, t2 - t1)
  {
    hide Admissible, Drained, Admitted, Gain;
    RejectionsLeaveNoTrace(c, e, times);
    WindowBound(c, e, Admitted(c, e, times), t1, t2);
  }

  // ----- The marker: first tier with a token -----

  type Buckets = seq<Option<Entry>>

  function VisibleAll(ttls: seq<int>, bs: Buckets, now: int): (r: Buckets)
    requires |ttls| == |bs|
    ensures |r| == |bs|
  {
    seq(|bs|, i requires 0 <= i < |bs| => Visible(ttls[i], bs[i], now))
  }

  predicate TierReady(cs: seq<Config>, bs: Buckets, now: int, i: nat)
    requires i < |cs| == |bs|
  {
    cs[i].burst >= 1 && Level(cs[i], bs[i], now) >= 1
  }

  function FirstReady(cs: seq<Config>, bs: Buckets, now: int, from: nat): (i: nat)
    requires |cs| == |bs| && from <= |cs|
    ensures from <= i <= |cs| && (i < |cs| ==> TierReady(cs, bs, now, i))
    ensures forall k :: from <= k < i ==> !TierReady(cs, bs, now, k)
    decreases |cs| - from
  {
    if from == |cs| || TierReady(cs, bs, now, from) then from else FirstReady(cs, bs, now, from + 1)
  }

  function Mark(cs: seq<Config>, bs: Buckets, now: int): (r: Buckets)
    requires |cs| == |bs|
    ensures |r| == |bs|
  {
    var i := FirstReady(cs, bs, now, 0);
    if i == |cs| then bs else bs[i := Attempt(cs[i], bs[i], now).0]
  }

  /** One acquire with expiring keys. */
  function MarkExpiring(cs: seq<Config>, ttls: seq<int>, bs: Buckets, now: int): (r: Buckets)
    requires |cs| == |ttls| == |bs|
    ensures |r| == |bs|
  {
    var seen := VisibleAll(ttls, bs, now);
    var i := FirstReady(cs, seen, now, 0);
    if i == |cs| then bs else bs[i := Some(Entry(Level(cs[i], seen[i], now) - 1, now))]
  }

  class Marker {
    const configs: seq<Config>
    const ttls: seq<int>
    var hashes: Buckets

    ghost predicate Valid()
      reads this
    {
      |configs| == |ttls| == |hashes|
    }

    constructor (configs: seq<Config>, ttls: seq<int>)
      requires |configs| == |ttls|
      ensures Valid() && this.configs == configs && this.ttls == ttls && hashes == seq(|configs|, _ => None)
    {
      this.configs, this.ttls := configs, ttls;
      hashes := seq(|configs|, _ => None);
    }

    /** The script of allow: 0 means rejected, p + 1 means priority p. Only the found bucket is written. */
    method Acquire(now: int) returns (reply: nat)
      requires Valid()
      modifies `hashes
      ensures Valid()
      ensures reply == |configs| - FirstReady(configs, VisibleAll(ttls, old(hashes), now), now, 0)
      ensures hashes == MarkExpiring(configs, ttls, old(hashes), now)
    {
      hide Level;
      ghost var seen := VisibleAll(ttls, hashes, now);
      var found := 0;
      while found < |configs|
        invariant 0 <= found <= |configs| && hashes == old(hashes)
        invariant FirstReady(configs, seen, now, 0) == FirstReady(configs, seen, now, found)
      {
        if configs[found].burst >= 1 {
          var tokens := BucketTokens(configs[found], ttls[found], hashes[found], now);
          assert tokens == Level(configs[found], seen[found], now);
          if tokens >= 1 {
            hashes := hashes[found := Some(Entry(tokens - 1, now))];
            return |configs| - found;
          }
        }
        found := found + 1;
      }
      return 0;
    }
  }

  function MarkAll(cs: seq<Config>, bs: Buckets, times: seq<int>): (r: Buckets)
    requires |cs| == |bs|
    ensures |r| == |bs|
  {
    if times == [] then bs else Mark(cs, MarkAll(cs, bs, times[..|times| - 1]), times[|times| - 1])
  }

  /** The times at which tier i took the request. */
  function TakenBy(cs: seq<Config>, bs: Buckets, times: seq<int>, i: nat): seq<int>
    requires |cs| == |bs|
  {
    if times == [] then []
    else
      var init, now := times[..|times| - 1], times[|times| - 1];
      TakenBy(cs, bs, init, i) + (if FirstReady(cs, MarkAll(cs, bs, init), now, 0) == i then [now] else [])
  }

  lemma MarkAt(cs: seq<Config>, bs: Buckets, now: int, i: nat)
    requires i < |cs| == |bs|
    ensures Mark(cs, bs, now)[i] ==
      if FirstReady(cs, bs, now, 0) == i then Some(Entry(Level(cs[i], bs[i], now) - 1, now)) else bs[i]
    ensures FirstReady(cs, bs, now, 0) == i ==> Level(cs[i], bs[i], now) >= 1
  {
    hide Level;
    assert FirstReady(cs, bs, now, 0) == i ==> TierReady(cs, bs, now, i);
  }

  lemma {:induction false} TierTrace(cs: seq<Config>, bs: Buckets, times: seq<int>, i: nat)
    requires i < |cs| == |bs| && Ordered(times) && (times != [] ==> NotBefore(bs[i], times[0]))
    ensures var admits := TakenBy(cs, bs, times, i);
      && Admissible(cs[i], bs[i], admits)
      && Drained(cs[i], bs[i], admits) == MarkAll(cs, bs, times)[i]
      && (times != [] ==> NotBefore(Drained(cs[i], bs[i], admits), times[|times| - 1]))
      && (admits != [] ==> times != [] && times[0] <= admits[0] && admits[|admits| - 1] <= times[|times| - 1])
    decreases |times|
  {
    hide Level, FirstReady, TierReady, Admissible, Drained, Mark;
    NoAdmits(cs[i], bs[i]);
    if times != [] {
      var n := |times| - 1;
      var init, now := times[..n], times[n];
      TierTrace(cs, bs, init, i);
      MarkAt(cs, MarkAll(cs, bs, init), now, i);
      AdmitOnce(cs[i], bs[i], TakenBy(cs, bs, init, i), now);
      assert TakenBy(cs, bs, init, i) + [] == TakenBy(cs, bs, init, i);
      assert init != [] ==> init[|init| - 1] <= now && init[0] == times[0];
    } else {
      assert TakenBy(cs, bs, times, i) == [];
    }
  }

  /** Every tier of the marker obeys its own window bound. */
  lemma MarkerWindowBound(cs: seq<Config>, bs: Buckets, times: seq<int>, i: nat, t1: int, t2: int)
    requires i < |cs| == |bs| && Sensible(cs[i]) && Sane(cs[i], bs[i]) && Ordered(times) && t1 <= t2
    requires times != [] ==> NotBefore(bs[i], times[0]) && t1 <= times[0] && times[|times| - 1] <= t2
    ensures |TakenBy(cs, bs, times, i)| <= cs[i].burst + Gain(cs[i], t2 - t1)
  {
    hide Admissible, Drained, TakenBy, Gain;
    TierTrace(cs, bs, times, i);
    WindowBound(cs[i], bs[i], TakenBy(cs, bs, times, i), t1, t2);
  }

  // ----- The limiter: own tier and tier 0 together -----

  predicate Ready(cs: seq<Config>, bs: Buckets, tier: nat, now: int)
    requires tier < |cs| == |bs|
  {
    if tier == 0 then Level(cs[0], bs[0], now) >= 1
    else Level(cs[tier], bs[tier], now) >= 1 && Level(cs[0], bs[0], now) > tier
  }

  /** Both buckets debited: the levels are read from seen, the result is written over bs. */
  function Spend(cs: seq<Config>, seen: Buckets, bs: Buckets, tier: nat, now: int): (r: Buckets)
    requires tier < |cs| == |bs| == |seen|
    ensures |r| == |bs|
  {
    var top := Some(Entry(Level(cs[0], seen[0], now) - 1, now));
    if tier == 0 then bs[0 := top]
    else bs[tier := Some(Entry(Level(cs[tier], seen[tier], now) - 1, now))][0 := top]
  }

  function Take(cs: seq<Config>, bs: Buckets, tier: nat, now: int): (r: Buckets)
    requires tier < |cs| == |bs|
    ensures |r| == |bs|
  {
    if Ready(cs, bs, tier, now) then Spend(cs, bs, bs, tier, now) else bs
  }

  /** Debited together or not at all. */
  lemma TakeAt(cs: seq<Config>, bs: Buckets, tier: nat, now: int, i: nat)
    requires tier < |cs| == |bs| && i < |cs|
    ensures var hit := Ready(cs, bs, tier, now) && (i == 0 || i == tier);
      && Take(cs, bs, tier, now)[i] == (if hit then Some(Entry(Level(cs[i], bs[i], now) - 1, now)) else bs[i])
      && (hit ==> Level(cs[i], bs[i], now) >= 1)
  {
    hide Level;
  }

  /** One allow with expiring keys. */
  function TakeExpiring(cs: seq<Config>, ttls: seq<int>, bs: Buckets, tier: nat, now: int): (r: Buckets)
    requires tier < |cs| == |ttls| == |bs|
    ensures |r| == |bs|
  {
    var seen := VisibleAll(ttls, bs, now);
    if Ready(cs, seen, tier, now) then Spend(cs, seen, bs, tier, now) else bs
  }

  class ColorLimiter {
    const configs: seq<Config>
    const ttls: seq<int>
    var hashes: Buckets

    ghost predicate Valid()
      reads this
    {
      |configs| == |ttls| == |hashes| > 0
    }

    constructor (configs: seq<Config>, ttls: seq<int>)
      requires |configs| == |ttls| > 0
      ensures Valid() && this.configs == configs && this.ttls == ttls && hashes == seq(|configs|, _ => None)
    {
      this.configs, this.ttls := configs, ttls;
      hashes := seq(|configs|, _ => None);
    }

    /** The single-bucket script for tier 0, the dual script otherwise: both buckets are debited or neither. */
    method Allow(tier: nat, now: int) returns (allowed: bool)
      requires Valid() && tier < |configs|
      modifies `hashes
      ensures Valid() && allowed == Ready(configs, VisibleAll(ttls, old(hashes), now), tier, now)
      ensures hashes == TakeExpiring(configs, ttls, old(hashes), tier, now)
    {
      hide Level;
      allowed := false;
      var tier0Tokens := BucketTokens(configs[0], ttls[0], hashes[0], now);
      if tier == 0 {
        if tier0Tokens >= 1 {
          hashes := hashes[0 := Some(Entry(tier0Tokens - 1, now))];
          allowed := true;
        }
        return;
      }
      var ownTokens := BucketTokens(configs[tier], ttls[tier], hashes[tier], now);
      if ownTokens >= 1 && tier0Tokens > tier {
        allowed := true;
        hashes := hashes[tier := Some(Entry(ownTokens - 1, now))];
        hashes := hashes[0 := Some(Entry(tier0Tokens - 1, now))];
      }
    }
  }

  datatype Request = Request(tier: nat, now: int)

  function TakeAll(cs: seq<Config>, bs: Buckets, rs: seq<Request>): (r: Buckets)
    requires |cs| == |bs| && forall q :: q in rs ==> q.tier < |cs|
    ensures |r| == |bs|
  {
    if rs == [] then bs
    else
      var n := |rs| - 1;
      assert rs[n] in rs;
      Take(cs, TakeAll(cs, bs, rs[..n]), rs[n].tier, rs[n].now)
  }

  /** The admission times that debit bucket i: all admissions for tier 0, its own ones otherwise. */
  function Debits(cs: seq<Config>, bs: Buckets, rs: seq<Request>, i: nat): seq<int>
    requires |cs| == |bs| && forall q :: q in rs ==> q.tier < |cs|
  {
    if rs == [] then []
    else
      var n := |rs| - 1;
      assert rs[n] in rs;
      Debits(cs, bs, rs[..n], i) +
      (if Ready(cs, TakeAll(cs, bs, rs[..n]), rs[n].tier, rs[n].now) && (i == 0 || rs[n].tier == i)
       then [rs[n].now] else [])
  }

  predicate InOrder(rs: seq<Request>) {
    forall i, j :: 0 <= i <= j < |rs| ==> rs[i].now <= rs[j].now
  }

  lemma NoRequests(cs: seq<Config>, bs: Buckets, i: nat)
    requires |cs| == |bs|
    ensures TakeAll(cs, bs, []) == bs && Debits(cs, bs, [], i) == []
  {
  }

  lemma OneMoreRequest(cs: seq<Config>, bs: Buckets, rs: seq<Request>, i: nat)
    requires |cs| == |bs| && rs != [] && forall q :: q in rs ==> q.tier < |cs|
    ensures var n := |rs| - 1;
      var before := TakeAll(cs, bs, rs[..n]);
      rs[n] in rs && TakeAll(cs, bs, rs) == Take(cs, before, rs[n].tier, rs[n].now) &&
      Debits(cs, bs, rs, i) == Debits(cs, bs, rs[..n], i) +
        (if Ready(cs, before, rs[n].tier, rs[n].now) && (i == 0 || rs[n].tier == i) then [rs[n].now] else [])
    ensures InOrder(rs) ==> InOrder(rs[..|rs| - 1])
  {
    hide Take, Ready;
  }

  lemma {:induction false} DebitTrace(cs: seq<Config>, bs: Buckets, rs: seq<Request>, i: nat)
    requires i < |cs| == |bs| && (forall q :: q in rs ==> q.tier < |cs|)
    requires InOrder(rs) && (rs != [] ==> NotBefore(bs[i], rs[0].now))
    ensures var debits := Debits(cs, bs, rs, i);
      && Admissible(cs[i], bs[i], debits)
      && Drained(cs[i], bs[i], debits) == TakeAll(cs, bs, rs)[i]
      && (rs != [] ==> NotBefore(Drained(cs[i], bs[i], debits), rs[|rs| - 1].now))
      && (debits != [] ==> rs != [] && rs[0].now <= debits[0] && debits[|debits| - 1] <= rs[|rs| - 1].now)
    decreases |rs|
  {
    hide Level, Take, Ready, Admissible, Drained, Debits, TakeAll;
    NoAdmits(cs[i], bs[i]);
    NoRequests(cs, bs, i);
    if rs != [] {
      var n := |rs| - 1;
      var init, q := rs[..n], rs[n];
      OneMoreRequest(cs, bs, rs, i);
      DebitTrace(cs, bs, init, i);
      TakeAt(cs, TakeAll(cs, bs, init), q.tier, q.now, i);
      AdmitOnce(cs[i], bs[i], Debits(cs, bs, init, i), q.now);
      assert Debits(cs, bs, init, i) + [] == Debits(cs, bs, init, i);
      assert init != [] ==> init[|init| - 1].now <= q.now && init[0] == rs[0];
    }
  }

  /** All tiers together obey tier 0's window bound, and every tier obeys its own. */
  lemma LimiterWindowBound(cs: seq<Config>, bs: Buckets, rs: seq<Request>, i: nat, t1: int, t2: int)
    requires i < |cs| == |bs| && (forall q :: q in rs ==> q.tier < |cs|)
    requires Sensible(cs[i]) && Sane(cs[i], bs[i]) && InOrder(rs) && t1 <= t2
    requires rs != [] ==> NotBefore(bs[i], rs[0].now) && t1 <= rs[0].now && rs[|rs| - 1].now <= t2
    ensures |Debits(cs, bs, rs, i)| <= cs[i].burst + Gain(cs[i], t2 - t1)
  {
    hide Admissible, Drained, Debits, Gain, TakeAll;
    DebitTrace(cs, bs, rs, i);
    WindowBound(cs[i], bs[i], Debits(cs, bs, rs, i), t1, t2);
  }

  /** n requests of the highest priority, all at the same instant. */
  function Burst(n: nat, now: int): (rs: seq<Request>)
    ensures |rs| == n && forall q :: q in rs ==> q == Request(0, now)
  {
    seq(n, _ => Request(0, now))
  }

  lemma {:induction false} TokensLast(cs: seq<Config>, bs: Buckets, n: nat, now: int)
    requires |cs| == |bs| > 0 && cs[0].burst >= n && Level(cs[0], bs[0], now) >= n
    ensures |Debits(cs, bs, Burst(n, now), 0)| == n
    ensures Level(cs[0], TakeAll(cs, bs, Burst(n, now))[0], now) >= Level(cs[0], bs[0], now) - n
    decreases n
  {
    if n > 0 {
      var rs := Burst(n, now);
      assert rs[..n - 1] == Burst(n - 1, now);
      assert rs[n - 1] in rs;
      TokensLast(cs, bs, n - 1, now);
      TakeAt(cs, TakeAll(cs, bs, Burst(n - 1, now)), 0, now, 0);
      assert Gain(cs[0], 0) == 0;
    }
  }

  /**
   The reservation: right after a tier-k request is admitted, the next k requests of the highest priority
   are admitted even if the clock stands still.
   */
  lemma ReservationHonoured(cs: seq<Config>, bs: Buckets, k: nat, now: int)
    requires 0 < k < |cs| == |bs| && Ready(cs, bs, k, now)
    ensures var after := Take(cs, bs, k, now);
      |Debits(cs, after, Burst(k, now), 0)| == k
  {
    hide TakeAll, Debits;
    var after := Take(cs, bs, k, now);
    assert Gain(cs[0], 0) == 0;
    assert Level(cs[0], after[0], now) >= k;
    TokensLast(cs, after, k, now);
  }
}
