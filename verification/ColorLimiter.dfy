/**
 The priority concurrency limiter of pkg/engines/limiter/concurrency_color_limiter.go. Tier 0 counts
 everybody; a request of tier k > 0 also takes a slot of its own tier and must leave k slots of tier 0
 free for higher priorities.
 */
module ColorLimiter {
  import opened Leases
  import opened Prelude
  import opened Sums

  // ----- Configuration -----

  function Clamped(per: seq<int>): (r: seq<int>)
    ensures |r| == |per| && forall i :: 0 <= i < |per| ==> r[i] == Clamp(per[i])
  {
    seq(|per|, i requires 0 <= i < |per| => Clamp(per[i]))
  }

  /** buildTotalPlusPerPriorityLimits; the empty result disables the limiter. */
  method BuildLimits(total: int, per: seq<int>) returns (out: seq<int>)
    ensures out == [] <==> total <= 0 && per == []
    ensures out != [] ==>
      && out[1..] == Clamped(per)
      && out[0] == (if total > 0 then total else Sum(Clamped(per)))
      && (forall i :: 0 <= i < |out| ==> out[i] >= 0)
  {
    var clamped: seq<int> := [];
    for i := 0 to |per|
      invariant clamped == Clamped(per)[..i]
    {
      var v := per[i];
      if v < 0 {
        v := 0;
      }
      clamped := clamped + [v];
    }
    assert clamped == Clamped(per);
    if |clamped| == 0 {
      if total <= 0 {
        return [];
      }
      return [total];
    }
    if total > 0 {
      return [total] + clamped;
    }
    var sum := 0;
    for i := 0 to |clamped|
      invariant sum == Sum(clamped[..i])
    {
      assert clamped[..i + 1][..i] == clamped[..i];
      sum := sum + clamped[i];
    }
    assert clamped[..|clamped|] == clamped;
    SumNonNegative(clamped);
    return [sum] + clamped;
  }

  /** The tier a priority is checked against, of n > 0 tiers. */
  function TierOf(priority: int, n: nat): nat
    requires n > 0
  {
    if priority >= n - 1 then 0 else if priority >= 0 then n - 1 - priority else n - 1
  }

  /** Tiers and priorities in range mirror each other; everything else is clamped to the nearest end. */
  lemma TierMirrorsPriority(priority: int, n: nat, tier: nat)
    requires n > 0 && tier < n
    ensures TierOf(priority, n) < n
    ensures TierOf(priority, n) == tier <==>
      (priority == n - 1 - tier || (tier == 0 && priority >= n - 1) || (tier == n - 1 && priority < 0))
  {
  }

  // ----- The scripts -----

  /** All sorted sets of one limiter key: tier 0 and the own tiers. */
  type Tiers = seq<Leases>

  function AcquireSingle(rates: seq<int>, z: Tiers, limit: int, now: int, m: string): (Tiers, bool)
    requires |rates| == |z| > 0
  {
    var live := Purged(z[0], limit);
    if |live| < rates[0] then (z[0 := live[m := now]], true) else (z[0 := live], false)
  }

  function AcquireDual(rates: seq<int>, z: Tiers, tier: nat, limit: int, now: int, m: string): (Tiers, bool)
    requires 0 < tier < |rates| == |z|
  {
    var own, top := Purged(z[tier], limit), Purged(z[0], limit);
    if |own| < rates[tier] && |top| < rates[0] - tier
    then (z[tier := own[m := now]][0 := top[m := now]], true)
    else (z[tier := own][0 := top], false)
  }

  function AcquireAt(rates: seq<int>, z: Tiers, tier: nat, limit: int, now: int, m: string): (Tiers, bool)
    requires tier < |rates| == |z|
  {
    if tier == 0 then AcquireSingle(rates, z, limit, now, m) else AcquireDual(rates, z, tier, limit, now, m)
  }

  function RenewAt(z: Tiers, tier: nat, now: int, m: string): (Tiers, bool)
    requires tier < |z|
  {
    if m !in z[0] || (tier != 0 && m !in z[tier]) then (z, false)
    else ((if tier == 0 then z else z[tier := z[tier][m := now]])[0 := z[0][m := now]], true)
  }

  function ReleaseAt(z: Tiers, tier: nat, m: string): Tiers
    requires tier < |z|
  {
    (if tier == 0 then z else z[tier := Removed(z[tier], m)])[0 := Removed(z[0], m)]
  }

  /** The unexpired leases leave room in tier 0, less the reserved places, and in the own tier. */
  predicate Room(rates: seq<int>, timeout: int, z: Tiers, tier: nat, now: int)
    requires tier < |rates| == |z|
  {
    Unexpired(z[0], timeout, now) < rates[0] - tier &&
    (tier > 0 ==> Unexpired(z[tier], timeout, now) < rates[tier])
  }

  /**
   A request of a tier must be admitted exactly when there is room for it. Tier 0 and the own tier keep
   their unexpired leases and take the member together or not at all; no other set changes.
   */
  lemma AdmittedExactly(rates: seq<int>, timeout: int, z: Tiers, tier: nat, now: int, m: string)
    requires tier < |rates| == |z|
    ensures var (t, ok) := AcquireAt(rates, z, tier, now - timeout, now, m);
      && (ok <==> Room(rates, timeout, z, tier, now))
      && |t| == |z|
      && (forall i :: 0 <= i < |z| ==>
            if i == 0 || i == tier then IsAfter(t[i], z[i], timeout, now, ok, m) else t[i] == z[i])
  {
    hide Purged, IsAfter, Unexpired;
    PurgedCount(z[0], timeout, now);
    PurgedCount(z[tier], timeout, now);
    PurgedIsAfter(z[0], timeout, now, m);
    PurgedIsAfter(z[tier], timeout, now, m);
  }

  lemma RoomDecides(rates: seq<int>, timeout: int, z: Tiers, tier: nat, now: int, m: string)
    requires tier < |rates| == |z|
    ensures AcquireAt(rates, z, tier, now - timeout, now, m).1 <==> Room(rates, timeout, z, tier, now)
  {
    hide AcquireAt, Room, IsAfter;
    AdmittedExactly(rates, timeout, z, tier, now, m);
  }

  /** The shared store; every method is one atomic script. */
  class Store {
    const rates: seq<int>
    const timeout: int
    var tiers: Tiers

    ghost predicate Valid()
      reads this
    {
      |rates| == |tiers| > 0
    }

    constructor (rates: seq<int>, timeout: int)
      requires rates != []
      ensures Valid() && this.rates == rates && this.timeout == timeout && tiers == seq(|rates|, _ => map[])
    {
      this.rates, this.timeout := rates, timeout;
      tiers := seq(|rates|, _ => map[]);
    }

    /** allow: the priority chooses the tier, the tier chooses the script. */
    method Allow(priority: int, now: int, member: string) returns (acquired: bool)
      requires Valid()
      modifies this
      ensures Valid()
      ensures acquired <==> Room(rates, timeout, old(tiers), TierOf(priority, |rates|), now)
      ensures (tiers, acquired) ==
        AcquireAt(rates, old(tiers), TierOf(priority, |rates|), now - timeout, now, member)
    {
      hide Purged, IsAfter, Room, Unexpired;
      RoomDecides(rates, timeout, tiers, TierOf(priority, |rates|), now, member);
      var expireBefore := now - timeout;
      var tier := TierOf(priority, |rates|);
      acquired := false;
      if tier == 0 {
        tiers := tiers[0 := Purged(tiers[0], expireBefore)];
        if |tiers[0]| < rates[0] {
          tiers := tiers[0 := tiers[0][member := now]];
          acquired := true;
        }
      } else {
        tiers := tiers[tier := Purged(tiers[tier], expireBefore)];
        tiers := tiers[0 := Purged(tiers[0], expireBefore)];
        if |tiers[tier]| < rates[tier] && |tiers[0]| < rates[0] - tier {
          tiers := tiers[tier := tiers[tier][member := now]];
          tiers := tiers[0 := tiers[0][member := now]];
          acquired := true;
        }
      }
      assert tiers == AcquireAt(rates, old(tiers), tier, expireBefore, now, member).0;
    }

    /** The single-key renew script for tier 0, the two-key script otherwise. */
    method Renew(tier: nat, now: int, member: string) returns (renewed: bool)
      requires Valid() && tier < |rates|
      modifies this
      ensures Valid() && (tiers, renewed) == RenewAt(old(tiers), tier, now, member)
    {
      renewed := member in tiers[0] && (tier == 0 || member in tiers[tier]);
      if renewed {
        if tier != 0 {
          tiers := tiers[tier := tiers[tier][member := now]];
        }
        tiers := tiers[0 := tiers[0][member := now]];
      }
    }

    method Release(tier: nat, member: string)
      requires Valid() && tier < |rates|
      modifies this
      ensures Valid() && tiers == ReleaseAt(old(tiers), tier, member)
    {
      if tier != 0 {
        tiers := tiers[tier := tiers[tier] - {member}];
      }
      tiers := tiers[0 := tiers[0] - {member}];
    }
  }

  // ----- Runs -----

  datatype Action =
    | Acquire(tier: nat, now: int, member: string)
    | Renew(tier: nat, now: int, member: string)
    | Release(tier: nat, member: string)

  /** home records the tier every admitted member came in by; held is who is still in flight. */
  datatype System = System(z: Tiers, home: map<string, nat>, held: Leases, clock: int)

  predicate WellSized(rates: seq<int>, s: System) {
    |s.z| == |rates| > 0
  }

  function Act(rates: seq<int>, timeout: int, s: System, a: Action): (t: System)
    requires WellSized(rates, s)
    ensures WellSized(rates, t)
  {
    if a.tier >= |rates| then s
    else
      match a
      case Acquire(tier, now, m) =>
        var (z, ok) := AcquireAt(rates, s.z, tier, now - timeout, now, m);
        if ok then System(z, s.home[m := tier], s.held[m := now], now) else s.(z := z, clock := now)
      case Renew(tier, now, m) =>
        var (z, ok) := RenewAt(s.z, tier, now, m);
        System(z, s.home, if ok && m in s.held then s.held[m := now] else s.held, now)
      case Release(tier, m) => s.(z := ReleaseAt(s.z, tier, m), held := Removed(s.held, m))
  }

  /** The clock does not run backwards, ids are fresh, and members renew and release their own tier. */
  predicate Legal(rates: seq<int>, s: System, a: Action) {
    && a.tier < |rates|
    && (a.Acquire? ==> a.now >= s.clock && a.member !in s.home)
    && (a.Renew? ==> a.now >= s.clock && a.member in s.home && s.home[a.member] == a.tier)
    && (a.Release? ==> a.member in s.home && s.home[a.member] == a.tier)
  }

  function Start(n: nat): System {
    System(seq(n, _ => map[]), map[], map[], 0)
  }

  function Run(rates: seq<int>, timeout: int, acts: seq<Action>): (s: System)
    requires rates != []
    ensures WellSized(rates, s)
  {
    if acts == [] then Start(|rates|)
    else Act(rates, timeout, Run(rates, timeout, acts[..|acts| - 1]), acts[|acts| - 1])
  }

  predicate LegalRun(rates: seq<int>, timeout: int, acts: seq<Action>)
    requires rates != []
  {
    acts == [] ||
    (LegalRun(rates, timeout, acts[..|acts| - 1]) &&
     Legal(rates, Run(rates, timeout, acts[..|acts| - 1]), acts[|acts| - 1]))
  }

  // ----- What every reachable state satisfies -----

  /** Every tier set is within its limit. */
  predicate Sizes(rates: seq<int>, s: System)
    requires WellSized(rates, s)
  {
    forall i :: 0 <= i < |rates| ==> |s.z[i]| <= Clamp(rates[i])
  }

  /** The members of tier 0 that came in by tier k or a lower-priority one. */
  function FromBelow(s: System, k: nat): (r: set<string>)
    requires |s.z| > 0
    ensures r <= s.z[0].Keys
  {
    set m | m in s.z[0] && m in s.home && s.home[m] >= k
  }

  /** The reservation: tiers k and below never hold the top k slots of tier 0. */
  ghost predicate Reserved(rates: seq<int>, s: System)
    requires WellSized(rates, s)
  {
    forall k: nat :: |FromBelow(s, k)| <= Clamp(rates[0] - k)
  }

  predicate PlacedAt(s: System, i: nat, m: string)
    requires i < |s.z|
  {
    m in s.z[i] ==> m in s.home && (i == 0 || s.home[m] == i) && 0 <= s.z[i][m] <= s.clock
  }

  /** Members sit in tier 0 and their own tier only, scored by a time between 0 and the clock. */
  ghost predicate Placed(rates: seq<int>, s: System)
    requires WellSized(rates, s)
  {
    && s.clock >= 0
    && (forall m :: m in s.home ==> s.home[m] < |rates|)
    && (forall i, m :: 0 <= i < |rates| ==> PlacedAt(s, i, m))
  }

  /** A member of tier 0 is in its own tier with the same score. */
  predicate Matched(s: System, m: string)
    requires |s.z| > 0
  {
    m in s.z[0] ==>
      m in s.home && s.home[m] < |s.z| && m in s.z[s.home[m]] && s.z[s.home[m]][m] == s.z[0][m]
  }

  /** A member of own tier i that is missing from tier 0 has expired. */
  predicate Expired(timeout: int, s: System, i: nat, m: string)
    requires 0 < i < |s.z|
  {
    m in s.z[i] && m !in s.z[0] ==> s.z[i][m] <= s.clock - timeout
  }

  ghost predicate Agree(rates: seq<int>, timeout: int, s: System)
    requires WellSized(rates, s)
  {
    (forall m :: Matched(s, m)) && (forall i, m :: 0 < i < |rates| ==> Expired(timeout, s, i, m))
  }

  ghost predicate Inv(rates: seq<int>, timeout: int, s: System) {
    WellSized(rates, s) && Sizes(rates, s) && Reserved(rates, s) && Placed(rates, s) && Agree(rates, timeout, s)
  }

  /** What one acquire does to one of the sets: purge it, or leave it, and perhaps add the member. */
  lemma AcquireEffect(rates: seq<int>, z: Tiers, tier: nat, limit: int, now: int, m: string, i: nat)
    requires tier < |rates| == |z| && i < |z|
    ensures var (t, ok) := AcquireAt(rates, z, tier, limit, now, m);
      && |t| == |z|
      && (i != 0 && i != tier ==> t[i] == z[i])
      && (i == 0 || i == tier ==>
          t[i] == if ok then Purged(z[i], limit)[m := now] else Purged(z[i], limit))
      && (ok && (i == 0 || i == tier) ==> |Purged(z[i], limit)| < rates[i])
      && (ok ==> |Purged(z[0], limit)| < rates[0] - tier)
  {
  }

  lemma RenewEffect(z: Tiers, tier: nat, now: int, m: string, i: nat)
    requires tier < |z| && i < |z|
    ensures var (t, ok) := RenewAt(z, tier, now, m);
      && |t| == |z|
      && (ok <==> m in z[0] && m in z[tier])
      && t[i] == if ok && (i == 0 || i == tier) then z[i][m := now] else z[i]
  {
  }

  lemma ReleaseEffect(z: Tiers, tier: nat, m: string, i: nat)
    requires tier < |z| && i < |z|
    ensures var t := ReleaseAt(z, tier, m);
      |t| == |z| && t[i] == if i == 0 || i == tier then Removed(z[i], m) else z[i]
  {
  }

  lemma SizesKept(rates: seq<int>, timeout: int, s: System, a: Action)
    requires WellSized(rates, s) && Sizes(rates, s) && a.tier < |rates|
    ensures Sizes(rates, Act(rates, timeout, s, a))
  {
    hide AcquireAt, RenewAt, ReleaseAt;
    var t := Act(rates, timeout, s, a);
    forall i | 0 <= i < |rates| ensures |t.z[i]| <= Clamp(rates[i]) {
      assert |s.z[i]| <= Clamp(rates[i]);
      match a {
        case Acquire(tier, now, m) =>
          AcquireEffect(rates, s.z, tier, now - timeout, now, m, i);
          PurgedSize(s.z[i], now - timeout);
          AddedSize(Purged(s.z[i], now - timeout), m, now);
        case Renew(tier, now, m) =>
          RenewEffect(s.z, tier, now, m, i);
          AddedSize(s.z[i], m, now);
        case Release(tier, m) =>
          ReleaseEffect(s.z, tier, m, i);
          RemovedSize(s.z[i], m);
      }
    }
  }

  /** Tier 0 gains at most the acquiring member, and then has room left for every higher tier. */
  lemma TopEffect(rates: seq<int>, timeout: int, s: System, a: Action)
    requires WellSized(rates, s) && a.tier < |rates|
    ensures var t := Act(rates, timeout, s, a);
      (t.z[0].Keys <= s.z[0].Keys && t.home == s.home) ||
      (a.Acquire? && t.z[0].Keys <= s.z[0].Keys + {a.member} && t.home == s.home[a.member := a.tier] &&
       |t.z[0]| <= rates[0] - a.tier)
  {
    hide AcquireAt, RenewAt, ReleaseAt, Purged, Removed;
    var t := Act(rates, timeout, s, a);
    match a {
      case Acquire(tier, now, m) =>
        AcquireEffect(rates, s.z, tier, now - timeout, now, m, 0);
        var live := Purged(s.z[0], now - timeout);
        var ok := AcquireAt(rates, s.z, tier, now - timeout, now, m).1;
        if ok {
          AddedSize(live, m, now);
          assert t.z[0] == live[m := now] && live[m := now].Keys == live.Keys + {m};
          assert t.home == s.home[m := tier];
        } else {
          assert t.z[0] == live && t.home == s.home;
        }
      case Renew(tier, now, m) =>
        RenewEffect(s.z, tier, now, m, 0);
        assert m in s.z[0] ==> s.z[0][m := now].Keys == s.z[0].Keys;
        assert t.z[0].Keys <= s.z[0].Keys && t.home == s.home;
      case Release(tier, m) =>
        ReleaseEffect(s.z, tier, m, 0);
        assert t.z[0].Keys <= s.z[0].Keys && t.home == s.home;
    }
  }

  lemma ReservedKept(rates: seq<int>, timeout: int, s: System, a: Action)
    requires WellSized(rates, s) && Reserved(rates, s) && Placed(rates, s) && Legal(rates, s, a)
    ensures Reserved(rates, Act(rates, timeout, s, a))
  {
    TopEffect(rates, timeout, s, a);
    hide Act, Placed;
    var t := Act(rates, timeout, s, a);
    forall k: nat ensures |FromBelow(t, k)| <= Clamp(rates[0] - k) {
      assert |FromBelow(s, k)| <= Clamp(rates[0] - k);
      if FromBelow(t, k) <= FromBelow(s, k) {
        SubsetSize(FromBelow(t, k), FromBelow(s, k));
      } else {
        assert a.Acquire? && a.tier >= k && |t.z[0]| <= rates[0] - a.tier;
        SubsetSize(FromBelow(t, k), t.z[0].Keys);
        assert |t.z[0]| == |t.z[0].Keys|;
      }
    }
  }

  /** One member of one set after one step. */
  lemma PlacedAtKept(rates: seq<int>, timeout: int, s: System, a: Action, i: nat, m: string)
    requires WellSized(rates, s) && Placed(rates, s) && Legal(rates, s, a) && i < |rates|
    ensures var t := Act(rates, timeout, s, a);
      && PlacedAt(t, i, m)
      && (m in t.home ==> t.home[m] < |rates|)
      && t.clock >= 0
  {
    hide AcquireAt, RenewAt, ReleaseAt;
    assert PlacedAt(s, i, m);
    match a {
      case Acquire(tier, now, x) => AcquireEffect(rates, s.z, tier, now - timeout, now, x, i);
      case Renew(tier, now, x) => RenewEffect(s.z, tier, now, x, i);
      case Release(tier, x) => ReleaseEffect(s.z, tier, x, i);
    }
  }

  lemma PlacedKept(rates: seq<int>, timeout: int, s: System, a: Action)
    requires WellSized(rates, s) && Placed(rates, s) && Legal(rates, s, a)
    ensures Placed(rates, Act(rates, timeout, s, a))
  {
    hide Act, Legal, PlacedAt;
    var t := Act(rates, timeout, s, a);
    PlacedAtKept(rates, timeout, s, a, 0, "");
    forall i: nat, m | i < |rates| ensures PlacedAt(t, i, m) {
      PlacedAtKept(rates, timeout, s, a, i, m);
    }
    forall m | m in t.home ensures t.home[m] < |rates| {
      PlacedAtKept(rates, timeout, s, a, 0, m);
    }
  }

  lemma MatchedKept(rates: seq<int>, timeout: int, s: System, a: Action, m: string)
    requires WellSized(rates, s) && Placed(rates, s) && Matched(s, m) && Legal(rates, s, a)
    ensures Matched(Act(rates, timeout, s, a), m)
  {
    hide AcquireAt, RenewAt, ReleaseAt;
    var h := if m in s.home then s.home[m] else a.tier;
    assert h < |rates|;
    NewcomerOrHome(rates, s, m);
    hide Placed;
    match a {
      case Acquire(tier, now, x) =>
        AcquireEffect(rates, s.z, tier, now - timeout, now, x, 0);
        AcquireEffect(rates, s.z, tier, now - timeout, now, x, h);
      case Renew(tier, now, x) =>
        RenewEffect(s.z, tier, now, x, 0);
        RenewEffect(s.z, tier, now, x, h);
      case Release(tier, x) =>
        ReleaseEffect(s.z, tier, x, 0);
        ReleaseEffect(s.z, tier, x, h);
    }
  }

  lemma NewcomerOrHome(rates: seq<int>, s: System, m: string)
    requires WellSized(rates, s) && Placed(rates, s)
    ensures m !in s.home ==> m !in s.z[0]
    ensures m in s.home ==> s.home[m] < |rates|
  {
    assert PlacedAt(s, 0, m);
  }

  lemma ExpiredKept(rates: seq<int>, timeout: int, s: System, a: Action, i: nat, m: string)
    requires WellSized(rates, s) && Placed(rates, s) && Legal(rates, s, a) && 0 < i < |rates|
    requires Matched(s, m) && Expired(timeout, s, i, m)
    ensures Expired(timeout, Act(rates, timeout, s, a), i, m)
  {
    hide AcquireAt, RenewAt, ReleaseAt;
    if m in s.z[i] {
      OwnTier(rates, s, i, m);
    }
    hide Placed;
    match a {
      case Acquire(tier, now, x) =>
        AcquireEffect(rates, s.z, tier, now - timeout, now, x, 0);
        AcquireEffect(rates, s.z, tier, now - timeout, now, x, i);
      case Renew(tier, now, x) =>
        RenewEffect(s.z, tier, now, x, 0);
        RenewEffect(s.z, tier, now, x, i);
      case Release(tier, x) =>
        ReleaseEffect(s.z, tier, x, 0);
        ReleaseEffect(s.z, tier, x, i);
    }
  }

  lemma OwnTier(rates: seq<int>, s: System, i: nat, m: string)
    requires WellSized(rates, s) && Placed(rates, s) && 0 < i < |rates| && m in s.z[i]
    ensures m in s.home && s.home[m] == i
  {
    assert PlacedAt(s, i, m);
  }

  lemma AgreeKept(rates: seq<int>, timeout: int, s: System, a: Action)
    requires WellSized(rates, s) && Placed(rates, s) && Agree(rates, timeout, s) && Legal(rates, s, a)
    ensures Agree(rates, timeout, Act(rates, timeout, s, a))
  {
    hide Act, Placed, Legal, Matched, Expired;
    forall m ensures Matched(Act(rates, timeout, s, a), m) {
      MatchedKept(rates, timeout, s, a, m);
    }
    forall i: nat, m | 0 < i < |rates| ensures Expired(timeout, Act(rates, timeout, s, a), i, m) {
      assert Matched(s, m) && Expired(timeout, s, i, m);
      ExpiredKept(rates, timeout, s, a, i, m);
    }
  }

  /** The invariant holds in every reachable state. */
  lemma {:induction false} Invariant(rates: seq<int>, timeout: int, acts: seq<Action>)
    requires rates != [] && LegalRun(rates, timeout, acts)
    ensures Inv(rates, timeout, Run(rates, timeout, acts))
    decreases |acts|
  {
    if acts == [] {
      StartInv(rates, timeout);
    } else {
      hide Act, Legal, Sizes, Reserved, Placed, Agree;
      var n := |acts| - 1;
      Invariant(rates, timeout, acts[..n]);
      var s := Run(rates, timeout, acts[..n]);
      LegalTier(rates, s, acts[n]);
      SizesKept(rates, timeout, s, acts[n]);
      ReservedKept(rates, timeout, s, acts[n]);
      PlacedKept(rates, timeout, s, acts[n]);
      AgreeKept(rates, timeout, s, acts[n]);
    }
  }

  lemma StartInv(rates: seq<int>, timeout: int)
    requires rates != []
    ensures Inv(rates, timeout, Start(|rates|))
  {
    forall k: nat ensures FromBelow(Start(|rates|), k) == {} {
    }
  }

  lemma LegalTier(rates: seq<int>, s: System, a: Action)
    requires Legal(rates, s, a)
    ensures a.tier < |rates|
  {
  }

  /** An own-tier member that tier 0 has dropped is expired and can never be renewed again. */
  lemma DroppedIsDead(rates: seq<int>, timeout: int, s: System, m: string, now: int)
    requires Inv(rates, timeout, s) && m in s.home && m !in s.z[0]
    ensures !RenewAt(s.z, s.home[m], now, m).1
    ensures s.home[m] > 0 && m in s.z[s.home[m]] ==> s.z[s.home[m]][m] <= s.clock - timeout
  {
    assert s.home[m] > 0 ==> Expired(timeout, s, s.home[m], m);
  }

  /**
   When even the highest priority is turned away, at least k slots of tier 0 are held by tiers above k:
   lower priorities alone can never fill the tier.
   */
  lemma RejectionNeedsHigherTiers(rates: seq<int>, timeout: int, s: System, k: nat)
    requires Inv(rates, timeout, s) && k <= rates[0] <= |s.z[0]|
    ensures |s.z[0].Keys - FromBelow(s, k)| >= k
  {
    var below := FromBelow(s, k);
    assert |below| <= Clamp(rates[0] - k);
    assert |s.z[0]| == |s.z[0].Keys|;
    assert |s.z[0].Keys - below| == |s.z[0].Keys| - |below|;
  }

  /**
   At any point of any run: a request of tier k is turned away if and only if the unexpired leases of
   tier 0 leave no more than the k reserved places, or those of its own tier fill it.
   */
  lemma RejectedExactly(rates: seq<int>, timeout: int, acts: seq<Action>, k: nat, now: int, m: string)
    requires rates != [] && LegalRun(rates, timeout, acts) && Legal(rates, Run(rates, timeout, acts), Acquire(k, now, m))
    ensures var s := Run(rates, timeout, acts);
      m !in Act(rates, timeout, s, Acquire(k, now, m)).home <==>
      Unexpired(s.z[0], timeout, now) >= rates[0] - k || (k > 0 && Unexpired(s.z[k], timeout, now) >= rates[k])
  {
    hide AcquireAt, Run, LegalRun;
    AdmittedExactly(rates, timeout, Run(rates, timeout, acts).z, k, now, m);
  }

  // ----- Lease safety -----

  /** Whenever someone acquires, every request in flight was touched less than timeout seconds ago. */
  predicate Prompt(timeout: int, s: System, a: Action) {
    a.Acquire? ==> forall m :: m in s.held ==> a.now - s.held[m] < timeout
  }

  predicate PromptRun(rates: seq<int>, timeout: int, acts: seq<Action>)
    requires rates != []
  {
    acts == [] ||
    (PromptRun(rates, timeout, acts[..|acts| - 1]) &&
     Prompt(timeout, Run(rates, timeout, acts[..|acts| - 1]), acts[|acts| - 1]))
  }

  predicate BackedAt(s: System, m: string)
    requires |s.z| > 0
  {
    m in s.held ==> m in s.home && m in s.z[0] && s.z[0][m] == s.held[m]
  }

  ghost predicate Backing(rates: seq<int>, s: System)
    requires WellSized(rates, s)
  {
    forall m :: BackedAt(s, m)
  }

  lemma BackedAtKept(rates: seq<int>, timeout: int, s: System, a: Action, m: string)
    requires WellSized(rates, s) && Legal(rates, s, a) && BackedAt(s, m) && Matched(s, m)
    requires a.Acquire? && m in s.held ==> a.now - s.held[m] < timeout
    ensures BackedAt(Act(rates, timeout, s, a), m)
  {
    hide AcquireAt, RenewAt, ReleaseAt;
    match a {
      case Acquire(tier, now, x) => AcquireEffect(rates, s.z, tier, now - timeout, now, x, 0);
      case Renew(tier, now, x) =>
        RenewEffect(s.z, tier, now, x, 0);
      case Release(tier, x) => ReleaseEffect(s.z, tier, x, 0);
    }
  }

  lemma BackingKept(rates: seq<int>, timeout: int, s: System, a: Action)
    requires WellSized(rates, s) && Agree(rates, timeout, s) && Legal(rates, s, a)
    requires Prompt(timeout, s, a) && Backing(rates, s)
    ensures Backing(rates, Act(rates, timeout, s, a))
  {
    hide Act, Legal, BackedAt, Matched, Expired;
    forall m ensures BackedAt(Act(rates, timeout, s, a), m) {
      assert BackedAt(s, m) && Matched(s, m);
      BackedAtKept(rates, timeout, s, a, m);
    }
  }

  lemma {:induction false} InFlightBacked(rates: seq<int>, timeout: int, acts: seq<Action>)
    requires rates != [] && LegalRun(rates, timeout, acts) && PromptRun(rates, timeout, acts)
    ensures Inv(rates, timeout, Run(rates, timeout, acts)) && Backing(rates, Run(rates, timeout, acts))
    decreases |acts|
  {
    Invariant(rates, timeout, acts);
    if acts != [] {
      hide Act, Legal, Sizes, Reserved, Agree, Prompt, Backing, Placed;
      var n := |acts| - 1;
      InFlightBacked(rates, timeout, acts[..n]);
      BackingKept(rates, timeout, Run(rates, timeout, acts[..n]), acts[n]);
    }
  }

  /**
   Over every prompt run: the requests in flight of tier k or below number at most rates[0] - k, so all
   together at most rates[0]; and those of tier k > 0 number at most rates[k].
   */
  lemma LeaseSafety(rates: seq<int>, timeout: int, acts: seq<Action>, k: nat)
    requires rates != [] && LegalRun(rates, timeout, acts) && PromptRun(rates, timeout, acts)
    ensures var s := Run(rates, timeout, acts);
      && |set m | m in s.held && m in s.home && s.home[m] >= k| <= Clamp(rates[0] - k)
      && (0 < k < |rates| ==> |set m | m in s.held && m in s.home && s.home[m] == k| <= Clamp(rates[k]))
  {
    hide Run, LegalRun, PromptRun, Placed;
    InFlightBacked(rates, timeout, acts);
    var s := Run(rates, timeout, acts);
    var below, own := set m | m in s.held && m in s.home && s.home[m] >= k, set m | m in s.held && m in s.home && s.home[m] == k;
    forall m | m in s.held ensures m in s.z[0] && m in s.home && s.home[m] < |s.z| && m in s.z[s.home[m]] {
      assert BackedAt(s, m) && Matched(s, m);
    }
    hide Inv, Backing;
    SubsetSize(below, FromBelow(s, k));
    if 0 < k < |rates| {
      SubsetSize(own, s.z[k].Keys);
      assert |s.z[k]| == |s.z[k].Keys|;
    }
  }
}
