/**
 The lease-based limiter of pkg/engines/limiter/concurrency_limiter.go. Its three Lua scripts are the
 atomic steps of a protocol run by any number of gateways against one sorted set.
 */
module ConcurrencyLimiter {
  import opened Leases

  function AcquireStep(cap: int, timeout: int, z: Leases, now: int, m: string): (Leases, bool) {
    var live := Purged(z, now - timeout);
    if |live| < cap then (live[m := now], true) else (live, false)
  }

  function RenewStep(z: Leases, now: int, m: string): (Leases, bool) {
    if m in z then (z[m := now], true) else (z, false)
  }

  /** The shared sorted set behind one limiter key. */
  class Store {
    const concurrency: int
    const timeout: int
    var zset: Leases

    constructor (concurrency: int, timeout: int)
      ensures this.concurrency == concurrency && this.timeout == timeout && zset == map[]
    {
      this.concurrency, this.timeout, zset := concurrency, timeout, map[];
    }

    method Acquire(now: int, member: string) returns (acquired: bool, count: nat)
      modifies this
      ensures (zset, acquired) == AcquireStep(concurrency, timeout, old(zset), now, member)
      ensures acquired <==> Unexpired(old(zset), timeout, now) < concurrency
      ensures acquired && member !in old(zset) ==> count == |zset|
      ensures !acquired ==> count == |zset|
    {
      PurgedCount(zset, timeout, now);
      zset := Purged(zset, now - timeout);
      count := |zset|;
      acquired := false;
      if count < concurrency {
        AddedSize(zset, member, now);
        zset := zset[member := now];
        count := count + 1;
        acquired := true;
      }
    }

    method Release(member: string)
      modifies this
      ensures zset == Removed(old(zset), member)
    {
      zset := zset - {member};
    }

    method Renew(now: int, member: string) returns (renewed: bool)
      modifies this
      ensures (zset, renewed) == RenewStep(old(zset), now, member)
      ensures renewed == (member in old(zset))
    {
      renewed := member in zset;
      if renewed {
        zset := zset[member := now];
      }
    }
  }

  /**
   Whether a request is admitted is decided by the leases that have not lapsed; afterwards the set holds
   exactly these, and the member with the time of the call if it was admitted.
   */
  lemma AdmittedExactly(cap: int, timeout: int, z: Leases, now: int, m: string)
    ensures var (t, ok) := AcquireStep(cap, timeout, z, now, m);
      (ok <==> Unexpired(z, timeout, now) < cap) && IsAfter(t, z, timeout, now, ok, m)
  {
    hide Purged, IsAfter;
    PurgedCount(z, timeout, now);
    PurgedIsAfter(z, timeout, now, m);
  }

  /** A renewal succeeds exactly for a member that is still there, and changes its score alone. */
  lemma RenewedExactly(z: Leases, now: int, m: string)
    ensures var (t, ok) := RenewStep(z, now, m);
      && (ok <==> m in z)
      && t.Keys == z.Keys && (forall x :: x in z ==> t[x] == if x == m then now else z[x])
  {
  }

  // ----- Runs -----

  datatype Action = Acquire(now: int, member: string) | Renew(now: int, member: string) | Release(member: string)

  /** held: the requests in flight, with the time each last acquired or renewed. */
  datatype System = System(z: Leases, held: Leases)

  function Act(cap: int, timeout: int, s: System, a: Action): System {
    match a
    case Acquire(now, m) =>
      var (z, ok) := AcquireStep(cap, timeout, s.z, now, m);
      System(z, if ok then s.held[m := now] else s.held)
    case Renew(now, m) =>
      var (z, ok) := RenewStep(s.z, now, m);
      System(z, if ok && m in s.held then s.held[m := now] else s.held)
    case Release(m) => System(Removed(s.z, m), Removed(s.held, m))
  }

  function Run(cap: int, timeout: int, s: System, acts: seq<Action>): System {
    if acts == [] then s
    else Act(cap, timeout, Run(cap, timeout, s, acts[..|acts| - 1]), acts[|acts| - 1])
  }

  /**
   What the gateways keep to: member ids are fresh, only holders renew, and whenever someone acquires,
   every request in flight was touched less than timeout seconds ago.
   */
  predicate Disciplined(timeout: int, s: System, a: Action) {
    match a
    case Acquire(now, m) =>
      m !in s.z && m !in s.held && forall x :: x in s.held ==> now - s.held[x] < timeout
    case Renew(_, m) => m in s.held
    case Release(m) => m in s.held
  }

  predicate DisciplinedRun(cap: int, timeout: int, s: System, acts: seq<Action>) {
    acts == [] ||
    (DisciplinedRun(cap, timeout, s, acts[..|acts| - 1]) &&
     Disciplined(timeout, Run(cap, timeout, s, acts[..|acts| - 1]), acts[|acts| - 1]))
  }

  const Idle := System(map[], map[])

  lemma ActSafe(cap: int, timeout: int, s: System, a: Action)
    requires Disciplined(timeout, s, a) && SafeTier(cap, s.z, s.held)
    ensures SafeTier(cap, Act(cap, timeout, s, a).z, Act(cap, timeout, s, a).held)
  {
    hide Purged, Removed, SafeTier;
    match a {
      case Acquire(now, m) =>
        PurgeSafe(cap, s.z, s.held, now, timeout);
        if |Purged(s.z, now - timeout)| < cap {
          AddSafe(cap, Purged(s.z, now - timeout), s.held, now, m);
        }
      case Renew(now, m) =>
        if m in s.z {
          AddSafe(cap, s.z, s.held, now, m);
        }
      case Release(m) =>
        RemoveSafe(cap, s.z, s.held, m);
    }
  }

  /** Over every disciplined run, the requests in flight all hold a lease and never exceed the cap. */
  lemma {:induction false} LeaseSafety(cap: int, timeout: int, acts: seq<Action>)
    requires DisciplinedRun(cap, timeout, Idle, acts)
    ensures var s := Run(cap, timeout, Idle, acts);
      SafeTier(cap, s.z, s.held) && |s.held| <= |s.z| <= Clamp(cap)
    decreases |acts|
  {
    hide Act, Disciplined;
    if acts != [] {
      var n := |acts| - 1;
      LeaseSafety(cap, timeout, acts[..n]);
      ActSafe(cap, timeout, Run(cap, timeout, Idle, acts[..n]), acts[n]);
    }
    var s := Run(cap, timeout, Idle, acts);
    BackedSize(s.held, s.z);
  }

  /** The set itself stays within the cap on every run whatsoever. */
  lemma {:induction false} SetWithinCap(cap: nat, timeout: int, acts: seq<Action>)
    ensures |Run(cap, timeout, Idle, acts).z| <= cap
    decreases |acts|
  {
    hide Act;
    if acts != [] {
      var n := |acts| - 1;
      SetWithinCap(cap, timeout, acts[..n]);
      StepWithinCap(cap, timeout, Run(cap, timeout, Idle, acts[..n]), acts[n]);
    }
  }

  lemma StepWithinCap(cap: nat, timeout: int, s: System, a: Action)
    requires |s.z| <= cap
    ensures |Act(cap, timeout, s, a).z| <= cap
  {
    hide Purged, Removed;
    match a {
      case Acquire(now, m) =>
        PurgedSize(s.z, now - timeout);
        AddedSize(Purged(s.z, now - timeout), m, now);
      case Renew(now, m) => AddedSize(s.z, m, now);
      case Release(m) => RemovedSize(s.z, m);
    }
  }

  /** The requests in flight whose lease is purged by an acquire at time now. */
  predicate AnyLapsed(timeout: int, s: System, now: int) {
    exists x :: x in s.held && Lapsed(s.held[x], timeout, now)
  }

  /**
   Exactly when an acquire takes the requests in flight over the cap: they fill it, and one of them has
   let its lease lapse.
   */
  lemma OveradmitsExactly(cap: nat, timeout: int, s: System, now: int, m: string)
    requires Backed(s.held, s.z) && |s.z| <= cap && m !in s.held
    ensures |Act(cap, timeout, s, Acquire(now, m)).held| > cap <==> |s.held| == cap && AnyLapsed(timeout, s, now)
  {
    hide Purged, Backed;
    BackedSize(s.held, s.z);
    AddedSize(s.held, m, now);
    PurgedSize(s.z, now - timeout);
    if |s.held| == cap {
      BackedFull(s.held, s.z);
      PurgeShrinks(s.z, now - timeout);
    }
  }

  /** For instance with a timeout of 30 seconds, since leases are renewed once a minute. */
  lemma LapsedLeaseOveradmits(a: string, b: string)
    requires a != b
    ensures |Act(1, 30, Act(1, 30, Idle, Acquire(100, a)), Acquire(131, b)).held| > 1
  {
    var s := Act(1, 30, Idle, Acquire(100, a));
    assert s == System(map[a := 100], map[a := 100]);
    assert AnyLapsed(30, s, 131);
    assert |s.held| == 1 by {
      assert s.held.Keys == {a};
    }
    OveradmitsExactly(1, 30, s, 131, b);
  }
}
