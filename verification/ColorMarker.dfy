/**
 The priority marker of pkg/engines/limiter/concurrency_color_marker.go: one sorted set per tier, the
 first tier with room takes the request, and its position decides the request's priority.
 */
module ColorMarker {
  import opened Leases

  /** normalizeConcurrencyMarkerRates: negatives become 0, nothing is trimmed. */
  method NormalizeRates(rates: seq<int>) returns (out: seq<int>, altered: bool)
    ensures |out| == |rates|
    ensures forall i :: 0 <= i < |rates| ==> out[i] == if rates[i] < 0 then 0 else rates[i]
    ensures altered <==> exists i :: 0 <= i < |rates| && rates[i] < 0
  {
    out, altered := [], false;
    for i := 0 to |rates|
      invariant |out| == i
      invariant forall k :: 0 <= k < i ==> out[k] == if rates[k] < 0 then 0 else rates[k]
      invariant altered <==> exists k :: 0 <= k < i && rates[k] < 0
    {
      var v := rates[i];
      if v < 0 {
        altered := true;
        v := 0;
      }
      out := out + [v];
    }
  }

  function PurgedAll(tiers: seq<Leases>, limit: int): (r: seq<Leases>)
    ensures |r| == |tiers| && forall i :: 0 <= i < |tiers| ==> r[i] == Purged(tiers[i], limit)
  {
    seq(|tiers|, i requires 0 <= i < |tiers| => Purged(tiers[i], limit))
  }

  predicate HasRoom(rates: seq<int>, tiers: seq<Leases>, i: nat)
    requires i < |rates| == |tiers|
  {
    rates[i] > 0 && |tiers[i]| < rates[i]
  }

  lemma RoomByCount(rates: seq<int>, tiers: seq<Leases>, timeout: int, now: int)
    requires |rates| == |tiers|
    ensures forall i :: 0 <= i < |rates| ==>
      (HasRoom(rates, PurgedAll(tiers, now - timeout), i) <==> Unexpired(tiers[i], timeout, now) < rates[i])
  {
    forall i | 0 <= i < |rates|
      ensures HasRoom(rates, PurgedAll(tiers, now - timeout), i) <==> Unexpired(tiers[i], timeout, now) < rates[i]
    {
      PurgedCount(tiers[i], timeout, now);
    }
  }

  /** i is the first tier with room, or |rates| when there is none. */
  predicate IsFirstRoom(rates: seq<int>, tiers: seq<Leases>, i: nat)
    requires |rates| == |tiers|
  {
    && i <= |rates|
    && (i < |rates| ==> HasRoom(rates, tiers, i))
    && forall k :: 0 <= k < i ==> !HasRoom(rates, tiers, k)
  }

  /** The tier sets behind one marker key. */
  class Store {
    const rates: seq<int>
    const timeout: int
    var tiers: seq<Leases>

    ghost predicate Valid()
      reads this
    {
      |rates| == |tiers|
    }

    constructor (rates: seq<int>, timeout: int)
      ensures Valid() && this.rates == rates && this.timeout == timeout
      ensures forall i :: 0 <= i < |tiers| ==> tiers[i] == map[]
    {
      this.rates, this.timeout := rates, timeout;
      tiers := seq(|rates|, _ => map[]);
    }

    /** The acquire script: 0 means rejected, p + 1 means admitted with priority p. */
    method Acquire(now: int, member: string) returns (reply: nat, ghost tier: nat)
      requires Valid()
      modifies this
      ensures Valid()
      ensures var live := PurgedAll(old(tiers), now - timeout);
        && IsFirstRoom(rates, live, tier)
        && (tier < |rates| ==> Unexpired(old(tiers)[tier], timeout, now) < rates[tier])
        && (forall k :: 0 <= k < tier ==> Unexpired(old(tiers)[k], timeout, now) >= rates[k])
        && (reply == 0 <==> tier == |rates|)
        && (tier < |rates| ==> reply == |rates| - tier)
        && tiers == if tier < |rates| then live[tier := live[tier][member := now]] else live
    {
      ghost var live := PurgedAll(tiers, now - timeout);
      RoomByCount(rates, tiers, timeout, now);
      var counts: seq<nat> := [];
      for i := 0 to |rates|
        invariant Valid() && |counts| == i
        invariant forall k :: 0 <= k < i ==> tiers[k] == live[k] && counts[k] == |live[k]|
        invariant forall k :: i <= k < |tiers| ==> tiers[k] == old(tiers)[k]
      {
        tiers := tiers[i := Purged(tiers[i], now - timeout)];
        counts := counts + [|tiers[i]|];
      }
      assert tiers == live;
      var found := 0;
      while found < |rates| && !(rates[found] > 0 && counts[found] < rates[found])
        invariant 0 <= found <= |rates|
        invariant forall k :: 0 <= k < found ==> !HasRoom(rates, live, k)
      {
        found := found + 1;
      }
      tier := found;
      if found == |rates| {
        return 0, tier;
      }
      tiers := tiers[found := tiers[found][member := now]];
      return |rates| - found, tier;
    }

    method Release(tier: nat, member: string)
      requires Valid() && tier < |rates|
      modifies this
      ensures Valid() && tiers == old(tiers)[tier := Removed(old(tiers)[tier], member)]
    {
      tiers := tiers[tier := tiers[tier] - {member}];
    }

    method Renew(tier: nat, now: int, member: string) returns (renewed: bool)
      requires Valid() && tier < |rates|
      modifies this
      ensures Valid() && renewed == (member in old(tiers)[tier])
      ensures tiers == if renewed then old(tiers)[tier := old(tiers)[tier][member := now]] else old(tiers)
    {
      renewed := member in tiers[tier];
      if renewed {
        tiers := tiers[tier := tiers[tier][member := now]];
      }
    }
  }

  // ----- Runs -----

  datatype Action =
    | Acquire(now: int, member: string)
    | Renew(tier: nat, now: int, member: string)
    | Release(tier: nat, member: string)

  /** held[i]: the requests in flight that were admitted by tier i, with their last touch. */
  datatype System = System(tiers: seq<Leases>, held: seq<Leases>)

  predicate WellSized(rates: seq<int>, s: System) {
    |s.tiers| == |rates| && |s.held| == |rates|
  }

  function FirstRoom(rates: seq<int>, tiers: seq<Leases>, from: nat): (i: nat)
    requires |rates| == |tiers| && from <= |rates|
    ensures from <= i <= |rates| && (i < |rates| ==> HasRoom(rates, tiers, i))
    ensures forall k :: from <= k < i ==> !HasRoom(rates, tiers, k)
    decreases |rates| - from
  {
    if from == |rates| || HasRoom(rates, tiers, from) then from else FirstRoom(rates, tiers, from + 1)
  }

  function Act(rates: seq<int>, timeout: int, s: System, a: Action): (t: System)
    requires WellSized(rates, s)
    ensures WellSized(rates, t)
  {
    match a
    case Acquire(now, m) =>
      var live := PurgedAll(s.tiers, now - timeout);
      var i := FirstRoom(rates, live, 0);
      if i == |rates| then s.(tiers := live)
      else System(live[i := live[i][m := now]], s.held[i := s.held[i][m := now]])
    case Renew(i, now, m) =>
      if i < |rates| && m in s.tiers[i] && m in s.held[i]
      then System(s.tiers[i := s.tiers[i][m := now]], s.held[i := s.held[i][m := now]])
      else s
    case Release(i, m) =>
      if i < |rates|
      then System(s.tiers[i := Removed(s.tiers[i], m)], s.held[i := Removed(s.held[i], m)])
      else s
  }

  function Idle(n: nat): System {
    System(seq(n, _ => map[]), seq(n, _ => map[]))
  }

  function Run(rates: seq<int>, timeout: int, acts: seq<Action>): (s: System)
    ensures WellSized(rates, s)
  {
    if acts == [] then Idle(|rates|)
    else Act(rates, timeout, Run(rates, timeout, acts[..|acts| - 1]), acts[|acts| - 1])
  }

  /** Fresh ids, and no request in flight untouched for timeout seconds when someone acquires. */
  predicate Disciplined(rates: seq<int>, timeout: int, s: System, a: Action)
    requires WellSized(rates, s)
  {
    a.Acquire? ==>
      forall i :: 0 <= i < |rates| ==>
        a.member !in s.tiers[i] && a.member !in s.held[i] &&
        forall x :: x in s.held[i] ==> a.now - s.held[i][x] < timeout
  }

  predicate DisciplinedRun(rates: seq<int>, timeout: int, acts: seq<Action>) {
    acts == [] ||
    (DisciplinedRun(rates, timeout, acts[..|acts| - 1]) &&
     Disciplined(rates, timeout, Run(rates, timeout, acts[..|acts| - 1]), acts[|acts| - 1]))
  }

  ghost predicate Safe(rates: seq<int>, s: System)
    requires WellSized(rates, s)
  {
    forall i :: 0 <= i < |rates| ==> SafeTier(rates[i], s.tiers[i], s.held[i])
  }

  lemma AcquireSafe(rates: seq<int>, timeout: int, s: System, now: int, m: string)
    requires WellSized(rates, s) && Safe(rates, s) && Disciplined(rates, timeout, s, Acquire(now, m))
    ensures Safe(rates, Act(rates, timeout, s, Acquire(now, m)))
  {
    hide SafeTier, Purged;
    var live := PurgedAll(s.tiers, now - timeout);
    forall i | 0 <= i < |rates| ensures SafeTier(rates[i], live[i], s.held[i]) {
      PurgeSafe(rates[i], s.tiers[i], s.held[i], now, timeout);
    }
    var i := FirstRoom(rates, live, 0);
    if i < |rates| {
      AddSafe(rates[i], live[i], s.held[i], now, m);
    }
  }

  lemma ActSafe(rates: seq<int>, timeout: int, s: System, a: Action)
    requires WellSized(rates, s) && Safe(rates, s) && Disciplined(rates, timeout, s, a)
    ensures Safe(rates, Act(rates, timeout, s, a))
  {
    hide SafeTier, Removed, FirstRoom;
    match a {
      case Acquire(now, m) => AcquireSafe(rates, timeout, s, now, m);
      case Renew(i, now, m) =>
        if i < |rates| && m in s.tiers[i] {
          AddSafe(rates[i], s.tiers[i], s.held[i], now, m);
        }
      case Release(i, m) =>
        if i < |rates| {
          RemoveSafe(rates[i], s.tiers[i], s.held[i], m);
        }
    }
  }

  /**
   In every state: a request enters tier i exactly when its unexpired leases leave room there and those of
   every higher tier do not; it is rejected exactly when no tier has room. It is scored by the time of the
   call, every tier keeps its unexpired leases, and nothing else changes.
   */
  lemma AdmittedExactly(rates: seq<int>, timeout: int, s: System, now: int, m: string, i: nat)
    requires WellSized(rates, s) && i < |rates|
    ensures var t := Act(rates, timeout, s, Acquire(now, m));
      var here := Unexpired(s.tiers[i], timeout, now) < rates[i] &&
        forall k :: 0 <= k < i ==> Unexpired(s.tiers[k], timeout, now) >= rates[k];
      IsAfter(t.tiers[i], s.tiers[i], timeout, now, here, m) && t.held[i] == (if here then s.held[i][m := now] else s.held[i])
  {
    hide Purged, IsAfter, Unexpired, HasRoom;
    RoomByCount(rates, s.tiers, timeout, now);
    PurgedIsAfter(s.tiers[i], timeout, now, m);
  }

  /** Over every disciplined run, each tier's requests in flight hold leases and stay within its cap. */
  lemma {:induction false} LeaseSafety(rates: seq<int>, timeout: int, acts: seq<Action>)
    requires DisciplinedRun(rates, timeout, acts)
    ensures var s := Run(rates, timeout, acts);
      Safe(rates, s) && forall i :: 0 <= i < |rates| ==> |s.held[i]| <= Clamp(rates[i])
    decreases |acts|
  {
    hide Act, Disciplined;
    if acts != [] {
      var n := |acts| - 1;
      LeaseSafety(rates, timeout, acts[..n]);
      ActSafe(rates, timeout, Run(rates, timeout, acts[..n]), acts[n]);
    }
    var s := Run(rates, timeout, acts);
    forall i | 0 <= i < |rates| ensures |s.held[i]| <= Clamp(rates[i]) {
      assert SafeTier(rates[i], s.tiers[i], s.held[i]);
      BackedSize(s.held[i], s.tiers[i]);
    }
  }

  /** The script's reply and its tier determine each other, and the tier is the first with room. */
  lemma FirstRoomUnique(rates: seq<int>, tiers: seq<Leases>, i: nat)
    requires |rates| == |tiers|
    ensures IsFirstRoom(rates, tiers, i) <==> i == FirstRoom(rates, tiers, 0)
  {
  }

  predicate RoomFor(rates: seq<int>, tiers: seq<Leases>, priority: nat)
    requires |rates| == |tiers| && priority < |rates|
  {
    HasRoom(rates, tiers, |rates| - 1 - priority)
  }

  /**
   Priority means scarcity above: an admitted request has priority p exactly when the tier of p has room
   and every tier of higher priority is full or has limit 0.
   */
  lemma PriorityMeansHigherFull(rates: seq<int>, tiers: seq<Leases>, p: nat)
    requires |rates| == |tiers| && p < |rates|
    ensures FirstRoom(rates, tiers, 0) == |rates| - 1 - p <==>
      RoomFor(rates, tiers, p) && (forall q :: p < q < |rates| ==> !RoomFor(rates, tiers, q))
  {
    var i := FirstRoom(rates, tiers, 0);
    if i < |rates| {
      assert RoomFor(rates, tiers, |rates| - 1 - i);
    }
  }
}
