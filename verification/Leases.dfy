/** Redis sorted sets as the concurrency limiters use them: member ids scored by their last touch. */
module Leases {
  import opened Prelude

  type Leases = map<string, int>

  /** A configured limit as a number of places. */
  function Clamp(v: int): nat {
    if v < 0 then 0 else v
  }

  /** ZREMRANGEBYSCORE key 0 limit: both ends included. */
  function Purged(z: Leases, limit: int): (r: Leases)
    ensures forall m :: m in r <==> m in z && !(0 <= z[m] <= limit)
    ensures forall m :: m in r ==> r[m] == z[m]
    ensures r.Keys <= z.Keys
  {
    map m | m in z && !(0 <= z[m] <= limit) :: z[m]
  }

  /** The lease was last touched at least timeout seconds ago. */
  predicate Lapsed(score: int, timeout: int, now: int) {
    score >= 0 && now - score >= timeout
  }

  /** How many leases have not lapsed. */
  function Unexpired(z: Leases, timeout: int, now: int): nat {
    |set m | m in z && !Lapsed(z[m], timeout, now)|
  }

  lemma PurgedCount(z: Leases, timeout: int, now: int)
    ensures |Purged(z, now - timeout)| == Unexpired(z, timeout, now)
  {
    var live := Purged(z, now - timeout);
    assert live.Keys == set m | m in z && !Lapsed(z[m], timeout, now);
    assert |live| == |live.Keys|;
  }

  /** The unexpired leases of z with their scores and, if the member entered, the member scored now. */
  ghost predicate IsAfter(t: Leases, z: Leases, timeout: int, now: int, entered: bool, m: string) {
    && (forall x :: x in t <==> (x in z && !Lapsed(z[x], timeout, now)) || (entered && x == m))
    && (forall x :: x in t ==> t[x] == if entered && x == m then now else z[x])
  }

  lemma PurgedIsAfter(z: Leases, timeout: int, now: int, m: string)
    ensures IsAfter(Purged(z, now - timeout), z, timeout, now, false, m)
    ensures IsAfter(Purged(z, now - timeout)[m := now], z, timeout, now, true, m)
  {
  }

  function Removed(z: Leases, m: string): (r: Leases)
    ensures forall x :: x in r <==> x in z && x != m
    ensures forall x :: x in r ==> r[x] == z[x]
    ensures r.Keys == z.Keys - {m}
  {
    z - {m}
  }

  lemma PurgedSize(z: Leases, limit: int)
    ensures |Purged(z, limit)| <= |z|
  {
    SubsetSize(Purged(z, limit).Keys, z.Keys);
    assert |Purged(z, limit)| == |Purged(z, limit).Keys| && |z| == |z.Keys|;
  }

  lemma AddedSize(z: Leases, m: string, score: int)
    ensures |z[m := score]| <= |z| + 1
    ensures m in z ==> |z[m := score]| == |z|
    ensures m !in z ==> |z[m := score]| == |z| + 1
  {
    assert z[m := score].Keys == z.Keys + {m};
    assert |z[m := score]| == |z[m := score].Keys| && |z| == |z.Keys|;
    if m in z {
      assert z.Keys + {m} == z.Keys;
    }
  }

  lemma RemovedSize(z: Leases, m: string)
    ensures |Removed(z, m)| <= |z|
  {
    SubsetSize(Removed(z, m).Keys, z.Keys);
    assert |Removed(z, m)| == |Removed(z, m).Keys| && |z| == |z.Keys|;
  }

  /** Every holder still has its lease, scored by its last touch. */
  ghost predicate Backed(held: Leases, z: Leases) {
    forall m :: m in held ==> m in z && z[m] == held[m]
  }

  lemma BackedSize(held: Leases, z: Leases)
    requires Backed(held, z)
    ensures |held| <= |z|
  {
    assert held.Keys <= z.Keys;
    SubsetSize(held.Keys, z.Keys);
    assert |held| == |held.Keys| && |z| == |z.Keys|;
  }

  /** As many holders as leases: every lease is held. */
  lemma BackedFull(held: Leases, z: Leases)
    requires Backed(held, z) && |held| >= |z|
    ensures held == z
  {
    assert |held| == |held.Keys| && |z| == |z.Keys|;
    FullSubset(held.Keys, z.Keys);
  }

  /** A purge frees a place exactly when some lease has expired. */
  lemma PurgeShrinks(z: Leases, limit: int)
    ensures |Purged(z, limit)| < |z| <==> exists x :: x in z && 0 <= z[x] <= limit
  {
    var live := Purged(z, limit);
    assert |live| == |live.Keys| && |z| == |z.Keys|;
    if x :| x in z && 0 <= z[x] <= limit {
      SubsetSize(live.Keys, z.Keys - {x});
    } else {
      assert live.Keys == z.Keys;
    }
  }

  // ----- Safety of one set -----

  /** Every holder has its lease and the set is within its limit. */
  ghost predicate SafeTier(rate: int, z: Leases, held: Leases) {
    Backed(held, z) && |z| <= Clamp(rate)
  }

  lemma PurgeSafe(rate: int, z: Leases, held: Leases, now: int, timeout: int)
    requires SafeTier(rate, z, held) && forall x :: x in held ==> now - held[x] < timeout
    ensures SafeTier(rate, Purged(z, now - timeout), held)
  {
    PurgedSize(z, now - timeout);
  }

  lemma AddSafe(rate: int, z: Leases, held: Leases, now: int, m: string)
    requires SafeTier(rate, z, held) && (|z| < rate || m in z)
    ensures SafeTier(rate, z[m := now], held[m := now])
  {
    AddedSize(z, m, now);
  }

  lemma RemoveSafe(rate: int, z: Leases, held: Leases, m: string)
    requires SafeTier(rate, z, held)
    ensures SafeTier(rate, Removed(z, m), Removed(held, m))
  {
    RemovedSize(z, m);
  }
}
