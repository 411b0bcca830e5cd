/**
 The request loop of the shard-key concurrency balancer, pkg/engines/load-balancer/shard_key_concurrency.go.
 Everything read from outside (capacities, counts, Redis failures, engine outcomes, the retry deadline)
 is an arbitrary function of the moment it is read at.
 */
module Failover {
  import opened Prelude

  /** ceiling: cacheMissMaxUtilization. */
  datatype Backend = Backend(name: string, ceiling: real)

  /** hitKey: the index of the shard key the backend was resolved from. */
  datatype Prioritized = Prioritized(backend: Backend, keyCount: nat, hitKey: nat)

  datatype Reply = Served | Retriable(error: string) | NotRetriable(error: string)

  /** A moment is one read of the outside world; a count may be unreadable. */
  datatype World = World(
    capacity: (nat, string) -> int,
    count: (nat, string) -> Option<nat>,
    pipelineFails: nat -> bool,
    reply: (nat, string) -> Reply,
    stopped: nat -> bool)

  predicate Strong(p: Prioritized) {
    p.hitKey >= p.keyCount - 2
  }

  predicate HeadroomEnabled(b: Backend) {
    0.0 < b.ceiling < 1.0
  }

  function Ratio(count: nat, capacity: int): real
    requires capacity > 0
  {
    count as real / capacity as real
  }

  lemma RatioAtMost(count: nat, capacity: int, x: real)
    requires capacity > 0
    ensures Ratio(count, capacity) <= x <==> count as real <= x * capacity as real
  {
    var r, c := Ratio(count, capacity), capacity as real;
    assert r * c == count as real;
    assert x * c - r * c == (x - r) * c;
    if r <= x {
      assert (x - r) * c >= 0.0;
    } else {
      assert (r - x) * c > 0.0;
    }
  }

  /** Ratios compare as the cross products do. */
  lemma RatioOrder(count: nat, capacity: int, count': nat, capacity': int)
    requires capacity > 0 && capacity' > 0
    ensures Ratio(count, capacity) <= Ratio(count', capacity') <==> count * capacity' <= count' * capacity
  {
    var r', c, c' := Ratio(count', capacity'), capacity as real, capacity' as real;
    RatioAtMost(count, capacity, r');
    assert r' * c' == count' as real;
    assert (r' * c) * c' == count' as real * c;
    assert (count * capacity') as real == count as real * c' && (count' * capacity) as real == count' as real * c;
    if count as real <= r' * c {
      assert (r' * c - count as real) * c' >= 0.0;
    } else {
      assert (count as real - r' * c) * c' > 0.0;
    }
  }

  predicate Readable(w: World, at: nat, b: Backend) {
    !w.pipelineFails(at) && w.count(at, b.name).Some?
  }

  /** Seen at that moment, the backend was below its ceiling, or its load could not be read. */
  predicate WithinHeadroom(w: World, at: nat, b: Backend) {
    !HeadroomEnabled(b) || !Readable(w, at, b) ||
    (w.capacity(at, b.name) > 0 && Ratio(w.count(at, b.name).value, w.capacity(at, b.name)) <= b.ceiling)
  }

  // ----- Resolving the shard keys -----

  predicate Known(bs: seq<Backend>, name: string) {
    name != "" && exists b :: b in bs && b.name == name
  }

  /** backendByName: of several backends with one name the last wins. */
  function ByName(bs: seq<Backend>, name: string): (b: Backend)
    requires Known(bs, name)
    ensures b in bs && b.name == name
    ensures LastNamed(bs, b)
  {
    var n := |bs| - 1;
    if bs[n].name == name then assert IsLastAt(bs, bs[n], n); bs[n]
    else
      assert forall b :: b in bs ==> b in bs[..n] || b == bs[n];
      LastNamedStays(bs, ByName(bs[..n], name));
      ByName(bs[..n], name)
  }

  /** No later backend has the same name. */
  predicate LastNamed(bs: seq<Backend>, b: Backend) {
    exists n :: 0 <= n < |bs| && IsLastAt(bs, b, n)
  }

  predicate IsLastAt(bs: seq<Backend>, b: Backend, n: nat)
    requires n < |bs|
  {
    bs[n] == b && forall m :: n < m < |bs| ==> bs[m].name != b.name
  }

  lemma LastNamedStays(bs: seq<Backend>, b: Backend)
    requires bs != [] && LastNamed(bs[..|bs| - 1], b) && bs[|bs| - 1].name != b.name
    ensures LastNamed(bs, b)
  {
    var n :| 0 <= n < |bs| - 1 && IsLastAt(bs[..|bs| - 1], b, n);
    forall m | n < m < |bs| ensures bs[m].name != b.name {
      if m < |bs| - 1 {
        assert bs[..|bs| - 1][m] == bs[m];
      }
    }
    assert IsLastAt(bs, b, n);
  }

  predicate Has(ps: seq<Prioritized>, name: string) {
    exists p :: p in ps && p.backend.name == name
  }

  function WithHit(bs: seq<Backend>, keyCount: nat, key: nat, name: string, ps: seq<Prioritized>): seq<Prioritized> {
    if Known(bs, name) && !Has(ps, name) then ps + [Prioritized(ByName(bs, name), keyCount, key)] else ps
  }

  /** The hits of one key, appended to what higher-priority keys already gave. */
  function WithHits(bs: seq<Backend>, keyCount: nat, key: nat, names: seq<string>, ps: seq<Prioritized>)
    : seq<Prioritized>
  {
    if names == [] then ps
    else WithHit(bs, keyCount, key, names[|names| - 1], WithHits(bs, keyCount, key, names[..|names| - 1], ps))
  }

  /** What the shard keys from a position on resolve to; later keys come first. */
  function Resolved(bs: seq<Backend>, keys: seq<string>, hits: seq<seq<string>>, from: nat): seq<Prioritized>
    requires |keys| == |hits| && from <= |keys|
    decreases |keys| - from
  {
    if from == |keys| then []
    else
      var higher := Resolved(bs, keys, hits, from + 1);
      if keys[from] == "" then higher else WithHits(bs, |keys|, from, hits[from], higher)
  }

  /** resolvePrioritizedBackends: hits[i] are the names stored under shard key i, newest first. */
  method Resolve(bs: seq<Backend>, keys: seq<string>, hits: seq<seq<string>>) returns (ps: seq<Prioritized>)
    requires |keys| == |hits|
    ensures ps == Resolved(bs, keys, hits, 0)
    ensures RightlyResolved(bs, keys, hits, ps)
  {
    hide WithHits, Known, RightlyResolved;
    ps := [];
    var seen: set<string> := {};
    var i := |keys|;
    while i > 0
      invariant 0 <= i <= |keys|
      invariant ps == Resolved(bs, keys, hits, i)
      invariant forall name :: name in seen <==> Has(ps, name)
    {
      i := i - 1;
      if keys[i] != "" {
        ps, seen := ResolveKey(bs, |keys|, i, hits[i], ps, seen);
      }
    }
    ResolvedIsRight(bs, keys, hits);
  }

  method ResolveKey(bs: seq<Backend>, keyCount: nat, key: nat, names: seq<string>, ps0: seq<Prioritized>, seen0: set<string>)
    returns (ps: seq<Prioritized>, seen: set<string>)
    requires forall name :: name in seen0 <==> Has(ps0, name)
    ensures ps == WithHits(bs, keyCount, key, names, ps0)
    ensures forall name :: name in seen <==> Has(ps, name)
  {
    hide Known, Has;
    ps, seen := ps0, seen0;
    for j := 0 to |names|
      invariant ps == WithHits(bs, keyCount, key, names[..j], ps0)
      invariant forall name :: name in seen <==> Has(ps, name)
    {
      var name := names[j];
      assert names[..j + 1][..j] == names[..j];
      if name !in seen && Known(bs, name) {
        HasOneMore(ps, Prioritized(ByName(bs, name), keyCount, key));
        ps := ps + [Prioritized(ByName(bs, name), keyCount, key)];
        seen := seen + {name};
      }
    }
    assert names[..|names|] == names;
  }

  lemma HasOneMore(ps: seq<Prioritized>, p: Prioritized)
    ensures forall name :: Has(ps + [p], name) <==> Has(ps, name) || name == p.backend.name
  {
    assert forall x :: x in ps + [p] <==> x in ps || x == p;
    assert p in ps + [p];
  }

  // What is resolved, without reference to the order of computation.

  function FirstAt(names: seq<string>, name: string): (k: nat)
    requires name in names
    ensures k < |names| && names[k] == name && name !in names[..k]
  {
    if names[0] == name then 0
    else
      var k := FirstAt(names[1..], name);
      assert names[..k + 1] == [names[0]] + names[1..][..k];
      k + 1
  }

  predicate DistinctNames(ps: seq<Prioritized>) {
    forall i, j :: 0 <= i < j < |ps| ==> ps[i].backend.name != ps[j].backend.name
  }

  /** A known backend, the last of its name, stored under a key that is not empty. */
  predicate IsHit(bs: seq<Backend>, keys: seq<string>, hits: seq<seq<string>>, p: Prioritized)
    requires |keys| == |hits|
  {
    && Known(bs, p.backend.name) && p.backend == ByName(bs, p.backend.name)
    && p.keyCount == |keys| && p.hitKey < |keys| && keys[p.hitKey] != "" && p.backend.name in hits[p.hitKey]
  }

  /** Later keys first; under one key, in stored order. */
  predicate Precedes(hits: seq<seq<string>>, p: Prioritized, q: Prioritized) {
    p.hitKey > q.hitKey ||
    (p.hitKey == q.hitKey < |hits| && p.backend.name in hits[p.hitKey] && q.backend.name in hits[p.hitKey] &&
     FirstAt(hits[p.hitKey], p.backend.name) < FirstAt(hits[p.hitKey], q.backend.name))
  }

  /** The name is listed under this key or a better one. */
  predicate Listed(ps: seq<Prioritized>, name: string, atLeast: int) {
    exists p :: p in ps && p.backend.name == name && p.hitKey >= atLeast
  }

  predicate Ranked(hits: seq<seq<string>>, ps: seq<Prioritized>) {
    forall a, b :: 0 <= a < b < |ps| ==> Precedes(hits, ps[a], ps[b])
  }

  predicate RightlyResolved(bs: seq<Backend>, keys: seq<string>, hits: seq<seq<string>>, ps: seq<Prioritized>)
    requires |keys| == |hits|
  {
    && DistinctNames(ps) && Ranked(hits, ps)
    && (forall p :: p in ps ==> IsHit(bs, keys, hits, p))
    && (forall k, name :: 0 <= k < |keys| && keys[k] != "" && name in hits[k] && Known(bs, name) ==> Listed(ps, name, k))
  }

  /** So far: the keys above i, and the first j names under key i. */
  ghost predicate ResolvedSoFar(
    bs: seq<Backend>, keys: seq<string>, hits: seq<seq<string>>, ps: seq<Prioritized>, i: nat, j: nat)
    requires |keys| == |hits|
  {
    && DistinctNames(ps) && Ranked(hits, ps)
    && (forall p :: p in ps ==> IsHit(bs, keys, hits, p))
    && (forall p :: p in ps ==> p.hitKey > i || (p.hitKey == i < |hits| && j <= |hits[i]| && p.backend.name in hits[i][..j]))
    && (forall k, name :: i < k < |keys| && keys[k] != "" && name in hits[k] && Known(bs, name) ==> Listed(ps, name, k))
    && (i < |keys| && j <= |hits[i]| ==> forall name :: name in hits[i][..j] && Known(bs, name) ==> Listed(ps, name, i))
  }

  lemma {:induction false} FirstAtEnd(names: seq<string>, j: nat)
    requires j < |names| && names[j] !in names[..j]
    ensures FirstAt(names, names[j]) == j
    decreases j
  {
    if j > 0 {
      assert names[0] == names[..j][0];
      assert names[1..][..j - 1] == names[..j][1..];
      FirstAtEnd(names[1..], j - 1);
    }
  }

  lemma {:induction false} FirstAtEarlier(names: seq<string>, j: nat, name: string)
    requires j <= |names| && name in names[..j]
    ensures name in names && FirstAt(names, name) < j
    decreases j
  {
    assert names == names[..j] + names[j..];
    if names[0] != name {
      assert names[..j] == [names[0]] + names[1..][..j - 1];
      FirstAtEarlier(names[1..], j - 1, name);
    }
  }

  /** A name not listed yet follows everything listed. */
  lemma NewHitFollows(bs: seq<Backend>, keys: seq<string>, hits: seq<seq<string>>, ps: seq<Prioritized>, i: nat, j: nat, p: Prioritized)
    requires |keys| == |hits| && i < |keys| && keys[i] != "" && j < |hits[i]|
    requires ResolvedSoFar(bs, keys, hits, ps, i, j)
    requires p.hitKey == i && p.backend.name == hits[i][j] && Known(bs, hits[i][j]) && !Has(ps, hits[i][j])
    ensures forall a :: 0 <= a < |ps| ==> Precedes(hits, ps[a], p) && ps[a].backend.name != p.backend.name
  {
    hide FirstAt, Known, Ranked, DistinctNames, IsHit;
    var name := hits[i][j];
    assert name in hits[i][..j] ==> Listed(ps, name, i);
    assert Listed(ps, name, i) ==> Has(ps, name);
    FirstAtEnd(hits[i], j);
    forall a | 0 <= a < |ps| ensures Precedes(hits, ps[a], p) && ps[a].backend.name != name {
      assert ps[a] in ps;
      if ps[a].hitKey == i {
        FirstAtEarlier(hits[i], j, ps[a].backend.name);
      }
    }
  }

  lemma OrderSnoc(hits: seq<seq<string>>, ps: seq<Prioritized>, p: Prioritized)
    requires DistinctNames(ps) && Ranked(hits, ps)
    requires forall a :: 0 <= a < |ps| ==> Precedes(hits, ps[a], p) && ps[a].backend.name != p.backend.name
    ensures DistinctNames(ps + [p]) && Ranked(hits, ps + [p])
  {
    hide Precedes;
  }

  lemma ListedSnoc(ps: seq<Prioritized>, p: Prioritized)
    ensures forall x :: x in ps + [p] <==> x in ps || x == p
    ensures forall name, k :: Listed(ps, name, k) ==> Listed(ps + [p], name, k)
    ensures Listed(ps + [p], p.backend.name, p.hitKey)
  {
    assert p in ps + [p];
    forall name, k | Listed(ps, name, k) ensures Listed(ps + [p], name, k) {
      var x :| x in ps && x.backend.name == name && x.hitKey >= k;
      assert x in ps + [p];
    }
  }

  lemma HasIsListed(ps: seq<Prioritized>, name: string, i: int)
    requires Has(ps, name) && forall p :: p in ps ==> p.hitKey >= i
    ensures Listed(ps, name, i)
  {
  }

  lemma OneHit(bs: seq<Backend>, keys: seq<string>, hits: seq<seq<string>>, ps: seq<Prioritized>, i: nat, j: nat)
    requires |keys| == |hits| && i < |keys| && keys[i] != "" && j < |hits[i]|
    requires ResolvedSoFar(bs, keys, hits, ps, i, j)
    ensures ResolvedSoFar(bs, keys, hits, WithHit(bs, |keys|, i, hits[i][j], ps), i, j + 1)
  {
    hide ByName, FirstAt, Known, Has, Listed, Ranked, Precedes, DistinctNames;
    var name := hits[i][j];
    assert hits[i][..j + 1] == hits[i][..j] + [name];
    if Known(bs, name) {
      if Has(ps, name) {
        HasIsListed(ps, name, i);
      } else {
        var p := Prioritized(ByName(bs, name), |keys|, i);
        NewHitFollows(bs, keys, hits, ps, i, j, p);
        OrderSnoc(hits, ps, p);
        ListedSnoc(ps, p);
      }
    }
  }

  lemma {:induction false} KeyHits(
    bs: seq<Backend>, keys: seq<string>, hits: seq<seq<string>>, ps: seq<Prioritized>, i: nat, j: nat)
    requires |keys| == |hits| && i < |keys| && keys[i] != "" && j <= |hits[i]|
    requires ResolvedSoFar(bs, keys, hits, ps, i, 0)
    ensures ResolvedSoFar(bs, keys, hits, WithHits(bs, |keys|, i, hits[i][..j], ps), i, j)
    decreases j
  {
    hide ResolvedSoFar, WithHit;
    if j > 0 {
      assert hits[i][..j][..j - 1] == hits[i][..j - 1];
      KeyHits(bs, keys, hits, ps, i, j - 1);
      OneHit(bs, keys, hits, WithHits(bs, |keys|, i, hits[i][..j - 1], ps), i, j - 1);
    }
  }

  lemma NextKeyDown(bs: seq<Backend>, keys: seq<string>, hits: seq<seq<string>>, ps: seq<Prioritized>, i: nat)
    requires |keys| == |hits| && i < |keys|
    requires i + 1 < |keys| && keys[i + 1] != "" ==> ResolvedSoFar(bs, keys, hits, ps, i + 1, |hits[i + 1]|)
    requires i + 1 == |keys| || keys[i + 1] == "" ==> ResolvedSoFar(bs, keys, hits, ps, i + 1, 0)
    ensures ResolvedSoFar(bs, keys, hits, ps, i, 0)
  {
    hide Ranked, IsHit, DistinctNames, Listed, Known;
    if i + 1 < |keys| {
      assert hits[i + 1][..|hits[i + 1]|] == hits[i + 1];
    }
  }

  lemma {:induction false} KeysDown(bs: seq<Backend>, keys: seq<string>, hits: seq<seq<string>>, i: nat)
    requires |keys| == |hits| && i <= |keys|
    ensures ResolvedSoFar(bs, keys, hits, Resolved(bs, keys, hits, i), i,
                          if i < |keys| && keys[i] != "" then |hits[i]| else 0)
    decreases |keys| - i
  {
    if i < |keys| {
      hide ResolvedSoFar, WithHits;
      KeysDown(bs, keys, hits, i + 1);
      var higher := Resolved(bs, keys, hits, i + 1);
      NextKeyDown(bs, keys, hits, higher, i);
      if keys[i] != "" {
        assert hits[i][..|hits[i]|] == hits[i];
        KeyHits(bs, keys, hits, higher, i, |hits[i]|);
      }
    }
  }

  /**
   Each known hit is listed once, as the last backend of its name and under its best key; later keys come
   first, and under one key the stored order is kept.
   */
  lemma ResolvedIsRight(bs: seq<Backend>, keys: seq<string>, hits: seq<seq<string>>)
    requires |keys| == |hits|
    ensures RightlyResolved(bs, keys, hits, Resolved(bs, keys, hits, 0))
  {
    hide Resolved, Ranked, IsHit, DistinctNames, Listed, Known;
    KeysDown(bs, keys, hits, 0);
    if keys != [] && keys[0] != "" {
      assert hits[0][..|hits[0]|] == hits[0];
    }
  }

  // ----- Selecting by concurrency -----

  /** The backend can be chosen at this moment: positive capacity and a readable count. */
  predicate Eligible(w: World, at: nat, excluded: set<string>, b: Backend) {
    b.name !in excluded && w.capacity(at, b.name) > 0 && (w.pipelineFails(at) || w.count(at, b.name).Some?)
  }

  /** The utilization selection works with: 0 when the counts could not be fetched. */
  function Load(w: World, at: nat, b: Backend): real {
    if w.pipelineFails(at) || w.count(at, b.name).None? || w.capacity(at, b.name) <= 0 then 0.0
    else Ratio(w.count(at, b.name).value, w.capacity(at, b.name))
  }

  /** b may be selected: not excluded, with capacity, and its count can be read if counts can be read at all. */
  predicate Selectable(w: World, at: nat, excluded: set<string>, b: Backend) {
    b.name !in excluded && w.capacity(at, b.name) > 0 && (w.pipelineFails(at) || w.count(at, b.name).Some?)
  }

  /** b is at most as utilized as c, compared without dividing. */
  predicate NoBusier(w: World, at: nat, b: Backend, c: Backend) {
    w.count(at, b.name).Some? && w.count(at, c.name).Some? ==>
      w.count(at, b.name).value * w.capacity(at, c.name) <= w.count(at, c.name).value * w.capacity(at, b.name)
  }

  lemma LeastByProducts(w: World, at: nat, excluded: set<string>, b: Backend, c: Backend)
    requires Eligible(w, at, excluded, b) && Eligible(w, at, excluded, c) && !w.pipelineFails(at)
    ensures Load(w, at, b) <= Load(w, at, c) <==> NoBusier(w, at, b, c)
  {
    hide Ratio;
    RatioOrder(w.count(at, b.name).value, w.capacity(at, b.name), w.count(at, c.name).value, w.capacity(at, c.name));
  }

  /** selectByConcurrency; the shuffle makes any least loaded eligible backend a possible result. */
  method SelectByConcurrency(bs: seq<Backend>, w: World, at: nat, excluded: set<string>)
    returns (selected: Option<Backend>, ratio: real)
    ensures selected.Some? ==>
      && selected.value in bs && Eligible(w, at, excluded, selected.value) && ratio == Load(w, at, selected.value)
      && forall b :: b in bs && Eligible(w, at, excluded, b) ==> ratio <= Load(w, at, b)
    ensures selected.None? ==> forall b :: b in bs ==> !Eligible(w, at, excluded, b)
    ensures selected.None? <==> forall b :: b in bs ==> !Selectable(w, at, excluded, b)
    ensures selected.Some? ==>
      && Selectable(w, at, excluded, selected.value)
      && (!w.pipelineFails(at) ==>
            forall c :: c in bs && Selectable(w, at, excluded, c) ==> NoBusier(w, at, selected.value, c))
  {
    hide Ratio, NoBusier;
    var usable: seq<Backend> := [];
    for i := 0 to |bs|
      invariant forall b :: b in usable <==> b in bs[..i] && Eligible(w, at, excluded, b)
    {
      assert bs[..i + 1] == bs[..i] + [bs[i]];
      if Eligible(w, at, excluded, bs[i]) {
        usable := usable + [bs[i]];
      }
    }
    assert bs[..|bs|] == bs;
    if |usable| == 0 {
      return None, 0.0;
    }
    var first :| 0 <= first < |usable|;
    var best := usable[first];
    for i := 0 to |usable|
      invariant best in usable
      invariant forall k :: 0 <= k < i ==> Load(w, at, best) <= Load(w, at, usable[k])
    {
      if Load(w, at, usable[i]) < Load(w, at, best) {
        best := usable[i];
      }
    }
    if !w.pipelineFails(at) {
      forall c | c in bs && Selectable(w, at, excluded, c) ensures NoBusier(w, at, best, c) {
        assert c in usable;
        LeastByProducts(w, at, excluded, best, c);
      }
    }
    return Some(best), Load(w, at, best);
  }

  /** overHeadroom: fails open when the count cannot be read. */
  function OverHeadroom(w: World, at: nat, b: Backend): bool {
    w.capacity(at, b.name) <= 0 ||
    (Readable(w, at, b) && Ratio(w.count(at, b.name).value, w.capacity(at, b.name)) > b.ceiling)
  }

  // ----- The loop, as a log -----

  /** What one iteration decides: to ask a backend, to exclude one, or that none is left. */
  datatype Step = Ask(b: Backend) | Skip(b: Backend, overCeiling: bool) | NoneLeft

  datatype Result = Response | Failure(error: string) | CacheMissHeadroom | NoBackend

  /** Iteration k reads capacities, selects and asks at moment 2k, and checks a hit's headroom at 2k + 1. */
  function Moment(k: nat): nat {
    2 * k
  }

  /** A hit is skipped without capacity, or when it is weak and over its ceiling; otherwise it is asked. */
  function HitStep(w: World, p: Prioritized, k: nat): Step {
    if w.capacity(Moment(k), p.backend.name) <= 0 then Skip(p.backend, false)
    else if !Strong(p) && HeadroomEnabled(p.backend) && OverHeadroom(w, Moment(k) + 1, p.backend) then Skip(p.backend, true)
    else Ask(p.backend)
  }

  predicate LeastLoaded(bs: seq<Backend>, w: World, at: nat, excluded: set<string>, b: Backend) {
    b in bs && Eligible(w, at, excluded, b) && forall c :: c in bs && Eligible(w, at, excluded, c) ==> Load(w, at, b) <= Load(w, at, c)
  }

  /** A least loaded eligible backend is skipped exactly when it is over its ceiling. */
  predicate IsSelection(bs: seq<Backend>, w: World, excluded: set<string>, k: nat, step: Step) {
    match step
    case NoneLeft => (forall b :: b in bs ==> !Eligible(w, Moment(k), excluded, b))
    case Ask(b) => LeastLoaded(bs, w, Moment(k), excluded, b) && WithinHeadroom(w, Moment(k), b)
    case Skip(b, over) =>
      over && LeastLoaded(bs, w, Moment(k), excluded, b) && !WithinHeadroom(w, Moment(k), b)
  }

  function Excluded(log: seq<Step>): set<string> {
    if log == [] then {}
    else
      var last := log[|log| - 1];
      Excluded(log[..|log| - 1]) + (if last.NoneLeft? then {} else {last.b.name})
  }

  /** retryCount, when every request so far has failed. */
  function Attempts(log: seq<Step>): nat {
    if log == [] then 0 else Attempts(log[..|log| - 1]) + (if log[|log| - 1].Ask? then 1 else 0)
  }

  function LastAsk(log: seq<Step>): (k: Option<nat>)
    ensures k.Some? ==> k.value < |log| && log[k.value].Ask? && forall i :: k.value < i < |log| ==> !log[i].Ask?
    ensures k.None? ==> forall i :: 0 <= i < |log| ==> !log[i].Ask?
  {
    if log == [] then None
    else if log[|log| - 1].Ask? then Some(|log| - 1)
    else
      var k := LastAsk(log[..|log| - 1]);
      assert forall i :: 0 <= i < |log| - 1 ==> log[i] == log[..|log| - 1][i];
      k
  }

  /** The hits come first and in order, then backends are selected by concurrency among those not excluded. */
  predicate StepRight(bs: seq<Backend>, w: World, ps: seq<Prioritized>, log: seq<Step>, k: nat)
    requires k < |log|
  {
    if k < |ps| then log[k] == HitStep(w, ps[k], k) else IsSelection(bs, w, Excluded(log[..k]), k, log[k])
  }

  /** Iteration k returns. */
  predicate Returns(bs: seq<Backend>, w: World, retryMaxCount: int, log: seq<Step>, k: nat)
    requires k < |log|
  {
    match log[k]
    case NoneLeft => true
    case Skip(_, over) => over && |Excluded(log[..k + 1])| >= |bs|
    case Ask(b) =>
      !w.reply(Moment(k), b.name).Retriable? || w.stopped(Moment(k)) ||
      Attempts(log[..k + 1]) >= retryMaxCount || |Excluded(log[..k + 1])| >= |bs|
  }

  /** The first n iterations are right and did not return. */
  predicate Running(bs: seq<Backend>, w: World, ps: seq<Prioritized>, retryMaxCount: int, log: seq<Step>, n: nat)
    requires n <= |log|
  {
    forall k :: 0 <= k < n ==> StepRight(bs, w, ps, log, k) && !Returns(bs, w, retryMaxCount, log, k)
  }

  /** A run that has just returned. */
  predicate Complete(bs: seq<Backend>, w: World, ps: seq<Prioritized>, retryMaxCount: int, log: seq<Step>) {
    log != [] &&
    var n := |log| - 1;
    Running(bs, w, ps, retryMaxCount, log, n) && StepRight(bs, w, ps, log, n) && Returns(bs, w, retryMaxCount, log, n)
  }

  function ResultOf(r: Reply): Result {
    match r case Served => Response case Retriable(e) => Failure(e) case NotRetriable(e) => Failure(e)
  }

  /** The last asked backend's own answer; the balancer's own errors only when none was asked. */
  function Outcome(w: World, log: seq<Step>): Result
    requires log != []
  {
    match LastAsk(log)
    case Some(k) => ResultOf(w.reply(Moment(k), log[k].b.name))
    case None => if log[|log| - 1].NoneLeft? then NoBackend else CacheMissHeadroom
  }

  /** One pass of the prioritized branch. */
  method NextHit(w: World, p: Prioritized, k: nat) returns (step: Step)
    ensures step == HitStep(w, p, k)
  {
    if w.capacity(Moment(k), p.backend.name) <= 0 {
      return Skip(p.backend, false);
    }
    if !Strong(p) && HeadroomEnabled(p.backend) && OverHeadroom(w, Moment(k) + 1, p.backend) {
      return Skip(p.backend, true);
    }
    return Ask(p.backend);
  }

  /** One pass of the concurrency branch: only the least loaded backend is held against its ceiling. */
  method NextByConcurrency(bs: seq<Backend>, w: World, excluded: set<string>, k: nat) returns (step: Step)
    ensures IsSelection(bs, w, excluded, k, step)
  {
    var selected, ratio := SelectByConcurrency(bs, w, Moment(k), excluded);
    if selected.None? {
      return NoneLeft;
    }
    if HeadroomEnabled(selected.value) && ratio > selected.value.ceiling {
      return Skip(selected.value, true);
    }
    return Ask(selected.value);
  }

  /**
   Process, from the resolved backends on, for every list of hits and every world. The log says what each
   iteration decided; it is a complete run, and the result is its outcome.
   */
  method Process(bs: seq<Backend>, w: World, ps: seq<Prioritized>, retryMaxCount: int)
    returns (result: Result, log: seq<Step>)
    requires DistinctNames(ps) && (forall p :: p in ps ==> p.backend in bs)
    ensures Complete(bs, w, ps, retryMaxCount, log) && result == Outcome(w, log)
  {
    hide StepRight, Returns, Running, HitStep, IsSelection, DistinctNames, ResultOf;
    var prioritizedIndex, retryCount := 0, 0;
    var excludeNames: set<string> := {};
    var last: Option<Result> := None;
    log := [];
    NothingYet(bs, w, ps, retryMaxCount);
    while true
      invariant Running(bs, w, ps, retryMaxCount, log, |log|)
      invariant prioritizedIndex == Min(|log|, |ps|)
      invariant excludeNames == Excluded(log) && retryCount == Attempts(log) && last == LastReply(w, log)
      decreases |bs| - |log|
    {
      var k, step := |log|, NoneLeft;
      ghost var before := log;
      RunIsShort(bs, w, ps, retryMaxCount, log);
      if prioritizedIndex < |ps| {
        step := NextHit(w, ps[prioritizedIndex], k);
        prioritizedIndex := prioritizedIndex + 1;
      } else {
        step := NextByConcurrency(bs, w, excludeNames, k);
      }
      log := log + [step];
      Counted(w, before, step);
      Appended(bs, w, ps, retryMaxCount, before, step);
      LastReturns(bs, w, retryMaxCount, log);
      match step {
        case NoneLeft =>
          return if last.Some? then last.value else NoBackend, log;
        case Skip(b, overCeiling) =>
          excludeNames := excludeNames + {b.name};
          if overCeiling && |excludeNames| >= |bs| {
            return if last.Some? then last.value else CacheMissHeadroom, log;
          }
        case Ask(b) =>
          var reply := w.reply(Moment(k), b.name);
          last := Some(ResultOf(reply));
          excludeNames := excludeNames + {b.name};
          retryCount := retryCount + 1;
          if reply.Served? || reply.NotRetriable? {
            return last.value, log;
          }
          if w.stopped(Moment(k)) || retryCount >= retryMaxCount || |excludeNames| >= |bs| {
            return last.value, log;
          }
      }
      RunIsShort(bs, w, ps, retryMaxCount, log);
    }
  }

  // ----- Lemmas for the loop -----

  /** lastErr and lastResp, when some backend has been asked. */
  function LastReply(w: World, log: seq<Step>): Option<Result> {
    match LastAsk(log)
    case None => None
    case Some(k) => Some(ResultOf(w.reply(Moment(k), log[k].b.name)))
  }

  lemma NothingYet(bs: seq<Backend>, w: World, ps: seq<Prioritized>, retryMaxCount: int)
    ensures Running(bs, w, ps, retryMaxCount, [], 0) && Excluded([]) == {} && Attempts([]) == 0
    ensures LastReply(w, []) == None
  {
  }

  /** What ends the loop, in terms of the excluded names and the attempts so far. */
  lemma LastReturns(bs: seq<Backend>, w: World, retryMaxCount: int, log: seq<Step>)
    requires log != []
    ensures var k := |log| - 1;
      Returns(bs, w, retryMaxCount, log, k) <==>
      match log[k]
      case NoneLeft => true
      case Skip(_, over) => over && |Excluded(log)| >= |bs|
      case Ask(b) =>
        !w.reply(Moment(k), b.name).Retriable? || w.stopped(Moment(k)) ||
        Attempts(log) >= retryMaxCount || |Excluded(log)| >= |bs|
  {
    assert log[..|log| - 1 + 1] == log;
  }

  lemma Counted(w: World, log: seq<Step>, step: Step)
    ensures var longer := log + [step];
      && Excluded(longer) == Excluded(log) + (if step.NoneLeft? then {} else {step.b.name})
      && Attempts(longer) == Attempts(log) + (if step.Ask? then 1 else 0)
      && LastReply(w, longer) ==
         (if step.Ask? then Some(ResultOf(w.reply(Moment(|log|), step.b.name))) else LastReply(w, log))
  {
    hide ResultOf;
    assert (log + [step])[..|log|] == log;
  }

  lemma SamePrefix(
    bs: seq<Backend>, w: World, ps: seq<Prioritized>, retryMaxCount: int, log: seq<Step>, step: Step, k: nat)
    requires k < |log|
    ensures StepRight(bs, w, ps, log + [step], k) == StepRight(bs, w, ps, log, k)
    ensures Returns(bs, w, retryMaxCount, log + [step], k) == Returns(bs, w, retryMaxCount, log, k)
  {
    hide HitStep, IsSelection, Excluded, Attempts;
    assert (log + [step])[..k] == log[..k] && (log + [step])[..k + 1] == log[..k + 1];
  }

  lemma Appended(bs: seq<Backend>, w: World, ps: seq<Prioritized>, retryMaxCount: int, log: seq<Step>, step: Step)
    requires Running(bs, w, ps, retryMaxCount, log, |log|)
    requires if |log| < |ps| then step == HitStep(w, ps[|log|], |log|)
             else IsSelection(bs, w, Excluded(log), |log|, step)
    ensures var longer := log + [step];
      if Returns(bs, w, retryMaxCount, longer, |log|) then Complete(bs, w, ps, retryMaxCount, longer)
      else Running(bs, w, ps, retryMaxCount, longer, |longer|)
  {
    hide HitStep, IsSelection, Returns, Excluded, Attempts;
    var longer := log + [step];
    assert StepRight(bs, w, ps, longer, |log|) by {
      assert longer[..|log|] == log;
    }
    hide StepRight;
    forall k | 0 <= k < |log|
      ensures StepRight(bs, w, ps, longer, k) && !Returns(bs, w, retryMaxCount, longer, k)
    {
      SamePrefix(bs, w, ps, retryMaxCount, log, step, k);
    }
  }

  lemma {:induction false} ExcludedAt(log: seq<Step>, i: nat, j: nat)
    requires i < j <= |log| && !log[i].NoneLeft?
    ensures log[i].b.name in Excluded(log[..j])
    decreases j
  {
    assert log[..j][..j - 1] == log[..j - 1];
    if i < j - 1 {
      ExcludedAt(log, i, j - 1);
    }
  }

  /** No name is looked at twice, whatever was decided about it. */
  lemma Fresh(bs: seq<Backend>, w: World, ps: seq<Prioritized>, log: seq<Step>, i: nat, j: nat)
    requires DistinctNames(ps) && i < j < |log| && !log[i].NoneLeft? && !log[j].NoneLeft?
    requires StepRight(bs, w, ps, log, i) && StepRight(bs, w, ps, log, j)
    ensures log[i].b.name != log[j].b.name
  {
    hide WithinHeadroom, Load;
    ExcludedAt(log, i, j);
  }

  function NamesOf(bs: seq<Backend>): set<string> {
    set b | b in bs :: b.name
  }

  lemma {:induction false} FewNames(bs: seq<Backend>)
    ensures |NamesOf(bs)| <= |bs|
    decreases |bs|
  {
    if bs != [] {
      var n := |bs| - 1;
      FewNames(bs[..n]);
      assert bs == bs[..n] + [bs[n]];
      assert NamesOf(bs) == NamesOf(bs[..n]) + {bs[n].name};
    } else {
      assert NamesOf(bs) == {};
    }
  }

  predicate RightFor(bs: seq<Backend>, w: World, ps: seq<Prioritized>, log: seq<Step>) {
    DistinctNames(ps) && (forall p :: p in ps ==> p.backend in bs) &&
    forall k :: 0 <= k < |log| ==> StepRight(bs, w, ps, log, k)
  }

  lemma StepIsKnown(bs: seq<Backend>, w: World, ps: seq<Prioritized>, log: seq<Step>, k: nat)
    requires RightFor(bs, w, ps, log) && k < |log|
    ensures log[k].NoneLeft? || log[k].b in bs
    ensures k < |ps| ==> !log[k].NoneLeft? && log[k].b == ps[k].backend
  {
    hide WithinHeadroom, Load, Eligible;
    assert StepRight(bs, w, ps, log, k);
    assert k < |ps| ==> ps[k] in ps;
  }

  /** Every iteration that does not end the loop excludes a fresh name. */
  lemma {:induction false} AllFresh(bs: seq<Backend>, w: World, ps: seq<Prioritized>, log: seq<Step>, n: nat)
    requires RightFor(bs, w, ps, log) && n <= |log|
    requires forall k :: 0 <= k < n ==> !log[k].NoneLeft?
    ensures |Excluded(log[..n])| == n && Excluded(log[..n]) <= NamesOf(bs)
    ensures forall name :: name in Excluded(log[..n]) ==> exists k :: 0 <= k < n && log[k].b.name == name
    decreases n
  {
    hide StepRight, DistinctNames;
    if n > 0 {
      var m := n - 1;
      assert log[..n][..m] == log[..m];
      AllFresh(bs, w, ps, log, m);
      StepIsKnown(bs, w, ps, log, m);
      if log[m].b.name in Excluded(log[..m]) {
        var k :| 0 <= k < m && log[k].b.name == log[m].b.name;
        Fresh(bs, w, ps, log, k, m);
        assert false;
      }
    }
  }

  lemma RunIsShort(bs: seq<Backend>, w: World, ps: seq<Prioritized>, retryMaxCount: int, log: seq<Step>)
    requires DistinctNames(ps) && (forall p :: p in ps ==> p.backend in bs)
    requires Running(bs, w, ps, retryMaxCount, log, |log|)
    ensures |log| <= |bs|
  {
    hide StepRight, DistinctNames, Excluded, Attempts;
    forall k | 0 <= k < |log| ensures !log[k].NoneLeft? {
      assert !Returns(bs, w, retryMaxCount, log, k);
    }
    AllFresh(bs, w, ps, log, |log|);
    assert log[..|log|] == log;
    SubsetSize(Excluded(log), NamesOf(bs));
    FewNames(bs);
  }

  // ----- What every complete run promises -----

  predicate StrongHit(ps: seq<Prioritized>, b: Backend) {
    exists p :: p in ps && p.backend == b && Strong(p)
  }

  /** A request that is not a strong hit never goes to a backend seen over its ceiling. */
  lemma HeadroomKept(bs: seq<Backend>, w: World, ps: seq<Prioritized>, retryMaxCount: int, log: seq<Step>, k: nat)
    requires Complete(bs, w, ps, retryMaxCount, log) && k < |log| && log[k].Ask?
    ensures StrongHit(ps, log[k].b) ||
      WithinHeadroom(w, if k < |ps| then Moment(k) + 1 else Moment(k), log[k].b)
  {
    hide Returns, Excluded, Strong;
    CompleteSteps(bs, w, ps, retryMaxCount, log);
    assert StepRight(bs, w, ps, log, k);
    if k < |ps| {
      assert ps[k] in ps;
    }
  }

  /** Every hit within the log's reach is asked or skipped in its turn; a strong one only for lack of capacity. */
  lemma HitsInOrder(bs: seq<Backend>, w: World, ps: seq<Prioritized>, retryMaxCount: int, log: seq<Step>, k: nat)
    requires Complete(bs, w, ps, retryMaxCount, log) && k < |log| && k < |ps|
    ensures !log[k].NoneLeft? && log[k].b == ps[k].backend
    ensures Strong(ps[k]) ==> (log[k].Ask? <==> w.capacity(Moment(k), ps[k].backend.name) > 0)
    ensures log[k].Ask? ==> w.capacity(Moment(k), ps[k].backend.name) > 0
    ensures log[k].Skip? ==> SkipReason(w, log[k], k)
  {
    hide Returns, Excluded, Strong;
    CompleteSteps(bs, w, ps, retryMaxCount, log);
    assert StepRight(bs, w, ps, log, k);
  }

  /** At that iteration the backend had no capacity, or it was over its ceiling. */
  predicate SkipReason(w: World, s: Step, k: nat)
    requires s.Skip?
  {
    w.capacity(Moment(k), s.b.name) <= 0 ||
    (HeadroomEnabled(s.b) && (OverHeadroom(w, Moment(k), s.b) || OverHeadroom(w, Moment(k) + 1, s.b)))
  }

  lemma CompleteSteps(bs: seq<Backend>, w: World, ps: seq<Prioritized>, retryMaxCount: int, log: seq<Step>)
    requires Complete(bs, w, ps, retryMaxCount, log)
    ensures forall k :: 0 <= k < |log| ==> StepRight(bs, w, ps, log, k)
    ensures forall k :: 0 <= k < |log| - 1 ==> !Returns(bs, w, retryMaxCount, log, k)
  {
    hide StepRight, Returns;
  }

  /** No backend name is dispatched twice, and at most max(1, retryMaxCount) backends are asked. */
  lemma DispatchedOnce(bs: seq<Backend>, w: World, ps: seq<Prioritized>, retryMaxCount: int, log: seq<Step>)
    requires DistinctNames(ps) && Complete(bs, w, ps, retryMaxCount, log)
    ensures forall i, j :: 0 <= i < j < |log| && log[i].Ask? && log[j].Ask? ==> log[i].b.name != log[j].b.name
    ensures Attempts(log) <= Max(1, retryMaxCount)
  {
    hide StepRight, DistinctNames, Returns;
    CompleteSteps(bs, w, ps, retryMaxCount, log);
    forall i, j | 0 <= i < j < |log| && log[i].Ask? && log[j].Ask? ensures log[i].b.name != log[j].b.name {
      Fresh(bs, w, ps, log, i, j);
    }
    AttemptsBounded(bs, w, ps, retryMaxCount, log, |log| - 1);
  }

  lemma {:induction false} AttemptsBounded(
    bs: seq<Backend>, w: World, ps: seq<Prioritized>, retryMaxCount: int, log: seq<Step>, n: nat)
    requires n <= |log| && Running(bs, w, ps, retryMaxCount, log, n)
    ensures Attempts(log[..n]) == 0 || Attempts(log[..n]) < retryMaxCount
    decreases n
  {
    hide StepRight, Excluded;
    if n > 0 {
      AttemptsBounded(bs, w, ps, retryMaxCount, log, n - 1);
      assert log[..n][..n - 1] == log[..n - 1];
      assert !Returns(bs, w, retryMaxCount, log, n - 1);
    }
  }

  /** Before the last request asked, every one failed with a retriable error and nothing stopped the loop. */
  lemma OnlyLastCounts(
    bs: seq<Backend>, w: World, ps: seq<Prioritized>, retryMaxCount: int, log: seq<Step>, i: nat, j: nat)
    requires Complete(bs, w, ps, retryMaxCount, log) && i < j < |log| && log[i].Ask? && log[j].Ask?
    ensures w.reply(Moment(i), log[i].b.name).Retriable? && !w.stopped(Moment(i))
    ensures LastAsk(log).Some? && i < LastAsk(log).value
    ensures Outcome(w, log) == ResultOf(w.reply(Moment(LastAsk(log).value), log[LastAsk(log).value].b.name))
  {
    hide StepRight, Excluded, ResultOf;
    CompleteSteps(bs, w, ps, retryMaxCount, log);
    assert !Returns(bs, w, retryMaxCount, log, i);
  }

  /**
   The balancer's own errors mean what they say: after a headroom rejection every backend has been passed
   over for a reason; after the other error every backend has been, or could not be selected at the end.
   */
  lemma OwnErrorsAreEarned(
    bs: seq<Backend>, w: World, ps: seq<Prioritized>, retryMaxCount: int, log: seq<Step>, b: Backend)
    requires DistinctNames(ps) && (forall p :: p in ps ==> p.backend in bs) && b in bs
    requires Complete(bs, w, ps, retryMaxCount, log)
    ensures Outcome(w, log).CacheMissHeadroom? ==> PassedOver(w, log, b.name)
    ensures Outcome(w, log).NoBackend? ==>
      PassedOver(w, log, b.name) || !Eligible(w, Moment(|log| - 1), {}, b)
  {
    hide StepRight, DistinctNames, Eligible, SkipReason, Excluded;
    CompleteSteps(bs, w, ps, retryMaxCount, log);
    if LastAsk(log).None? {
      var n := if log[|log| - 1].NoneLeft? then |log| - 1 else |log|;
      forall k | 0 <= k < n ensures log[k].Skip? && SkipReason(w, log[k], k) {
        SkippedForReason(bs, w, ps, retryMaxCount, log, k);
      }
      AllFresh(bs, w, ps, log, n);
      assert log[..|log|] == log;
      if log[|log| - 1].NoneLeft? {
        NoneEligible(bs, w, ps, log, b);
      } else {
        FewNames(bs);
        FullSubset(Excluded(log), NamesOf(bs));
      }
      if b.name in Excluded(log[..n]) {
        var k :| 0 <= k < n && log[k].b.name == b.name;
        assert PassedOver(w, log, b.name);
      }
    }
  }

  predicate PassedOver(w: World, log: seq<Step>, name: string) {
    exists k :: 0 <= k < |log| && log[k].Skip? && log[k].b.name == name && SkipReason(w, log[k], k)
  }

  lemma NoneEligible(bs: seq<Backend>, w: World, ps: seq<Prioritized>, log: seq<Step>, b: Backend)
    requires log != [] && b in bs && log[|log| - 1].NoneLeft? && StepRight(bs, w, ps, log, |log| - 1)
    ensures b.name in Excluded(log[..|log| - 1]) || !Eligible(w, Moment(|log| - 1), {}, b)
  {
    hide Excluded;
  }

  lemma SkippedForReason(
    bs: seq<Backend>, w: World, ps: seq<Prioritized>, retryMaxCount: int, log: seq<Step>, k: nat)
    requires Complete(bs, w, ps, retryMaxCount, log) && LastAsk(log).None? && k < |log|
    requires k < |log| - 1 || !log[k].NoneLeft?
    ensures log[k].Skip? && SkipReason(w, log[k], k)
  {
    hide Excluded, Strong;
    CompleteSteps(bs, w, ps, retryMaxCount, log);
    assert StepRight(bs, w, ps, log, k);
    if k < |log| - 1 {
      assert !Returns(bs, w, retryMaxCount, log, k);
    }
  }

  // ----- The same in counts and capacities -----

  /** The count was read at that moment. */
  predicate CountRead(w: World, at: nat, b: Backend) {
    !w.pipelineFails(at) && w.count(at, b.name).Some?
  }

  /** A count within the ceiling's share of the capacity. */
  predicate UnderCeiling(w: World, at: nat, b: Backend) {
    w.capacity(at, b.name) > 0 && w.count(at, b.name).Some? &&
    w.count(at, b.name).value as real <= b.ceiling * w.capacity(at, b.name) as real
  }

  predicate Reserving(b: Backend) {
    b.ceiling > 0.0 && b.ceiling < 1.0
  }

  /** The hit comes from the last or the last but one of its keys. */
  predicate FromTopKeys(p: Prioritized) {
    p.hitKey + 1 == p.keyCount || p.hitKey + 2 == p.keyCount
  }

  lemma HeadroomInCounts(w: World, at: nat, b: Backend)
    ensures HeadroomEnabled(b) && OverHeadroom(w, at, b) <==>
      Reserving(b) && (w.capacity(at, b.name) <= 0 || (CountRead(w, at, b) && !UnderCeiling(w, at, b)))
    ensures WithinHeadroom(w, at, b) <==> !Reserving(b) || !CountRead(w, at, b) || UnderCeiling(w, at, b)
  {
    if w.capacity(at, b.name) > 0 && w.count(at, b.name).Some? {
      RatioAtMost(w.count(at, b.name).value, w.capacity(at, b.name), b.ceiling);
    }
  }

  /**
   What becomes of hit k: it is asked exactly when it has capacity and either comes from one of the top two
   keys, or reserves nothing, or its capacity is still positive at the check and its count is unreadable or
   under the ceiling.
   */
  lemma HitAskedExactly(bs: seq<Backend>, w: World, ps: seq<Prioritized>, retryMaxCount: int, log: seq<Step>, k: nat)
    requires Complete(bs, w, ps, retryMaxCount, log) && k < |log| && k < |ps|
    requires ps[k].hitKey < ps[k].keyCount
    ensures var b, at := ps[k].backend, 2 * k + 1;
      log[k] == Ask(b) <==>
      w.capacity(2 * k, b.name) > 0 &&
      (FromTopKeys(ps[k]) || !Reserving(b) ||
       (w.capacity(at, b.name) > 0 && (!CountRead(w, at, b) || UnderCeiling(w, at, b))))
  {
    hide Returns, Excluded, UnderCeiling, CountRead, OverHeadroom, Reserving, HeadroomEnabled;
    CompleteSteps(bs, w, ps, retryMaxCount, log);
    assert StepRight(bs, w, ps, log, k);
    HeadroomInCounts(w, 2 * k + 1, ps[k].backend);
  }

  /**
   What becomes of a selection: nothing is left exactly when no backend is selectable; otherwise the one
   looked at is selectable and, with counts readable, no other is less utilized; and it is skipped exactly
   when it reserves headroom and its count was read over the ceiling.
   */
  lemma SelectionExactly(bs: seq<Backend>, w: World, ps: seq<Prioritized>, retryMaxCount: int, log: seq<Step>, k: nat)
    requires Complete(bs, w, ps, retryMaxCount, log) && |ps| <= k < |log|
    ensures var at, excluded, step := 2 * k, Excluded(log[..k]), log[k];
      && (step.NoneLeft? <==> forall b :: b in bs ==> !Selectable(w, at, excluded, b))
      && (!step.NoneLeft? ==>
            step.b in bs && Selectable(w, at, excluded, step.b) &&
            (!w.pipelineFails(at) ==>
               forall c :: c in bs && Selectable(w, at, excluded, c) ==> NoBusier(w, at, step.b, c)) &&
            (step.Skip? <==> Reserving(step.b) && CountRead(w, at, step.b) && !UnderCeiling(w, at, step.b)))
  {
    hide Returns, Excluded, UnderCeiling, CountRead, Load, Reserving, WithinHeadroom, NoBusier;
    CompleteSteps(bs, w, ps, retryMaxCount, log);
    assert StepRight(bs, w, ps, log, k);
    var at, excluded, step := 2 * k, Excluded(log[..k]), log[k];
    if !step.NoneLeft? {
      HeadroomInCounts(w, at, step.b);
      if !w.pipelineFails(at) {
        forall c | c in bs && Selectable(w, at, excluded, c) ensures NoBusier(w, at, step.b, c) {
          LeastByProducts(w, at, excluded, step.b, c);
        }
      }
    }
  }

  /**
   The gate in counts: a request that does not come from one of the top two keys and goes to a backend that
   reserves headroom, with the count read, finds it within the ceiling's share of the capacity.
   */
  lemma AskedUnderCeiling(bs: seq<Backend>, w: World, ps: seq<Prioritized>, retryMaxCount: int, log: seq<Step>, k: nat)
    requires Complete(bs, w, ps, retryMaxCount, log) && k < |log| && log[k].Ask?
    requires k < |ps| ==> ps[k].hitKey < ps[k].keyCount && !FromTopKeys(ps[k])
    requires Reserving(log[k].b)
    ensures var at := if k < |ps| then 2 * k + 1 else 2 * k;
      CountRead(w, at, log[k].b) ==> UnderCeiling(w, at, log[k].b)
  {
    hide Complete, Excluded, UnderCeiling, CountRead, Reserving, Selectable, NoBusier;
    if k < |ps| {
      HitAskedExactly(bs, w, ps, retryMaxCount, log, k);
      HitsInOrder(bs, w, ps, retryMaxCount, log, k);
    } else {
      SelectionExactly(bs, w, ps, retryMaxCount, log, k);
    }
  }
}
