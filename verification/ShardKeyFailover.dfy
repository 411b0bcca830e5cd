/**
 The retry loop of ShardKeyWeightedRoundRobin.Process (pkg/engines/load-balancer/shard_key_round_robin.go,
 lines 183-277). Engines, the retry period and the request's context are functions of the attempt number.
 */
module ShardKeyFailover {
  import opened Prelude
  import opened Sums
  import opened ShardKeyWrr
  import opened Failover

  datatype World = World(reply: (nat, string) -> Reply, stop: nat -> bool)

  datatype Outcome = Answer(reply: Reply) | NoEngine

  function NamesOf(s: seq<string>): set<string> {
    set n | n in s
  }

  predicate Distinct(s: seq<string>) {
    forall i, j :: 0 <= i < j < |s| ==> s[i] != s[j]
  }

  /** What the constructor guarantees of the weights. */
  predicate Weighted(ws: seq<int>) {
    (forall k :: 0 <= k < |ws| ==> ws[k] >= 0) && exists k :: 0 <= k < |ws| && ws[k] > 0
  }

  /** resolvePrioritizedBackends lists known names with a positive weight, each once. */
  predicate Resolved(names: seq<string>, ws: seq<int>, ps: seq<string>)
    requires |names| == |ws|
  {
    Distinct(ps) && forall p :: p in ps ==> Positive(names, ws, p)
  }

  predicate Positive(names: seq<string>, ws: seq<int>, p: string)
    requires |names| == |ws|
  {
    p != "" && exists k :: 0 <= k < |names| && names[k] == p && ws[k] > 0
  }

  /** Attempt i was answered with an error that may be retried, and nothing stopped the loop. */
  predicate GoesOn(w: World, trace: seq<string>, i: nat)
    requires i < |trace|
  {
    w.reply(i, trace[i]).Retriable? && !w.stop(i)
  }

  /** The attempts: distinct known names, all but the last going on, the prioritized ones first. */
  predicate GoodTrace(names: seq<string>, w: World, ps: seq<string>, trace: seq<string>) {
    && Distinct(trace) && (forall n :: n in trace ==> n in names)
    && (forall i :: 0 <= i < |trace| - 1 ==> GoesOn(w, trace, i))
    && (forall i :: 0 <= i < |trace| && i < |ps| ==> trace[i] == ps[i])
  }

  lemma {:induction false} DistinctSize(s: seq<string>)
    requires Distinct(s)
    ensures |NamesOf(s)| == |s|
    decreases |s|
  {
    if s != [] {
      var n := |s| - 1;
      DistinctSize(s[..n]);
      assert s == s[..n] + [s[n]];
      assert NamesOf(s) == NamesOf(s[..n]) + {s[n]};
      assert s[n] !in NamesOf(s[..n]);
    } else {
      assert NamesOf(s) == {};
    }
  }

  /** A positive candidate for the prioritized name makes the pick deterministic. */
  lemma PrioritizedWins(names: seq<string>, ws: seq<int>, excluded: set<string>, cs: seq<int>, p: string, i: int)
    requires |names| == |ws| == |cs|
    requires Positive(names, ws, p) && p !in excluded && (forall k :: 0 <= k < |ws| ==> ws[k] >= 0)
    ensures Sum(Shares(names, ws, excluded)) > 0
    ensures IsSelected(names, Shares(names, ws, excluded), cs, p, i) ==> 0 <= i < |names| && names[i] == p
  {
    hide IsHeaviest;
    var shares := Shares(names, ws, excluded);
    var k :| 0 <= k < |names| && names[k] == p && ws[k] > 0;
    assert shares[k] > 0;
    SumPositive(shares, k);
    var first := FirstPositive(names, shares, p, k);
    assert IsPrioritized(names, shares, p, first);
  }

  lemma {:induction false} FirstPositive(names: seq<string>, shares: seq<int>, p: string, k: nat) returns (first: nat)
    requires |names| == |shares| && k < |names| && p != "" && names[k] == p && shares[k] > 0
    ensures IsPrioritized(names, shares, p, first)
    decreases k
  {
    if j: nat :| j < k && names[j] == p && shares[j] > 0 {
      first := FirstPositive(names, shares, p, j);
    } else {
      first := k;
    }
  }

  /** Whatever was selected is a candidate, and the sum of the current weights is kept. */
  lemma SelectedIsCandidate(names: seq<string>, ws: seq<int>, excluded: set<string>, cs: seq<int>, p: string, i: int)
    requires |names| == |ws| == |cs|
    requires IsSelected(names, Shares(names, ws, excluded), cs, p, i)
    ensures Candidate(names, ws, excluded, i) && |Shares(names, ws, excluded)| == |names|
    ensures SelectedAt(names, Shares(names, ws, excluded), cs, p, i)
    ensures Sum(ShardNext(Shares(names, ws, excluded), cs, i)) == Sum(cs)
  {
    hide ShardNext, Sum;
    assert Shares(names, ws, excluded)[i] > 0;
    SumConserved(Shares(names, ws, excluded), cs, i);
  }

  /** A selection with nothing but zero weights takes any candidate; otherwise the weights decide and move. */
  ghost predicate Picked(
    names: seq<string>, ws: seq<int>, excluded: set<string>, prioritized: string,
    cs: seq<int>, n: string, next: seq<int>)
    requires |names| == |ws| == |cs|
  {
    var shares := Shares(names, ws, excluded);
    if Sum(shares) == 0 then next == cs && n in names && n !in excluded
    else exists i :: 0 <= i < |names| && SelectedAt(names, shares, cs, prioritized, i) && names[i] == n && next == ShardNext(shares, cs, i)
  }

  ghost predicate SelectedAt(names: seq<string>, shares: seq<int>, cs: seq<int>, prioritized: string, i: nat)
    requires |names| == |shares| == |cs|
  {
    IsSelected(names, shares, cs, prioritized, i)
  }

  /** The weights between the attempts: every attempt is the pick of its moment. */
  ghost predicate PicksRight(names: seq<string>, ws: seq<int>, ps: seq<string>, trace: seq<string>, states: seq<seq<int>>)
    requires |names| == |ws|
  {
    && |states| == |trace| + 1
    && (forall i :: 0 <= i < |states| ==> |states[i]| == |ws|)
    && (forall i :: 0 <= i < |trace| ==> PickRight(names, ws, ps, trace, states, i))
  }

  ghost predicate PickRight(
    names: seq<string>, ws: seq<int>, ps: seq<string>, trace: seq<string>, states: seq<seq<int>>, i: nat)
    requires |names| == |ws| && i < |trace| < |states| && |states[i]| == |ws|
  {
    Picked(names, ws, NamesOf(trace[..i]), if i < |ps| then ps[i] else "", states[i], trace[i], states[i + 1])
  }

  /** One selection of the loop: the name chosen, if any. */
  method Pick(lb: ShardKeyWeightedRoundRobin, prioritized: string, excluded: set<string>) returns (n: Option<string>)
    requires lb.Valid() && (forall k :: 0 <= k < |lb.weights| ==> lb.weights[k] >= 0)
    modifies lb.current
    ensures Sum(lb.current[..]) == Sum(old(lb.current[..]))
    ensures n.Some? ==> n.value in lb.names && n.value !in excluded
    ensures n.Some? ==>
      Picked(lb.names, lb.weights, excluded, prioritized, old(lb.current[..]), n.value, lb.current[..])
    ensures n.None? ==> lb.current[..] == old(lb.current[..])
    ensures n.None? ==> forall m :: m in lb.names ==> m in excluded
    ensures prioritized !in excluded && Positive(lb.names, lb.weights, prioritized) ==> n == Some(prioritized)
  {
    hide Sum, IsSelected, Shares, ShardNext;
    ghost var cs, shares := lb.current[..], Shares(lb.names, lb.weights, excluded);
    var r := lb.GetNextEngine(prioritized, excluded);
    if prioritized !in excluded && Positive(lb.names, lb.weights, prioritized) {
      PrioritizedWins(lb.names, lb.weights, excluded, cs, prioritized, if r.Selected? then r.position else 0);
    }
    if r.NoBackend? {
      forall m | m in lb.names ensures m in excluded {
        var k :| 0 <= k < |lb.names| && lb.names[k] == m;
        assert !Candidate(lb.names, lb.weights, excluded, k);
      }
      return None;
    }
    if Sum(shares) != 0 {
      SelectedIsCandidate(lb.names, lb.weights, excluded, cs, prioritized, r.position);
      assert SelectedAt(lb.names, shares, cs, prioritized, r.position);
    }
    return Some(lb.names[r.position]);
  }

  /** How a request ended after the attempts of the trace. */
  predicate Ended(names: seq<string>, w: World, retryMaxCount: int, trace: seq<string>, result: Outcome) {
    trace != [] &&
    var last := |trace| - 1;
    match result
    case Answer(reply) =>
      (reply == w.reply(last, trace[last]) &&
       (!GoesOn(w, trace, last) || |trace| >= retryMaxCount || |trace| >= |names|))
    case NoEngine =>
      (GoesOn(w, trace, last) && NamesOf(trace) == NamesOf(names) && |trace| < |names| && |trace| < retryMaxCount)
  }

  /**
   Process. No name is tried twice, the prioritized backends come first and in order, at most
   max(1, retryMaxCount) attempts are made, and the answer is the last attempt's own, unless the loop runs
   out of engines. It does so only when fewer names than backends exist, all of them have failed, and
   attempts are left.
   */
  method Process(lb: ShardKeyWeightedRoundRobin, w: World, ps: seq<string>, retryMaxCount: int)
    returns (result: Outcome, trace: seq<string>, ghost states: seq<seq<int>>)
    requires lb.Valid() && Weighted(lb.weights) && Resolved(lb.names, lb.weights, ps)
    modifies lb.current
    ensures GoodTrace(lb.names, w, ps, trace) && |trace| <= Max(1, retryMaxCount)
    ensures Ended(lb.names, w, retryMaxCount, trace, result)
    ensures PicksRight(lb.names, lb.weights, ps, trace, states)
    ensures states[0] == old(lb.current[..]) && states[|trace|] == lb.current[..]
    ensures Sum(lb.current[..]) == Sum(old(lb.current[..]))
  {
    hide Sum, Positive, PickRight, Picked, GoodTrace, Distinct, Resolved, NamesOf;
    Untried(lb.names, w, ps);
    var prioritizedIndex := 0;
    var excludeNames: set<string> := {};
    trace, states := [], [lb.current[..]];
    while true
      invariant prioritizedIndex <= |ps|
      invariant prioritizedIndex == |trace| || (prioritizedIndex == |ps| && |trace| >= |ps|)
      invariant GoodTrace(lb.names, w, ps, trace) && |trace| < Max(1, retryMaxCount)
      invariant trace != [] ==> GoesOn(w, trace, |trace| - 1) && |trace| < |lb.names| && |trace| < retryMaxCount
      invariant excludeNames == NamesOf(trace)
      invariant PicksRight(lb.names, lb.weights, ps, trace, states)
      invariant states[0] == old(lb.current[..]) && states[|trace|] == lb.current[..]
      invariant Sum(lb.current[..]) == Sum(old(lb.current[..]))
      decreases Max(1, retryMaxCount) - |trace|
    {
      var prioritized := "";
      if prioritizedIndex < |ps| {
        FreshPrioritized(lb.names, lb.weights, w, ps, trace);
        if ps[prioritizedIndex] !in excludeNames {
          prioritized := ps[prioritizedIndex];
        }
        prioritizedIndex := prioritizedIndex + 1;
      }
      var n := Pick(lb, prioritized, excludeNames);
      if n.None? {
        OutOfEngines(lb.names, lb.weights, w, ps, trace);
        return NoEngine, trace, states;
      }
      ghost var before := trace;
      PickedNext(lb.names, lb.weights, ps, trace, states, n.value, lb.current[..]);
      trace, states := trace + [n.value], states + [lb.current[..]];
      Extended(lb.names, w, ps, before, n.value);
      var reply := w.reply(|trace| - 1, n.value);
      if reply.Served? {
        return Answer(reply), trace, states;
      }
      if reply.NotRetriable? {
        return Answer(reply), trace, states;
      }
      excludeNames := excludeNames + {n.value};
      if w.stop(|trace| - 1) || |trace| >= retryMaxCount {
        return Answer(reply), trace, states;
      }
      TraceSize(lb.names, w, ps, trace);
      if |excludeNames| >= |lb.names| {
        return Answer(reply), trace, states;
      }
    }
  }

  lemma PickedNext(
    names: seq<string>, ws: seq<int>, ps: seq<string>, trace: seq<string>, states: seq<seq<int>>,
    n: string, next: seq<int>)
    requires |names| == |ws| == |next| && PicksRight(names, ws, ps, trace, states)
    requires Picked(names, ws, NamesOf(trace), if |trace| < |ps| then ps[|trace|] else "", states[|trace|], n, next)
    ensures PicksRight(names, ws, ps, trace + [n], states + [next])
  {
    hide Picked, NamesOf;
    var longer, more := trace + [n], states + [next];
    assert longer[..|trace|] == trace;
    forall i | 0 <= i < |longer| ensures PickRight(names, ws, ps, longer, more, i) {
      if i < |trace| {
        assert PickRight(names, ws, ps, trace, states, i);
        assert longer[..i] == trace[..i];
      }
    }
  }

  lemma Untried(names: seq<string>, w: World, ps: seq<string>)
    ensures GoodTrace(names, w, ps, []) && NamesOf([]) == {}
  {
  }

  lemma FreshPrioritized(names: seq<string>, ws: seq<int>, w: World, ps: seq<string>, trace: seq<string>)
    requires |names| == |ws| && Resolved(names, ws, ps) && GoodTrace(names, w, ps, trace) && |trace| < |ps|
    ensures ps[|trace|] !in NamesOf(trace) && Positive(names, ws, ps[|trace|])
  {
    hide Positive;
  }

  lemma TraceSize(names: seq<string>, w: World, ps: seq<string>, trace: seq<string>)
    requires GoodTrace(names, w, ps, trace)
    ensures |NamesOf(trace)| == |trace|
  {
    DistinctSize(trace);
  }

  lemma Extended(names: seq<string>, w: World, ps: seq<string>, trace: seq<string>, n: string)
    requires GoodTrace(names, w, ps, trace) && n in names && n !in NamesOf(trace)
    requires trace != [] ==> GoesOn(w, trace, |trace| - 1)
    requires |trace| < |ps| ==> n == ps[|trace|]
    ensures GoodTrace(names, w, ps, trace + [n])
    ensures NamesOf(trace + [n]) == NamesOf(trace) + {n}
  {
    var longer := trace + [n];
    forall i | 0 <= i < |longer| - 1 ensures GoesOn(w, longer, i) {
      assert longer[i] == trace[i];
      assert GoesOn(w, trace, i);
    }
  }

  lemma OutOfEngines(names: seq<string>, ws: seq<int>, w: World, ps: seq<string>, trace: seq<string>)
    requires |names| == |ws| && Weighted(ws) && GoodTrace(names, w, ps, trace)
    requires forall m :: m in names ==> m in NamesOf(trace)
    ensures NamesOf(trace) == NamesOf(names) && trace != []
  {
    assert names[0] in names;
  }

  lemma DistinctExactly(s: seq<string>)
    ensures Distinct(s) <==> |NamesOf(s)| >= |s|
  {
    if Distinct(s) {
      DistinctSize(s);
    } else {
      DuplicatesShrink(s);
    }
  }

  /** With distinct backend names the loop cannot run out of engines, so no backend's error is lost. */
  lemma DistinctNamesSuffice(
    names: seq<string>, w: World, ps: seq<string>, retryMaxCount: int, trace: seq<string>, result: Outcome)
    requires GoodTrace(names, w, ps, trace) && Ended(names, w, retryMaxCount, trace, result)
    requires Distinct(names)
    ensures result.Answer?
  {
    hide NamesOf;
    DistinctExactly(names);
    DistinctSize(trace);
  }

  /**
   Against engines that always fail with a retriable error, before any deadline, the last error is lost if
   and only if two backends share a name and there are fewer names than attempts.
   */
  lemma ErrorLostExactly(
    names: seq<string>, w: World, ps: seq<string>, retryMaxCount: int, trace: seq<string>, result: Outcome)
    requires GoodTrace(names, w, ps, trace) && Ended(names, w, retryMaxCount, trace, result)
    requires forall i: nat, n :: w.reply(i, n).Retriable? && !w.stop(i)
    ensures result.NoEngine? <==> !Distinct(names) && |NamesOf(names)| < retryMaxCount
  {
    DistinctExactly(names);
    DistinctSize(trace);
    SubsetSize(NamesOf(trace), NamesOf(names));
  }

  lemma DuplicatesShrink(s: seq<string>)
    requires !Distinct(s)
    ensures |NamesOf(s)| < |s|
  {
    var i, j :| 0 <= i < j < |s| && s[i] == s[j];
    var rest := s[..j] + s[j + 1..];
    assert rest[i] == s[j];
    assert forall n :: n in s ==> n in rest by {
      forall n | n in s ensures n in rest {
        var k :| 0 <= k < |s| && s[k] == n;
        if k < j {
          assert rest[k] == n;
        } else if k > j {
          assert rest[k - 1] == n;
        }
      }
    }
    assert NamesOf(s) == NamesOf(rest);
    AtMostLength(rest);
  }

  lemma {:induction false} AtMostLength(s: seq<string>)
    ensures |NamesOf(s)| <= |s|
    decreases |s|
  {
    if s != [] {
      var n := |s| - 1;
      AtMostLength(s[..n]);
      assert s == s[..n] + [s[n]];
      assert NamesOf(s) == NamesOf(s[..n]) + {s[n]};
    } else {
      assert NamesOf(s) == {};
    }
  }
}
