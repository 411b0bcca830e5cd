/**
 Smooth weighted round robin: pkg/engines/load-balancer/round_robin.go, and the same algorithm over
 moderation services in pkg/engines/moderator/weighted_service.go.
 */
module SmoothWrr {
  import opened Sums

  // ----- Picks -----

  /** The current weights after every backend has added its own weight. */
  function Raised(cs: seq<int>, ws: seq<int>): seq<int>
    requires |cs| == |ws|
  {
    seq(|cs|, i requires 0 <= i < |cs| => cs[i] + ws[i])
  }

  /** i is the first position of the largest positive value; -1 when no value is positive. */
  predicate IsPick(v: seq<int>, i: int) {
    if i == -1 then forall k :: 0 <= k < |v| ==> v[k] <= 0
    else
      && 0 <= i < |v| && v[i] > 0
      && (forall k :: 0 <= k < |v| ==> v[k] <= v[i])
      && (forall k :: 0 <= k < i ==> v[k] < v[i])
  }

  function Charged(v: seq<int>, i: int, total: int): seq<int> {
    if 0 <= i < |v| then v[i := v[i] - total] else v
  }

  function Next(ws: seq<int>, cs: seq<int>, i: int): seq<int>
    requires |cs| == |ws|
  {
    Charged(Raised(cs, ws), i, Sum(ws))
  }

  /** The current weights after a run of picks. */
  function After(ws: seq<int>, cs: seq<int>, picks: seq<int>): (r: seq<int>)
    requires |cs| == |ws|
    ensures |r| == |ws|
  {
    if picks == [] then cs else Next(ws, After(ws, cs, picks[..|picks| - 1]), picks[|picks| - 1])
  }

  /** Every pick is the one the algorithm makes in its state. */
  predicate IsRun(ws: seq<int>, cs: seq<int>, picks: seq<int>)
    requires |cs| == |ws|
  {
    picks == [] ||
    (IsRun(ws, cs, picks[..|picks| - 1]) &&
     IsPick(Raised(After(ws, cs, picks[..|picks| - 1]), ws), picks[|picks| - 1]))
  }

  // ----- The load balancer -----

  predicate Configured(ws: seq<int>) {
    ws != [] && (forall k :: 0 <= k < |ws| ==> ws[k] >= 0) && Sum(ws) > 0
  }

  /** The state the constructor leaves: any start weight between 0 and the backend's weight. */
  predicate IsStart(ws: seq<int>, cs: seq<int>) {
    |cs| == |ws| && forall k :: 0 <= k < |ws| ==> 0 <= cs[k] <= ws[k]
  }

  ghost function Nonzero(items: seq<int>): (k: nat)
    requires exists k :: 0 <= k < |items| && items[k] != 0
    ensures k < |items| && items[k] != 0
  {
    var k :| 0 <= k < |items| && items[k] != 0;
    k
  }

  class WeightedRoundRobin {
    const weights: seq<int>
    const current: array<int>

    ghost predicate Valid()
      reads this
    {
      Configured(weights) && current.Length == |weights|
    }

    constructor (weights: seq<int>, current: array<int>)
      requires Configured(weights) && current.Length == |weights|
      ensures Valid() && this.weights == weights && this.current == current
    {
      this.weights, this.current := weights, current;
    }

    /** NewWeightedRoundRobin: null stands for the error; all-zero weights become 100 each. */
    static method New(items: seq<int>) returns (lb: WeightedRoundRobin?)
      ensures lb == null <==> items == [] || exists k :: 0 <= k < |items| && items[k] < 0
      ensures lb != null ==>
        && fresh(lb) && fresh(lb.current) && lb.Valid() && |lb.weights| == |items|
        && IsStart(lb.weights, lb.current[..])
        && (forall k :: 0 <= k < |items| ==>
              lb.weights[k] == if (forall j :: 0 <= j < |items| ==> items[j] == 0) then 100 else items[k])
    {
      if |items| == 0 {
        return null;
      }
      var allZero := true;
      for i := 0 to |items|
        invariant forall k :: 0 <= k < i ==> items[k] >= 0
        invariant allZero <==> forall k :: 0 <= k < i ==> items[k] == 0
      {
        if items[i] < 0 {
          return null;
        }
        if items[i] != 0 {
          allZero := false;
        }
      }
      ghost var positive := if allZero then 0 else Nonzero(items);
      var current := new int[|items|];
      var weights: seq<int> := [];
      hide Sum;
      for i := 0 to |items|
        invariant |weights| == i
        invariant forall k :: 0 <= k < i ==> weights[k] == if allZero then 100 else items[k]
        invariant forall k :: 0 <= k < i ==> 0 <= current[k] <= weights[k]
      {
        var w := if allZero then 100 else items[i];
        weights := weights + [w];
        var start :| 0 <= start <= w; // rand.Intn(w + 1)
        current[i] := start;
      }
      SumPositive(weights, positive);
      lb := new WeightedRoundRobin(weights, current);
    }

    /** GetNextEngine: -1 stands for the nil engine. */
    method GetNextEngine() returns (best: int)
      requires Valid()
      modifies current
      ensures Valid()
      ensures IsPick(Raised(old(current[..]), weights), best)
      ensures current[..] == Next(weights, old(current[..]), best)
    {
      var totalWeight, maxWeight := 0, 0;
      best := -1;
      ghost var raised := Raised(current[..], weights);
      for i := 0 to current.Length
        invariant -1 <= best < i
        invariant totalWeight == Sum(weights[..i])
        invariant forall k :: 0 <= k < i ==> current[k] == raised[k]
        invariant forall k :: i <= k < current.Length ==> current[k] == old(current[k])
        invariant maxWeight == if best == -1 then 0 else raised[best]
        invariant IsPick(raised[..i], best)
      {
        current[i] := current[i] + weights[i];
        totalWeight := totalWeight + weights[i];
        assert weights[..i + 1][..i] == weights[..i];
        if current[i] > maxWeight {
          maxWeight := current[i];
          best := i;
        }
        assert forall k :: 0 <= k < i ==> raised[..i + 1][k] == raised[..i][k];
      }
      assert weights[..current.Length] == weights && raised[..current.Length] == raised;
      if best == -1 {
        assert current[..] == raised;
        return;
      }
      current[best] := current[best] - totalWeight;
      assert current[..] == raised[best := raised[best] - totalWeight];
    }
  }

  // ----- Properties of every run -----

  function Count(picks: seq<int>, i: int): nat {
    if picks == [] then 0
    else Count(picks[..|picks| - 1], i) + (if picks[|picks| - 1] == i then 1 else 0)
  }

  lemma RaisedSum(cs: seq<int>, ws: seq<int>)
    requires |cs| == |ws|
    ensures Sum(Raised(cs, ws)) == Sum(cs) + Sum(ws)
  {
    SumPointwise(cs, ws, Raised(cs, ws));
  }

  lemma MulSucc(a: int, b: int)
    ensures a * (b + 1) == a * b + a
  {
  }

  lemma NextAt(ws: seq<int>, mid: seq<int>, p: int, i: nat)
    requires |mid| == |ws| && i < |ws|
    ensures Next(ws, mid, p)[i] == mid[i] + ws[i] - (if p == i then Sum(ws) else 0)
  {
    hide Sum;
  }

  /** Each current weight is an account: credited by its weight per pick, debited by W when picked. */
  lemma {:induction false} Ledger(ws: seq<int>, cs: seq<int>, picks: seq<int>, i: nat)
    requires |cs| == |ws| && i < |ws|
    ensures After(ws, cs, picks)[i] == cs[i] + ws[i] * |picks| - Sum(ws) * Count(picks, i)
    decreases |picks|
  {
    if picks != [] {
      var n := |picks| - 1;
      Ledger(ws, cs, picks[..n], i);
      hide Sum, Next;
      NextAt(ws, After(ws, cs, picks[..n]), picks[n], i);
      MulSucc(ws[i], n);
      MulSucc(Sum(ws), Count(picks[..n], i));
    }
  }

  /** The picks so far keep the sum, return a backend each time and leave no weight below 1 - W. */
  predicate Sound(ws: seq<int>, cs: seq<int>, picks: seq<int>)
    requires |cs| == |ws|
  {
    var r := After(ws, cs, picks);
    && Sum(r) == Sum(cs)
    && (forall k :: 0 <= k < |r| ==> r[k] >= 1 - Sum(ws))
    && (forall k :: 0 <= k < |r| && ws[k] == 0 ==> r[k] == 0)
    && (forall p :: p in picks ==> 0 <= p < |ws| && ws[p] > 0)
  }

  /** A backend with positive weight is always returned, and the invariant is kept. */
  lemma {:induction false} RunsAreSound(ws: seq<int>, cs: seq<int>, picks: seq<int>)
    requires Configured(ws) && IsStart(ws, cs) && IsRun(ws, cs, picks)
    ensures Sound(ws, cs, picks)
    decreases |picks|
  {
    if picks != [] {
      hide Sum, Next, Raised, IsPick, Configured, IsStart;
      var n := |picks| - 1;
      RunsAreSound(ws, cs, picks[..n]);
      assert picks == picks[..n] + [picks[n]];
      StepIsSound(ws, cs, After(ws, cs, picks[..n]), picks[n]);
    }
  }

  lemma StepIsSound(ws: seq<int>, cs: seq<int>, mid: seq<int>, p: int)
    requires Configured(ws) && IsStart(ws, cs) && |mid| == |ws| && Sum(mid) == Sum(cs)
    requires forall k :: 0 <= k < |mid| ==> mid[k] >= 1 - Sum(ws)
    requires forall k :: 0 <= k < |mid| && ws[k] == 0 ==> mid[k] == 0
    requires IsPick(Raised(mid, ws), p)
    ensures 0 <= p < |ws| && ws[p] > 0
    ensures var r := Next(ws, mid, p);
      && Sum(r) == Sum(cs)
      && (forall k :: 0 <= k < |r| ==> r[k] >= 1 - Sum(ws))
      && (forall k :: 0 <= k < |r| && ws[k] == 0 ==> r[k] == 0)
  {
    hide Sum;
    var v := Raised(mid, ws);
    RaisedSum(mid, ws);
    SumNonNegative(cs);
    var some := PositiveElement(v);
    assert v[p] >= 1 && ws[p] > 0;
    SumUpdate(v, p, v[p] - Sum(ws));
  }

  /**
   Fairness after any number of picks from any start the constructor can produce: with m backends and
   total weight W, the count of backend i differs from its exact share n*w_i/W by more than -m and less
   than 2 (both sides multiplied by W).
   */
  lemma Fairness(ws: seq<int>, cs: seq<int>, picks: seq<int>, i: nat)
    requires Configured(ws) && IsStart(ws, cs) && IsRun(ws, cs, picks) && i < |ws|
    ensures var W := Sum(ws);
      var drift := W * Count(picks, i) - ws[i] * |picks|;
      -(W * |ws|) <= drift < 2 * W
  {
    hide Sum, After, IsRun, Count;
    var W, m := Sum(ws), |ws|;
    var r := After(ws, cs, picks);
    RunsAreSound(ws, cs, picks);
    Ledger(ws, cs, picks, i);
    SumNonNegative(ws);
    SumAtLeast(r, i, 1 - W);
    StartSum(ws, cs);
    Scale(m - 1, W);
  }

  lemma Scale(a: nat, w: int)
    ensures a * (1 - w) == a - a * w
    ensures w * (a + 1) == a * w + w
  {
  }

  lemma StartSum(ws: seq<int>, cs: seq<int>)
    requires IsStart(ws, cs)
    ensures 0 <= Sum(cs) <= Sum(ws)
  {
    hide Sum;
    var gaps := seq(|ws|, k requires 0 <= k < |ws| => ws[k] - cs[k]);
    SumPointwise(cs, gaps, ws);
    SumNonNegative(gaps);
    SumNonNegative(cs);
  }

  /** From an all-zero start, W picks choose every backend exactly w_i times and return to zero. */
  lemma FullCycle(ws: seq<int>, cs: seq<int>, picks: seq<int>, i: nat)
    requires Configured(ws) && |cs| == |ws| && IsRun(ws, cs, picks) && i < |ws|
    requires (forall k :: 0 <= k < |cs| ==> cs[k] == 0) && |picks| == Sum(ws)
    ensures Count(picks, i) == ws[i] && After(ws, cs, picks)[i] == 0
  {
    hide After, IsRun, Count, Sum;
    var W, r := Sum(ws), After(ws, cs, picks);
    RunsAreSound(ws, cs, picks);
    forall k | 0 <= k < |r| ensures r[k] >= 0 {
      Ledger(ws, cs, picks, k);
      Multiple(W, ws[k], Count(picks, k), r[k]);
    }
    AllZeroSum(cs);
    SumNonNegative(r);
    Ledger(ws, cs, picks, i);
    Multiple(W, ws[i], Count(picks, i), r[i]);
  }

  /** A multiple of w above -w is not negative, and is zero only with a zero factor. */
  lemma Multiple(w: int, a: int, b: int, x: int)
    requires w > 0 && x == a * w - w * b && x >= 1 - w
    ensures x >= 0 && (x == 0 ==> a == b)
  {
    assert x == w * (a - b);
    if a - b <= -1 {
      LessFactor(w, a - b);
    } else if a - b >= 1 {
      LessFactor(w, b - a);
      assert w * (b - a) == -(w * (a - b));
    }
  }

  lemma LessFactor(w: int, q: int)
    requires w > 0 && q <= -1
    ensures w * q <= -w
  {
  }

  lemma {:induction false} AllZeroSum(cs: seq<int>)
    requires forall k :: 0 <= k < |cs| ==> cs[k] == 0
    ensures Sum(cs) == 0
  {
    if cs != [] {
      AllZeroSum(cs[..|cs| - 1]);
    }
  }
}
