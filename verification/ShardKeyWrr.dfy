/**
 The shard-key aware weighted round robin of pkg/engines/load-balancer/shard_key_round_robin.go:
 exclusions, a prioritized backend, and the order pick - penalize - accumulate.
 */
module ShardKeyWrr {
  import opened Sums
  import opened SmoothWrr

  /** Position k takes part: it is not excluded and its weight is not negative. */
  predicate Candidate(names: seq<string>, ws: seq<int>, excluded: set<string>, k: int)
    requires |names| == |ws|
  {
    0 <= k < |ws| && ws[k] >= 0 && names[k] !in excluded
  }

  /** The weight a position contributes to this pick. */
  function Share(names: seq<string>, ws: seq<int>, excluded: set<string>, k: nat): int
    requires |names| == |ws| && k < |ws|
  {
    if Candidate(names, ws, excluded, k) then ws[k] else 0
  }

  function Shares(names: seq<string>, ws: seq<int>, excluded: set<string>): seq<int>
    requires |names| == |ws|
  {
    seq(|ws|, k requires 0 <= k < |ws| => Share(names, ws, excluded, k))
  }

  /** The prioritized position: the first candidate of that name with a positive weight. */
  predicate IsPrioritized(names: seq<string>, shares: seq<int>, name: string, i: int)
    requires |names| == |shares|
  {
    && name != "" && 0 <= i < |shares| && names[i] == name && shares[i] > 0
    && forall k :: 0 <= k < i ==> !(names[k] == name && shares[k] > 0)
  }

  /** The fallback position: the first largest current weight among positive shares. */
  predicate IsHeaviest(shares: seq<int>, cs: seq<int>, i: int)
    requires |cs| == |shares|
  {
    && 0 <= i < |shares| && shares[i] > 0
    && (forall k :: 0 <= k < |shares| && shares[k] > 0 ==> cs[k] <= cs[i])
    && (forall k :: 0 <= k < i && shares[k] > 0 ==> cs[k] < cs[i])
  }

  ghost predicate IsSelected(names: seq<string>, shares: seq<int>, cs: seq<int>, name: string, i: int)
    requires |names| == |shares| == |cs|
  {
    IsPrioritized(names, shares, name, i) ||
    ((forall k :: !IsPrioritized(names, shares, name, k)) && IsHeaviest(shares, cs, i))
  }

  /** Penalize the selected position, then let every share accumulate. */
  function ShardNext(shares: seq<int>, cs: seq<int>, i: int): seq<int>
    requires |cs| == |shares|
  {
    Raised(Charged(cs, i, Sum(shares)), shares)
  }

  datatype Selection = NoBackend(allZero: bool) | Selected(position: int, allZero: bool)

  class ShardKeyWeightedRoundRobin {
    const names: seq<string>
    const weights: seq<int>
    const current: array<int>

    ghost predicate Valid()
      reads this
    {
      |names| == |weights| == current.Length
    }

    constructor (names: seq<string>, weights: seq<int>, current: array<int>)
      requires |names| == |weights| == current.Length
      ensures Valid() && this.names == names && this.weights == weights && this.current == current
    {
      this.names, this.weights, this.current := names, weights, current;
    }

    /** The candidate positions, in order. */
    ghost predicate AreCandidates(cands: seq<int>, excluded: set<string>)
      requires |names| == |weights|
    {
      && (forall k :: k in cands <==> Candidate(names, weights, excluded, k))
      && (forall a :: 0 <= a < |cands| ==> 0 <= cands[a] < |weights|)
      && (forall a, b :: 0 <= a < b < |cands| ==> cands[a] < cands[b])
    }

    /** Step 1: the candidates in order, and their total weight. */
    method Candidates(excluded: set<string>) returns (cands: seq<int>, total: int)
      requires Valid()
      ensures AreCandidates(cands, excluded)
      ensures total == Sum(Shares(names, weights, excluded))
    {
      cands, total := [], 0;
      ghost var shares := Shares(names, weights, excluded);
      for k := 0 to |weights|
        invariant forall j :: j in cands <==> j < k && Candidate(names, weights, excluded, j)
        invariant forall a :: 0 <= a < |cands| ==> 0 <= cands[a] < k
        invariant forall a, b :: 0 <= a < b < |cands| ==> cands[a] < cands[b]
        invariant total == Sum(shares[..k])
      {
        assert shares[..k + 1][..k] == shares[..k];
        if weights[k] >= 0 && names[k] !in excluded {
          assert forall a :: 0 <= a < |cands| ==> cands[a] in cands;
          total := total + weights[k];
          cands := cands + [k];
        }
      }
      assert shares[..|weights|] == shares;
    }

    /** Steps 2a and 2b. */
    method Select(cands: seq<int>, prioritized: string, excluded: set<string>) returns (i: int)
      requires Valid()
      requires AreCandidates(cands, excluded)
      ensures var shares := Shares(names, weights, excluded);
        if i == -1 then forall k :: 0 <= k < |shares| ==> shares[k] <= 0
        else IsSelected(names, shares, current[..], prioritized, i)
    {
      ghost var shares := Shares(names, weights, excluded);
      forall k | 0 <= k < |shares| && shares[k] > 0 ensures k in cands {
        assert Candidate(names, weights, excluded, k);
      }
      if prioritized != "" {
        for a := 0 to |cands|
          invariant forall b :: 0 <= b < a ==> !(names[cands[b]] == prioritized && shares[cands[b]] > 0)
        {
          var k := cands[a];
          assert k in cands && Candidate(names, weights, excluded, k);
          if names[k] == prioritized && weights[k] > 0 {
            forall j | 0 <= j < k ensures !(names[j] == prioritized && shares[j] > 0) {
              if shares[j] > 0 {
                var b :| 0 <= b < |cands| && cands[b] == j;
                assert b < a;
              }
            }
            return k;
          }
        }
        forall k ensures !IsPrioritized(names, shares, prioritized, k) {
          if 0 <= k < |shares| && shares[k] > 0 {
            var b :| 0 <= b < |cands| && cands[b] == k;
          }
        }
      }
      i := SelectHeaviest(cands, excluded);
    }

    method SelectHeaviest(cands: seq<int>, excluded: set<string>) returns (i: int)
      requires Valid()
      requires AreCandidates(cands, excluded)
      ensures var shares := Shares(names, weights, excluded);
        if i == -1 then forall k :: 0 <= k < |shares| ==> shares[k] <= 0
        else IsHeaviest(shares, current[..], i)
    {
      ghost var shares := Shares(names, weights, excluded);
      i := -1;
      ghost var at := -1;
      for a := 0 to |cands|
        invariant (i == -1 && at == -1) || (0 <= at < a && i == cands[at] && shares[i] > 0)
        invariant forall b :: 0 <= b < a && shares[cands[b]] > 0 ==>
          i != -1 && current[cands[b]] <= current[i] && (b < at ==> current[cands[b]] < current[i])
      {
        var k := cands[a];
        assert k in cands && shares[k] == weights[k];
        if weights[k] != 0 && (i == -1 || current[k] > current[i]) {
          i, at := k, a;
        }
      }
      forall k | 0 <= k < |shares| && shares[k] > 0 ensures exists b :: 0 <= b < |cands| && cands[b] == k {
        assert Candidate(names, weights, excluded, k);
        assert k in cands;
      }
    }

    /** GetNextEngine. */
    method GetNextEngine(prioritized: string, excluded: set<string>) returns (r: Selection)
      requires Valid()
      modifies current
      ensures var shares := Shares(names, weights, excluded);
        && r.allZero == (Sum(shares) == 0)
        && (Sum(shares) == 0 ==>
            current[..] == old(current[..]) &&
            (if r.Selected? then Candidate(names, weights, excluded, r.position)
             else forall k :: !Candidate(names, weights, excluded, k)))
        && (Sum(shares) != 0 ==>
            r.Selected? && IsSelected(names, shares, old(current[..]), prioritized, r.position) &&
            current[..] == ShardNext(shares, old(current[..]), r.position))
    {
      hide IsSelected;
      var cands, totalWeight := Candidates(excluded);
      ghost var shares := Shares(names, weights, excluded);
      if totalWeight == 0 {
        if |cands| == 0 {
          return NoBackend(true);
        }
        var a :| 0 <= a < |cands|; // rand.Intn
        assert cands[a] in cands;
        return Selected(cands[a], true);
      }
      var selected := Select(cands, prioritized, excluded);
      if selected == -1 {
        SumNonNegative(shares);
        SharesZero(shares);
        assert false;
      }
      assert 0 <= selected < |shares| by { SelectedInRange(names, shares, current[..], prioritized, selected); }
      ghost var charged := Charged(current[..], selected, totalWeight);
      current[selected] := current[selected] - totalWeight;
      assert current[..] == charged;
      Accumulate(cands, excluded);
      return Selected(selected, false);
    }

    /** Step 4. */
    method Accumulate(cands: seq<int>, excluded: set<string>)
      requires Valid()
      requires AreCandidates(cands, excluded)
      modifies current
      ensures current[..] == Raised(old(current[..]), Shares(names, weights, excluded))
    {
      ghost var was := current[..];
      for a := 0 to |cands|
        invariant forall k :: 0 <= k < current.Length ==>
          current[k] == was[k] + (if k in cands[..a] then weights[k] else 0)
      {
        assert cands[a] in cands && Candidate(names, weights, excluded, cands[a]);
        assert cands[..a + 1] == cands[..a] + [cands[a]];
        assert cands[a] !in cands[..a];
        if weights[cands[a]] > 0 {
          current[cands[a]] := current[cands[a]] + weights[cands[a]];
        }
      }
      assert cands[..|cands|] == cands;
    }
  }

  lemma SelectedInRange(names: seq<string>, shares: seq<int>, cs: seq<int>, name: string, i: int)
    requires |names| == |shares| == |cs| && IsSelected(names, shares, cs, name, i)
    ensures 0 <= i < |shares| && shares[i] > 0
  {
  }

  lemma {:induction false} SharesZero(shares: seq<int>)
    requires forall k :: 0 <= k < |shares| ==> shares[k] <= 0
    ensures Sum(shares) <= 0
  {
    if shares != [] {
      SharesZero(shares[..|shares| - 1]);
    }
  }

  // ----- Properties -----

  /** Whatever is excluded and prioritized, a pick keeps the sum of the current weights. */
  lemma SumConserved(shares: seq<int>, cs: seq<int>, i: nat)
    requires |cs| == |shares| && i < |cs|
    ensures Sum(ShardNext(shares, cs, i)) == Sum(cs)
  {
    hide Sum;
    var charged := Charged(cs, i, Sum(shares));
    RaisedSum(charged, shares);
    SumUpdate(cs, i, cs[i] - Sum(shares));
  }

  function ShardAfter(ws: seq<int>, cs: seq<int>, picks: seq<int>): (r: seq<int>)
    requires |cs| == |ws|
    ensures |r| == |ws|
  {
    if picks == [] then cs else ShardNext(ws, ShardAfter(ws, cs, picks[..|picks| - 1]), picks[|picks| - 1])
  }

  /** A run with nothing excluded and nothing prioritized. */
  predicate IsShardRun(ws: seq<int>, cs: seq<int>, picks: seq<int>)
    requires |cs| == |ws|
  {
    picks == [] ||
    (IsShardRun(ws, cs, picks[..|picks| - 1]) &&
     IsHeaviest(ws, ShardAfter(ws, cs, picks[..|picks| - 1]), picks[|picks| - 1]))
  }

  /** Plain round robin one accumulation behind. */
  function Behind(ws: seq<int>, cs: seq<int>): seq<int>
    requires |cs| == |ws|
  {
    seq(|ws|, k requires 0 <= k < |ws| => cs[k] - ws[k])
  }

  /** Zero-weight backends hold no credit, as the constructor leaves them. */
  predicate IdleAtZero(ws: seq<int>, cs: seq<int>)
    requires |cs| == |ws|
  {
    forall k :: 0 <= k < |ws| && ws[k] == 0 ==> cs[k] <= 0
  }

  lemma StepSimulates(ws: seq<int>, cs: seq<int>, p: int)
    requires |cs| == |ws| && (forall k :: 0 <= k < |ws| ==> ws[k] >= 0)
    requires IdleAtZero(ws, cs) && Sum(cs) > 0
    ensures IsHeaviest(ws, cs, p) <==> IsPick(Raised(Behind(ws, cs), ws), p)
    ensures IsHeaviest(ws, cs, p) ==>
      && Behind(ws, ShardNext(ws, cs, p)) == Next(ws, Behind(ws, cs), p)
      && IdleAtZero(ws, ShardNext(ws, cs, p)) && Sum(ShardNext(ws, cs, p)) == Sum(cs)
  {
    hide Sum;
    assert Raised(Behind(ws, cs), ws) == cs;
    var some := PositiveElement(cs);
    assert ws[some] > 0;
    if IsHeaviest(ws, cs, p) {
      SumConserved(ws, cs, p);
    }
  }

  /**
   With nothing excluded or prioritized and a positive sum, the sequences of picks are exactly those of
   plain smooth round robin started one accumulation earlier, and the states stay in step.
   */
  lemma {:induction false} Simulates(ws: seq<int>, cs: seq<int>, picks: seq<int>)
    requires |cs| == |ws| && (forall k :: 0 <= k < |ws| ==> ws[k] >= 0)
    requires IdleAtZero(ws, cs) && Sum(cs) > 0
    ensures IsShardRun(ws, cs, picks) <==> IsRun(ws, Behind(ws, cs), picks)
    ensures IsShardRun(ws, cs, picks) ==>
      && Behind(ws, ShardAfter(ws, cs, picks)) == After(ws, Behind(ws, cs), picks)
      && IdleAtZero(ws, ShardAfter(ws, cs, picks)) && Sum(ShardAfter(ws, cs, picks)) == Sum(cs)
    decreases |picks|
  {
    hide Sum, ShardNext, Next, Behind, IsHeaviest, IsPick, IdleAtZero, Raised;
    if picks != [] {
      var n := |picks| - 1;
      Simulates(ws, cs, picks[..n]);
      if IsShardRun(ws, cs, picks[..n]) {
        StepSimulates(ws, ShardAfter(ws, cs, picks[..n]), picks[n]);
      }
    }
  }

  lemma {:induction false} RunPrefix(ws: seq<int>, cs: seq<int>, picks: seq<int>)
    requires |cs| == |ws| && picks != [] && IsRun(ws, cs, picks)
    ensures IsPick(Raised(cs, ws), picks[0])
    decreases |picks|
  {
    hide IsPick, Raised;
    if |picks| == 1 {
      assert picks[..0] == [];
    } else {
      RunPrefix(ws, cs, picks[..|picks| - 1]);
    }
  }

  lemma {:induction false} ShardRunPrefix(ws: seq<int>, cs: seq<int>, picks: seq<int>)
    requires |cs| == |ws| && picks != [] && IsShardRun(ws, cs, picks)
    ensures IsHeaviest(ws, cs, picks[0])
    decreases |picks|
  {
    hide IsHeaviest;
    if |picks| == 1 {
      assert picks[..0] == [];
    } else {
      ShardRunPrefix(ws, cs, picks[..|picks| - 1]);
    }
  }

  /**
   From every start the constructor can leave, a non-empty run of this balancer is a run of plain round
   robin one accumulation behind if and only if not every start weight was drawn as zero: from an all-zero
   start plain round robin serves no one on its first pick.
   */
  lemma SimulatesExactly(ws: seq<int>, cs: seq<int>, picks: seq<int>)
    requires Configured(ws) && IsStart(ws, cs) && picks != [] && IsShardRun(ws, cs, picks)
    ensures IsRun(ws, Behind(ws, cs), picks) <==> Sum(cs) > 0
  {
    hide Sum, IsRun, IsShardRun, IsHeaviest;
    SumNonNegative(cs);
    if Sum(cs) > 0 {
      Simulates(ws, cs, picks);
    } else {
      ShardRunPrefix(ws, cs, picks);
      assert 0 <= picks[0] < |ws| by { HeaviestInRange(ws, cs, picks[0]); }
      assert Raised(Behind(ws, cs), ws) == cs;
      assert !IsPick(cs, picks[0]);
      if IsRun(ws, Behind(ws, cs), picks) {
        RunPrefix(ws, Behind(ws, cs), picks);
      }
    }
  }

  lemma HeaviestInRange(ws: seq<int>, cs: seq<int>, p: int)
    requires |cs| == |ws| && IsHeaviest(ws, cs, p)
    ensures 0 <= p < |ws|
  {
  }
}
