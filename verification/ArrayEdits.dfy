/** Edits gathered element by element: a list of edit lists, one for each element of an array. */
module ArrayEdits {
  import opened Prelude
  import opened JsonEdits
  import opened ImageEdits

  function Spread(es: seq<seq<Edit>>): seq<Edit> {
    if es == [] then []
    else Spread(es[..|es| - 1]) + Under([Index(|es| - 1)], es[|es| - 1])
  }

  function Join(jobs: seq<seq<Job>>): seq<Job> {
    if jobs == [] then [] else Join(jobs[..|jobs| - 1]) + jobs[|jobs| - 1]
  }

  /** Every element's own edits turn it into its successor. */
  ghost predicate Turns(items: seq<Json>, es: seq<seq<Edit>>, after: seq<Json>) {
    |items| == |es| == |after| && forall i :: 0 <= i < |items| ==> Apply(items[i], es[i]) == Some(after[i])
  }

  lemma {:induction false} SpreadPrefix(items: seq<Json>, rest: seq<Json>, es: seq<seq<Edit>>, after: seq<Json>)
    requires Turns(items, es, after)
    ensures Apply(Arr(items + rest), Spread(es)) == Some(Arr(after + rest))
    decreases |es|
  {
    hide Apply;
    if es == [] {
      assert Apply(Arr(items + rest), []) == Some(Arr(items + rest)) by { ApplyNothing(Arr(items + rest)); }
      assert items + rest == after + rest;
    } else {
      var n := |es| - 1;
      var most, last := items[..n], items[n];
      assert items + rest == most + ([last] + rest);
      SpreadPrefix(most, [last] + rest, es[..n], after[..n]);
      var mid := Arr(after[..n] + ([last] + rest));
      ApplyAppend(Arr(items + rest), Spread(es[..n]), Under([Index(n)], es[n]));
      assert Child(mid, Index(n)) == Some(last);
      ApplyUnder(mid, Index(n), es[n]);
      assert mid.items[n := after[n]] == after + rest;
    }
  }

  lemma SpreadApplies(items: seq<Json>, es: seq<seq<Edit>>, after: seq<Json>)
    requires Turns(items, es, after)
    ensures Apply(Arr(items), Spread(es)) == Some(Arr(after))
  {
    SpreadPrefix(items, [], es, after);
    assert items + [] == items && after + [] == after;
  }

  /** Every element's jobs make that element's edits below base. */
  ghost predicate Make(p: Pass, base: seq<Step>, jobs: seq<seq<Job>>, es: seq<seq<Edit>>) {
    |jobs| == |es| && forall i :: 0 <= i < |jobs| ==> EditsOf(p, jobs[i]) == Under(base + [Index(i)], es[i])
  }

  lemma {:induction false} JoinMakes(p: Pass, base: seq<Step>, jobs: seq<seq<Job>>, es: seq<seq<Edit>>)
    requires Make(p, base, jobs, es)
    ensures EditsOf(p, Join(jobs)) == Under(base, Spread(es))
    decreases |jobs|
  {
    hide EditsOf;
    if jobs == [] {
      assert EditsOf(p, []) == [] by { NoEdits(p, Arr([])); }
    } else {
      var n := |jobs| - 1;
      JoinMakes(p, base, jobs[..n], es[..n]);
      EditsOfAppend(p, Join(jobs[..n]), jobs[n]);
      UnderAppend(base, Spread(es[..n]), Under([Index(n)], es[n]));
      UnderTwice(base, [Index(n)], es[n]);
    }
  }

  predicate StartsBelow(e: Edit, n: nat) {
    e.path != [] && e.path[0].Index? && e.path[0].i < n
  }

  lemma {:induction false} SpreadStarts(es: seq<seq<Edit>>)
    ensures forall k :: 0 <= k < |Spread(es)| ==> StartsBelow(Spread(es)[k], |es|)
    decreases |es|
  {
    if es != [] {
      SpreadStarts(es[..|es| - 1]);
    }
  }

  /** Edits of different elements never meet. */
  lemma {:induction false} SpreadApart(es: seq<seq<Edit>>)
    requires forall i :: 0 <= i < |es| ==> AllApart(es[i])
    ensures AllApart(Spread(es))
    decreases |es|
  {
    hide Apart;
    if es != [] {
      var n := |es| - 1;
      var low, high := Spread(es[..n]), Under([Index(n)], es[n]);
      SpreadApart(es[..n]);
      SpreadStarts(es[..n]);
      AllApartUnder([Index(n)], es[n]);
      var all: seq<Edit> := low + high;
      forall i, k | 0 <= i < k < |all| ensures Apart(all[i].path, all[k].path) {
        if i < |low| <= k {
          var x, y := low[i], high[k - |low|];
          assert StartsBelow(x, n);
          ApartSteps(x.path[0], Index(n), x.path[1..], es[n][k - |low|].path);
          assert x.path == [x.path[0]] + x.path[1..];
        }
      }
    }
  }

  lemma JoinNone()
    ensures Join([]) == []
    ensures forall jobs: seq<seq<Job>> :: Join(jobs[..0]) == []
  {
  }

  lemma JoinOne(jobs: seq<seq<Job>>, i: nat)
    requires i < |jobs|
    ensures Join(jobs[..i + 1]) == Join(jobs[..i]) + jobs[i]
    ensures jobs[..|jobs|] == jobs && Join([]) == []
  {
    assert jobs[..i + 1][..i] == jobs[..i];
  }

  lemma {:induction false} JoinMember(jobs: seq<seq<Job>>, j: Job)
    ensures j in Join(jobs) <==> exists i :: 0 <= i < |jobs| && j in jobs[i]
    decreases |jobs|
  {
    if jobs != [] {
      var n := |jobs| - 1;
      JoinMember(jobs[..n], j);
      if i :| 0 <= i < |jobs| && j in jobs[i] {
        assert i < n ==> j in jobs[..n][i];
      }
    }
  }

  lemma SpreadNothing(prefix: seq<Step>)
    ensures forall es: seq<seq<Edit>> :: es == [] ==> Under(prefix, Spread(es)) == []
  {
  }
}
