/** Sums of integer sequences. */
module Sums {

  function Sum(s: seq<int>): int {
    if s == [] then 0 else Sum(s[..|s| - 1]) + s[|s| - 1]
  }

  lemma {:induction false} SumUpdate(s: seq<int>, i: nat, x: int)
    requires i < |s|
    ensures Sum(s[i := x]) == Sum(s) - s[i] + x
  {
    var n := |s| - 1;
    if i == n {
      assert s[i := x][..n] == s[..n];
    } else {
      assert s[i := x][..n] == s[..n][i := x];
      SumUpdate(s[..n], i, x);
    }
  }

  /** If no element is below b, all elements but s[i] contribute at least b each. */
  lemma {:induction false} SumAtLeast(s: seq<int>, i: nat, b: int)
    requires i < |s|
    requires forall k :: 0 <= k < |s| ==> s[k] >= b
    ensures Sum(s) >= s[i] + (|s| - 1) * b
  {
    var n := |s| - 1;
    if i == n {
      SumAtLeastAll(s[..n], b);
    } else {
      SumAtLeast(s[..n], i, b);
      assert n * b == (n - 1) * b + b;
    }
  }

  lemma {:induction false} SumAtLeastAll(s: seq<int>, b: int)
    requires forall k :: 0 <= k < |s| ==> s[k] >= b
    ensures Sum(s) >= |s| * b
  {
    if s != [] {
      var n := |s| - 1;
      SumAtLeastAll(s[..n], b);
      assert |s| * b == n * b + b;
    }
  }

  /** A positive sum has a positive element. */
  lemma {:induction false} PositiveElement(s: seq<int>) returns (i: nat)
    requires Sum(s) > 0
    ensures i < |s| && s[i] > 0
  {
    var n := |s| - 1;
    if s[n] > 0 {
      i := n;
    } else {
      i := PositiveElement(s[..n]);
    }
  }

  lemma {:induction false} SumPointwise(s: seq<int>, t: seq<int>, u: seq<int>)
    requires |s| == |t| == |u|
    requires forall k :: 0 <= k < |s| ==> u[k] == s[k] + t[k]
    ensures Sum(u) == Sum(s) + Sum(t)
  {
    if s != [] {
      var n := |s| - 1;
      SumPointwise(s[..n], t[..n], u[..n]);
    }
  }

  lemma {:induction false} SumNonNegative(s: seq<int>)
    requires forall k :: 0 <= k < |s| ==> s[k] >= 0
    ensures Sum(s) >= 0
    ensures forall k :: 0 <= k < |s| ==> s[k] <= Sum(s)
  {
    if s != [] {
      var n := |s| - 1;
      SumNonNegative(s[..n]);
      assert forall k :: 0 <= k < n ==> s[..n][k] == s[k];
    }
  }

  lemma SumPositive(s: seq<int>, k: nat)
    requires k < |s| && s[k] > 0 && forall i :: 0 <= i < |s| ==> s[i] >= 0
    ensures Sum(s) > 0
  {
    SumNonNegative(s[k := 0]);
    SumUpdate(s, k, 0);
  }
}
