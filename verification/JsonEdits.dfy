/** JSON trees and edits at paths: what the image engine uses jsonparser.Set for, on paths that exist. */
module JsonEdits {
  import opened Prelude

  datatype Json = Str(text: string) | Scalar(raw: string) | Obj(fields: map<string, Json>) | Arr(items: seq<Json>)

  datatype Step = Key(name: string) | Index(i: nat)

  datatype Edit = Edit(path: seq<Step>, value: Json)

  function Child(j: Json, s: Step): Option<Json> {
    match (j, s)
    case (Obj(f), Key(k)) => if k in f then Some(f[k]) else None
    case (Arr(js), Index(i)) => if i < |js| then Some(js[i]) else None
    case _ => None
  }

  function WithChild(j: Json, s: Step, v: Json): Json
    requires Child(j, s).Some?
  {
    match (j, s)
    case (Obj(f), Key(k)) => Obj(f[k := v])
    case (Arr(js), Index(i)) => Arr(js[i := v])
  }

  /** None when the path does not exist. */
  function SetAt(j: Json, path: seq<Step>, v: Json): Option<Json>
    decreases |path|
  {
    if path == [] then Some(v)
    else
      match Child(j, path[0])
      case None => None
      case Some(c) =>
        match SetAt(c, path[1..], v)
        case None => None
        case Some(r) => Some(WithChild(j, path[0], r))
  }

  /** Edits applied one after the other. */
  function Apply(j: Json, edits: seq<Edit>): Option<Json> {
    if edits == [] then Some(j)
    else
      match Apply(j, edits[..|edits| - 1])
      case None => None
      case Some(mid) => SetAt(mid, edits[|edits| - 1].path, edits[|edits| - 1].value)
  }

  function Under(prefix: seq<Step>, edits: seq<Edit>): (r: seq<Edit>)
    ensures |r| == |edits|
  {
    seq(|edits|, i requires 0 <= i < |edits| => Edit(prefix + edits[i].path, edits[i].value))
  }

  lemma UnderAppend(prefix: seq<Step>, a: seq<Edit>, b: seq<Edit>)
    ensures Under(prefix, a + b) == Under(prefix, a) + Under(prefix, b)
  {
  }

  lemma UnderTwice(p: seq<Step>, q: seq<Step>, edits: seq<Edit>)
    ensures Under(p, Under(q, edits)) == Under(p + q, edits)
  {
    forall i | 0 <= i < |edits| ensures Under(p, Under(q, edits))[i] == Under(p + q, edits)[i] {
      assert p + (q + edits[i].path) == (p + q) + edits[i].path;
    }
  }

  lemma UnderNone(prefix: seq<Step>)
    ensures Under(prefix, []) == []
  {
  }

  lemma OneUnder(prefix: seq<Step>, path: seq<Step>, v: Json)
    ensures Under(prefix, [Edit(path, v)]) == [Edit(prefix + path, v)]
  {
  }

  lemma ApplyNothing(j: Json)
    ensures Apply(j, []) == Some(j)
  {
  }

  lemma ApplyOne(j: Json, path: seq<Step>, v: Json)
    ensures Apply(j, [Edit(path, v)]) == SetAt(j, path, v)
  {
    assert [Edit(path, v)][..0] == [];
  }

  lemma SetKey(j: Json, k: string, v: Json)
    ensures SetAt(j, [Key(k)], v) == if Child(j, Key(k)).Some? then Some(WithChild(j, Key(k), v)) else None
  {
    assert [Key(k)][1..] == [];
    assert forall c :: SetAt(c, [], v) == Some(v);
  }

  lemma {:induction false} ApplyAppend(j: Json, a: seq<Edit>, b: seq<Edit>)
    ensures Apply(j, a + b) == match Apply(j, a) case None => None case Some(m) => Apply(m, b)
    decreases |b|
  {
    if b == [] {
      assert a + b == a;
    } else {
      var n := |b| - 1;
      assert (a + b)[..|a + b| - 1] == a + b[..n];
      ApplyAppend(j, a, b[..n]);
    }
  }

  /** Edits below one child only change that child. */
  lemma {:induction false} ApplyUnder(j: Json, s: Step, edits: seq<Edit>)
    requires Child(j, s).Some?
    ensures Apply(j, Under([s], edits)) ==
      match Apply(Child(j, s).value, edits) case None => None case Some(r) => Some(WithChild(j, s, r))
    decreases |edits|
  {
    if edits == [] {
      assert Under([s], []) == [];
      SameChild(j, s);
    } else {
      var n := |edits| - 1;
      var init, e := edits[..n], edits[n];
      ApplyUnder(j, s, init);
      assert Under([s], edits)[..n] == Under([s], init);
      assert ([s] + e.path)[1..] == e.path;
      var mid := Apply(Child(j, s).value, init);
      if mid.Some? {
        ChildOfWith(j, s, mid.value);
        var r := SetAt(mid.value, e.path, e.value);
        if r.Some? {
          WithTwice(j, s, mid.value, r.value);
        }
      }
    }
  }

  lemma SameChild(j: Json, s: Step)
    requires Child(j, s).Some?
    ensures WithChild(j, s, Child(j, s).value) == j
  {
    if j.Obj? {
      assert j.fields[s.name := j.fields[s.name]] == j.fields;
    } else {
      assert j.items[s.i := j.items[s.i]] == j.items;
    }
  }

  lemma ChildOfWith(j: Json, s: Step, v: Json)
    requires Child(j, s).Some?
    ensures Child(WithChild(j, s, v), s) == Some(v)
  {
  }

  lemma WithTwice(j: Json, s: Step, v: Json, w: Json)
    requires Child(j, s).Some?
    ensures Child(WithChild(j, s, v), s).Some? && WithChild(WithChild(j, s, v), s, w) == WithChild(j, s, w)
  {
    if j.Obj? {
      assert j.fields[s.name := v][s.name := w] == j.fields[s.name := w];
    } else {
      assert j.items[s.i := v][s.i := w] == j.items[s.i := w];
    }
  }

  // ----- Order -----

  /** Neither path leads through the other. */
  predicate Apart(p: seq<Step>, q: seq<Step>) {
    exists k :: 0 <= k < |p| && k < |q| && p[..k] == q[..k] && p[k] != q[k]
  }

  lemma OtherChild(j: Json, s: Step, t: Step, v: Json)
    requires Child(j, s).Some? && s != t
    ensures Child(WithChild(j, s, v), t) == Child(j, t)
  {
  }

  lemma WithCommutes(j: Json, s: Step, t: Step, v: Json, w: Json)
    requires Child(j, s).Some? && Child(j, t).Some? && s != t
    ensures Child(WithChild(j, s, v), t).Some? && Child(WithChild(j, t, w), s).Some?
    ensures WithChild(WithChild(j, s, v), t, w) == WithChild(WithChild(j, t, w), s, v)
  {
    if j.Obj? {
      assert j.fields[s.name := v][t.name := w] == j.fields[t.name := w][s.name := v];
    } else {
      assert j.items[s.i := v][t.i := w] == j.items[t.i := w][s.i := v];
    }
  }

  function Then(j: Option<Json>, path: seq<Step>, v: Json): Option<Json> {
    match j case None => None case Some(x) => SetAt(x, path, v)
  }

  /** Edits at paths that are apart can be made in either order. */
  lemma {:induction false} SetCommutes(j: Json, p: seq<Step>, v: Json, q: seq<Step>, w: Json)
    requires Apart(p, q)
    ensures Then(SetAt(j, p, v), q, w) == Then(SetAt(j, q, w), p, v)
    decreases |p|
  {
    var k :| 0 <= k < |p| && k < |q| && p[..k] == q[..k] && p[k] != q[k];
    var cp, cq := Child(j, p[0]), Child(j, q[0]);
    if k == 0 {
      if cp.Some? && cq.Some? {
        var rp, rq := SetAt(cp.value, p[1..], v), SetAt(cq.value, q[1..], w);
        if rp.Some? && rq.Some? {
          OtherChild(j, p[0], q[0], rp.value);
          OtherChild(j, q[0], p[0], rq.value);
          WithCommutes(j, p[0], q[0], rp.value, rq.value);
        } else if rp.Some? {
          OtherChild(j, p[0], q[0], rp.value);
        } else if rq.Some? {
          OtherChild(j, q[0], p[0], rq.value);
        }
      } else if cp.Some? {
        var rp := SetAt(cp.value, p[1..], v);
        if rp.Some? {
          OtherChild(j, p[0], q[0], rp.value);
        }
      } else if cq.Some? {
        var rq := SetAt(cq.value, q[1..], w);
        if rq.Some? {
          OtherChild(j, q[0], p[0], rq.value);
        }
      }
    } else {
      assert p[..k][0] == q[..k][0];
      assert p[1..][..k - 1] == p[..k][1..] == q[..k][1..] == q[1..][..k - 1];
      assert Apart(p[1..], q[1..]);
      if cp.Some? {
        SetCommutes(cp.value, p[1..], v, q[1..], w);
        SetInChild(j, p, v, q, w);
        SetInChild(j, q, w, p, v);
      }
    }
  }

  lemma SetInChild(j: Json, p: seq<Step>, v: Json, q: seq<Step>, w: Json)
    requires p != [] && q != [] && p[0] == q[0] && Child(j, p[0]).Some?
    ensures Then(SetAt(j, p, v), q, w) ==
      match Then(SetAt(Child(j, p[0]).value, p[1..], v), q[1..], w)
      case None => None
      case Some(r) => Some(WithChild(j, p[0], r))
  {
    var c := Child(j, p[0]).value;
    var rp := SetAt(c, p[1..], v);
    if rp.Some? {
      ChildOfWith(j, p[0], rp.value);
      var r := SetAt(rp.value, q[1..], w);
      if r.Some? {
        WithTwice(j, p[0], rp.value, r.value);
      }
    }
  }

  predicate AllApart(edits: seq<Edit>) {
    forall i, k :: 0 <= i < k < |edits| ==> Apart(edits[i].path, edits[k].path)
  }

  /** Two neighbouring edits that are apart may be swapped anywhere in a list of edits. */
  lemma SwapEdits(j: Json, before: seq<Edit>, x: Edit, y: Edit, after: seq<Edit>)
    requires Apart(x.path, y.path)
    ensures Apply(j, before + [x, y] + after) == Apply(j, before + [y, x] + after)
  {
    ApplyAppend(j, before + [x, y], after);
    ApplyAppend(j, before + [y, x], after);
    ApplyAppend(j, before, [x, y]);
    ApplyAppend(j, before, [y, x]);
    var mid := Apply(j, before);
    if mid.Some? {
      ApplyTwo(mid.value, x, y);
      ApplyTwo(mid.value, y, x);
      SetCommutes(mid.value, x.path, x.value, y.path, y.value);
    }
  }

  lemma ApplyTwo(j: Json, x: Edit, y: Edit)
    ensures Apply(j, [x, y]) == Then(SetAt(j, x.path, x.value), y.path, y.value)
  {
    assert [x, y][..1] == [x] && [x][..0] == [];
    assert Apply(j, [x]) == SetAt(j, x.path, x.value);
  }

  lemma ApartUnder(prefix: seq<Step>, p: seq<Step>, q: seq<Step>)
    requires Apart(p, q)
    ensures Apart(prefix + p, prefix + q)
  {
    var k :| 0 <= k < |p| && k < |q| && p[..k] == q[..k] && p[k] != q[k];
    assert (prefix + p)[..|prefix| + k] == prefix + p[..k];
    assert (prefix + q)[..|prefix| + k] == prefix + q[..k];
    assert (prefix + p)[|prefix| + k] == p[k] && (prefix + q)[|prefix| + k] == q[k];
  }

  lemma ApartSteps(s: Step, t: Step, p: seq<Step>, q: seq<Step>)
    requires s != t
    ensures Apart([s] + p, [t] + q)
  {
    var a, b := [s] + p, [t] + q;
    assert a[..0] == b[..0] && a[0] != b[0];
  }

  lemma AllApartUnder(prefix: seq<Step>, edits: seq<Edit>)
    requires AllApart(edits)
    ensures AllApart(Under(prefix, edits))
  {
    var r := Under(prefix, edits);
    forall i, k | 0 <= i < k < |r| ensures Apart(r[i].path, r[k].path) {
      ApartUnder(prefix, edits[i].path, edits[k].path);
    }
  }
}
