/** pkg/engines/moderator/repeat_detector/detector.go: a short pattern repeated at the end of a text. */
module RepeatDetector {
  import opened Prelude
  import opened Text

  datatype Repeat = Repeat(pattern: string, count: int)

  function Copies(p: string, t: nat): string {
    if t == 0 then "" else p + Copies(p, t - 1)
  }

  lemma {:induction false} CopiesLength(p: string, t: nat)
    ensures |Copies(p, t)| == t * |p|
  {
    if t > 0 {
      CopiesLength(p, t - 1);
      assert t * |p| == (t - 1) * |p| + |p|;
    }
  }

  lemma {:induction false} CopiesSnoc(p: string, t: nat)
    requires t > 0
    ensures Copies(p, t) == Copies(p, t - 1) + p
  {
    if t > 1 {
      CopiesSnoc(p, t - 1);
      assert p + (Copies(p, t - 2) + p) == (p + Copies(p, t - 2)) + p;
    }
  }

  lemma TimesPred(t: nat, len: nat)
    requires t >= 1
    ensures t * len == (t - 1) * len + len && (t - 1) * len >= 0 && len <= t * len
  {
  }

  lemma CopiesCons(p: string, t: nat)
    requires t >= 1
    ensures Copies(p, t) == p + Copies(p, t - 1)
  {
  }

  lemma CopiesOverlap(tail: string, p: string, t: nat)
    requires t >= 1 && tail == Copies(p, t)
    ensures |p| <= |tail| && tail[|p|..] == tail[..|tail| - |p|]
  {
    hide Copies;
    CopiesSnoc(p, t);
    CopiesCons(p, t);
    CopiesLength(p, t);
    CopiesLength(p, t - 1);
    TimesPred(t, |p|);
  }

  lemma {:induction false} OverlapCopies(tail: string, len: nat, t: nat)
    requires t >= 1 && |tail| == t * len && len <= |tail|
    requires tail[len..] == tail[..|tail| - len]
    ensures tail == Copies(tail[|tail| - len..], t)
    decreases t
  {
    TimesPred(t, len);
    var p := tail[|tail| - len..];
    if t == 1 {
      CopiesOne(p);
    } else {
      TimesPred(t - 1, len);
      var shifted := tail[len..];
      ShiftedOverlaps(tail, len);
      OverlapCopies(shifted, len, t - 1);
      assert shifted[|shifted| - len..] == p;
      CopiesStart(p, t - 1);
      assert tail[..len] == tail[..|tail| - len][..len] == shifted[..len] == p;
      assert tail == tail[..len] + shifted;
    }
  }

  lemma ShiftedOverlaps(tail: string, len: nat)
    requires 2 * len <= |tail| && tail[len..] == tail[..|tail| - len]
    ensures var s := tail[len..]; s[len..] == s[..|s| - len]
  {
    var s := tail[len..];
    assert s[len..] == tail[..|tail| - len][len..] == tail[len..|tail| - len];
  }

  lemma CopiesOne(p: string)
    ensures Copies(p, 1) == p
  {
    assert Copies(p, 1) == p + Copies(p, 0);
  }

  lemma CopiesStart(p: string, t: nat)
    requires t >= 1
    ensures |p| <= |Copies(p, t)| && Copies(p, t)[..|p|] == p
  {
  }

  /** A text overlaps itself one pattern further on exactly when it is a whole number of copies. */
  lemma OverlapIsPeriodic(tail: string, len: nat, t: nat)
    requires t >= 1 && |tail| == t * len
    ensures len <= |tail|
    ensures tail[len..] == tail[..|tail| - len] <==> tail == Copies(tail[|tail| - len..], t)
  {
    hide Copies;
    TimesPred(t, len);
    if tail[len..] == tail[..|tail| - len] {
      OverlapCopies(tail, len, t);
    }
    if tail == Copies(tail[|tail| - len..], t) {
      CopiesOverlap(tail, tail[|tail| - len..], t);
    }
  }

  /** The text ends in t copies of its last len characters. */
  predicate EndsRepeated(s: string, len: nat, t: nat) {
    t * len <= |s| && len <= |s| && s[|s| - t * len..] == Copies(s[|s| - len..], t)
  }

  predicate Allowed(s: string, len: nat, min: nat, max: int, t: nat) {
    min <= len && t * len <= |s| && (max > 0 ==> len <= max)
  }

  /** The answer: the shortest allowed pattern that the text ends with t copies of. */
  predicate Shortest(s: string, min: nat, max: int, t: nat, len: nat) {
    Allowed(s, len, min, max, t) && EndsRepeated(s, len, t) &&
    forall k: nat :: k < len && Allowed(s, k, min, max, t) ==> !EndsRepeated(s, k, t)
  }

  predicate Correct(s: string, min: nat, max: int, t: nat, r: Option<Repeat>) {
    match r
    case None => (forall k: nat :: k <= |s| && Allowed(s, k, min, max, t) ==> !EndsRepeated(s, k, t))
    case Some(f) =>
      (|f.pattern| <= |s| && f.pattern == s[|s| - |f.pattern|..] && f.count == t &&
       Shortest(s, min, max, t, |f.pattern|))
  }

  /** runeSliceEqual. */
  method SliceEqual(a: string, b: string) returns (r: bool)
    ensures r <==> a == b
  {
    if |a| != |b| {
      return false;
    }
    for i := 0 to |a|
      invariant a[..i] == b[..i]
    {
      if a[i] != b[i] {
        return false;
      }
    }
    return true;
  }

  lemma MulMono(t: nat, a: nat, b: nat)
    requires a <= b
    ensures t * a <= t * b
  {
    assert t * b == t * a + t * (b - a);
  }

  lemma Quotient(n: nat, t: nat, len: nat)
    requires t >= 1
    ensures t * len <= n <==> len <= n / t
  {
    var q := n / t;
    var rest := n % t;
    assert n == t * q + rest;
    if len <= q {
      MulMono(t, len, q);
    } else {
      MulMono(t, q + 1, len);
      assert t * (q + 1) == t * q + t;
    }
  }

  lemma AtMostWhole(t: nat, len: nat)
    requires t >= 1
    ensures len <= t * len
  {
    assert t * len == len + (t - 1) * len && (t - 1) * len >= 0;
  }

  lemma TooShort(s: string, min: nat, max: int, t: nat)
    requires t >= 1 && |s| < min * t
    ensures forall k: nat :: !Allowed(s, k, min, max, t)
  {
    forall k: nat ensures !Allowed(s, k, min, max, t) {
      if min <= k {
        assert t * k == min * t + t * (k - min) && t * (k - min) >= 0;
      }
    }
  }

  /** The inner extractRepeatPattern: lengths from small to large, compared by overlap. */
  method ExtractFrom(runes: string, min: nat, max: int, t: nat) returns (r: Option<Repeat>)
    requires t >= 1
    ensures Correct(runes, min, max, t, r)
  {
    hide Copies;
    var n := |runes|;
    if n < min * t {
      TooShort(runes, min, max, t);
      return None;
    }
    var maxPatternLen := n / t;
    if 0 < max < maxPatternLen {
      maxPatternLen := max;
    }
    assert forall k: nat :: Allowed(runes, k, min, max, t) <==> min <= k <= maxPatternLen by {
      forall k: nat ensures Allowed(runes, k, min, max, t) <==> min <= k <= maxPatternLen {
        Quotient(n, t, k);
      }
    }
    var len := min;
    while len <= maxPatternLen
      invariant min <= len
      invariant forall k: nat :: k < len && Allowed(runes, k, min, max, t) ==> !EndsRepeated(runes, k, t)
      decreases maxPatternLen - len
    {
      var total := t * len;
      assert Allowed(runes, len, min, max, t);
      AtMostWhole(t, len);
      var tail := runes[n - total..];
      OverlapIsPeriodic(tail, len, t);
      assert tail[|tail| - len..] == runes[n - len..];
      var same := SliceEqual(tail[len..], tail[..|tail| - len]);
      if same {
        assert EndsRepeated(runes, len, t);
        return Some(Repeat(runes[n - len..], t));
      }
      len := len + 1;
    }
    return None;
  }

  /** ExtractRepeatPattern: the same, on the trimmed text. */
  method ExtractRepeatPattern(text: string, min: nat, max: int, t: nat) returns (r: Option<Repeat>)
    requires t >= 1
    ensures Correct(Trim(text), min, max, t, r)
  {
    hide Copies, Trim, EndsRepeated;
    var runes := Trim(text);
    if |runes| < min * t {
      TooShort(runes, min, max, t);
      return None;
    }
    r := ExtractFrom(runes, min, max, t);
  }

  /** A correct answer is the only one, and one is given exactly when some allowed length repeats. */
  lemma AnswerIsUnique(s: string, min: nat, max: int, t: nat, a: Option<Repeat>, b: Option<Repeat>)
    requires t >= 1 && Correct(s, min, max, t, a) && Correct(s, min, max, t, b)
    ensures a == b
    ensures a.Some? <==> exists k: nat :: Allowed(s, k, min, max, t) && EndsRepeated(s, k, t)
  {
    hide Copies;
    if a.Some? && b.Some? {
      var x, y := |a.value.pattern|, |b.value.pattern|;
      assert x == y;
    }
    if k: nat :| Allowed(s, k, min, max, t) && EndsRepeated(s, k, t) {
      AtMostWhole(t, k);
      assert a.Some? && b.Some?;
    }
  }
}
