/** White space: unicode.IsSpace and strings.TrimSpace. */
module Text {

  predicate IsSpace(c: char) {
    '\t' <= c <= '\r' || c == ' ' || c == '\U{85}' || c == '\U{A0}' || c == '\U{1680}' ||
    '\U{2000}' <= c <= '\U{200A}' || c == '\U{2028}' || c == '\U{2029}' || c == '\U{202F}' ||
    c == '\U{205F}' || c == '\U{3000}'
  }

  /** strings.TrimSpace. */
  function Trim(s: string): string {
    if s == "" then ""
    else if IsSpace(s[0]) then Trim(s[1..])
    else if IsSpace(s[|s| - 1]) then Trim(s[..|s| - 1])
    else s
  }

  lemma {:induction false} TrimTrims(s: string)
    ensures Trim(s) != "" ==> !IsSpace(Trim(s)[0]) && !IsSpace(Trim(s)[|Trim(s)| - 1])
    ensures Trim(Trim(s)) == Trim(s)
    decreases |s|
  {
    if s != "" {
      if IsSpace(s[0]) {
        TrimTrims(s[1..]);
      } else if IsSpace(s[|s| - 1]) {
        TrimTrims(s[..|s| - 1]);
      }
    }
  }

  predicate AllSpace(s: string) {
    forall i :: 0 <= i < |s| ==> IsSpace(s[i])
  }

  /** Only white space is cut off, at both ends, and all of it. */
  lemma {:induction false} TrimIsMiddle(s: string) returns (front: string, back: string)
    ensures s == front + Trim(s) + back && AllSpace(front) && AllSpace(back)
    ensures Trim(s) != "" ==> !IsSpace(Trim(s)[0]) && !IsSpace(Trim(s)[|Trim(s)| - 1])
    decreases |s|
  {
    hide IsSpace;
    front, back := "", "";
    TrimTrims(s);
    if s != "" {
      if IsSpace(s[0]) {
        var f, b := TrimIsMiddle(s[1..]);
        front, back := [s[0]] + f, b;
        assert s == [s[0]] + s[1..];
      } else if IsSpace(s[|s| - 1]) {
        var f, b := TrimIsMiddle(s[..|s| - 1]);
        front, back := f, b + [s[|s| - 1]];
        assert s == s[..|s| - 1] + [s[|s| - 1]];
      }
    }
  }

  /** trimRune: first the front, then the back, one character at a time. */
  method TrimLoop(text: string) returns (r: string)
    ensures r == Trim(text)
  {
    r := text;
    while |r| > 0 && IsSpace(r[0])
      invariant Trim(r) == Trim(text)
      decreases |r|
    {
      r := r[1..];
    }
    while |r| > 0 && IsSpace(r[|r| - 1])
      invariant Trim(r) == Trim(text)
      invariant r != "" ==> !IsSpace(r[0])
      decreases |r|
    {
      r := r[..|r| - 1];
    }
  }
}
