/** The last value reported in a stream of reports, where an empty one says nothing. */
module Reports {
  import opened Prelude

  function LastNonEmpty(s: seq<string>): string {
    if s == [] then ""
    else if s[|s| - 1] != "" then s[|s| - 1]
    else LastNonEmpty(s[..|s| - 1])
  }

  function LastNonZero(s: seq<int>): int {
    if s == [] then 0
    else if s[|s| - 1] != 0 then s[|s| - 1]
    else LastNonZero(s[..|s| - 1])
  }

  function LastSome<T>(s: seq<Option<T>>): Option<T> {
    if s == [] then None
    else if s[|s| - 1].Some? then s[|s| - 1]
    else LastSome(s[..|s| - 1])
  }

  lemma LastSnoc(s: seq<string>, x: string)
    ensures LastNonEmpty(s + [x]) == if x != "" then x else LastNonEmpty(s)
  {
    assert (s + [x])[..|s|] == s;
  }

  lemma LastNumberSnoc(s: seq<int>, x: int)
    ensures LastNonZero(s + [x]) == if x != 0 then x else LastNonZero(s)
  {
    assert (s + [x])[..|s|] == s;
  }

  lemma LastSomeSnoc<T>(s: seq<Option<T>>, x: Option<T>)
    ensures LastSome(s + [x]) == if x.Some? then x else LastSome(s)
  {
    assert (s + [x])[..|s|] == s;
  }
}
