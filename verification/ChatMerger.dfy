/**
 The chat completion stream merger of pkg/streammerge/chatcompletion.go: folds OpenAI chunks back into
 one response. The result is shown to depend on each choice's own fragments only, not on how they were
 cut into chunks or interleaved, nor on the iteration order of the choice map.
 */
module ChatMerger {
  import opened Prelude
  import C = ChatTypes

  datatype CallAcc = CallAcc(index: int, id: string, typ: string, hasFunc: bool, name: string, args: string)

  datatype ChoiceAcc = ChoiceAcc(
    index: int, role: string, finishReason: string,
    content: string, sawContent: bool, reasoning: string, sawReasoning: bool,
    toolCalls: seq<CallAcc>)

  datatype State = State(
    id: string, model: string, created: int, usage: Option<C.Usage>, choices: map<int, ChoiceAcc>)

  const Fresh := State("", "", 0, None, map[])

  function NonEmpty(dst: string, src: string): string {
    if src != "" then src else dst
  }

  function NonZero(dst: int, src: int): int {
    if src != 0 then src else dst
  }

  // ----- Usage -----

  function MergeCompletionDetails(dst: Option<C.CompletionDetails>, src: Option<C.CompletionDetails>)
    : Option<C.CompletionDetails>
  {
    match (dst, src)
    case (_, None) => dst
    case (None, _) => src
    case (Some(d), Some(s)) =>
      Some(C.CompletionDetails(NonZero(d.reasoningTokens, s.reasoningTokens), NonZero(d.audioTokens, s.audioTokens)))
  }

  function MergePromptDetails(dst: Option<C.PromptDetails>, src: Option<C.PromptDetails>): Option<C.PromptDetails> {
    match (dst, src)
    case (_, None) => dst
    case (None, _) => src
    case (Some(d), Some(s)) =>
      Some(C.PromptDetails(NonZero(d.cachedTokens, s.cachedTokens), NonZero(d.audioTokens, s.audioTokens)))
  }

  function MergeUsage(dst: Option<C.Usage>, src: Option<C.Usage>): Option<C.Usage> {
    match (dst, src)
    case (_, None) => dst
    case (None, _) => src
    case (Some(d), Some(s)) =>
      Some(C.Usage(
        NonZero(d.completionTokens, s.completionTokens), NonZero(d.promptTokens, s.promptTokens),
        NonZero(d.totalTokens, s.totalTokens),
        MergeCompletionDetails(d.completionDetails, s.completionDetails),
        MergePromptDetails(d.promptDetails, s.promptDetails)))
  }

  // ----- Tool calls and choices -----

  /** The position of the first accumulator with this index, or |calls|. */
  function Find(calls: seq<CallAcc>, index: int): (k: nat)
    ensures k <= |calls|
    ensures k < |calls| ==> calls[k].index == index
    ensures forall j :: 0 <= j < k ==> calls[j].index != index
  {
    if calls == [] || calls[0].index == index then 0 else 1 + Find(calls[1..], index)
  }

  function Grow(acc: CallAcc, d: C.ToolCall): CallAcc {
    acc.(id := NonEmpty(acc.id, d.id), typ := NonEmpty(acc.typ, d.typ),
         hasFunc := acc.hasFunc || d.function_.Some?,
         name := if d.function_.Some? then acc.name + d.function_.value.name else acc.name,
         args := if d.function_.Some? then acc.args + d.function_.value.arguments else acc.args)
  }

  function NewCall(index: int): CallAcc {
    CallAcc(index, "", "", false, "", "")
  }

  function MergeCall(calls: seq<CallAcc>, d: C.ToolCall): seq<CallAcc> {
    var k := Find(calls, d.index);
    if k < |calls| then calls[k := Grow(calls[k], d)] else calls + [Grow(NewCall(d.index), d)]
  }

  function MergeCalls(calls: seq<CallAcc>, ds: seq<C.ToolCall>): seq<CallAcc>
    decreases ds
  {
    if ds == [] then calls else MergeCalls(MergeCall(calls, ds[0]), ds[1..])
  }

  function StringOf(c: C.Content): string {
    if c.Text? then c.text else ""
  }

  function NewChoice(index: int): ChoiceAcc {
    ChoiceAcc(index, "", "", "", false, "", false, [])
  }

  /** One delta folded into its accumulator; only string content is accumulated. */
  function GrowMessage(acc: ChoiceAcc, d: C.Message): ChoiceAcc {
    acc.(role := NonEmpty(acc.role, d.role),
         content := acc.content + StringOf(d.content), sawContent := acc.sawContent || d.content.Text?,
         reasoning := acc.reasoning + StringOf(d.reasoning), sawReasoning := acc.sawReasoning || d.reasoning.Text?,
         toolCalls := MergeCalls(acc.toolCalls, d.toolCalls))
  }

  function GrowChoice(acc: ChoiceAcc, sc: C.StreamChoice): ChoiceAcc {
    var named := acc.(finishReason := NonEmpty(acc.finishReason, sc.finishReason));
    match sc.delta case None => named case Some(d) => GrowMessage(named, d)
  }

  function AccFor(m: map<int, ChoiceAcc>, index: int): ChoiceAcc {
    if index in m then m[index] else NewChoice(index)
  }

  function MergeChoice(m: map<int, ChoiceAcc>, sc: C.StreamChoice): map<int, ChoiceAcc> {
    m[sc.index := GrowChoice(AccFor(m, sc.index), sc)]
  }

  function MergeChoices(m: map<int, ChoiceAcc>, scs: seq<C.StreamChoice>): map<int, ChoiceAcc>
    decreases scs
  {
    if scs == [] then m else MergeChoices(MergeChoice(m, scs[0]), scs[1..])
  }

  function Step(st: State, c: C.Chunk): State {
    State(NonEmpty(st.id, c.id), NonEmpty(st.model, c.model), NonZero(st.created, c.created),
          MergeUsage(st.usage, c.usage), MergeChoices(st.choices, c.choices))
  }

  function Run(st: State, cs: seq<C.Chunk>): State
    decreases cs
  {
    if cs == [] then st else Run(Step(st, cs[0]), cs[1..])
  }

  // ----- The final response -----

  function BuildCall(a: CallAcc): C.ToolCall {
    C.ToolCall(a.index, a.id, a.typ, if a.hasFunc then Some(C.ToolFunction(a.name, a.args)) else None)
  }

  function BuildCalls(accs: seq<CallAcc>): seq<C.ToolCall> {
    if accs == [] then [] else [BuildCall(accs[0])] + BuildCalls(accs[1..])
  }

  function BuildChoice(a: ChoiceAcc): C.Choice {
    C.Choice(a.finishReason, a.index, Some(C.Message(
      a.role, if a.sawContent then C.Text(a.content) else C.Absent,
      if a.sawReasoning then C.Text(a.reasoning) else C.Absent, BuildCalls(a.toolCalls))))
  }

  predicate StrictlyAscending(s: seq<C.Choice>) {
    forall i, j :: 0 <= i < j < |s| ==> s[i].index < s[j].index
  }

  /** s lists every accumulated choice once, by increasing index. */
  ghost predicate Lists(s: seq<C.Choice>, m: map<int, ChoiceAcc>) {
    && StrictlyAscending(s)
    && (forall c :: c in s ==> c.index in m && c == BuildChoice(m[c.index]))
    && (forall k :: k in m ==> Has(s, k))
  }

  predicate Has(s: seq<C.Choice>, index: int) {
    exists i :: 0 <= i < |s| && s[i].index == index
  }

  /** The i-th index of s is found in t no earlier than at position i. */
  lemma {:induction false} Rank(s: seq<C.Choice>, t: seq<C.Choice>, i: nat) returns (j: nat)
    requires StrictlyAscending(s) && StrictlyAscending(t)
    requires forall k :: 0 <= k < |s| ==> Has(t, s[k].index)
    requires i < |s|
    ensures i <= j < |t| && t[j].index == s[i].index
  {
    assert Has(t, s[i].index);
    j :| 0 <= j < |t| && t[j].index == s[i].index;
    if i > 0 {
      var before := Rank(s, t, i - 1);
      assert t[before].index < t[j].index;
    }
  }

  /** At most one list can be the final one, so the iteration order of the map cannot show. */
  lemma ListsUnique(s: seq<C.Choice>, t: seq<C.Choice>, m: map<int, ChoiceAcc>)
    requires Lists(s, m) && Lists(t, m)
    ensures s == t
  {
    hide BuildChoice, StrictlyAscending;
    forall k | 0 <= k < |s| ensures Has(t, s[k].index) {
      assert s[k] in s;
    }
    forall k | 0 <= k < |t| ensures Has(s, t[k].index) {
      assert t[k] in t;
    }
    SameIndices(s, t);
    forall i | 0 <= i < |s| ensures s[i] == t[i] {
      assert s[i] in s && t[i] in t;
    }
  }

  lemma SameIndices(s: seq<C.Choice>, t: seq<C.Choice>)
    requires StrictlyAscending(s) && StrictlyAscending(t)
    requires forall k :: 0 <= k < |s| ==> Has(t, s[k].index)
    requires forall k :: 0 <= k < |t| ==> Has(s, t[k].index)
    ensures |s| == |t| && forall i :: 0 <= i < |s| ==> s[i].index == t[i].index
  {
    hide Has;
    if |s| > 0 { var _ := Rank(s, t, |s| - 1); }
    if |t| > 0 { var _ := Rank(t, s, |t| - 1); }
    forall i | 0 <= i < |s| ensures s[i].index == t[i].index {
      var j := Rank(s, t, i);
      var k := Rank(t, s, i);
      assert t[i].index <= t[j].index && s[i].index <= s[k].index;
    }
  }

  /** sort.Slice by Index: any sort gives the same list, since indices are distinct. */
  function Insert(s: seq<C.Choice>, c: C.Choice): seq<C.Choice> {
    if s == [] || c.index <= s[0].index then [c] + s else [s[0]] + Insert(s[1..], c)
  }

  function Sorted(s: seq<C.Choice>): seq<C.Choice> {
    if s == [] then [] else Insert(Sorted(s[1..]), s[0])
  }

  lemma {:induction false} InsertHolds(s: seq<C.Choice>, c: C.Choice)
    ensures forall x :: x in Insert(s, c) <==> x in s || x == c
  {
    if s != [] && c.index > s[0].index {
      InsertHolds(s[1..], c);
      assert s == [s[0]] + s[1..];
    }
  }

  lemma {:induction false} InsertSorts(s: seq<C.Choice>, c: C.Choice)
    requires StrictlyAscending(s) && (forall i :: 0 <= i < |s| ==> s[i].index != c.index)
    ensures StrictlyAscending(Insert(s, c))
  {
    if s != [] && c.index > s[0].index {
      var t := Insert(s[1..], c);
      InsertSorts(s[1..], c);
      InsertHolds(s[1..], c);
      forall i | 0 <= i < |t| ensures s[0].index < t[i].index {
        assert t[i] in t;
      }
    }
  }

  lemma {:induction false} SortedHolds(s: seq<C.Choice>)
    ensures forall x :: x in Sorted(s) <==> x in s
  {
    if s != [] {
      SortedHolds(s[1..]);
      InsertHolds(Sorted(s[1..]), s[0]);
      assert s == [s[0]] + s[1..];
    }
  }

  lemma {:induction false} SortedSorts(s: seq<C.Choice>)
    requires forall i, j :: 0 <= i < j < |s| ==> s[i].index != s[j].index
    ensures StrictlyAscending(Sorted(s))
  {
    if s != [] {
      SortedSorts(s[1..]);
      SortedHolds(s[1..]);
      forall i | 0 <= i < |Sorted(s[1..])| ensures Sorted(s[1..])[i].index != s[0].index {
        assert Sorted(s[1..])[i] in s[1..];
      }
      InsertSorts(Sorted(s[1..]), s[0]);
    }
  }

  /** Every accumulator is filed under its own index. */
  ghost predicate Keyed(m: map<int, ChoiceAcc>) {
    forall k :: k in m ==> m[k].index == k
  }

  lemma {:induction false} MergeChoicesKeyed(m: map<int, ChoiceAcc>, scs: seq<C.StreamChoice>)
    requires Keyed(m)
    ensures Keyed(MergeChoices(m, scs))
    decreases scs
  {
    if scs != [] {
      MergeChoicesKeyed(MergeChoice(m, scs[0]), scs[1..]);
    }
  }

  /** The sorted form of any listing of the accumulators is the final list. */
  lemma SortedLists(built: seq<C.Choice>, m: map<int, ChoiceAcc>)
    requires forall i, j :: 0 <= i < j < |built| ==> built[i].index != built[j].index
    requires forall c :: c in built ==> c.index in m && c == BuildChoice(m[c.index])
    requires forall k :: k in m ==> BuildChoice(m[k]) in built && m[k].index == k
    ensures Lists(Sorted(built), m)
  {
    SortedSorts(built);
    SortedHolds(built);
    var s := Sorted(built);
    forall k | k in m ensures Has(s, k) {
      assert BuildChoice(m[k]) in s;
    }
  }

  /** chatCompletionMerger: Merge once per chunk, then Merged. */
  class Merger {
    var id: string
    var model: string
    var created: int
    var usage: Option<C.Usage>
    var choices: map<int, ChoiceAcc>

    ghost predicate Valid()
      reads this
    {
      Keyed(choices)
    }

    constructor ()
      ensures Now() == Fresh && Valid()
    {
      id, model, created, usage, choices := "", "", 0, None, map[];
    }

    ghost function Now(): State
      reads this
    {
      State(id, model, created, usage, choices)
    }

    static method MergeToolCall(calls: seq<CallAcc>, d: C.ToolCall) returns (r: seq<CallAcc>)
      ensures r == MergeCall(calls, d)
    {
      var k := 0;
      while k < |calls| && calls[k].index != d.index
        invariant 0 <= k <= |calls|
        invariant forall j :: 0 <= j < k ==> calls[j].index != d.index
      {
        k := k + 1;
      }
      assert Find(calls, d.index) == k;
      r := calls;
      if k == |calls| {
        r := r + [NewCall(d.index)];
      }
      var acc := r[k];
      if d.id != "" { acc := acc.(id := d.id); }
      if d.typ != "" { acc := acc.(typ := d.typ); }
      if d.function_.Some? {
        acc := acc.(hasFunc := true);
        acc := acc.(name := acc.name + d.function_.value.name);
        acc := acc.(args := acc.args + d.function_.value.arguments);
      }
      assert acc == Grow(r[k], d);
      r := r[k := acc];
    }

    method Merge(item: C.StreamItem) returns (ok: bool)
      requires Valid()
      modifies this
      ensures Valid()
      ensures ok == !item.ParseError?
      ensures Now() == if item.Parsed? then Step(old(Now()), item.chunk) else old(Now())
    {
      match item {
        case StreamDone => return true;
        case ParseError => return false;
        case ForeignType => return true;
        case Parsed(c) =>
          if c.id != "" { id := c.id; }
          if c.model != "" { model := c.model; }
          if c.created != 0 { created := c.created; }
          if c.usage.Some? { usage := MergeUsage(usage, c.usage); }
          ghost var goal := MergeChoices(choices, c.choices);
          MergeChoicesKeyed(choices, c.choices);
          for i := 0 to |c.choices|
            modifies `choices
            invariant MergeChoices(choices, c.choices[i..]) == goal
          {
            assert c.choices[i..][1..] == c.choices[i + 1..];
            MergeOne(c.choices[i]);
          }
          return true;
      }
    }

    method MergeOne(sc: C.StreamChoice)
      modifies `choices
      ensures choices == MergeChoice(old(choices), sc)
    {
      var acc := NewChoice(sc.index);
      if sc.index in choices {
        acc := choices[sc.index];
      }
      if sc.finishReason != "" {
        acc := acc.(finishReason := sc.finishReason);
      }
      if sc.delta.Some? {
        acc := MergeDelta(acc, sc.delta.value);
      }
      choices := choices[sc.index := acc];
    }

    static method MergeDelta(acc: ChoiceAcc, d: C.Message) returns (r: ChoiceAcc)
      ensures r == GrowMessage(acc, d)
    {
      r := acc;
      if d.role != "" { r := r.(role := d.role); }
      if d.content.Text? {
        r := r.(content := r.content + d.content.text, sawContent := true);
      }
      if d.reasoning.Text? {
        r := r.(reasoning := r.reasoning + d.reasoning.text, sawReasoning := true);
      }
      var calls := acc.toolCalls;
      for i := 0 to |d.toolCalls|
        invariant MergeCalls(calls, d.toolCalls[i..]) == MergeCalls(acc.toolCalls, d.toolCalls)
      {
        assert d.toolCalls[i..][1..] == d.toolCalls[i + 1..];
        calls := MergeToolCall(calls, d.toolCalls[i]);
      }
      r := r.(toolCalls := calls);
      assert acc.content + "" == acc.content && acc.reasoning + "" == acc.reasoning;
    }

    /** finalize: builds the choices in whatever order the map yields them, then sorts by index. */
    method Merged() returns (r: C.Response)
      requires Valid()
      ensures r == C.Response(id, created, "chat.completion", model, r.choices, usage)
      ensures Lists(r.choices, choices)
    {
      var built: seq<C.Choice> := [];
      var left := choices.Keys;
      while left != {}
        invariant left <= choices.Keys
        invariant forall c :: c in built ==> c.index in choices.Keys - left && c == BuildChoice(choices[c.index])
        invariant forall k :: k in choices.Keys - left ==> BuildChoice(choices[k]) in built
        invariant forall i, j :: 0 <= i < j < |built| ==> built[i].index != built[j].index
        decreases left
      {
        var k := NextKey(left);
        forall i | 0 <= i < |built| ensures built[i].index != k {
          assert built[i] in built;
        }
        built := built + [BuildChoice(choices[k])];
        left := left - {k};
      }
      SortedLists(built, choices);
      return C.Response(id, created, "chat.completion", model, Sorted(built), usage);
    }
  }
}
