/**
 What the merged chat response depends on (pkg/streammerge/chatcompletion.go:54-257): each choice is
 determined by its own fragments in order, cutting a fragment in two changes nothing, and every usage
 field is the last non-zero value reported.
 */
module ChatIndependence {
  import opened Prelude
  import C = ChatTypes
  import opened ChatMerger

  // ----- Each choice reads its own fragments only -----

  /** The streamed choices carrying index i, in order. */
  function Picked(scs: seq<C.StreamChoice>, i: int): seq<C.StreamChoice> {
    if scs == [] then []
    else if scs[0].index == i then [scs[0]] + Picked(scs[1..], i)
    else Picked(scs[1..], i)
  }

  function Shares(cs: seq<C.Chunk>, i: int): seq<C.StreamChoice> {
    if cs == [] then [] else Picked(cs[0].choices, i) + Shares(cs[1..], i)
  }

  function GrowAll(acc: ChoiceAcc, scs: seq<C.StreamChoice>): ChoiceAcc
    decreases scs
  {
    if scs == [] then acc else GrowAll(GrowChoice(acc, scs[0]), scs[1..])
  }

  lemma {:induction false} GrowAllAppend(acc: ChoiceAcc, a: seq<C.StreamChoice>, b: seq<C.StreamChoice>)
    ensures GrowAll(acc, a + b) == GrowAll(GrowAll(acc, a), b)
    decreases a
  {
    if a == [] {
      assert a + b == b;
    } else {
      assert (a + b)[1..] == a[1..] + b;
      GrowAllAppend(GrowChoice(acc, a[0]), a[1..], b);
    }
  }

  lemma {:induction false} MergedShare(m: map<int, ChoiceAcc>, scs: seq<C.StreamChoice>, i: int)
    ensures var r := MergeChoices(m, scs);
      && (i in r <==> i in m || Picked(scs, i) != [])
      && (i in r ==> r[i] == GrowAll(AccFor(m, i), Picked(scs, i)))
    decreases scs
  {
    hide GrowChoice;
    if scs != [] {
      var rest := Picked(scs[1..], i);
      MergedShare(MergeChoice(m, scs[0]), scs[1..], i);
      if scs[0].index == i {
        assert ([scs[0]] + rest)[1..] == rest;
      }
    }
  }

  /** After any run, choice i is present and equal to what its own fragments build, in order. */
  lemma {:induction false} ChoiceFromOwnFragments(st: State, cs: seq<C.Chunk>, i: int)
    ensures var r := Run(st, cs).choices;
      && (i in r <==> i in st.choices || Shares(cs, i) != [])
      && (i in r ==> r[i] == GrowAll(AccFor(st.choices, i), Shares(cs, i)))
    decreases cs
  {
    hide GrowChoice, MergeChoices, Picked;
    if cs != [] {
      var next := Step(st, cs[0]);
      var own, rest := Picked(cs[0].choices, i), Shares(cs[1..], i);
      MergedShare(st.choices, cs[0].choices, i);
      ChoiceFromOwnFragments(next, cs[1..], i);
      GrowAllAppend(AccFor(st.choices, i), own, rest);
      if i !in next.choices {
        assert own == [] && own + rest == rest;
      }
    }
  }

  function UsagesOf(cs: seq<C.Chunk>): seq<C.Usage> {
    if cs == [] then []
    else if cs[0].usage.Some? then [cs[0].usage.value] + UsagesOf(cs[1..])
    else UsagesOf(cs[1..])
  }

  function MergeUsages(dst: Option<C.Usage>, us: seq<C.Usage>): Option<C.Usage>
    decreases us
  {
    if us == [] then dst else MergeUsages(MergeUsage(dst, Some(us[0])), us[1..])
  }

  predicate SameHeader(cs: seq<C.Chunk>, id: string, model: string, created: int) {
    forall c :: c in cs ==> c.id == id && c.model == model && c.created == created
  }

  lemma {:induction false} RunHeader(st: State, cs: seq<C.Chunk>, id: string, model: string, created: int)
    requires SameHeader(cs, id, model, created)
    ensures var r := Run(st, cs);
      && r.usage == MergeUsages(st.usage, UsagesOf(cs))
      && r.id == (if cs == [] then st.id else NonEmpty(st.id, id))
      && r.model == (if cs == [] then st.model else NonEmpty(st.model, model))
      && r.created == (if cs == [] then st.created else NonZero(st.created, created))
    decreases cs
  {
    hide MergeUsage, MergeChoices;
    if cs != [] {
      assert cs[0] in cs;
      assert forall c :: c in cs[1..] ==> c in cs;
      RunHeader(Step(st, cs[0]), cs[1..], id, model, created);
    }
    hide Step;
    RunUsage(st, cs);
  }

  lemma UsageKept(u: Option<C.Usage>)
    ensures MergeUsage(u, None) == u
  {
  }

  /**
   Interleaving is invisible: two streams with the same header and the same usages in order give the same
   merged state as soon as every choice index sees the same fragments in the same order.
   */
  lemma InterleavingIrrelevant(
    cs: seq<C.Chunk>, ds: seq<C.Chunk>, id: string, model: string, created: int)
    requires SameHeader(cs, id, model, created) && SameHeader(ds, id, model, created)
    requires cs == [] <==> ds == []
    requires UsagesOf(cs) == UsagesOf(ds)
    requires forall i :: Shares(cs, i) == Shares(ds, i)
    ensures Run(Fresh, cs) == Run(Fresh, ds)
  {
    hide Run, Shares, GrowAll, MergeUsages, UsagesOf;
    RunHeader(Fresh, cs, id, model, created);
    RunHeader(Fresh, ds, id, model, created);
    var a, b := Run(Fresh, cs).choices, Run(Fresh, ds).choices;
    forall i ensures i in a <==> i in b
             ensures i in a ==> a[i] == b[i]
    {
      ChoiceFromOwnFragments(Fresh, cs, i);
      ChoiceFromOwnFragments(Fresh, ds, i);
    }
    assert a == b;
  }

  /** The special case of neighbours: chunks with no choice index in common may be swapped anywhere. */
  lemma SwapNeighbours(
    before: seq<C.Chunk>, x: C.Chunk, y: C.Chunk, after: seq<C.Chunk>, id: string, model: string, created: int)
    requires SameHeader(before + [x, y] + after, id, model, created)
    requires x.usage.None? && y.usage.None?
    requires forall s, t :: s in x.choices && t in y.choices ==> s.index != t.index
    ensures Run(Fresh, before + [x, y] + after) == Run(Fresh, before + [y, x] + after)
  {
    hide Run, Picked;
    var cs, ds := before + [x, y] + after, before + [y, x] + after;
    assert forall c :: c in ds <==> c in cs;
    forall i ensures Shares(cs, i) == Shares(ds, i) {
      SharesAround(before, [x, y], after, i);
      SharesAround(before, [y, x], after, i);
      SharesTwo(x, y, i);
      SharesTwo(y, x, i);
      if (exists s :: s in x.choices && s.index == i) {
        NotPicked(y.choices, i);
      } else {
        NotPicked(x.choices, i);
      }
    }
    UsagesAround(before, [x, y], after);
    UsagesAround(before, [y, x], after);
    NoUsages(x, y);
    NoUsages(y, x);
    InterleavingIrrelevant(cs, ds, id, model, created);
  }

  lemma {:induction false} NotPicked(scs: seq<C.StreamChoice>, i: int)
    requires forall s :: s in scs ==> s.index != i
    ensures Picked(scs, i) == []
  {
    if scs != [] {
      assert scs[0] in scs;
      NotPicked(scs[1..], i);
    }
  }

  lemma NoUsages(x: C.Chunk, y: C.Chunk)
    requires x.usage.None? && y.usage.None?
    ensures UsagesOf([x, y]) == []
  {
    assert [x, y][1..] == [y] && [y][1..] == [];
    assert UsagesOf([y]) == UsagesOf([]);
  }

  lemma SharesTwo(x: C.Chunk, y: C.Chunk, i: int)
    ensures Shares([x, y], i) == Picked(x.choices, i) + Picked(y.choices, i)
  {
    assert [x, y][1..] == [y] && [y][1..] == [];
    assert Shares([y], i) == Picked(y.choices, i) + Shares([], i) == Picked(y.choices, i);
  }

  lemma {:induction false} SharesAppend(a: seq<C.Chunk>, b: seq<C.Chunk>, i: int)
    ensures Shares(a + b, i) == Shares(a, i) + Shares(b, i)
  {
    if a == [] {
      assert a + b == b;
    } else {
      assert (a + b)[1..] == a[1..] + b;
      SharesAppend(a[1..], b, i);
    }
  }

  lemma SharesAround(a: seq<C.Chunk>, b: seq<C.Chunk>, c: seq<C.Chunk>, i: int)
    ensures Shares(a + b + c, i) == Shares(a, i) + Shares(b, i) + Shares(c, i)
  {
    SharesAppend(a + b, c, i);
    SharesAppend(a, b, i);
  }

  lemma {:induction false} UsagesAppend(a: seq<C.Chunk>, b: seq<C.Chunk>)
    ensures UsagesOf(a + b) == UsagesOf(a) + UsagesOf(b)
  {
    if a == [] {
      assert a + b == b;
    } else {
      assert (a + b)[1..] == a[1..] + b;
      UsagesAppend(a[1..], b);
    }
  }

  lemma UsagesAround(a: seq<C.Chunk>, b: seq<C.Chunk>, c: seq<C.Chunk>)
    ensures UsagesOf(a + b + c) == UsagesOf(a) + UsagesOf(b) + UsagesOf(c)
  {
    UsagesAppend(a + b, c);
    UsagesAppend(a, b);
  }

  // ----- Cutting a fragment in two -----

  /** What can be cut: text, reasoning, or the arguments of the tool-call fragment at position k. */
  datatype Cut = CutText | CutReasoning | CutArguments(k: nat)

  predicate Cuttable(cut: Cut, d: C.Message, n: nat) {
    match cut
    case CutText => d.content.Text? && n <= |d.content.text|
    case CutReasoning => d.reasoning.Text? && n <= |d.reasoning.text|
    case CutArguments(k) =>
      k < |d.toolCalls| && d.toolCalls[k].function_.Some? && n <= |d.toolCalls[k].function_.value.arguments|
  }

  /** A tool-call fragment up to position n of its arguments, and the rest. */
  function FirstCall(tc: C.ToolCall, n: nat): C.ToolCall
    requires tc.function_.Some? && n <= |tc.function_.value.arguments|
  {
    tc.(function_ := Some(C.ToolFunction(tc.function_.value.name, tc.function_.value.arguments[..n])))
  }

  function SecondCall(tc: C.ToolCall, n: nat): C.ToolCall
    requires tc.function_.Some? && n <= |tc.function_.value.arguments|
  {
    C.ToolCall(tc.index, "", "", Some(C.ToolFunction("", tc.function_.value.arguments[n..])))
  }

  /** The delta up to position n of the chosen fragment; later tool calls move to the tail. */
  function Head(cut: Cut, d: C.Message, n: nat): C.Message
    requires Cuttable(cut, d, n)
  {
    match cut
    case CutText => d.(content := C.Text(d.content.text[..n]))
    case CutReasoning => d.(reasoning := C.Text(d.reasoning.text[..n]))
    case CutArguments(k) => d.(toolCalls := d.toolCalls[..k] + [FirstCall(d.toolCalls[k], n)])
  }

  /** The continuation delta: only what was removed. */
  function Tail(cut: Cut, d: C.Message, n: nat): C.Message
    requires Cuttable(cut, d, n)
  {
    match cut
    case CutText => C.Message("", C.Text(d.content.text[n..]), C.Absent, [])
    case CutReasoning => C.Message("", C.Absent, C.Text(d.reasoning.text[n..]), [])
    case CutArguments(k) =>
      C.Message("", C.Absent, C.Absent, [SecondCall(d.toolCalls[k], n)] + d.toolCalls[k + 1..])
  }

  /** The chunk up to the cut in its choice at position p; later choices move to the second chunk. */
  function FirstChunk(c: C.Chunk, p: nat, cut: Cut, n: nat): C.Chunk
    requires p < |c.choices| && c.choices[p].delta.Some? && Cuttable(cut, c.choices[p].delta.value, n)
  {
    var sc := c.choices[p];
    c.(choices := c.choices[..p] + [sc.(delta := Some(Head(cut, sc.delta.value, n)))])
  }

  function SecondChunk(c: C.Chunk, p: nat, cut: Cut, n: nat): C.Chunk
    requires p < |c.choices| && c.choices[p].delta.Some? && Cuttable(cut, c.choices[p].delta.value, n)
  {
    var sc := c.choices[p];
    C.Chunk(c.id, c.created, c.model,
      [C.StreamChoice("", sc.index, Some(Tail(cut, sc.delta.value, n)))] + c.choices[p + 1..], None)
  }

  lemma {:induction false} MergeCallsAppend(calls: seq<CallAcc>, a: seq<C.ToolCall>, b: seq<C.ToolCall>)
    ensures MergeCalls(calls, a + b) == MergeCalls(MergeCalls(calls, a), b)
    decreases a
  {
    hide MergeCall;
    if a == [] {
      assert a + b == b;
    } else {
      assert (a + b)[1..] == a[1..] + b;
      MergeCallsAppend(MergeCall(calls, a[0]), a[1..], b);
    }
  }

  lemma MergeCallsSnoc(calls: seq<CallAcc>, ds: seq<C.ToolCall>, d: C.ToolCall)
    ensures MergeCalls(calls, ds + [d]) == MergeCall(MergeCalls(calls, ds), d)
  {
    hide MergeCall, MergeCalls;
    MergeCallsAppend(calls, ds, [d]);
    MergeCallOnce(MergeCalls(calls, ds), d);
  }

  lemma MergeCallOnce(calls: seq<CallAcc>, d: C.ToolCall)
    ensures MergeCalls(calls, [d]) == MergeCall(calls, d)
    ensures MergeCalls(calls, []) == calls
  {
    assert [d][1..] == [];
  }

  lemma CutCall(calls: seq<CallAcc>, tc: C.ToolCall, n: nat)
    requires tc.function_.Some? && n <= |tc.function_.value.arguments|
    ensures MergeCall(MergeCall(calls, FirstCall(tc, n)), SecondCall(tc, n)) == MergeCall(calls, tc)
  {
    var f, first, second := tc.function_.value, FirstCall(tc, n), SecondCall(tc, n);
    var k := Find(calls, tc.index);
    var old_ := if k < |calls| then calls[k] else NewCall(tc.index);
    var mid := MergeCall(calls, first);
    assert mid[k] == Grow(old_, first);
    assert Find(mid, tc.index) == k;
    assert old_.args + f.arguments[..n] + f.arguments[n..] == old_.args + f.arguments by {
      assert f.arguments[..n] + f.arguments[n..] == f.arguments;
    }
    assert Grow(Grow(old_, first), second) == Grow(old_, tc);
    assert mid[k := Grow(old_, tc)] == MergeCall(calls, tc);
  }

  lemma CutCalls(calls: seq<CallAcc>, ds: seq<C.ToolCall>, k: nat, n: nat)
    requires k < |ds| && ds[k].function_.Some? && n <= |ds[k].function_.value.arguments|
    ensures MergeCalls(MergeCalls(calls, ds[..k] + [FirstCall(ds[k], n)]), [SecondCall(ds[k], n)] + ds[k + 1..])
      == MergeCalls(calls, ds)
  {
    hide MergeCall, MergeCalls, FirstCall, SecondCall;
    var tc, first, second := ds[k], FirstCall(ds[k], n), SecondCall(ds[k], n);
    var before := MergeCalls(calls, ds[..k]);
    MergeCallsSnoc(calls, ds[..k], first);
    MergeCallsAppend(MergeCall(before, first), [second], ds[k + 1..]);
    MergeCallOnce(MergeCall(before, first), second);
    CutCall(before, tc, n);
    assert ds == (ds[..k] + [tc]) + ds[k + 1..];
    MergeCallsAppend(calls, ds[..k] + [tc], ds[k + 1..]);
    MergeCallsSnoc(calls, ds[..k], tc);
  }

  lemma CutString(acc: string, s: string, n: nat)
    requires n <= |s|
    ensures acc + s[..n] + s[n..] == acc + s
    ensures acc + "" == acc
  {
    assert s[..n] + s[n..] == s;
  }

  lemma CutMessage(cut: Cut, acc: ChoiceAcc, d: C.Message, n: nat)
    requires Cuttable(cut, d, n)
    ensures GrowMessage(GrowMessage(acc, Head(cut, d, n)), Tail(cut, d, n)) == GrowMessage(acc, d)
  {
    hide MergeCall, MergeCalls;
    var whole := GrowMessage(acc, d);
    MergeCallOnce(whole.toolCalls, C.ToolCall(0, "", "", None));
    CutString(whole.reasoning, "", 0);
    CutString(whole.content, "", 0);
    match cut {
      case CutText => CutString(acc.content, d.content.text, n);
      case CutReasoning => CutString(acc.reasoning, d.reasoning.text, n);
      case CutArguments(k) => CutCalls(acc.toolCalls, d.toolCalls, k, n);
    }
  }

  lemma {:induction false} RunAppend(st: State, a: seq<C.Chunk>, b: seq<C.Chunk>)
    ensures Run(st, a + b) == Run(Run(st, a), b)
    decreases a
  {
    hide Step;
    if a == [] {
      assert a + b == b;
    } else {
      assert (a + b)[1..] == a[1..] + b;
      RunAppend(Step(st, a[0]), a[1..], b);
    }
  }

  /**
   Chunking is invisible: in any stream, any chunk may be cut inside the text, the reasoning or the
   arguments of any tool-call fragment of any of its choices, the rest travelling in a chunk of its own.
   */
  lemma ChunkingIrrelevant(
    st: State, before: seq<C.Chunk>, c: C.Chunk, after: seq<C.Chunk>, p: nat, cut: Cut, n: nat)
    requires p < |c.choices| && c.choices[p].delta.Some? && Cuttable(cut, c.choices[p].delta.value, n)
    ensures Run(st, before + [FirstChunk(c, p, cut, n), SecondChunk(c, p, cut, n)] + after) ==
      Run(st, before + [c] + after)
  {
    hide Run, Step, FirstChunk, SecondChunk;
    var first, second := FirstChunk(c, p, cut, n), SecondChunk(c, p, cut, n);
    var mid := Run(st, before);
    CutStep(mid, c, p, cut, n);
    RunAround(st, before, [first, second], after);
    RunAround(st, before, [c], after);
    RunTwo(mid, first, second);
    RunOne(mid, c);
  }

  lemma {:induction false} MergeChoicesAppend(m: map<int, ChoiceAcc>, a: seq<C.StreamChoice>, b: seq<C.StreamChoice>)
    ensures MergeChoices(m, a + b) == MergeChoices(MergeChoices(m, a), b)
    decreases a
  {
    hide MergeChoice;
    if a == [] {
      assert a + b == b;
    } else {
      assert (a + b)[1..] == a[1..] + b;
      MergeChoicesAppend(MergeChoice(m, a[0]), a[1..], b);
    }
  }

  lemma CutChoice(m: map<int, ChoiceAcc>, sc: C.StreamChoice, cut: Cut, n: nat)
    requires sc.delta.Some? && Cuttable(cut, sc.delta.value, n)
    ensures var s1 := sc.(delta := Some(Head(cut, sc.delta.value, n)));
      var s2 := C.StreamChoice("", sc.index, Some(Tail(cut, sc.delta.value, n)));
      MergeChoice(MergeChoice(m, s1), s2) == MergeChoice(m, sc)
  {
    hide GrowMessage, Head, Tail;
    var d := sc.delta.value;
    var s1, s2 := sc.(delta := Some(Head(cut, d, n))), C.StreamChoice("", sc.index, Some(Tail(cut, d, n)));
    var acc := AccFor(m, sc.index);
    var named := acc.(finishReason := NonEmpty(acc.finishReason, sc.finishReason));
    CutMessage(cut, named, d, n);
    KeepsFinish(named, Head(cut, d, n));
    var g1 := GrowChoice(acc, s1);
    assert g1.(finishReason := NonEmpty(g1.finishReason, "")) == g1;
    assert GrowChoice(g1, s2) == GrowChoice(acc, sc);
  }

  lemma CutChoices(m: map<int, ChoiceAcc>, c: C.Chunk, p: nat, cut: Cut, n: nat)
    requires p < |c.choices| && c.choices[p].delta.Some? && Cuttable(cut, c.choices[p].delta.value, n)
    ensures MergeChoices(MergeChoices(m, FirstChunk(c, p, cut, n).choices), SecondChunk(c, p, cut, n).choices)
      == MergeChoices(m, c.choices)
  {
    hide MergeChoice, MergeChoices, Head, Tail;
    var sc, rest := c.choices[p], c.choices[p + 1..];
    var s1 := sc.(delta := Some(Head(cut, sc.delta.value, n)));
    var s2 := C.StreamChoice("", sc.index, Some(Tail(cut, sc.delta.value, n)));
    var mid := MergeChoices(m, c.choices[..p]);
    MergeChoicesAppend(m, c.choices[..p], [s1]);
    MergeChoicesOne(mid, s1);
    MergeChoicesAppend(MergeChoice(mid, s1), [s2], rest);
    MergeChoicesOne(MergeChoice(mid, s1), s2);
    CutChoice(mid, sc, cut, n);
    assert c.choices == (c.choices[..p] + [sc]) + rest;
    MergeChoicesAppend(m, c.choices[..p] + [sc], rest);
    MergeChoicesAppend(m, c.choices[..p], [sc]);
    MergeChoicesOne(mid, sc);
  }

  lemma CutStep(st: State, c: C.Chunk, p: nat, cut: Cut, n: nat)
    requires p < |c.choices| && c.choices[p].delta.Some? && Cuttable(cut, c.choices[p].delta.value, n)
    ensures Step(Step(st, FirstChunk(c, p, cut, n)), SecondChunk(c, p, cut, n)) == Step(st, c)
  {
    hide MergeChoices, MergeUsage, Head, Tail;
    CutChoices(st.choices, c, p, cut, n);
    UsageKept(MergeUsage(st.usage, c.usage));
  }

  lemma RunOne(st: State, c: C.Chunk)
    ensures Run(st, [c]) == Step(st, c)
  {
    hide Step;
    assert [c][1..] == [];
    assert Run(st, [c]) == Run(Step(st, c), []);
  }

  lemma KeepsFinish(acc: ChoiceAcc, d: C.Message)
    ensures GrowMessage(acc, d).finishReason == acc.finishReason
  {
  }

  lemma MergeChoicesOne(m: map<int, ChoiceAcc>, sc: C.StreamChoice)
    ensures MergeChoices(m, [sc]) == MergeChoice(m, sc)
  {
    assert [sc][1..] == [];
  }

  lemma RunTwo(st: State, x: C.Chunk, y: C.Chunk)
    ensures Run(st, [x, y]) == Step(Step(st, x), y)
  {
    hide Step;
    assert [x, y][1..] == [y];
    RunOne(Step(st, x), y);
  }

  lemma RunAround(st: State, a: seq<C.Chunk>, b: seq<C.Chunk>, c: seq<C.Chunk>)
    ensures Run(st, a + b + c) == Run(Run(Run(st, a), b), c)
  {
    RunAppend(st, a + b, c);
    RunAppend(st, a, b);
  }

  // ----- Usage -----

  datatype Field =
    | CompletionTokens | PromptTokens | TotalTokens
    | ReasoningTokens | CompletionAudio | CachedTokens | PromptAudio

  function Get(f: Field, u: C.Usage): int {
    match f
    case CompletionTokens => u.completionTokens
    case PromptTokens => u.promptTokens
    case TotalTokens => u.totalTokens
    case ReasoningTokens => if u.completionDetails.Some? then u.completionDetails.value.reasoningTokens else 0
    case CompletionAudio => if u.completionDetails.Some? then u.completionDetails.value.audioTokens else 0
    case CachedTokens => if u.promptDetails.Some? then u.promptDetails.value.cachedTokens else 0
    case PromptAudio => if u.promptDetails.Some? then u.promptDetails.value.audioTokens else 0
  }

  /** The last non-zero report of the field, or 0. */
  function LastReport(f: Field, us: seq<C.Usage>): int {
    if us == [] then 0
    else if Get(f, us[|us| - 1]) != 0 then Get(f, us[|us| - 1])
    else LastReport(f, us[..|us| - 1])
  }

  lemma {:induction false} MergeUsagesSnoc(dst: Option<C.Usage>, us: seq<C.Usage>, u: C.Usage)
    ensures MergeUsages(dst, us + [u]) == MergeUsage(MergeUsages(dst, us), Some(u))
    decreases us
  {
    hide MergeUsage;
    if us == [] {
      assert us + [u] == [u] && [u][1..] == [];
    } else {
      assert (us + [u])[1..] == us[1..] + [u];
      MergeUsagesSnoc(MergeUsage(dst, Some(us[0])), us[1..], u);
    }
  }

  lemma {:induction false} EachFieldIsLastReport(f: Field, us: seq<C.Usage>)
    ensures us == [] <==> MergeUsages(None, us) == None
    ensures us != [] ==> Get(f, MergeUsages(None, us).value) == LastReport(f, us)
    decreases |us|
  {
    if us != [] {
      var init, u := us[..|us| - 1], us[|us| - 1];
      assert us == init + [u];
      EachFieldIsLastReport(f, init);
      MergeUsagesSnoc(None, init, u);
    }
  }

  /** In the merged response every usage field is the last non-zero value any chunk reported. */
  lemma UsageIsLastReport(cs: seq<C.Chunk>, f: Field)
    ensures Run(Fresh, cs).usage.None? <==> UsagesOf(cs) == []
    ensures UsagesOf(cs) != [] ==> Get(f, Run(Fresh, cs).usage.value) == LastReport(f, UsagesOf(cs))
  {
    RunUsage(Fresh, cs);
    EachFieldIsLastReport(f, UsagesOf(cs));
  }

  lemma {:induction false} RunUsage(st: State, cs: seq<C.Chunk>)
    ensures Run(st, cs).usage == MergeUsages(st.usage, UsagesOf(cs))
    decreases cs
  {
    hide MergeUsage, MergeChoices;
    if cs != [] {
      RunUsage(Step(st, cs[0]), cs[1..]);
      UsageKept(st.usage);
      if cs[0].usage.Some? {
        var us := UsagesOf(cs[1..]);
        assert ([cs[0].usage.value] + us)[1..] == us;
      }
    }
  }
}
