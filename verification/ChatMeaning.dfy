/**
 What a merged chat response says, read off the chunks alone (pkg/streammerge/chatcompletion.go:54-262):
 every field of every choice and of every tool call in terms of the fragments that carried it.
 */
module ChatMeaning {
  import opened Prelude
  import opened Reports
  import C = ChatTypes
  import opened ChatMerger
  import opened ChatIndependence

  // ----- What the fragments of one choice say -----

  function RoleIn(sc: C.StreamChoice): string {
    if sc.delta.Some? then sc.delta.value.role else ""
  }

  /** The string fragment of a content field, if it is one. */
  function StringIn(c: C.Content): Option<string> {
    match c case Text(t) => Some(t) case _ => None
  }

  function ContentIn(sc: C.StreamChoice): Option<string> {
    if sc.delta.Some? then StringIn(sc.delta.value.content) else None
  }

  function ReasoningIn(sc: C.StreamChoice): Option<string> {
    if sc.delta.Some? then StringIn(sc.delta.value.reasoning) else None
  }

  function Roles(scs: seq<C.StreamChoice>): seq<string> {
    seq(|scs|, i requires 0 <= i < |scs| => RoleIn(scs[i]))
  }

  function Finishes(scs: seq<C.StreamChoice>): seq<string> {
    seq(|scs|, i requires 0 <= i < |scs| => scs[i].finishReason)
  }

  function Contents(scs: seq<C.StreamChoice>): seq<Option<string>> {
    seq(|scs|, i requires 0 <= i < |scs| => ContentIn(scs[i]))
  }

  function Reasonings(scs: seq<C.StreamChoice>): seq<Option<string>> {
    seq(|scs|, i requires 0 <= i < |scs| => ReasoningIn(scs[i]))
  }

  function Calls(scs: seq<C.StreamChoice>): seq<C.ToolCall> {
    if scs == [] then []
    else
      var last := scs[|scs| - 1];
      Calls(scs[..|scs| - 1]) + (if last.delta.Some? then last.delta.value.toolCalls else [])
  }

  /** All string fragments joined; nothing when there was none. */
  function Joined(pieces: seq<Option<string>>): Option<string> {
    if pieces == [] then None
    else
      var before, last := Joined(pieces[..|pieces| - 1]), pieces[|pieces| - 1];
      if last.None? then before
      else Some((if before.Some? then before.value else "") + last.value)
  }

  // ----- What the fragments of one tool call say -----

  function OfIndex(ds: seq<C.ToolCall>, x: int): seq<C.ToolCall> {
    if ds == [] then []
    else
      var last := ds[|ds| - 1];
      OfIndex(ds[..|ds| - 1], x) + (if last.index == x then [last] else [])
  }

  /** The call indices in the order they first appear. */
  function Indices(ds: seq<C.ToolCall>): seq<int> {
    if ds == [] then []
    else
      var before, x := Indices(ds[..|ds| - 1]), ds[|ds| - 1].index;
      if x in before then before else before + [x]
  }

  function Ids(ds: seq<C.ToolCall>): seq<string> {
    seq(|ds|, i requires 0 <= i < |ds| => ds[i].id)
  }

  function Types(ds: seq<C.ToolCall>): seq<string> {
    seq(|ds|, i requires 0 <= i < |ds| => ds[i].typ)
  }

  function Names(ds: seq<C.ToolCall>): seq<Option<string>> {
    seq(|ds|, i requires 0 <= i < |ds| => if ds[i].function_.Some? then Some(ds[i].function_.value.name) else None)
  }

  function Arguments(ds: seq<C.ToolCall>): seq<Option<string>> {
    seq(|ds|, i requires 0 <= i < |ds| => if ds[i].function_.Some? then Some(ds[i].function_.value.arguments) else None)
  }

  /** The last id and type of its own fragments, and the joined name and arguments. */
  predicate CallSays(call: C.ToolCall, x: int, own: seq<C.ToolCall>) {
    && call.index == x && call.id == LastNonEmpty(Ids(own)) && call.typ == LastNonEmpty(Types(own))
    && (if call.function_.None? then Joined(Names(own)) == None && Joined(Arguments(own)) == None
        else Joined(Names(own)) == Some(call.function_.value.name) &&
             Joined(Arguments(own)) == Some(call.function_.value.arguments))
  }

  predicate CallsSay(calls: seq<C.ToolCall>, ds: seq<C.ToolCall>) {
    && |calls| == |Indices(ds)|
    && forall k :: 0 <= k < |calls| ==> CallSays(calls[k], Indices(ds)[k], OfIndex(ds, Indices(ds)[k]))
  }

  predicate ContentSays(c: C.Content, pieces: seq<Option<string>>) {
    match Joined(pieces) case None => c == C.Absent case Some(t) => c == C.Text(t)
  }

  /** A choice built from exactly these fragments. */
  predicate ChoiceSays(c: C.Choice, scs: seq<C.StreamChoice>) {
    && c.finishReason == LastNonEmpty(Finishes(scs)) && c.message.Some?
    && var m := c.message.value;
       && m.role == LastNonEmpty(Roles(scs))
       && ContentSays(m.content, Contents(scs)) && ContentSays(m.reasoning, Reasonings(scs))
       && CallsSay(m.toolCalls, Calls(scs))
  }

  // ----- Tool calls -----

  lemma JoinedSnoc(pieces: seq<Option<string>>, x: Option<string>)
    ensures Joined(pieces + [x]) ==
      if x.None? then Joined(pieces)
      else Some((if Joined(pieces).Some? then Joined(pieces).value else "") + x.value)
  {
    assert (pieces + [x])[..|pieces|] == pieces;
  }

  lemma OfIndexSnoc(ds: seq<C.ToolCall>, d: C.ToolCall, x: int)
    ensures OfIndex(ds + [d], x) == OfIndex(ds, x) + (if d.index == x then [d] else [])
  {
    assert (ds + [d])[..|ds|] == ds;
  }

  lemma IndicesSnoc(ds: seq<C.ToolCall>, d: C.ToolCall)
    ensures Indices(ds + [d]) == if d.index in Indices(ds) then Indices(ds) else Indices(ds) + [d.index]
  {
    assert (ds + [d])[..|ds|] == ds;
  }

  lemma {:induction false} IndicesDistinct(ds: seq<C.ToolCall>)
    ensures forall i, j :: 0 <= i < j < |Indices(ds)| ==> Indices(ds)[i] != Indices(ds)[j]
    ensures forall x :: x !in Indices(ds) ==> OfIndex(ds, x) == []
    decreases |ds|
  {
    if ds != [] {
      IndicesDistinct(ds[..|ds| - 1]);
    }
  }

  lemma CallGrows(acc: CallAcc, own: seq<C.ToolCall>, d: C.ToolCall)
    requires CallSays(BuildCall(acc), acc.index, own) && (!acc.hasFunc ==> acc.name == acc.args == "")
    ensures CallSays(BuildCall(Grow(acc, d)), acc.index, own + [d])
    ensures var g := Grow(acc, d); g.index == acc.index && (!g.hasFunc ==> g.name == g.args == "")
  {
    var longer := own + [d];
    assert Ids(longer) == Ids(own) + [d.id] && Types(longer) == Types(own) + [d.typ];
    LastSnoc(Ids(own), d.id);
    LastSnoc(Types(own), d.typ);
    assert Names(longer) == Names(own) + [Names(longer)[|own|]];
    assert Arguments(longer) == Arguments(own) + [Arguments(longer)[|own|]];
    JoinedSnoc(Names(own), Names(longer)[|own|]);
    JoinedSnoc(Arguments(own), Arguments(longer)[|own|]);
  }

  /** The accumulators of a choice's calls after the fragments ds. */
  predicate AccsSay(accs: seq<CallAcc>, ds: seq<C.ToolCall>) {
    && |accs| == |Indices(ds)|
    && forall k :: 0 <= k < |accs| ==> AccSays(accs[k], Indices(ds)[k], OfIndex(ds, Indices(ds)[k]))
  }

  predicate AccSays(acc: CallAcc, x: int, own: seq<C.ToolCall>) {
    acc.index == x && CallSays(BuildCall(acc), x, own) && (!acc.hasFunc ==> acc.name == acc.args == "")
  }

  lemma NewCallSays(x: int)
    ensures AccSays(NewCall(x), x, [])
  {
  }

  lemma AccGrows(acc: CallAcc, x: int, own: seq<C.ToolCall>, d: C.ToolCall)
    requires AccSays(acc, x, own)
    ensures AccSays(Grow(acc, d), x, own + [d])
  {
    hide CallSays, BuildCall;
    CallGrows(acc, own, d);
  }

  lemma CallMerged(accs: seq<CallAcc>, ds: seq<C.ToolCall>, d: C.ToolCall)
    requires AccsSay(accs, ds)
    ensures AccsSay(MergeCall(accs, d), ds + [d])
  {
    hide Grow, Indices, OfIndex, CallSays, BuildCall;
    var k, r, longer := Find(accs, d.index), MergeCall(accs, d), ds + [d];
    IndicesDistinct(ds);
    IndicesSnoc(ds, d);
    forall j | 0 <= j < |accs| ensures AccSays(accs[j], Indices(ds)[j], OfIndex(ds, Indices(ds)[j])) {
    }
    if k < |accs| {
      assert Indices(ds)[k] == d.index;
      assert d.index in Indices(ds);
    } else {
      forall j | 0 <= j < |accs| ensures Indices(ds)[j] != d.index {
        assert accs[j].index == Indices(ds)[j];
      }
      NewCallSays(d.index);
    }
    forall j | 0 <= j < |r| ensures AccSays(r[j], Indices(longer)[j], OfIndex(longer, Indices(longer)[j])) {
      OfIndexSnoc(ds, d, Indices(longer)[j]);
      if j == k {
        AccGrows(if k < |accs| then accs[k] else NewCall(d.index), d.index, OfIndex(ds, d.index), d);
      } else {
        assert OfIndex(ds, Indices(ds)[j]) + [] == OfIndex(ds, Indices(ds)[j]);
      }
    }
  }

  lemma {:induction false} CallsMerged(ds: seq<C.ToolCall>)
    ensures AccsSay(MergeCalls([], ds), ds)
    decreases |ds|
  {
    hide MergeCall, AccsSay, MergeCalls;
    if ds == [] {
      NoCalls();
    } else {
      var init, d := ds[..|ds| - 1], ds[|ds| - 1];
      assert ds == init + [d];
      CallsMerged(init);
      MergeCallsSnoc([], init, d);
      CallMerged(MergeCalls([], init), init, d);
    }
  }

  lemma NoCalls()
    ensures AccsSay(MergeCalls([], []), [])
  {
  }

  lemma {:induction false} BuildCallsAt(accs: seq<CallAcc>)
    ensures |BuildCalls(accs)| == |accs|
    ensures forall k :: 0 <= k < |accs| ==> BuildCalls(accs)[k] == BuildCall(accs[k])
  {
    if accs != [] {
      BuildCallsAt(accs[1..]);
    }
  }

  // ----- Choices -----

  /** The accumulator of one choice after its fragments. */
  predicate ChoiceAccSays(acc: ChoiceAcc, scs: seq<C.StreamChoice>) {
    && acc.finishReason == LastNonEmpty(Finishes(scs)) && acc.role == LastNonEmpty(Roles(scs))
    && AccPieces(acc.content, acc.sawContent, Contents(scs)) && AccPieces(acc.reasoning, acc.sawReasoning, Reasonings(scs))
    && acc.toolCalls == MergeCalls([], Calls(scs))
  }

  predicate AccPieces(text: string, saw: bool, pieces: seq<Option<string>>) {
    Joined(pieces) == (if saw then Some(text) else None) && (!saw ==> text == "")
  }

  lemma PiecesGrow(text: string, saw: bool, pieces: seq<Option<string>>, x: Option<string>)
    requires AccPieces(text, saw, pieces)
    ensures AccPieces(text + (if x.Some? then x.value else ""), saw || x.Some?, pieces + [x])
  {
    JoinedSnoc(pieces, x);
    assert text + "" == text;
  }

  lemma FragmentGrows(acc: ChoiceAcc, scs: seq<C.StreamChoice>, sc: C.StreamChoice)
    requires ChoiceAccSays(acc, scs)
    ensures ChoiceAccSays(GrowChoice(acc, sc), scs + [sc])
  {
    hide MergeCalls, AccPieces, Joined, LastNonEmpty;
    var longer := scs + [sc];
    assert Finishes(longer) == Finishes(scs) + [sc.finishReason];
    assert Roles(longer) == Roles(scs) + [RoleIn(sc)];
    assert Contents(longer) == Contents(scs) + [ContentIn(sc)];
    assert Reasonings(longer) == Reasonings(scs) + [ReasoningIn(sc)];
    LastSnoc(Finishes(scs), sc.finishReason);
    LastSnoc(Roles(scs), RoleIn(sc));
    PiecesGrow(acc.content, acc.sawContent, Contents(scs), ContentIn(sc));
    PiecesGrow(acc.reasoning, acc.sawReasoning, Reasonings(scs), ReasoningIn(sc));
    assert longer[..|scs|] == scs;
    assert acc.content + "" == acc.content && acc.reasoning + "" == acc.reasoning;
    if sc.delta.Some? {
      MergeCallsAppend([], Calls(scs), sc.delta.value.toolCalls);
    } else {
      assert Calls(scs) + [] == Calls(scs);
    }
  }

  lemma {:induction false} FragmentsGrow(i: int, scs: seq<C.StreamChoice>)
    ensures ChoiceAccSays(GrowAll(NewChoice(i), scs), scs) && GrowAll(NewChoice(i), scs).index == i
    decreases |scs|
  {
    hide GrowChoice, ChoiceAccSays, GrowAll;
    if scs == [] {
      NoFragments(i);
    } else {
      var init, sc := scs[..|scs| - 1], scs[|scs| - 1];
      assert scs == init + [sc];
      FragmentsGrow(i, init);
      GrowAllAppend(NewChoice(i), init, [sc]);
      OneFragment(GrowAll(NewChoice(i), init), sc);
      FragmentGrows(GrowAll(NewChoice(i), init), init, sc);
    }
  }

  lemma NoFragments(i: int)
    ensures ChoiceAccSays(GrowAll(NewChoice(i), []), []) && GrowAll(NewChoice(i), []).index == i
  {
  }

  lemma OneFragment(acc: ChoiceAcc, sc: C.StreamChoice)
    ensures GrowAll(acc, [sc]) == GrowChoice(acc, sc) && GrowChoice(acc, sc).index == acc.index
  {
    assert [sc][1..] == [];
  }

  lemma BuiltChoiceSays(acc: ChoiceAcc, scs: seq<C.StreamChoice>)
    requires ChoiceAccSays(acc, scs)
    ensures ChoiceSays(BuildChoice(acc), scs)
  {
    hide Indices, OfIndex, LastNonEmpty, Joined, MergeCalls, CallSays, BuildCalls;
    CallsMerged(Calls(scs));
    BuildCallsAt(acc.toolCalls);
    forall k | 0 <= k < |acc.toolCalls|
      ensures CallSays(BuildCall(acc.toolCalls[k]), Indices(Calls(scs))[k], OfIndex(Calls(scs), Indices(Calls(scs))[k]))
    {
      assert AccSays(acc.toolCalls[k], Indices(Calls(scs))[k], OfIndex(Calls(scs), Indices(Calls(scs))[k]));
    }
  }

  // ----- The whole response -----

  function ChunkIds(cs: seq<C.Chunk>): seq<string> {
    seq(|cs|, i requires 0 <= i < |cs| => cs[i].id)
  }

  function Models(cs: seq<C.Chunk>): seq<string> {
    seq(|cs|, i requires 0 <= i < |cs| => cs[i].model)
  }

  function Times(cs: seq<C.Chunk>): seq<int> {
    seq(|cs|, i requires 0 <= i < |cs| => cs[i].created)
  }

  /**
   For every stream and every final listing: id, model and time are the last ones reported; a choice is
   listed exactly when some fragment carried its index; and its role, finish reason, content, reasoning and
   tool calls are what its own fragments say.
   */
  lemma ResponseSays(cs: seq<C.Chunk>, listed: seq<C.Choice>)
    requires Lists(listed, Run(Fresh, cs).choices)
    ensures var r := Run(Fresh, cs);
      r.id == LastNonEmpty(ChunkIds(cs)) && r.model == LastNonEmpty(Models(cs)) && r.created == LastNonZero(Times(cs))
    ensures forall i :: Has(listed, i) <==> Shares(cs, i) != []
    ensures forall c :: c in listed ==> ChoiceSays(c, Shares(cs, c.index))
  {
    hide Run, Shares, ChoiceSays, BuildChoice, GrowAll, ChoiceAccSays, StrictlyAscending;
    HeaderSays(cs);
    forall i ensures Has(listed, i) <==> Shares(cs, i) != [] {
      ChoiceFromOwnFragments(Fresh, cs, i);
      if Has(listed, i) {
        var k :| 0 <= k < |listed| && listed[k].index == i;
        assert listed[k] in listed;
      }
    }
    forall c | c in listed ensures ChoiceSays(c, Shares(cs, c.index)) {
      ChoiceFromOwnFragments(Fresh, cs, c.index);
      FragmentsGrow(c.index, Shares(cs, c.index));
      BuiltChoiceSays(Run(Fresh, cs).choices[c.index], Shares(cs, c.index));
    }
  }

  lemma {:induction false} HeaderSays(cs: seq<C.Chunk>)
    ensures var r := Run(Fresh, cs);
      r.id == LastNonEmpty(ChunkIds(cs)) && r.model == LastNonEmpty(Models(cs)) && r.created == LastNonZero(Times(cs))
    decreases |cs|
  {
    hide MergeUsage, MergeChoices, LastNonEmpty, LastNonZero, Run;
    if cs == [] {
      NoChunks();
    } else {
      var init, c := cs[..|cs| - 1], cs[|cs| - 1];
      assert cs == init + [c];
      HeaderSays(init);
      RunAppend(Fresh, init, [c]);
      RunOne(Run(Fresh, init), c);
      assert ChunkIds(cs) == ChunkIds(init) + [c.id] && Models(cs) == Models(init) + [c.model];
      assert Times(cs) == Times(init) + [c.created];
      LastSnoc(ChunkIds(init), c.id);
      LastSnoc(Models(init), c.model);
      LastNumberSnoc(Times(init), c.created);
    }
  }

  lemma NoChunks()
    ensures Run(Fresh, []) == Fresh && LastNonEmpty(ChunkIds([])) == "" && LastNonEmpty(Models([])) == ""
    ensures LastNonZero(Times([])) == 0
  {
  }

  predicate AnyPromptDetails(us: seq<C.Usage>) {
    exists k :: 0 <= k < |us| && us[k].promptDetails.Some?
  }

  predicate AnyCompletionDetails(us: seq<C.Usage>) {
    exists k :: 0 <= k < |us| && us[k].completionDetails.Some?
  }

  lemma {:induction false} DetailsMerged(us: seq<C.Usage>)
    requires us != []
    ensures MergeUsages(None, us).Some?
    ensures MergeUsages(None, us).value.promptDetails.Some? <==> AnyPromptDetails(us)
    ensures MergeUsages(None, us).value.completionDetails.Some? <==> AnyCompletionDetails(us)
    decreases |us|
  {
    hide MergeUsages;
    var init, u := us[..|us| - 1], us[|us| - 1];
    assert us == init + [u];
    MergeUsagesSnoc(None, init, u);
    if init == [] {
      NoUsage();
    } else {
      DetailsMerged(init);
    }
    assert forall k :: 0 <= k < |init| ==> us[k] == init[k];
  }

  lemma NoUsage()
    ensures MergeUsages(None, []) == None
  {
  }

  /** The detail objects are present exactly when some chunk reported them. */
  lemma DetailsSay(cs: seq<C.Chunk>)
    requires UsagesOf(cs) != []
    ensures Run(Fresh, cs).usage.Some?
    ensures Run(Fresh, cs).usage.value.promptDetails.Some? <==> AnyPromptDetails(UsagesOf(cs))
    ensures Run(Fresh, cs).usage.value.completionDetails.Some? <==> AnyCompletionDetails(UsagesOf(cs))
  {
    hide Run, MergeUsages;
    RunUsage(Fresh, cs);
    DetailsMerged(UsagesOf(cs));
  }
}
