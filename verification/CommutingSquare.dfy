/**
 Two ways from an OpenAI chunk stream to one Claude response: convert the stream and merge the events
 (pkg/engines/converter/claude.go:396-757, pkg/streammerge/claude.go), or merge the chunks and convert
 the response (pkg/streammerge/chatcompletion.go, pkg/engines/converter/claude.go:305-394).
 CommutingSquare says exactly when they agree.
 */
module CommutingSquare {
  import opened Prelude
  import C = ChatTypes
  import A = ClaudeTypes
  import opened StreamConverter
  import opened StreamShape
  import opened MergedSections
  import M = ClaudeMerger
  import CM = ChatMerger
  import CI = ChatIndependence

  // ----- The streams considered -----

  function Thinks(rs: seq<string>): seq<Atom> {
    if rs == [] then [] else Thinks(rs[..|rs| - 1]) + [Think(rs[|rs| - 1])]
  }

  function Says(ts: seq<string>): seq<Atom> {
    if ts == [] then [] else Says(ts[..|ts| - 1]) + [Say(ts[|ts| - 1])]
  }

  /** The fragments of one tool call: same index; id, name and function come with the first one. */
  predicate GoodRun(run: seq<C.ToolCall>) {
    && run != [] && run[0].function_.Some?
    && forall k :: 0 < k < |run| ==>
      && run[k].index == run[0].index
      && (run[k].id == "" || run[k].id == run[0].id)
      && (run[k].function_.Some? ==> run[k].function_.value.name == "")
  }

  predicate GoodRuns(runs: seq<seq<C.ToolCall>>) {
    && (forall i :: 0 <= i < |runs| ==> GoodRun(runs[i]))
    && (forall i, j :: 0 <= i < j < |runs| ==> runs[i][0].index != runs[j][0].index)
  }

  function RunAtoms(runs: seq<seq<C.ToolCall>>): seq<Atom> {
    if runs == [] then [] else RunAtoms(runs[..|runs| - 1]) + CallAtoms(runs[|runs| - 1])
  }

  function ArgumentsOf(run: seq<C.ToolCall>): string {
    if run == [] then ""
    else
      var f := run[|run| - 1].function_;
      ArgumentsOf(run[..|run| - 1]) + (if f.Some? then f.value.arguments else "")
  }

  /** Only choice 0, string content, one id and one model. */
  predicate Plain(c: C.Chunk) {
    c.choices == [] ||
    (|c.choices| == 1 && c.choices[0].index == 0 &&
     (c.choices[0].delta.Some? ==>
       !c.choices[0].delta.value.content.Parts? && !c.choices[0].delta.value.reasoning.Parts?))
  }

  predicate PlainStream(cs: seq<C.Chunk>) {
    && cs != []
    && (forall c :: c in cs ==> Plain(c) && c.id == cs[0].id && c.model == cs[0].model)
    && FinishOf(cs) != ""
    && |CI.UsagesOf(cs)| == 1
  }

  /** The content of the stream: reasoning rs, then text ts, then the tool calls of runs. */
  predicate Canonical(cs: seq<C.Chunk>, rs: seq<string>, ts: seq<string>, runs: seq<seq<C.ToolCall>>) {
    PlainStream(cs) && GoodRuns(runs) && Atoms(cs) == Thinks(rs) + Says(ts) + RunAtoms(runs)
  }

  // ----- Convert, then merge -----

  predicate SameBlock(first: Atom, a: Atom) {
    match (first, a)
    case (Think(_), Say(_)) => false
    case (Think(_), _) => true
    case (Say(_), Say(_)) => true
    case (Call(x), Call(y)) => x.index == y.index
    case _ => false
  }

  function Group(atoms: seq<Atom>): Section
    requires atoms != [] && !Unopenable(atoms[0])
  {
    Opened(atoms[0]).(deltas := DeltasOfAll(atoms))
  }

  lemma {:induction false} DeltasOfAllAppend(a: seq<Atom>, b: seq<Atom>)
    ensures DeltasOfAll(a + b) == DeltasOfAll(a) + DeltasOfAll(b)
  {
    if a == [] {
      assert a + b == b;
    } else {
      assert (a + b)[1..] == a[1..] + b;
      DeltasOfAllAppend(a[1..], b);
    }
  }

  lemma DeltasOfOne(a: Atom)
    ensures DeltasOfAll([a]) == DeltasOf(a)
  {
    assert [a][1..] == [];
    assert DeltasOfAll([]) == [];
  }

  lemma PlaceSnoc(l: Layout, atoms: seq<Atom>, a: Atom)
    ensures PlaceAll(l, atoms + [a]) == Place(PlaceAll(l, atoms), a)
  {
    hide Place;
    PlaceAllAppend(l, atoms, [a]);
    assert [a][1..] == [];
    assert PlaceAll(PlaceAll(l, atoms), [a]) == PlaceAll(Place(PlaceAll(l, atoms), a), []);
  }

  /** A group of atoms for one block becomes one new section. */
  lemma {:induction false} PlaceGroup(ss: seq<Section>, atoms: seq<Atom>)
    requires atoms != [] && !Unopenable(atoms[0]) && !Joins(ss, atoms[0])
    requires forall k :: 0 <= k < |atoms| ==> SameBlock(atoms[0], atoms[k]) || k == 0
    ensures PlaceAll(Layout(ss, false), atoms) == Layout(ss + [Group(atoms)], false)
    decreases |atoms|
  {
    var n := |atoms| - 1;
    var init, a := atoms[..n], atoms[n];
    assert atoms == init + [a];
    PlaceSnoc(Layout(ss, false), init, a);
    DeltasOfAllAppend(init, [a]);
    DeltasOfOne(a);
    if init == [] {
      assert PlaceAll(Layout(ss, false), []) == Layout(ss, false);
      assert DeltasOfAll(init) + DeltasOf(a) == DeltasOf(a);
    } else {
      PlaceGroup(ss, init);
      var s := Group(init);
      assert SameBlock(atoms[0], a);
      assert Joins(ss + [s], a);
      assert (ss + [s])[|ss| := s.(deltas := s.deltas + DeltasOf(a))] == ss + [Group(atoms)];
    }
  }

  /** Tool calls never join text, nor a call of another index. */
  lemma {:induction false} PlaceRuns(ss: seq<Section>, runs: seq<seq<C.ToolCall>>)
    requires GoodRuns(runs) && LastKind(ss) != Some(Thinking) && LastKind(ss) != Some(Tool)
    ensures PlaceAll(Layout(ss, false), RunAtoms(runs)) == Layout(ss + RunSections(runs), false)
    decreases |runs|
  {
    hide Place, DeltasOfAll;
    if runs == [] {
      assert ss + [] == ss;
    } else {
      var n := |runs| - 1;
      var init, run := runs[..n], runs[n];
      PlaceRuns(ss, init);
      RunSectionsAt(init);
      PlaceAllAppend(Layout(ss, false), RunAtoms(init), CallAtoms(run));
      assert GoodRun(run);
      PlaceOneRun(ss + RunSections(init), run);
      assert ss + RunSections(init) + [Group(CallAtoms(run))] == ss + (RunSections(init) + [Group(CallAtoms(run))]);
    }
  }

  lemma PlaceOneRun(ss: seq<Section>, run: seq<C.ToolCall>)
    requires GoodRun(run) && LastKind(ss) != Some(Thinking)
    requires LastKind(ss) == Some(Tool) ==> ss[|ss| - 1].toolIndex != run[0].index
    ensures CallAtoms(run) != [] && CallAtoms(run)[0] == Call(run[0])
    ensures PlaceAll(Layout(ss, false), CallAtoms(run)) == Layout(ss + [Group(CallAtoms(run))], false)
  {
    hide Place, DeltasOfAll, PlaceAll;
    CallAtomsAt(run);
    PlaceGroup(ss, CallAtoms(run));
  }

  function RunSections(runs: seq<seq<C.ToolCall>>): seq<Section>
    requires GoodRuns(runs)
    decreases |runs|
  {
    if runs == [] then []
    else
      var n := |runs| - 1;
      CallAtomsAt(runs[n]);
      assert GoodRun(runs[n]);
      RunSections(runs[..n]) + [Group(CallAtoms(runs[n]))]
  }

  lemma {:induction false} CallAtomsAt(run: seq<C.ToolCall>)
    ensures |CallAtoms(run)| == |run|
    ensures forall k :: 0 <= k < |run| ==> CallAtoms(run)[k] == Call(run[k])
  {
    if run != [] {
      CallAtomsAt(run[1..]);
    }
  }

  lemma RunSectionsAt(runs: seq<seq<C.ToolCall>>)
    requires GoodRuns(runs)
    ensures |RunSections(runs)| == |runs|
    ensures runs != [] ==>
      var last := RunSections(runs)[|runs| - 1];
      last.kind == Tool && last.toolIndex == runs[|runs| - 1][0].index
    decreases |runs|
  {
    if runs != [] {
      var n := |runs| - 1;
      RunSectionsAt(runs[..n]);
      CallAtomsAt(runs[n]);
      assert GoodRun(runs[n]);
    }
  }

  /** The blocks the merged Claude stream ends up with. */
  function ThinkBlocks(rs: seq<string>): seq<A.Block> {
    if rs == [] then [] else [A.ThinkingBlock(Concat(rs), "")]
  }

  function SayBlocks(ts: seq<string>): seq<A.Block> {
    if ts == [] then [] else [A.TextBlock(Concat(ts))]
  }

  /** The tool_use block of each call; filler is written where a call has no arguments at all. */
  function RunBlocks(runs: seq<seq<C.ToolCall>>, filler: string): seq<A.Block>
    requires GoodRuns(runs)
    decreases |runs|
  {
    if runs == [] then []
    else
      var n := |runs| - 1;
      var run := runs[n];
      assert GoodRun(run);
      RunBlocks(runs[..n], filler) + [A.ToolUseBlock(
        run[0].id, run[0].function_.value.name, if ArgumentsOf(run) == "" then filler else ArgumentsOf(run))]
  }

  function BlocksOf(ss: seq<Section>): seq<A.Block> {
    M.Content(SectionAccs(ss))
  }

  lemma BlocksOfSnoc(ss: seq<Section>, s: Section)
    ensures BlocksOf(ss + [s]) == BlocksOf(ss) + [M.Build(SectionAcc(s).value)]
  {
    hide SectionAcc, M.Build;
    assert (ss + [s])[..|ss|] == ss;
    var accs := SectionAccs(ss);
    assert SectionAccs(ss + [s]) == accs + [SectionAcc(s)];
    assert (accs + [SectionAcc(s)])[..|accs|] == accs;
    AlwaysAcc(s);
  }

  lemma AlwaysAcc(s: Section)
    ensures SectionAcc(s).Some?
  {
  }

  lemma {:induction false} AccumulatedAppend(a: M.Acc, x: seq<A.ContentDelta>, y: seq<A.ContentDelta>)
    ensures Accumulated(a, x + y) == Accumulated(Accumulated(a, x), y)
    decreases |y|
  {
    hide M.ApplyDelta;
    if y == [] {
      assert x + y == x;
    } else {
      var n := |y| - 1;
      assert (x + y)[..|x + y| - 1] == x + y[..n];
      AccumulatedAppend(a, x, y[..n]);
    }
  }

  lemma AccumulatedOne(a: M.Acc, d: A.ContentDelta)
    ensures Accumulated(a, [d]) == M.ApplyDelta(a, d)
    ensures Accumulated(a, []) == a
  {
    assert [d][..0] == [];
    assert Accumulated(a, []) == a;
  }

  lemma AccumulatedAtom(a: M.Acc, atoms: seq<Atom>, x: Atom)
    ensures Accumulated(a, DeltasOfAll(atoms + [x])) == Accumulated(Accumulated(a, DeltasOfAll(atoms)), DeltasOf(x))
  {
    DeltasOfAllAppend(atoms, [x]);
    DeltasOfOne(x);
    AccumulatedAppend(a, DeltasOfAll(atoms), DeltasOf(x));
  }

  lemma {:induction false} AccumulatedThinks(rs: seq<string>)
    ensures Accumulated(M.ThinkingAcc("", ""), DeltasOfAll(Thinks(rs))) == M.ThinkingAcc(Concat(rs), "")
    decreases |rs|
  {
    hide Accumulated;
    var zero := M.ThinkingAcc("", "");
    if rs == [] {
      AccumulatedOne(zero, A.OtherDelta);
    } else {
      var init, r := rs[..|rs| - 1], rs[|rs| - 1];
      assert rs == init + [r];
      AccumulatedThinks(init);
      AccumulatedAtom(zero, Thinks(init), Think(r));
      AccumulatedOne(M.ThinkingAcc(Concat(init), ""), A.ThinkingDelta(r));
      ConcatSnoc(init, r);
    }
  }

  lemma {:induction false} AccumulatedSays(ts: seq<string>)
    ensures Accumulated(M.TextAcc(""), DeltasOfAll(Says(ts))) == M.TextAcc(Concat(ts))
    decreases |ts|
  {
    hide Accumulated;
    var zero := M.TextAcc("");
    if ts == [] {
      AccumulatedOne(zero, A.OtherDelta);
    } else {
      var init, t := ts[..|ts| - 1], ts[|ts| - 1];
      assert ts == init + [t];
      AccumulatedSays(init);
      AccumulatedAtom(zero, Says(init), Say(t));
      AccumulatedOne(M.TextAcc(Concat(init)), A.TextDelta(t));
      ConcatSnoc(init, t);
    }
  }

  lemma {:induction false} CallAtomsSnoc(run: seq<C.ToolCall>, tc: C.ToolCall)
    ensures CallAtoms(run + [tc]) == CallAtoms(run) + [Call(tc)]
  {
    if run == [] {
      assert run + [tc] == [tc] && [tc][1..] == [];
      assert CallAtoms([tc]) == [Call(tc)] + CallAtoms([]);
    } else {
      assert (run + [tc])[1..] == run[1..] + [tc];
      CallAtomsSnoc(run[1..], tc);
    }
  }

  lemma {:induction false} AccumulatedRun(id: string, name: string, run: seq<C.ToolCall>)
    ensures Accumulated(M.ToolAcc(id, name, ""), DeltasOfAll(CallAtoms(run))) == M.ToolAcc(id, name, ArgumentsOf(run))
    decreases |run|
  {
    hide Accumulated;
    var zero := M.ToolAcc(id, name, "");
    if run == [] {
      AccumulatedOne(zero, A.OtherDelta);
    } else {
      var init, tc := run[..|run| - 1], run[|run| - 1];
      assert run == init + [tc];
      AccumulatedRun(id, name, init);
      CallAtomsSnoc(init, tc);
      AccumulatedAtom(zero, CallAtoms(init), Call(tc));
      var mid := M.ToolAcc(id, name, ArgumentsOf(init));
      AccumulatedOne(mid, if tc.function_.Some? then A.InputJsonDelta(tc.function_.value.arguments) else A.OtherDelta);
      assert ArgumentsOf(init) + "" == ArgumentsOf(init);
    }
  }

  lemma {:induction false} RunSectionBlocks(ss: seq<Section>, runs: seq<seq<C.ToolCall>>)
    requires GoodRuns(runs)
    ensures BlocksOf(ss + RunSections(runs)) == BlocksOf(ss) + RunBlocks(runs, "{}")
    decreases |runs|
  {
    hide BlocksOf, Accumulated, ArgumentsOf;
    if runs == [] {
      assert ss + [] == ss;
    } else {
      var n := |runs| - 1;
      var init, run := runs[..n], runs[n];
      assert GoodRun(run);
      RunSectionBlocks(ss, init);
      CallAtomsAt(run);
      var s := Group(CallAtoms(run));
      assert ss + RunSections(runs) == ss + RunSections(init) + [s];
      BlocksOfSnoc(ss + RunSections(init), s);
      AccumulatedRun(run[0].id, run[0].function_.value.name, run);
    }
  }

  /** The swallowed shape: reasoning, no text, tool calls. The calls land in the thinking block. */
  predicate Swallowed(rs: seq<string>, ts: seq<string>, runs: seq<seq<C.ToolCall>>) {
    rs != [] && ts == [] && runs != []
  }

  lemma {:induction false} ThinksAt(rs: seq<string>)
    ensures |Thinks(rs)| == |rs| && forall k :: 0 <= k < |rs| ==> Thinks(rs)[k] == Think(rs[k])
    decreases |rs|
  {
    if rs != [] {
      ThinksAt(rs[..|rs| - 1]);
    }
  }

  lemma {:induction false} SaysAt(ts: seq<string>)
    ensures |Says(ts)| == |ts| && forall k :: 0 <= k < |ts| ==> Says(ts)[k] == Say(ts[k])
    decreases |ts|
  {
    if ts != [] {
      SaysAt(ts[..|ts| - 1]);
    }
  }

  lemma {:induction false} RunAtomsAreCalls(runs: seq<seq<C.ToolCall>>)
    ensures forall k :: 0 <= k < |RunAtoms(runs)| ==> RunAtoms(runs)[k].Call?
    decreases |runs|
  {
    if runs != [] {
      RunAtomsAreCalls(runs[..|runs| - 1]);
      CallAtomsAt(runs[|runs| - 1]);
    }
  }

  lemma PlaceThinks(rs: seq<string>)
    ensures var l := PlaceAll(NoLayout, Thinks(rs));
      && !l.crashed
      && BlocksOf(l.sections) == ThinkBlocks(rs)
      && LastKind(l.sections) == if rs != [] then Some(Thinking) else None
  {
    hide Accumulated, Place, DeltasOfAll, BlocksOf, Concat;
    NoBlocks();
    if rs != [] {
      ThinksAt(rs);
      PlaceGroup([], Thinks(rs));
      BlocksOfSnoc([], Group(Thinks(rs)));
      AccumulatedThinks(rs);
    }
  }

  /** The layout after reasoning and text, and its blocks. */
  lemma PlaceProse(rs: seq<string>, ts: seq<string>)
    ensures var l := PlaceAll(NoLayout, Thinks(rs) + Says(ts));
      && !l.crashed
      && BlocksOf(l.sections) == ThinkBlocks(rs) + SayBlocks(ts)
      && LastKind(l.sections) ==
         (if ts != [] then Some(Text) else if rs != [] then Some(Thinking) else None)
  {
    hide Accumulated, Place, DeltasOfAll, BlocksOf, ThinkBlocks, Concat, Thinks;
    PlaceAllAppend(NoLayout, Thinks(rs), Says(ts));
    PlaceThinks(rs);
    var l := PlaceAll(NoLayout, Thinks(rs));
    if ts == [] {
      assert PlaceAll(l, Says([])) == l;
      assert ThinkBlocks(rs) + [] == ThinkBlocks(rs);
    } else {
      SaysAt(ts);
      PlaceGroup(l.sections, Says(ts));
      BlocksOfSnoc(l.sections, Group(Says(ts)));
      AccumulatedSays(ts);
    }
  }

  lemma NoBlocks()
    ensures BlocksOf([]) == []
  {
    assert SectionAccs([]) == [];
  }

  lemma ConvertedBlocks(rs: seq<string>, ts: seq<string>, runs: seq<seq<C.ToolCall>>)
    requires GoodRuns(runs)
    ensures var l := PlaceAll(NoLayout, Thinks(rs) + Says(ts) + RunAtoms(runs));
      && !l.crashed
      && (!Swallowed(rs, ts, runs) ==>
          BlocksOf(l.sections) == ThinkBlocks(rs) + SayBlocks(ts) + RunBlocks(runs, "{}"))
      && (Swallowed(rs, ts, runs) ==> |BlocksOf(l.sections)| == 1)
  {
    hide Place, BlocksOf, ThinkBlocks, SayBlocks, Accumulated, DeltasOfAll;
    PlaceProse(rs, ts);
    PlaceAllAppend(NoLayout, Thinks(rs) + Says(ts), RunAtoms(runs));
    var l := PlaceAll(NoLayout, Thinks(rs) + Says(ts));
    if Swallowed(rs, ts, runs) {
      var atoms := Thinks(rs) + RunAtoms(runs);
      assert Thinks(rs) + Says(ts) == Thinks(rs);
      ThinksAt(rs);
      RunAtomsAreCalls(runs);
      PlaceGroup([], atoms);
      NoBlocks();
      BlocksOfSnoc([], Group(atoms));
    } else if runs == [] {
      assert RunBlocks(runs, "{}") == [];
      assert PlaceAll(l, []) == l;
    } else {
      PlaceRuns(l.sections, runs);
      RunSectionBlocks(l.sections, runs);
    }
  }

  // ----- Merge, then convert -----

  function ThinksIn(atoms: seq<Atom>): seq<string> {
    if atoms == [] then []
    else if atoms[0].Think? then [atoms[0].text] + ThinksIn(atoms[1..]) else ThinksIn(atoms[1..])
  }

  function SaysIn(atoms: seq<Atom>): seq<string> {
    if atoms == [] then []
    else if atoms[0].Say? then [atoms[0].text] + SaysIn(atoms[1..]) else SaysIn(atoms[1..])
  }

  function CallsIn(atoms: seq<Atom>): seq<C.ToolCall> {
    if atoms == [] then []
    else if atoms[0].Call? then [atoms[0].call] + CallsIn(atoms[1..]) else CallsIn(atoms[1..])
  }

  lemma {:induction false} ThinksInAppend(a: seq<Atom>, b: seq<Atom>)
    ensures ThinksIn(a + b) == ThinksIn(a) + ThinksIn(b)
  {
    if a == [] {
      assert a + b == b;
    } else {
      assert (a + b)[1..] == a[1..] + b;
      ThinksInAppend(a[1..], b);
    }
  }

  lemma {:induction false} SaysInAppend(a: seq<Atom>, b: seq<Atom>)
    ensures SaysIn(a + b) == SaysIn(a) + SaysIn(b)
  {
    if a == [] {
      assert a + b == b;
    } else {
      assert (a + b)[1..] == a[1..] + b;
      SaysInAppend(a[1..], b);
    }
  }

  lemma {:induction false} CallsInAppend(a: seq<Atom>, b: seq<Atom>)
    ensures CallsIn(a + b) == CallsIn(a) + CallsIn(b)
  {
    if a == [] {
      assert a + b == b;
    } else {
      assert (a + b)[1..] == a[1..] + b;
      CallsInAppend(a[1..], b);
    }
  }

  lemma InAppend(a: seq<Atom>, b: seq<Atom>)
    ensures ThinksIn(a + b) == ThinksIn(a) + ThinksIn(b)
    ensures SaysIn(a + b) == SaysIn(a) + SaysIn(b)
    ensures CallsIn(a + b) == CallsIn(a) + CallsIn(b)
  {
    hide ThinksIn, SaysIn, CallsIn;
    ThinksInAppend(a, b);
    SaysInAppend(a, b);
    CallsInAppend(a, b);
  }

  lemma {:induction false} InCalls(calls: seq<C.ToolCall>)
    ensures ThinksIn(CallAtoms(calls)) == [] && SaysIn(CallAtoms(calls)) == [] && CallsIn(CallAtoms(calls)) == calls
  {
    if calls != [] {
      assert CallAtoms(calls)[1..] == CallAtoms(calls[1..]);
      InCalls(calls[1..]);
    }
  }

  lemma InOne(a: Atom)
    ensures ThinksIn([a]) == if a.Think? then [a.text] else []
    ensures SaysIn([a]) == if a.Say? then [a.text] else []
    ensures CallsIn([a]) == if a.Call? then [a.call] else []
    ensures ThinksIn([]) == [] && SaysIn([]) == [] && CallsIn([]) == []
  {
    assert [a][1..] == [];
  }

  lemma {:induction false} InThinks(rs: seq<string>)
    ensures ThinksIn(Thinks(rs)) == rs && SaysIn(Thinks(rs)) == [] && CallsIn(Thinks(rs)) == []
    decreases |rs|
  {
    hide ThinksIn, SaysIn, CallsIn;
    InOne(Think(""));
    if rs != [] {
      var init, r := rs[..|rs| - 1], rs[|rs| - 1];
      InThinks(init);
      InAppend(Thinks(init), [Think(r)]);
      InOne(Think(r));
    }
  }

  lemma {:induction false} InSays(ts: seq<string>)
    ensures ThinksIn(Says(ts)) == [] && SaysIn(Says(ts)) == ts && CallsIn(Says(ts)) == []
    decreases |ts|
  {
    hide ThinksIn, SaysIn, CallsIn;
    InOne(Say(""));
    if ts != [] {
      var init, t := ts[..|ts| - 1], ts[|ts| - 1];
      InSays(init);
      InAppend(Says(init), [Say(t)]);
      InOne(Say(t));
    }
  }

  function Flat(runs: seq<seq<C.ToolCall>>): seq<C.ToolCall> {
    if runs == [] then [] else Flat(runs[..|runs| - 1]) + runs[|runs| - 1]
  }

  lemma {:induction false} InRuns(runs: seq<seq<C.ToolCall>>)
    ensures ThinksIn(RunAtoms(runs)) == [] && SaysIn(RunAtoms(runs)) == [] && CallsIn(RunAtoms(runs)) == Flat(runs)
    decreases |runs|
  {
    hide ThinksIn, SaysIn, CallsIn;
    InOne(Say(""));
    if runs != [] {
      var n := |runs| - 1;
      InRuns(runs[..n]);
      InAppend(RunAtoms(runs[..n]), CallAtoms(runs[n]));
      InCalls(runs[n]);
    }
  }

  predicate SawReasoning(cs: seq<C.Chunk>) {
    exists c :: c in cs && c.choices != [] && c.choices[0].delta.Some? && c.choices[0].delta.value.reasoning.Text?
  }

  /** The accumulator of choice 0 holds exactly what the atoms say. */
  ghost predicate Holds(acc: CM.ChoiceAcc, cs: seq<C.Chunk>) {
    var atoms := Atoms(cs);
    && acc.content == Concat(SaysIn(atoms))
    && acc.reasoning == Concat(ThinksIn(atoms))
    && acc.toolCalls == CM.MergeCalls([], CallsIn(atoms))
    && acc.finishReason == FinishOf(cs)
    && acc.sawReasoning == SawReasoning(cs)
    && (acc.content != "" ==> acc.sawContent)
  }

  lemma InDelta(d: C.Message)
    requires !d.content.Parts? && !d.reasoning.Parts?
    ensures var atoms := DeltaAtoms(d);
      && Concat(SaysIn(atoms)) == CM.StringOf(d.content)
      && Concat(ThinksIn(atoms)) == CM.StringOf(d.reasoning)
      && CallsIn(atoms) == d.toolCalls
  {
    hide ThinksIn, SaysIn, CallsIn;
    var r, t := ThinkAtoms(C.ExtractText(d.reasoning)), SayAtoms(C.ExtractText(d.content));
    InAppend(r + t, CallAtoms(d.toolCalls));
    InAppend(r, t);
    InCalls(d.toolCalls);
    InOne(Think(C.ExtractText(d.reasoning)));
    InOne(Say(C.ExtractText(d.content)));
    ConcatSnoc([], C.ExtractText(d.reasoning));
    ConcatSnoc([], C.ExtractText(d.content));
    assert [] + [C.ExtractText(d.reasoning)] == [C.ExtractText(d.reasoning)];
    assert [] + [C.ExtractText(d.content)] == [C.ExtractText(d.content)];
    assert Concat([]) == "";
  }

  lemma HoldsDelta(acc: CM.ChoiceAcc, d: C.Message, atoms: seq<Atom>)
    requires !d.content.Parts? && !d.reasoning.Parts?
    requires acc.content == Concat(SaysIn(atoms)) && acc.reasoning == Concat(ThinksIn(atoms))
    requires acc.toolCalls == CM.MergeCalls([], CallsIn(atoms))
    ensures var next, all := CM.GrowMessage(acc, d), atoms + DeltaAtoms(d);
      && next.content == Concat(SaysIn(all)) && next.reasoning == Concat(ThinksIn(all))
      && next.toolCalls == CM.MergeCalls([], CallsIn(all))
  {
    hide ThinksIn, SaysIn, CallsIn, DeltaAtoms, CM.MergeCalls;
    InDelta(d);
    InAppend(atoms, DeltaAtoms(d));
    ConcatAppend(SaysIn(atoms), SaysIn(DeltaAtoms(d)));
    ConcatAppend(ThinksIn(atoms), ThinksIn(DeltaAtoms(d)));
    CI.MergeCallsAppend([], CallsIn(atoms), d.toolCalls);
  }

  lemma SawSnoc(cs: seq<C.Chunk>, c: C.Chunk)
    ensures SawReasoning(cs + [c]) <==>
      (SawReasoning(cs) ||
       (c.choices != [] && c.choices[0].delta.Some? && c.choices[0].delta.value.reasoning.Text?))
  {
    assert forall x :: x in cs + [c] <==> x in cs || x == c;
  }

  lemma HoldsChunk(acc: CM.ChoiceAcc, cs: seq<C.Chunk>, c: C.Chunk)
    requires Holds(acc, cs) && Plain(c)
    ensures Holds(if c.choices == [] then acc else CM.GrowChoice(acc, c.choices[0]), cs + [c])
  {
    hide ThinksIn, SaysIn, CallsIn, CM.MergeCalls, Atoms, DeltaAtoms, SawReasoning, FinishOf;
    assert Atoms(cs + [c]) == Atoms(cs) + AtomsOf(c) by {
      AtomsAppend(cs, [c]);
      OneChunkAtoms(c);
    }
    SawSnoc(cs, c);
    LastRemembered(cs, c);
    assert Atoms(cs) + [] == Atoms(cs);
    if c.choices != [] && c.choices[0].delta.Some? {
      var named := acc.(finishReason := CM.NonEmpty(acc.finishReason, c.choices[0].finishReason));
      HoldsDelta(named, c.choices[0].delta.value, Atoms(cs));
    }
  }

  lemma OneChunkAtoms(c: C.Chunk)
    ensures Atoms([c]) == AtomsOf(c)
  {
    hide AtomsOf;
    assert [c][1..] == [];
    assert Atoms([]) == [];
  }

  lemma PickedPlain(c: C.Chunk)
    requires Plain(c)
    ensures CI.Picked(c.choices, 0) == c.choices
    ensures CI.Shares([c], 0) == c.choices
    ensures forall i :: i != 0 ==> CI.Shares([c], i) == []
  {
    if c.choices != [] {
      assert c.choices[1..] == [];
      assert c.choices == [c.choices[0]];
    }
    assert [c][1..] == [];
    forall i ensures CI.Shares([c], i) == CI.Picked(c.choices, i) {
      assert CI.Shares([], i) == [];
    }
    forall i | i != 0 ensures CI.Picked(c.choices, i) == [] {
      CI.NotPicked(c.choices, i);
    }
  }

  lemma {:induction false} HoldsStream(cs: seq<C.Chunk>)
    requires forall c :: c in cs ==> Plain(c)
    ensures Holds(CI.GrowAll(CM.NewChoice(0), CI.Shares(cs, 0)), cs)
    ensures CI.Shares(cs, 0) == [] ==> FinishOf(cs) == ""
    ensures forall i :: i != 0 ==> CI.Shares(cs, i) == []
    decreases |cs|
  {
    if cs == [] {
      NothingHeld();
    } else {
      hide Holds, CM.GrowChoice, CI.GrowAll, CI.Shares;
      var init, c := cs[..|cs| - 1], cs[|cs| - 1];
      assert cs == init + [c] && c in cs;
      assert forall x :: x in init ==> x in cs;
      HoldsStream(init);
      var zero := CM.NewChoice(0);
      PickedPlain(c);
      forall i {
        CI.SharesAppend(init, [c], i);
      }
      CI.GrowAllAppend(zero, CI.Shares(init, 0), c.choices);
      var acc := CI.GrowAll(zero, CI.Shares(init, 0));
      GrowPlain(acc, c);
      HoldsChunk(acc, init, c);
    }
  }

  lemma NothingHeld()
    ensures Holds(CI.GrowAll(CM.NewChoice(0), CI.Shares([], 0)), [])
    ensures forall i :: CI.Shares([], i) == []
  {
    assert CI.Shares([], 0) == [] && Atoms([]) == [];
    InOne(Say(""));
    assert Concat([]) == "" && CM.MergeCalls([], []) == [];
  }

  lemma GrowPlain(acc: CM.ChoiceAcc, c: C.Chunk)
    requires Plain(c)
    ensures CI.GrowAll(acc, c.choices) == if c.choices == [] then acc else CM.GrowChoice(acc, c.choices[0])
  {
    hide CM.GrowChoice;
    if c.choices != [] {
      assert c.choices[1..] == [];
      assert CI.GrowAll(CM.GrowChoice(acc, c.choices[0]), []) == CM.GrowChoice(acc, c.choices[0]);
    }
  }

  // ----- Tool calls on the chat side -----

  function RunAcc(run: seq<C.ToolCall>): CM.CallAcc
    requires run != []
    decreases |run|
  {
    if |run| == 1 then CM.Grow(CM.NewCall(run[0].index), run[0])
    else CM.Grow(RunAcc(run[..|run| - 1]), run[|run| - 1])
  }

  lemma {:induction false} RunAccIs(run: seq<C.ToolCall>)
    requires GoodRun(run)
    ensures RunAcc(run).index == run[0].index && RunAcc(run).id == run[0].id && RunAcc(run).hasFunc
    ensures RunAcc(run).name == run[0].function_.value.name && RunAcc(run).args == ArgumentsOf(run)
    decreases |run|
  {
    var n := |run| - 1;
    if n == 0 {
      assert run[..0] == [] && ArgumentsOf([]) == "";
      assert "" + run[0].function_.value.arguments == run[0].function_.value.arguments;
    } else {
      RunAccIs(run[..n]);
      var acc := RunAcc(run[..n]);
      assert acc.name + "" == acc.name && acc.args + "" == acc.args;
    }
  }

  predicate Absent(calls: seq<CM.CallAcc>, index: int) {
    forall k :: 0 <= k < |calls| ==> calls[k].index != index
  }

  lemma {:induction false} MergeRun(calls: seq<CM.CallAcc>, run: seq<C.ToolCall>)
    requires GoodRun(run) && Absent(calls, run[0].index)
    ensures CM.MergeCalls(calls, run) == calls + [RunAcc(run)]
    decreases |run|
  {
    hide CM.MergeCalls;
    var n := |run| - 1;
    var init, tc := run[..n], run[n];
    assert run == init + [tc];
    CI.MergeCallsSnoc(calls, init, tc);
    if n == 0 {
      CI.MergeCallOnce(calls, tc);
      assert init == [];
      assert CM.Find(calls, tc.index) == |calls|;
    } else {
      MergeRun(calls, init);
      RunAccIs(init);
      var mid := calls + [RunAcc(init)];
      assert mid[|calls|].index == tc.index;
      assert CM.Find(mid, tc.index) == |calls|;
      assert mid[|calls| := CM.Grow(RunAcc(init), tc)] == calls + [RunAcc(run)];
    }
  }

  function RunAccs(runs: seq<seq<C.ToolCall>>): seq<CM.CallAcc>
    requires GoodRuns(runs)
    decreases |runs|
  {
    if runs == [] then []
    else
      assert GoodRun(runs[|runs| - 1]);
      RunAccs(runs[..|runs| - 1]) + [RunAcc(runs[|runs| - 1])]
  }

  lemma {:induction false} RunAccsAt(runs: seq<seq<C.ToolCall>>)
    requires GoodRuns(runs)
    ensures |RunAccs(runs)| == |runs|
    ensures forall k :: 0 <= k < |runs| ==> RunAccs(runs)[k].index == runs[k][0].index
    decreases |runs|
  {
    hide RunAcc;
    if runs != [] {
      var n := |runs| - 1;
      assert GoodRun(runs[n]);
      RunAccIs(runs[n]);
      hide GoodRun;
      RunAccsAt(runs[..n]);
    }
  }

  lemma {:induction false} MergeRuns(runs: seq<seq<C.ToolCall>>)
    requires GoodRuns(runs)
    ensures CM.MergeCalls([], Flat(runs)) == RunAccs(runs)
    decreases |runs|
  {
    hide CM.MergeCalls, RunAcc;
    if runs == [] {
      CI.MergeCallOnce([], C.ToolCall(0, "", "", None));
    } else {
      var n := |runs| - 1;
      var init := runs[..n];
      MergeRuns(init);
      RunAccsAt(init);
      assert GoodRun(runs[n]);
      CI.MergeCallsAppend([], Flat(init), runs[n]);
      assert Absent(RunAccs(init), runs[n][0].index);
      MergeRun(RunAccs(init), runs[n]);
    }
  }

  lemma {:induction false} ConvertSnoc(calls: seq<CM.CallAcc>, a: CM.CallAcc)
    ensures ConvertToolCalls(CM.BuildCalls(calls + [a])) ==
      ConvertToolCalls(CM.BuildCalls(calls)) + ConvertToolCalls([CM.BuildCall(a)])
  {
    if calls == [] {
      assert calls + [a] == [a] && [a][1..] == [];
      assert CM.BuildCalls([a]) == [CM.BuildCall(a)];
    } else {
      assert (calls + [a])[1..] == calls[1..] + [a];
      ConvertSnoc(calls[1..], a);
    }
  }

  lemma ConvertOne(tc: C.ToolCall)
    requires tc.function_.Some?
    ensures ConvertToolCalls([tc]) ==
      [A.ToolUseBlock(tc.id, tc.function_.value.name, tc.function_.value.arguments)]
    ensures ConvertToolCalls(CM.BuildCalls([])) == []
  {
    assert [tc][1..] == [];
    assert ConvertToolCalls([]) == [];
  }

  lemma {:induction false} ConvertRuns(runs: seq<seq<C.ToolCall>>)
    requires GoodRuns(runs)
    ensures ConvertToolCalls(CM.BuildCalls(RunAccs(runs))) == RunBlocks(runs, "")
    decreases |runs|
  {
    hide ConvertToolCalls, CM.BuildCalls;
    ConvertOne(C.ToolCall(0, "", "", Some(C.ToolFunction("", ""))));
    if runs != [] {
      var n := |runs| - 1;
      assert GoodRun(runs[n]);
      ConvertRuns(runs[..n]);
      RunAccIs(runs[n]);
      ConvertSnoc(RunAccs(runs[..n]), RunAcc(runs[n]));
      ConvertOne(CM.BuildCall(RunAcc(runs[n])));
    }
  }

  // ----- The square -----

  /** Convert the stream, merge the events. */
  function ConvertThenMerge(items: seq<C.StreamItem>): A.Response {
    var st := M.Run(M.Fresh, Output(items)).0;
    st.response.(content := M.Content(st.blocks))
  }

  /** The merged chat response for a given final listing of the choices. */
  function MergedChat(cs: seq<C.Chunk>, choices: seq<C.Choice>): C.Response {
    var st := CM.Run(CM.Fresh, cs);
    C.Response(st.id, st.created, "chat.completion", st.model, choices, st.usage)
  }

  function ResponseOf(cs: seq<C.Chunk>, content: seq<A.Block>): A.Response
    requires cs != [] && |CI.UsagesOf(cs)| == 1
  {
    A.Response(cs[0].id, "message", "assistant", content, cs[0].model, MapFinishReason(FinishOf(cs)), None,
               Some(MapUsage(CI.UsagesOf(cs)[0])))
  }

  lemma {:induction false} LastUsage(cs: seq<C.Chunk>)
    ensures CI.UsagesOf(cs) == [] <==> UsageOf(cs) == None
    ensures CI.UsagesOf(cs) != [] ==> UsageOf(cs) == Some(CI.UsagesOf(cs)[|CI.UsagesOf(cs)| - 1])
    decreases |cs|
  {
    if cs != [] {
      var init, c := cs[..|cs| - 1], cs[|cs| - 1];
      assert cs == init + [c];
      LastUsage(init);
      CI.UsagesAppend(init, [c]);
      assert [c][1..] == [];
      assert CI.UsagesOf([]) == [];
    }
  }

  lemma ConvertedResponse(
    items: seq<C.StreamItem>, cs: seq<C.Chunk>, rs: seq<string>, ts: seq<string>, runs: seq<seq<C.ToolCall>>)
    requires HasDone(items) && BeforeDone(items) == cs && Canonical(cs, rs, ts, runs)
    ensures ConvertThenMerge(items) ==
      ResponseOf(cs, BlocksOf(PlaceAll(NoLayout, Thinks(rs) + Says(ts) + RunAtoms(runs)).sections))
  {
    hide M.Run, PlaceAll, Atoms, BeforeDone, ClosedEvents, SectionAccs, FinishOf, UsageOf, DoneEvents, StartEvents,
      MapUsage, MapFinishReason, M.Content, CI.UsagesOf, GoodRuns, Thinks, Says, RunAtoms;
    var ss := PlaceAll(NoLayout, Atoms(cs)).sections;
    ConvertedBlocks(rs, ts, runs);
    var start, done := StartEvents(cs), DoneEvents(FinishOf(cs), UsageOf(cs));
    MergeStart(cs);
    var begun := M.Run(M.Fresh, start).0;
    MergeClosed(begun, ss);
    M.RunAppend(M.Fresh, start, ClosedEvents(ss));
    M.RunAppend(M.Fresh, start + ClosedEvents(ss), done);
    MergeDone(M.Run(M.Fresh, start + ClosedEvents(ss)).0, FinishOf(cs), UsageOf(cs));
    LastUsage(cs);
    UsageReplacesPlaceholder(CI.UsagesOf(cs)[0]);
  }

  lemma UsageReplacesPlaceholder(u: C.Usage)
    ensures M.MergeUsage(Some(A.Usage(Some(0), Some(0), None, None)), Some(MapUsage(u))) == Some(MapUsage(u))
  {
  }

  lemma {:induction false} RunNames(st: CM.State, cs: seq<C.Chunk>, id: string, model: string)
    requires forall c :: c in cs ==> c.id == id && c.model == model
    ensures cs != [] ==>
      CM.Run(st, cs).id == CM.NonEmpty(st.id, id) && CM.Run(st, cs).model == CM.NonEmpty(st.model, model)
    ensures cs == [] ==> CM.Run(st, cs) == st
    decreases cs
  {
    hide CM.MergeUsage, CM.MergeChoices;
    if cs != [] {
      assert cs[0] in cs;
      RunNames(CM.Step(st, cs[0]), cs[1..], id, model);
    }
  }

  lemma OneUsage(us: seq<C.Usage>)
    requires |us| == 1
    ensures CI.MergeUsages(None, us) == Some(us[0])
  {
    assert us[1..] == [];
    assert CI.MergeUsages(Some(us[0]), []) == Some(us[0]);
  }

  lemma OneListing(choices: seq<C.Choice>, m: map<int, CM.ChoiceAcc>)
    requires CM.Lists(choices, m) && m.Keys == {0} && m[0].index == 0
    ensures choices == [CM.BuildChoice(m[0])]
  {
    assert [CM.BuildChoice(m[0])][0].index == 0;
    assert CM.Has([CM.BuildChoice(m[0])], 0);
    CM.ListsUnique(choices, [CM.BuildChoice(m[0])], m);
  }

  /** The message side of the square, before comparing. */
  lemma MergedResponse(
    cs: seq<C.Chunk>, choices: seq<C.Choice>, rs: seq<string>, ts: seq<string>, runs: seq<seq<C.ToolCall>>)
    requires Canonical(cs, rs, ts, runs) && CM.Lists(choices, CM.Run(CM.Fresh, cs).choices)
    ensures ConvertResponse(MergedChat(cs, choices)) == ResponseOf(cs,
      (if SawReasoning(cs) then [A.ThinkingBlock(Concat(rs), "")] else []) + SayBlocks(ts) + RunBlocks(runs, ""))
  {
    hide CM.Run, CI.Shares, CI.GrowAll, CI.UsagesOf, CI.MergeUsages, MapUsage, MapFinishReason, FinishOf, CM.Lists,
      CM.MergeCalls, ConvertToolCalls, CM.BuildCalls, SawReasoning, ThinksIn, SaysIn, CallsIn, Concat, RunBlocks,
      GoodRuns, RunAtoms, Thinks, Says, Atoms;
    var st := CM.Run(CM.Fresh, cs);
    RunNames(CM.Fresh, cs, cs[0].id, cs[0].model);
    CI.RunUsage(CM.Fresh, cs);
    OneUsage(CI.UsagesOf(cs));
    HoldsStream(cs);
    forall i ensures i in st.choices <==> CI.Shares(cs, i) != [] {
      CI.ChoiceFromOwnFragments(CM.Fresh, cs, i);
    }
    CI.ChoiceFromOwnFragments(CM.Fresh, cs, 0);
    var acc := st.choices[0];
    assert forall i :: i in st.choices.Keys <==> i == 0;
    assert st.choices.Keys == {0};
    KeyedFresh(cs);
    OneListing(choices, st.choices);
    AtomsSplit(rs, ts, runs);
    MergeRuns(runs);
    ConvertRuns(runs);
    SaidNonEmpty(cs, rs, ts, runs);
  }

  lemma KeyedFresh(cs: seq<C.Chunk>)
    ensures CM.Keyed(CM.Run(CM.Fresh, cs).choices)
  {
    KeyedRun(CM.Fresh, cs);
  }

  lemma {:induction false} KeyedRun(st: CM.State, cs: seq<C.Chunk>)
    requires CM.Keyed(st.choices)
    ensures CM.Keyed(CM.Run(st, cs).choices)
    decreases cs
  {
    hide CM.MergeChoices, CM.Keyed;
    if cs != [] {
      CM.MergeChoicesKeyed(st.choices, cs[0].choices);
      KeyedRun(CM.Step(st, cs[0]), cs[1..]);
    }
  }

  lemma AtomsSplit(rs: seq<string>, ts: seq<string>, runs: seq<seq<C.ToolCall>>)
    ensures var atoms := Thinks(rs) + Says(ts) + RunAtoms(runs);
      ThinksIn(atoms) == rs && SaysIn(atoms) == ts && CallsIn(atoms) == Flat(runs)
  {
    hide ThinksIn, SaysIn, CallsIn;
    InAppend(Thinks(rs) + Says(ts), RunAtoms(runs));
    InAppend(Thinks(rs), Says(ts));
    InThinks(rs);
    InSays(ts);
    InRuns(runs);
  }

  predicate Audible(a: Atom) {
    !a.Call? ==> a.text != ""
  }

  lemma {:induction false} AtomsAudible(cs: seq<C.Chunk>)
    ensures forall a :: a in Atoms(cs) ==> Audible(a)
  {
    if cs != [] {
      AtomsAudible(cs[1..]);
      if cs[0].choices != [] && cs[0].choices[0].delta.Some? {
        CallAtomsAt(cs[0].choices[0].delta.value.toolCalls);
      }
    }
  }

  lemma SaidNonEmpty(cs: seq<C.Chunk>, rs: seq<string>, ts: seq<string>, runs: seq<seq<C.ToolCall>>)
    requires Atoms(cs) == Thinks(rs) + Says(ts) + RunAtoms(runs) && PlainStream(cs)
    ensures Concat(ts) == "" <==> ts == []
    ensures rs != [] ==> SawReasoning(cs)
  {
    hide RunAtoms;
    AtomsAudible(cs);
    if ts != [] {
      SaysAt(ts);
      assert Says(ts)[0] in Atoms(cs);
      assert Audible(Says(ts)[0]);
    }
    if rs != [] {
      ThinksAt(rs);
      assert Thinks(rs)[0] in Atoms(cs);
      ThoughtSeen(cs, Thinks(rs)[0]);
    }
  }

  lemma {:induction false} ThoughtSeen(cs: seq<C.Chunk>, a: Atom)
    requires a in Atoms(cs) && a.Think? && (forall c :: c in cs ==> Plain(c))
    ensures SawReasoning(cs)
  {
    if a in AtomsOf(cs[0]) {
      CallAtomsAt(cs[0].choices[0].delta.value.toolCalls);
      assert cs[0] in cs;
    } else {
      assert forall c :: c in cs[1..] ==> c in cs;
      ThoughtSeen(cs[1..], a);
    }
  }

  predicate AllArguments(runs: seq<seq<C.ToolCall>>) {
    forall i :: 0 <= i < |runs| ==> ArgumentsOf(runs[i]) != ""
  }

  lemma {:induction false} RunBlocksLength(runs: seq<seq<C.ToolCall>>, filler: string)
    requires GoodRuns(runs)
    ensures |RunBlocks(runs, filler)| == |runs|
    decreases |runs|
  {
    if runs != [] {
      RunBlocksLength(runs[..|runs| - 1], filler);
    }
  }

  lemma AllArgumentsSnoc(runs: seq<seq<C.ToolCall>>)
    requires runs != []
    ensures var n := |runs| - 1;
      AllArguments(runs) <==> AllArguments(runs[..n]) && ArgumentsOf(runs[n]) != ""
  {
    hide ArgumentsOf;
    var n := |runs| - 1;
    assert forall i :: 0 <= i < n ==> runs[..n][i] == runs[i];
    if AllArguments(runs) {
      forall i | 0 <= i < n ensures ArgumentsOf(runs[..n][i]) != "" {
        assert ArgumentsOf(runs[i]) != "";
      }
    }
    if AllArguments(runs[..n]) && ArgumentsOf(runs[n]) != "" {
      forall i | 0 <= i < |runs| ensures ArgumentsOf(runs[i]) != "" {
        if i < n {
          assert ArgumentsOf(runs[..n][i]) != "";
        }
      }
    }
  }

  lemma SnocEqual<T>(x: seq<T>, y: seq<T>, a: T, b: T)
    ensures x + [a] == y + [b] <==> x == y && a == b
  {
    if x + [a] == y + [b] {
      assert (x + [a])[|x|] == a && (y + [b])[|y|] == b;
      assert (x + [a])[..|x|] == x && (y + [b])[..|y|] == y;
    }
  }

  lemma {:induction false} FillerShows(runs: seq<seq<C.ToolCall>>)
    requires GoodRuns(runs)
    ensures RunBlocks(runs, "{}") == RunBlocks(runs, "") <==> AllArguments(runs)
    decreases |runs|
  {
    hide AllArguments, ArgumentsOf;
    if runs == [] {
      assert AllArguments(runs) by { NoRuns(); }
    } else {
      var n := |runs| - 1;
      FillerShows(runs[..n]);
      AllArgumentsSnoc(runs);
      assert GoodRun(runs[n]);
      var f, args := runs[n][0].function_.value, ArgumentsOf(runs[n]);
      SnocEqual(RunBlocks(runs[..n], "{}"), RunBlocks(runs[..n], ""),
                A.ToolUseBlock(runs[n][0].id, f.name, if args == "" then "{}" else args),
                A.ToolUseBlock(runs[n][0].id, f.name, if args == "" then "" else args));
    }
  }

  lemma NoRuns()
    ensures AllArguments([])
  {
  }

  /** What a caller can check beforehand on a canonical stream. */
  predicate Agreeable(cs: seq<C.Chunk>, rs: seq<string>, ts: seq<string>, runs: seq<seq<C.ToolCall>>) {
    && AllArguments(runs)                     // every tool call has arguments
    && !Swallowed(rs, ts, runs)               // text separates reasoning from tool calls
    && (SawReasoning(cs) ==> rs != [])        // reasoning, when present, is not just ""
  }

  /**
   The square commutes on a canonical stream if and only if every tool call has arguments, no tool call
   directly follows reasoning, and present reasoning is not empty throughout.
   */
  lemma CommutingSquareExactly(
    items: seq<C.StreamItem>, choices: seq<C.Choice>,
    rs: seq<string>, ts: seq<string>, runs: seq<seq<C.ToolCall>>)
    requires HasDone(items) && Canonical(BeforeDone(items), rs, ts, runs)
    requires CM.Lists(choices, CM.Run(CM.Fresh, BeforeDone(items)).choices)
    ensures ConvertThenMerge(items) == ConvertResponse(MergedChat(BeforeDone(items), choices))
      <==> Agreeable(BeforeDone(items), rs, ts, runs)
  {
    hide ConvertThenMerge, ConvertResponse, MergedChat, PlaceAll, RunBlocks, BlocksOf, SawReasoning, Thinks, Says,
      RunAtoms, GoodRuns, Atoms, BeforeDone, AllArguments, PlainStream, CM.Lists, Concat, CM.Run, HasDone;
    var cs := BeforeDone(items);
    ConvertedResponse(items, cs, rs, ts, runs);
    MergedResponse(cs, choices, rs, ts, runs);
    ConvertedBlocks(rs, ts, runs);
    SaidNonEmpty(cs, rs, ts, runs);
    RunBlocksLength(runs, "");
    var left := BlocksOf(PlaceAll(NoLayout, Thinks(rs) + Says(ts) + RunAtoms(runs)).sections);
    var thought := if SawReasoning(cs) then [A.ThinkingBlock(Concat(rs), "")] else [];
    var right := thought + SayBlocks(ts) + RunBlocks(runs, "");
    SidesCompared(rs, ts, thought, runs);
    assert PlainStream(cs);
    SameResponse(cs, left, right);
  }

  lemma SameResponse(cs: seq<C.Chunk>, a: seq<A.Block>, b: seq<A.Block>)
    requires PlainStream(cs)
    ensures ResponseOf(cs, a) == ResponseOf(cs, b) <==> a == b
  {
    hide MapFinishReason, FinishOf, MapUsage, CI.UsagesOf;
    assert ResponseOf(cs, a).content == a && ResponseOf(cs, b).content == b;
  }

  lemma SidesCompared(rs: seq<string>, ts: seq<string>, thought: seq<A.Block>, runs: seq<seq<C.ToolCall>>)
    requires GoodRuns(runs)
    requires thought == [] || thought == [A.ThinkingBlock(Concat(rs), "")]
    requires rs != [] ==> thought != []
    ensures ThinkBlocks(rs) + SayBlocks(ts) + RunBlocks(runs, "{}") == thought + SayBlocks(ts) + RunBlocks(runs, "")
      <==> AllArguments(runs) && (thought != [] ==> rs != [])
  {
    hide RunBlocks, AllArguments, Concat, GoodRuns;
    FillerShows(runs);
    RunBlocksLength(runs, "{}");
    RunBlocksLength(runs, "");
    var x, y := RunBlocks(runs, "{}"), RunBlocks(runs, "");
    if thought == ThinkBlocks(rs) {
      var p := thought + SayBlocks(ts);
      assert (p + x)[|p|..] == x && (p + y)[|p|..] == y;
    } else {
      assert rs == [] && thought == [A.ThinkingBlock(Concat(rs), "")];
      var p := ThinkBlocks(rs) + SayBlocks(ts) + x;
      var q := thought + SayBlocks(ts) + y;
      assert |q| == |p| + 1;
    }
  }
}
