/** Merging a converted stream (pkg/streammerge/claude.go after pkg/engines/converter/claude.go). */
module MergedSections {
  import opened Prelude
  import C = ChatTypes
  import A = ClaudeTypes
  import opened StreamConverter
  import opened StreamShape
  import M = ClaudeMerger

  function Accumulated(a: M.Acc, ds: seq<A.ContentDelta>): M.Acc {
    if ds == [] then a else M.ApplyDelta(Accumulated(a, ds[..|ds| - 1]), ds[|ds| - 1])
  }

  /** The accumulator a section leaves behind. */
  function SectionAcc(s: Section): Option<M.Acc> {
    match M.NewAcc(Some(s.start)) case None => None case Some(a) => Some(Accumulated(a, s.deltas))
  }

  function SectionAccs(ss: seq<Section>): seq<Option<M.Acc>> {
    if ss == [] then [] else SectionAccs(ss[..|ss| - 1]) + [SectionAcc(ss[|ss| - 1])]
  }

  lemma {:induction false} AccsLength(ss: seq<Section>)
    ensures |SectionAccs(ss)| == |ss|
    decreases |ss|
  {
    if ss != [] {
      AccsLength(ss[..|ss| - 1]);
    }
  }

  lemma {:induction false} MergeDeltas(st: M.State, a: M.Acc, ds: seq<A.ContentDelta>)
    requires st.blocks != [] && st.blocks[|st.blocks| - 1] == Some(a)
    ensures var k := |st.blocks| - 1;
      M.Run(st, DeltaEvents(k, ds)) == (st.(blocks := st.blocks[k := Some(Accumulated(a, ds))]), M.Accepted)
    decreases |ds|
  {
    hide M.Run;
    var k := |st.blocks| - 1;
    if ds == [] {
      RunNothing(st);
      assert st.blocks[k := Some(a)] == st.blocks;
    } else {
      var init, e := ds[..|ds| - 1], A.BlockDelta(Some(k), Some(ds[|ds| - 1]));
      MergeDeltas(st, a, init);
      M.RunAppend(st, DeltaEvents(k, init), [e]);
      var mid := M.Run(st, DeltaEvents(k, init)).0;
      M.RunOne(mid, e);
      assert mid.blocks[k := Some(Accumulated(a, ds))] == st.blocks[k := Some(Accumulated(a, ds))];
    }
  }

  lemma RunNothing(st: M.State)
    ensures M.Run(st, []) == (st, M.Accepted)
  {
  }

  lemma MergeOpen(st: M.State, s: Section)
    ensures M.Run(st, OpenEvents(|st.blocks|, s)) ==
      (st.(blocks := st.blocks + [SectionAcc(s)]), M.Accepted)
  {
    hide M.Run, DeltaEvents, Accumulated;
    var k := |st.blocks|;
    var start := A.BlockStart(Some(k), Some(s.start));
    M.RunOne(st, start);
    M.RunAppend(st, [start], DeltaEvents(k, s.deltas));
    var begun := M.Step(st, start).0;
    assert begun.blocks == st.blocks + [M.NewAcc(Some(s.start))];
    MergeDeltas(begun, M.NewAcc(Some(s.start)).value, s.deltas);
    assert begun.blocks[k := SectionAcc(s)] == st.blocks + [SectionAcc(s)];
  }

  /** Merging undoes rendering: every section comes back as its own accumulator, and nothing is rejected. */
  lemma {:induction false} MergeClosed(st: M.State, ss: seq<Section>)
    requires st.blocks == []
    ensures M.Run(st, ClosedEvents(ss)) == (st.(blocks := SectionAccs(ss)), M.Accepted)
    decreases |ss|
  {
    hide M.Run, OpenEvents, SectionAcc;
    if ss == [] {
      RunNothing(st);
    } else {
      var n := |ss| - 1;
      var front, stop := ClosedEvents(ss[..n]), A.BlockStop(Some(n));
      MergeClosed(st, ss[..n]);
      AccsLength(ss[..n]);
      var mid := M.Run(st, front).0;
      MergeOpen(mid, ss[n]);
      M.RunAppend(st, front, OpenEvents(n, ss[n]));
      M.RunAppend(st, front + OpenEvents(n, ss[n]), [stop]);
      M.RunOne(M.Run(st, front + OpenEvents(n, ss[n])).0, stop);
    }
  }

  lemma MergeSections(st: M.State, ss: seq<Section>)
    requires st.blocks == []
    ensures M.Run(st, SectionEvents(ss)) == (st.(blocks := SectionAccs(ss)), M.Accepted)
  {
    hide M.Run, OpenEvents, SectionAcc;
    if ss == [] {
      RunNothing(st);
    } else {
      var n := |ss| - 1;
      var front := ClosedEvents(ss[..n]);
      MergeClosed(st, ss[..n]);
      AccsLength(ss[..n]);
      MergeOpen(M.Run(st, front).0, ss[n]);
      M.RunAppend(st, front, OpenEvents(n, ss[n]));
    }
  }

  lemma MergeStart(cs: seq<C.Chunk>)
    ensures M.Run(M.Fresh, StartEvents(cs)).1 == M.Accepted
    ensures M.Run(M.Fresh, StartEvents(cs)).0 ==
      if cs == [] then M.Fresh
      else
        M.State(A.Response(cs[0].id, "message", "assistant", [], cs[0].model, "", None,
                           Some(A.Usage(Some(0), Some(0), None, None))), [])
  {
    if cs != [] {
      M.RunOne(M.Fresh, StartEvents(cs)[0]);
    }
  }

  lemma MergeDone(st: M.State, finish: string, usage: Option<C.Usage>)
    ensures M.Run(st, DoneEvents(finish, usage)) ==
      (if finish == "" then st
       else
         st.(response := st.response.(
           stopReason := MapFinishReason(finish),
           usage := M.MergeUsage(st.response.usage, match usage case None => None case Some(u) => Some(MapUsage(u))))),
       M.Accepted)
  {
    hide M.Run, MapUsage, MapFinishReason;
    var es := DoneEvents(finish, usage);
    M.RunOne(st, A.MessageStop);
    if finish != "" {
      M.RunOne(st, es[0]);
      M.RunAppend(st, [es[0]], [A.MessageStop]);
      M.RunOne(M.Run(st, [es[0]]).0, A.MessageStop);
      assert es == [es[0]] + [A.MessageStop];
    } else {
      assert es == [A.MessageStop];
    }
  }

  /** For every input, complete, cut short or crashed, the Claude merger accepts every event sent. */
  lemma MergerAccepts(items: seq<C.StreamItem>)
    ensures M.Run(M.Fresh, Output(items)).1 == M.Accepted
    ensures M.Run(M.Fresh, Output(items)).0.blocks ==
      SectionAccs(PlaceAll(NoLayout, Atoms(BeforeDone(items))).sections)
  {
    hide M.Run, PlaceAll, Atoms, BeforeDone, ClosedEvents, SectionEvents, SectionAccs, FinishOf, UsageOf, DoneEvents,
      StartEvents;
    var cs := BeforeDone(items);
    var ss := PlaceAll(NoLayout, Atoms(cs)).sections;
    var start := StartEvents(cs);
    MergeStart(cs);
    var begun := M.Run(M.Fresh, start).0;
    MergeClosed(begun, ss);
    MergeSections(begun, ss);
    M.RunAppend(M.Fresh, start, ClosedEvents(ss));
    M.RunAppend(M.Fresh, start, SectionEvents(ss));
    M.RunAppend(M.Fresh, start + ClosedEvents(ss), DoneEvents(FinishOf(cs), UsageOf(cs)));
    MergeDone(M.Run(M.Fresh, start + ClosedEvents(ss)).0, FinishOf(cs), UsageOf(cs));
  }
}
