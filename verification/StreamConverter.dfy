/**
 The OpenAI-to-Claude response conversion of pkg/engines/converter/claude.go.

 The stream path is an imperative state machine (class Converter). It is specified by an independent
 reading of the stream: the chunks are flattened into atoms, the atoms are grouped into sections (one
 section per content block), and the sections are rendered as events.
 */
module StreamConverter {
  import opened Prelude
  import C = ChatTypes
  import A = ClaudeTypes

  function MapFinishReason(fr: string): string {
    match fr
    case "stop" => "end_turn"
    case "length" => "max_tokens"
    case "tool_calls" => "tool_use"
    case _ => fr
  }

  function CachedTokens(u: C.Usage): int {
    if u.promptDetails.Some? && u.promptDetails.value.cachedTokens > 0
    then u.promptDetails.value.cachedTokens else 0
  }

  function MapUsage(u: C.Usage): A.Usage {
    var cached := CachedTokens(u);
    A.Usage(Some(u.promptTokens - cached), Some(u.completionTokens), None,
            if cached > 0 then Some(cached) else None)
  }

  // ----- The non-stream path -----

  function ConvertToolCalls(calls: seq<C.ToolCall>): seq<A.Block> {
    if calls == [] then []
    else
      (match calls[0].function_
       case None => []
       case Some(f) => [A.ToolUseBlock(calls[0].id, f.name, f.arguments)])
      + ConvertToolCalls(calls[1..])
  }

  function ConvertMessage(m: C.Message): seq<A.Block> {
    (if m.reasoning.Absent? then [] else [A.ThinkingBlock(C.ExtractText(m.reasoning), "")])
    + (if C.ExtractText(m.content) == "" then [] else [A.TextBlock(C.ExtractText(m.content))])
    + ConvertToolCalls(m.toolCalls)
  }

  /** convertNonStreamResponseBody, up to the final JSON marshalling. */
  function ConvertResponse(r: C.Response): A.Response {
    A.Response(
      r.id, "message", "assistant",
      if r.choices == [] || r.choices[0].message.None? then [] else ConvertMessage(r.choices[0].message.value),
      r.model,
      if r.choices == [] then "" else MapFinishReason(r.choices[0].finishReason),
      None,
      match r.usage case None => None case Some(u) => Some(MapUsage(u)))
  }

  /** The same built field by field, tool calls appended one at a time. */
  method ConvertNonStream(r: C.Response) returns (resp: A.Response)
    ensures resp == ConvertResponse(r)
  {
    resp := A.Response(r.id, "message", "assistant", [], r.model, "", None, None);
    if r.usage.Some? {
      var cached := 0;
      if r.usage.value.promptDetails.Some? && r.usage.value.promptDetails.value.cachedTokens > 0 {
        cached := r.usage.value.promptDetails.value.cachedTokens;
      }
      var usage := A.Usage(Some(r.usage.value.promptTokens - cached), Some(r.usage.value.completionTokens), None, None);
      if cached > 0 {
        usage := usage.(cacheRead := Some(cached));
      }
      resp := resp.(usage := Some(usage));
    }
    if |r.choices| > 0 {
      resp := resp.(stopReason := MapFinishReason(r.choices[0].finishReason));
      if r.choices[0].message.Some? {
        var blocks := ConvertBlocks(r.choices[0].message.value);
        resp := resp.(content := blocks);
      }
    }
  }

  method ConvertBlocks(m: C.Message) returns (blocks: seq<A.Block>)
    ensures blocks == ConvertMessage(m)
  {
    hide ConvertToolCalls, C.PartsText;
    blocks := [];
    if !m.reasoning.Absent? {
      blocks := blocks + [A.ThinkingBlock(C.ExtractText(m.reasoning), "")];
    }
    if !m.content.Absent? {
      var text := C.ExtractText(m.content);
      if text != "" {
        blocks := blocks + [A.TextBlock(text)];
      }
    }
    ghost var prose := blocks;
    AllCalls(m.toolCalls);
    for i := 0 to |m.toolCalls|
      invariant blocks == prose + ConvertToolCalls(m.toolCalls[..i])
    {
      var call := m.toolCalls[i];
      OneCall(m.toolCalls, i);
      if call.function_.Some? {
        blocks := blocks + [A.ToolUseBlock(call.id, call.function_.value.name, call.function_.value.arguments)];
      }
    }
  }

  lemma AllCalls(calls: seq<C.ToolCall>)
    ensures calls[..|calls|] == calls && ConvertToolCalls(calls[..0]) == []
  {
  }

  lemma OneCall(calls: seq<C.ToolCall>, i: nat)
    requires i < |calls|
    ensures ConvertToolCalls(calls[..i + 1]) == ConvertToolCalls(calls[..i]) +
      match calls[i].function_
      case None => []
      case Some(f) => [A.ToolUseBlock(calls[i].id, f.name, f.arguments)]
  {
    assert calls[..i + 1] == calls[..i] + [calls[i]];
    ConvertCallsAppend(calls[..i], [calls[i]]);
    assert [calls[i]][1..] == [] && ConvertToolCalls([]) == [];
  }

  lemma {:induction false} ConvertCallsAppend(a: seq<C.ToolCall>, b: seq<C.ToolCall>)
    ensures ConvertToolCalls(a + b) == ConvertToolCalls(a) + ConvertToolCalls(b)
    decreases |a|
  {
    if a == [] {
      assert a + b == b;
    } else {
      assert (a + b)[1..] == a[1..] + b;
      ConvertCallsAppend(a[1..], b);
    }
  }

  // ----- The stream, read as atoms and sections -----

  /** One piece of output: a non-empty reasoning or text fragment, or one tool-call fragment. */
  datatype Atom = Think(text: string) | Say(text: string) | Call(call: C.ToolCall)

  function CallAtoms(calls: seq<C.ToolCall>): seq<Atom> {
    if calls == [] then [] else [Call(calls[0])] + CallAtoms(calls[1..])
  }

  function ThinkAtoms(text: string): seq<Atom> {
    if text == "" then [] else [Think(text)]
  }

  function SayAtoms(text: string): seq<Atom> {
    if text == "" then [] else [Say(text)]
  }

  function DeltaAtoms(d: C.Message): seq<Atom> {
    ThinkAtoms(C.ExtractText(d.reasoning)) + SayAtoms(C.ExtractText(d.content)) + CallAtoms(d.toolCalls)
  }

  function AtomsOf(c: C.Chunk): seq<Atom> {
    if c.choices == [] || c.choices[0].delta.None? then [] else DeltaAtoms(c.choices[0].delta.value)
  }

  function Atoms(cs: seq<C.Chunk>): seq<Atom> {
    if cs == [] then [] else AtomsOf(cs[0]) + Atoms(cs[1..])
  }

  datatype Kind = Thinking | Text | Tool

  /** The content of one block: how it opens and the deltas sent into it. */
  datatype Section = Section(kind: Kind, toolIndex: int, start: A.Block, deltas: seq<A.ContentDelta>)

  /** crashed: a tool call without a function tried to open a block, which ends the stream. */
  datatype Layout = Layout(sections: seq<Section>, crashed: bool)

  function CallDeltas(tc: C.ToolCall): seq<A.ContentDelta> {
    if tc.function_.Some? && tc.function_.value.arguments != ""
    then [A.InputJsonDelta(tc.function_.value.arguments)] else []
  }

  function Feed(ss: seq<Section>, ds: seq<A.ContentDelta>): seq<Section>
    requires ss != []
  {
    var last := ss[|ss| - 1];
    ss[|ss| - 1 := last.(deltas := last.deltas + ds)]
  }

  /** Whether the fragment goes into the block that is already open. */
  predicate Joins(ss: seq<Section>, a: Atom) {
    ss != [] &&
    var last := ss[|ss| - 1];
    match a
    case Think(_) => last.kind == Thinking
    case Say(_) => last.kind == Text
    case Call(tc) => last.kind == Thinking || (last.kind == Tool && last.toolIndex == tc.index)
  }

  function DeltasOf(a: Atom): seq<A.ContentDelta> {
    match a
    case Think(t) => [A.ThinkingDelta(t)]
    case Say(t) => [A.TextDelta(t)]
    case Call(tc) => CallDeltas(tc)
  }

  /** A block that cannot be opened: a tool call with no function. */
  predicate Unopenable(a: Atom) {
    a.Call? && a.call.function_.None?
  }

  function Opened(a: Atom): Section
    requires !Unopenable(a)
  {
    match a
    case Think(_) => Section(Thinking, 0, A.ThinkingBlock("", ""), DeltasOf(a))
    case Say(_) => Section(Text, 0, A.TextBlock(""), DeltasOf(a))
    case Call(tc) => Section(Tool, tc.index, A.ToolUseBlock(tc.id, tc.function_.value.name, "{}"), DeltasOf(a))
  }

  function Place(l: Layout, a: Atom): Layout {
    if l.crashed then l
    else if Joins(l.sections, a) then l.(sections := Feed(l.sections, DeltasOf(a)))
    else if Unopenable(a) then l.(crashed := true)
    else l.(sections := l.sections + [Opened(a)])
  }

  function PlaceAll(l: Layout, atoms: seq<Atom>): Layout
    decreases atoms
  {
    if atoms == [] then l else PlaceAll(Place(l, atoms[0]), atoms[1..])
  }

  const NoLayout := Layout([], false)

  // ----- Sections rendered as events -----

  function DeltaEvents(k: int, ds: seq<A.ContentDelta>): seq<A.Event> {
    if ds == [] then [] else DeltaEvents(k, ds[..|ds| - 1]) + [A.BlockDelta(Some(k), Some(ds[|ds| - 1]))]
  }

  function OpenEvents(k: int, s: Section): seq<A.Event> {
    [A.BlockStart(Some(k), Some(s.start))] + DeltaEvents(k, s.deltas)
  }

  function ClosedEvents(ss: seq<Section>): seq<A.Event> {
    if ss == [] then []
    else
      var n := |ss| - 1;
      ClosedEvents(ss[..n]) + OpenEvents(n, ss[n]) + [A.BlockStop(Some(n))]
  }

  /** All sections, the last one still open. */
  function SectionEvents(ss: seq<Section>): seq<A.Event> {
    if ss == [] then []
    else
      var n := |ss| - 1;
      ClosedEvents(ss[..n]) + OpenEvents(n, ss[n])
  }

  function StartEvents(cs: seq<C.Chunk>): seq<A.Event> {
    if cs == [] then []
    else
      [A.MessageStart(Some(A.StartMessage(
        cs[0].id, "message", "assistant", cs[0].model, Some(A.Usage(Some(0), Some(0), None, None)))))]
  }

  /** The last finish reason any first choice carried, or "". */
  function FinishOf(cs: seq<C.Chunk>): string {
    if cs == [] then ""
    else
      var last := cs[|cs| - 1];
      if last.choices != [] && last.choices[0].finishReason != "" then last.choices[0].finishReason
      else FinishOf(cs[..|cs| - 1])
  }

  function UsageOf(cs: seq<C.Chunk>): Option<C.Usage> {
    if cs == [] then None
    else if cs[|cs| - 1].usage.Some? then cs[|cs| - 1].usage
    else UsageOf(cs[..|cs| - 1])
  }

  function DoneEvents(finish: string, usage: Option<C.Usage>): seq<A.Event> {
    (if finish == "" then []
     else
       [A.MessageDelta(
         Some(A.StopInfo(Some(MapFinishReason(finish)), None)),
         match usage case None => None case Some(u) => Some(MapUsage(u)))])
    + [A.MessageStop]
  }

  /** The chunks read before [DONE]; unparsable items are skipped. */
  function BeforeDone(items: seq<C.StreamItem>): seq<C.Chunk> {
    if items == [] || items[0].StreamDone? then []
    else (if items[0].Parsed? then [items[0].chunk] else []) + BeforeDone(items[1..])
  }

  predicate HasDone(items: seq<C.StreamItem>) {
    C.StreamDone in items
  }

  function Output(items: seq<C.StreamItem>): seq<A.Event> {
    var cs := BeforeDone(items);
    var l := PlaceAll(NoLayout, Atoms(cs));
    if l.crashed then StartEvents(cs) + ClosedEvents(l.sections)
    else if HasDone(items) then
      StartEvents(cs) + ClosedEvents(l.sections) + DoneEvents(FinishOf(cs), UsageOf(cs))
    else StartEvents(cs) + SectionEvents(l.sections)
  }

  // ----- Folding lemmas -----

  lemma {:induction false} PlaceAllAppend(l: Layout, a: seq<Atom>, b: seq<Atom>)
    ensures PlaceAll(l, a + b) == PlaceAll(PlaceAll(l, a), b)
    decreases a
  {
    if a == [] {
      assert a + b == b;
    } else {
      assert (a + b)[1..] == a[1..] + b;
      PlaceAllAppend(Place(l, a[0]), a[1..], b);
    }
  }

  function PlaceText(l: Layout, text: string, a: Atom): Layout {
    if text == "" then l else Place(l, a)
  }

  lemma DeltaPlaced(l: Layout, d: C.Message)
    ensures var (r, t) := (C.ExtractText(d.reasoning), C.ExtractText(d.content));
      PlaceAll(l, DeltaAtoms(d)) ==
      PlaceAll(PlaceText(PlaceText(l, r, Think(r)), t, Say(t)), CallAtoms(d.toolCalls))
  {
    var r, t := ThinkAtoms(C.ExtractText(d.reasoning)), SayAtoms(C.ExtractText(d.content));
    PlaceAllAppend(l, r + t, CallAtoms(d.toolCalls));
    PlaceAllAppend(l, r, t);
  }

  lemma {:induction false} AtomsAppend(a: seq<C.Chunk>, b: seq<C.Chunk>)
    ensures Atoms(a + b) == Atoms(a) + Atoms(b)
  {
    hide AtomsOf;
    if a == [] {
      assert a + b == b;
    } else {
      assert (a + b)[1..] == a[1..] + b;
      AtomsAppend(a[1..], b);
    }
  }

  lemma {:induction false} CrashedStays(l: Layout, atoms: seq<Atom>)
    requires l.crashed
    ensures PlaceAll(l, atoms) == l
  {
    if atoms != [] {
      CrashedStays(l, atoms[1..]);
    }
  }

  lemma ClosedFromOpen(ss: seq<Section>)
    ensures ss != [] ==> ClosedEvents(ss) == SectionEvents(ss) + [A.BlockStop(Some(|ss| - 1))]
    ensures ss == [] ==> ClosedEvents(ss) == SectionEvents(ss)
  {
  }

  lemma OpenedEvents(ss: seq<Section>, s: Section)
    ensures SectionEvents(ss + [s]) == ClosedEvents(ss) + OpenEvents(|ss|, s)
  {
    assert (ss + [s])[..|ss|] == ss;
  }

  // ----- The state machine -----

  datatype BlockType = BlockNone | BlockThinking | BlockText | BlockTool

  function TypeOf(k: Kind): BlockType {
    match k case Thinking => BlockThinking case Text => BlockText case Tool => BlockTool
  }

  /** The part of the goroutine's local state that concerns blocks; out is everything sent so far. */
  datatype State = State(
    currentBlockIndex: int, currentBlockType: BlockType, currentToolCallIndex: int, out: seq<A.Event>)

  function Closing(st: State): State {
    if st.currentBlockType == BlockNone then st
    else st.(out := st.out + [A.BlockStop(Some(st.currentBlockIndex))])
  }

  function Opening(st: State, kind: Kind, tool: int, start: A.Block): State {
    var k := st.currentBlockIndex + 1;
    State(k, TypeOf(kind), if kind == Tool then tool else st.currentToolCallIndex,
          st.out + [A.BlockStart(Some(k), Some(start))])
  }

  function Sending(st: State, ds: seq<A.ContentDelta>): State {
    st.(out := st.out + DeltaEvents(st.currentBlockIndex, ds))
  }

  predicate NeedsNewBlock(st: State, a: Atom) {
    match a
    case Think(_) => st.currentBlockType != BlockThinking
    case Say(_) => st.currentBlockType != BlockText
    case Call(tc) =>
      st.currentBlockType == BlockNone || st.currentBlockType == BlockText ||
      (st.currentBlockType == BlockTool && st.currentToolCallIndex != tc.index)
  }

  function Stepped(st: State, a: Atom): State
    requires !(NeedsNewBlock(st, a) && Unopenable(a))
  {
    if NeedsNewBlock(st, a) then
      var s := Opened(a);
      Sending(Opening(Closing(st), s.kind, s.toolIndex, s.start), s.deltas)
    else Sending(st, DeltasOf(a))
  }

  /** The state shows the sections: the open block is the last one and the output is their rendering. */
  ghost predicate Shows(st: State, header: seq<A.Event>, ss: seq<Section>) {
    && st.currentBlockIndex == |ss| - 1
    && (if ss == [] then st.currentBlockType == BlockNone
        else st.currentBlockType == TypeOf(ss[|ss| - 1].kind))
    && (ss != [] && ss[|ss| - 1].kind == Tool ==> st.currentToolCallIndex == ss[|ss| - 1].toolIndex)
    && st.out == header + SectionEvents(ss)
  }

  lemma ShowsClosing(st: State, header: seq<A.Event>, ss: seq<Section>)
    requires Shows(st, header, ss)
    ensures Closing(st).out == header + ClosedEvents(ss)
  {
    hide SectionEvents, ClosedEvents;
    ClosedFromOpen(ss);
    if ss != [] {
      var stop := [A.BlockStop(Some(|ss| - 1))];
      assert header + SectionEvents(ss) + stop == header + (SectionEvents(ss) + stop);
    }
  }

  lemma OneDelta(k: int, d: A.ContentDelta)
    ensures DeltaEvents(k, [d]) == [A.BlockDelta(Some(k), Some(d))]
    ensures DeltaEvents(k, []) == []
  {
    assert [d][..0] == [];
  }

  lemma {:induction false} DeltaEventsAppend(k: int, a: seq<A.ContentDelta>, b: seq<A.ContentDelta>)
    ensures DeltaEvents(k, a + b) == DeltaEvents(k, a) + DeltaEvents(k, b)
    decreases b
  {
    if b == [] {
      assert a + b == a;
    } else {
      var n := |b| - 1;
      assert (a + b)[..|a + b| - 1] == a + b[..n];
      DeltaEventsAppend(k, a, b[..n]);
    }
  }

  lemma FedEvents(ss: seq<Section>, ds: seq<A.ContentDelta>)
    requires ss != []
    ensures SectionEvents(Feed(ss, ds)) == SectionEvents(ss) + DeltaEvents(|ss| - 1, ds)
  {
    var n := |ss| - 1;
    DeltaEventsAppend(n, ss[n].deltas, ds);
    assert Feed(ss, ds)[..n] == ss[..n];
    var start := [A.BlockStart(Some(n), Some(ss[n].start))];
    var old_, new_ := DeltaEvents(n, ss[n].deltas), DeltaEvents(n, ds);
    assert ClosedEvents(ss[..n]) + (start + (old_ + new_)) == ClosedEvents(ss[..n]) + (start + old_) + new_;
  }

  lemma ShowsSending(st: State, header: seq<A.Event>, ss: seq<Section>, ds: seq<A.ContentDelta>)
    requires Shows(st, header, ss) && ss != []
    ensures Shows(Sending(st, ds), header, Feed(ss, ds))
  {
    hide SectionEvents, ClosedEvents, DeltaEvents, OpenEvents;
    FedEvents(ss, ds);
    var more := DeltaEvents(|ss| - 1, ds);
    assert header + SectionEvents(ss) + more == header + (SectionEvents(ss) + more);
  }

  lemma ShowsOpening(st: State, header: seq<A.Event>, ss: seq<Section>, s: Section)
    requires st.currentBlockIndex == |ss| - 1 && st.out == header + ClosedEvents(ss)
    ensures Shows(Sending(Opening(st, s.kind, s.toolIndex, s.start), s.deltas), header, ss + [s])
  {
    hide SectionEvents, ClosedEvents, DeltaEvents;
    OpenedEvents(ss, s);
    var start := [A.BlockStart(Some(|ss|), Some(s.start))];
    var more := DeltaEvents(|ss|, s.deltas);
    assert header + ClosedEvents(ss) + start + more == header + (ClosedEvents(ss) + (start + more));
  }

  lemma ShowsStepped(st: State, header: seq<A.Event>, ss: seq<Section>, a: Atom)
    requires Shows(st, header, ss)
    ensures NeedsNewBlock(st, a) == !Joins(ss, a)
    ensures !(NeedsNewBlock(st, a) && Unopenable(a)) ==>
      !Place(Layout(ss, false), a).crashed &&
      Shows(Stepped(st, a), header, Place(Layout(ss, false), a).sections)
  {
    hide SectionEvents, ClosedEvents, DeltaEvents;
    if Joins(ss, a) {
      ShowsSending(st, header, ss, DeltasOf(a));
    } else if !Unopenable(a) {
      ShowsClosing(st, header, ss);
      ShowsOpening(Closing(st), header, ss, Opened(a));
    }
  }

  /** The goroutine of convertStreamResponse: its local variables and everything it has sent. */
  class Converter {
    var started: bool
    var st: State
    var pendingFinishReason: Option<string>
    var pendingUsage: Option<C.Usage>

    constructor ()
      ensures Tracks([])
    {
      started, st := false, State(-1, BlockNone, -1, []);
      pendingFinishReason, pendingUsage := None, None;
      NothingSeen();
    }

    method Send(e: A.Event)
      modifies `st
      ensures st == old(st).(out := old(st).out + [e])
    {
      st := st.(out := st.out + [e]);
    }

    /** content_block_stop for the open block, if there is one. */
    method CloseBlock()
      modifies `st
      ensures st == Closing(old(st))
    {
      if st.currentBlockType != BlockNone {
        Send(A.BlockStop(Some(st.currentBlockIndex)));
      }
    }

    /** Non-empty reasoning text: open a thinking block unless one is open, then send the delta. */
    method HandleReasoning(text: string)
      modifies `st
      ensures st == Stepped(old(st), Think(text))
    {
      if st.currentBlockType == BlockNone || st.currentBlockType == BlockText || st.currentBlockType == BlockTool {
        CloseBlock();
        st := st.(currentBlockIndex := st.currentBlockIndex + 1);
        Send(A.BlockStart(Some(st.currentBlockIndex), Some(A.ThinkingBlock("", ""))));
        st := st.(currentBlockType := BlockThinking);
      }
      Send(A.BlockDelta(Some(st.currentBlockIndex), Some(A.ThinkingDelta(text))));
      OneDelta(st.currentBlockIndex, A.ThinkingDelta(text));
    }

    /** Non-empty text: open a text block unless one is open, then send the delta. */
    method HandleContent(text: string)
      modifies `st
      ensures st == Stepped(old(st), Say(text))
    {
      if st.currentBlockType == BlockNone || st.currentBlockType == BlockThinking || st.currentBlockType == BlockTool {
        CloseBlock();
        st := st.(currentBlockIndex := st.currentBlockIndex + 1);
        Send(A.BlockStart(Some(st.currentBlockIndex), Some(A.TextBlock(""))));
        st := st.(currentBlockType := BlockText);
      }
      Send(A.BlockDelta(Some(st.currentBlockIndex), Some(A.TextDelta(text))));
      OneDelta(st.currentBlockIndex, A.TextDelta(text));
    }

    /**
     One tool-call fragment. There is no case for an open thinking block, so the fragment then goes
     into that block. crashed reports the nil dereference of a block-opening call without a function.
     */
    method HandleToolCall(tc: C.ToolCall) returns (crashed: bool)
      modifies `st
      ensures crashed == (NeedsNewBlock(old(st), Call(tc)) && tc.function_.None?)
      ensures !crashed ==> st == Stepped(old(st), Call(tc))
      ensures crashed ==> st.out == Closing(old(st)).out
    {
      var needNewBlock := false;
      match st.currentBlockType {
        case BlockNone => needNewBlock := true;
        case BlockText => needNewBlock := true;
        case BlockTool => needNewBlock := st.currentToolCallIndex != tc.index;
        case BlockThinking =>
      }
      if needNewBlock {
        CloseBlock();
        st := st.(currentBlockIndex := st.currentBlockIndex + 1);
        if tc.function_.None? {
          return true;
        }
        Send(A.BlockStart(Some(st.currentBlockIndex), Some(A.ToolUseBlock(tc.id, tc.function_.value.name, "{}"))));
        st := st.(currentBlockType := BlockTool, currentToolCallIndex := tc.index);
      }
      OneDelta(st.currentBlockIndex, A.InputJsonDelta(if tc.function_.Some? then tc.function_.value.arguments else ""));
      if tc.function_.Some? && tc.function_.value.arguments != "" {
        Send(A.BlockDelta(Some(st.currentBlockIndex), Some(A.InputJsonDelta(tc.function_.value.arguments))));
      }
      return false;
    }

    method HandleText(a: Atom, ghost header: seq<A.Event>, ghost ss0: seq<Section>)
      returns (ghost ss: seq<Section>)
      requires Shows(st, header, ss0) && !a.Call?
      modifies `st
      ensures Shows(st, header, ss) && Layout(ss, false) == Place(Layout(ss0, false), a)
    {
      ShowsStepped(st, header, ss0, a);
      ss := Place(Layout(ss0, false), a).sections;
      match a {
        case Think(text) => HandleReasoning(text);
        case Say(text) => HandleContent(text);
      }
    }

    method HandleToolCalls(calls: seq<C.ToolCall>, ghost header: seq<A.Event>, ghost ss0: seq<Section>)
      returns (crashed: bool, ghost ss: seq<Section>)
      requires Shows(st, header, ss0)
      modifies `st
      ensures Layout(ss, crashed) == PlaceAll(Layout(ss0, false), CallAtoms(calls))
      ensures if crashed then st.out == header + ClosedEvents(ss) else Shows(st, header, ss)
    {
      hide SectionEvents, ClosedEvents;
      ss := ss0;
      for i := 0 to |calls|
        invariant Shows(st, header, ss)
        invariant PlaceAll(Layout(ss, false), CallAtoms(calls[i..])) ==
                  PlaceAll(Layout(ss0, false), CallAtoms(calls))
      {
        assert calls[i..][1..] == calls[i + 1..];
        ShowsStepped(st, header, ss, Call(calls[i]));
        ShowsClosing(st, header, ss);
        crashed := HandleToolCall(calls[i]);
        if crashed {
          CrashedStays(Layout(ss, true), CallAtoms(calls[i + 1..]));
          return;
        }
        ss := Place(Layout(ss, false), Call(calls[i])).sections;
      }
      crashed := false;
    }

    /** The three parts of a delta in the order the loop body handles them. */
    method HandleDelta(d: C.Message, ghost header: seq<A.Event>, ghost ss0: seq<Section>)
      returns (crashed: bool, ghost ss: seq<Section>)
      requires Shows(st, header, ss0)
      modifies `st
      ensures Layout(ss, crashed) == PlaceAll(Layout(ss0, false), DeltaAtoms(d))
      ensures if crashed then st.out == header + ClosedEvents(ss) else Shows(st, header, ss)
    {
      var reasoningContent, deltaContent := C.ExtractText(d.reasoning), C.ExtractText(d.content);
      DeltaPlaced(Layout(ss0, false), d);
      ss := ss0;
      if reasoningContent != "" {
        ss := HandleText(Think(reasoningContent), header, ss);
      }
      if deltaContent != "" {
        ss := HandleText(Say(deltaContent), header, ss);
      }
      crashed, ss := HandleToolCalls(d.toolCalls, header, ss);
    }

    /** message_start, sent once with the first chunk's id and model. */
    method Begin(c: C.Chunk)
      modifies `st, `started
      ensures started
      ensures st == if old(started) then old(st) else old(st).(out := old(st).out + StartEvents([c]))
    {
      if !started {
        Send(A.MessageStart(Some(A.StartMessage(
          c.id, "message", "assistant", c.model, Some(A.Usage(Some(0), Some(0), None, None))))));
        started := true;
      }
    }

    /** The finish reason and the usage, kept until [DONE]. */
    method Remember(c: C.Chunk)
      modifies `pendingFinishReason, `pendingUsage
      ensures pendingFinishReason ==
        if c.choices != [] && c.choices[0].finishReason != "" then Some(c.choices[0].finishReason)
        else old(pendingFinishReason)
      ensures pendingUsage == if c.usage.Some? then c.usage else old(pendingUsage)
    {
      if |c.choices| > 0 && c.choices[0].finishReason != "" {
        pendingFinishReason := Some(c.choices[0].finishReason);
      }
      if c.usage.Some? {
        pendingUsage := c.usage;
      }
    }

    /** The state after the chunks seen, none of which crashed. */
    ghost predicate Tracks(seen: seq<C.Chunk>)
      reads this
    {
      var l := PlaceAll(NoLayout, Atoms(seen));
      && started == (seen != [])
      && !l.crashed
      && Shows(st, StartEvents(seen), l.sections)
      && pendingFinishReason == AsOption(FinishOf(seen))
      && pendingUsage == UsageOf(seen)
    }

    /** Everything one parsed chunk causes. */
    method HandleChunk(c: C.Chunk, ghost seen: seq<C.Chunk>) returns (crashed: bool)
      requires Tracks(seen)
      modifies this
      ensures !crashed ==> Tracks(seen + [c])
      ensures crashed ==>
        var l := PlaceAll(NoLayout, Atoms(seen + [c]));
        l.crashed && st.out == StartEvents(seen + [c]) + ClosedEvents(l.sections)
    {
      hide Shows, ClosedEvents, PlaceAll, FinishOf, UsageOf, StartEvents, Atoms;
      ghost var ss := PlaceAll(NoLayout, Atoms(seen)).sections;
      ChunkPlaced(seen, c);
      LastRemembered(seen, c);
      ShowsBegin(st, seen, c);
      Begin(c);
      Remember(c);
      crashed := false;
      if |c.choices| > 0 && c.choices[0].delta.Some? {
        crashed, ss := HandleDelta(c.choices[0].delta.value, StartEvents(seen + [c]), ss);
      }
    }

    /** The [DONE] terminator: close the open block, then message_delta and message_stop. */
    method HandleDone(ghost seen: seq<C.Chunk>)
      requires Tracks(seen)
      modifies `st, `pendingFinishReason
      ensures st.out == StartEvents(seen) + ClosedEvents(PlaceAll(NoLayout, Atoms(seen)).sections)
        + DoneEvents(FinishOf(seen), UsageOf(seen))
    {
      hide SectionEvents, ClosedEvents, PlaceAll, FinishOf, UsageOf, StartEvents, Atoms;
      ShowsClosing(st, StartEvents(seen), PlaceAll(NoLayout, Atoms(seen)).sections);
      CloseBlock();
      ghost var closed := st.out;
      if pendingFinishReason.Some? {
        var usage: Option<A.Usage> := None;
        if pendingUsage.Some? {
          usage := Some(MapUsage(pendingUsage.value));
        }
        Send(A.MessageDelta(
          Some(A.StopInfo(Some(MapFinishReason(pendingFinishReason.value)), None)), usage));
        pendingFinishReason := None;
      }
      Send(A.MessageStop);
      assert st.out == closed + DoneEvents(FinishOf(seen), UsageOf(seen));
    }
  }

  lemma LastRemembered(seen: seq<C.Chunk>, c: C.Chunk)
    ensures FinishOf(seen + [c]) ==
      if c.choices != [] && c.choices[0].finishReason != "" then c.choices[0].finishReason else FinishOf(seen)
    ensures UsageOf(seen + [c]) == if c.usage.Some? then c.usage else UsageOf(seen)
  {
    assert (seen + [c])[..|seen|] == seen;
  }

  /** message_start extends the header and leaves the sections as they are. */
  lemma ShowsBegin(st: State, seen: seq<C.Chunk>, c: C.Chunk)
    requires Shows(st, StartEvents(seen), PlaceAll(NoLayout, Atoms(seen)).sections)
    ensures Shows(
      if seen == [] then st.(out := st.out + StartEvents([c])) else st,
      StartEvents(seen + [c]), PlaceAll(NoLayout, Atoms(seen)).sections)
  {
    NothingSeen();
    if seen == [] {
      assert SectionEvents([]) == [];
      assert seen + [c] == [c];
    }
  }

  lemma NothingSeen()
    ensures PlaceAll(NoLayout, Atoms([])) == NoLayout && FinishOf([]) == "" && UsageOf([]) == None
    ensures Shows(State(-1, BlockNone, -1, []), StartEvents([]), [])
  {
  }

  function AsOption(finish: string): Option<string> {
    if finish == "" then None else Some(finish)
  }

  lemma ChunkPlaced(seen: seq<C.Chunk>, c: C.Chunk)
    ensures PlaceAll(NoLayout, Atoms(seen + [c])) == PlaceAll(PlaceAll(NoLayout, Atoms(seen)), AtomsOf(c))
    ensures PlaceAll(PlaceAll(NoLayout, Atoms(seen)), []) == PlaceAll(NoLayout, Atoms(seen))
  {
    hide AtomsOf, Place;
    AtomsAppend(seen, [c]);
    assert Atoms([c]) == AtomsOf(c) + Atoms([]) == AtomsOf(c);
    PlaceAllAppend(NoLayout, Atoms(seen), AtomsOf(c));
  }

  /** The first i items have been read: none was [DONE] and seen are the parsed chunks among them. */
  ghost predicate ReadSoFar(items: seq<C.StreamItem>, i: nat, seen: seq<C.Chunk>) {
    i <= |items| && C.StreamDone !in items[..i] && BeforeDone(items) == seen + BeforeDone(items[i..])
  }

  lemma ReadNext(items: seq<C.StreamItem>, i: nat, seen: seq<C.Chunk>)
    requires i < |items| && ReadSoFar(items, i, seen) && !items[i].StreamDone?
    ensures ReadSoFar(items, i + 1, if items[i].Parsed? then seen + [items[i].chunk] else seen)
  {
    assert items[i..][1..] == items[i + 1..];
    assert items[..i + 1] == items[..i] + [items[i]];
  }

  lemma CrashFinal(items: seq<C.StreamItem>, i: nat, seen: seq<C.Chunk>)
    requires ReadSoFar(items, i, seen) && PlaceAll(NoLayout, Atoms(seen)).crashed
    ensures Output(items) == StartEvents(seen) + ClosedEvents(PlaceAll(NoLayout, Atoms(seen)).sections)
  {
    hide AtomsOf, Place, ClosedEvents;
    assert seen != [];
    var rest := BeforeDone(items[i..]);
    AtomsAppend(seen, rest);
    PlaceAllAppend(NoLayout, Atoms(seen), Atoms(rest));
    CrashedStays(PlaceAll(NoLayout, Atoms(seen)), Atoms(rest));
  }

  lemma DoneFinal(items: seq<C.StreamItem>, i: nat, seen: seq<C.Chunk>)
    requires i < |items| && items[i].StreamDone? && ReadSoFar(items, i, seen)
    requires !PlaceAll(NoLayout, Atoms(seen)).crashed
    ensures Output(items) == StartEvents(seen) + ClosedEvents(PlaceAll(NoLayout, Atoms(seen)).sections)
      + DoneEvents(FinishOf(seen), UsageOf(seen))
  {
    hide PlaceAll, Atoms, ClosedEvents, StartEvents, DoneEvents;
    assert HasDone(items) by {
      assert items[i] in items;
    }
    assert BeforeDone(items[i..]) == [];
    assert BeforeDone(items) == seen;
  }

  lemma EndFinal(items: seq<C.StreamItem>, seen: seq<C.Chunk>)
    requires ReadSoFar(items, |items|, seen)
    requires !PlaceAll(NoLayout, Atoms(seen)).crashed
    ensures Output(items) == StartEvents(seen) + SectionEvents(PlaceAll(NoLayout, Atoms(seen)).sections)
  {
    hide PlaceAll, Atoms, ClosedEvents, SectionEvents, StartEvents, DoneEvents;
    assert items[..|items|] == items && items[|items|..] == [];
    assert BeforeDone(items) == seen;
  }

  /** convertStreamResponse for an uncancelled request: reads the whole input, returns everything sent. */
  method ConvertStream(items: seq<C.StreamItem>) returns (out: seq<A.Event>)
    ensures out == Output(items)
  {
    hide Output, SectionEvents, ClosedEvents, PlaceAll, Atoms, FinishOf, UsageOf, DoneEvents, StartEvents;
    var conv := new Converter();
    ghost var seen: seq<C.Chunk> := [];
    var i := 0;
    assert ReadSoFar(items, 0, seen);
    hide ReadSoFar, BeforeDone;
    while i < |items|
      invariant 0 <= i <= |items|
      invariant fresh(conv) && conv.Tracks(seen) && ReadSoFar(items, i, seen)
    {
      var item := items[i];
      if item.StreamDone? {
        DoneFinal(items, i, seen);
        conv.HandleDone(seen);
        return conv.st.out;
      }
      ReadNext(items, i, seen);
      i := i + 1;
      if item.Parsed? {
        var crashed := conv.HandleChunk(item.chunk, seen);
        seen := seen + [item.chunk];
        if crashed {
          CrashFinal(items, i, seen);
          return conv.st.out;
        }
      }
    }
    EndFinal(items, seen);
    return conv.st.out;
  }
}
