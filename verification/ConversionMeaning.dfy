/**
 What both conversion paths of pkg/engines/converter/claude.go report besides the streamed content, read
 off the input alone: tokens, stop reasons, ids and models, and the blocks of a non-stream response.
 */
module ConversionMeaning {
  import opened Prelude
  import opened Reports
  import C = ChatTypes
  import A = ClaudeTypes
  import opened StreamConverter
  import opened StreamShape

  /** Cached tokens are reported apart and only when there are any; nothing is counted twice or lost. */
  predicate TokensSay(v: A.Usage, u: C.Usage) {
    && v.inputTokens.Some? && v.cacheCreation == None
    && v.inputTokens.value + (if v.cacheRead.Some? then v.cacheRead.value else 0) == u.promptTokens
    && (v.cacheRead.Some? <==> u.promptDetails.Some? && u.promptDetails.value.cachedTokens > 0)
    && (v.cacheRead.Some? ==> v.cacheRead.value == u.promptDetails.value.cachedTokens)
    && v.outputTokens == Some(u.completionTokens)
  }

  predicate ReasonSays(reason: string, finish: string) {
    && (reason == "end_turn" <==> finish == "stop" || finish == "end_turn")
    && (reason == "max_tokens" <==> finish == "length" || finish == "max_tokens")
    && (reason == "tool_use" <==> finish == "tool_calls" || finish == "tool_use")
    && (finish !in {"stop", "length", "tool_calls"} ==> reason == finish)
  }

  // ----- The stream path -----

  /** The parsed chunks among the items. */
  function Chunks(items: seq<C.StreamItem>): seq<C.Chunk> {
    if items == [] then []
    else
      var last := items[|items| - 1];
      Chunks(items[..|items| - 1]) + (if last.Parsed? then [last.chunk] else [])
  }

  /** Only what was parsed before the first [DONE] is read. */
  lemma {:induction false} ReadSays(items: seq<C.StreamItem>, d: nat)
    requires d <= |items| && (d < |items| ==> items[d].StreamDone?)
    requires forall i :: 0 <= i < d ==> !items[i].StreamDone?
    ensures BeforeDone(items) == Chunks(items[..d])
    decreases d
  {
    if d == 0 {
      assert items[..0] == [];
    } else {
      ReadSays(items[1..], d - 1);
      ChunksCons(items[..d]);
      assert items[..d][1..] == items[1..][..d - 1];
    }
  }

  lemma {:induction false} ChunksCons(items: seq<C.StreamItem>)
    requires items != []
    ensures Chunks(items) == (if items[0].Parsed? then [items[0].chunk] else []) + Chunks(items[1..])
    decreases |items|
  {
    var n := |items| - 1;
    if n == 0 {
      assert items[..0] == [] && items[1..] == [];
    } else {
      ChunksCons(items[..n]);
      assert items[..n][1..] == items[1..][..n - 1];
    }
  }

  function FinishIn(c: C.Chunk): string {
    if c.choices == [] then "" else c.choices[0].finishReason
  }

  function Finishes(cs: seq<C.Chunk>): seq<string> {
    seq(|cs|, i requires 0 <= i < |cs| => FinishIn(cs[i]))
  }

  function Usages(cs: seq<C.Chunk>): seq<Option<C.Usage>> {
    seq(|cs|, i requires 0 <= i < |cs| => cs[i].usage)
  }

  /** The message_delta events among those sent. */
  function Finals(es: seq<A.Event>): seq<A.Event> {
    if es == [] then []
    else Finals(es[..|es| - 1]) + (if es[|es| - 1].MessageDelta? then [es[|es| - 1]] else [])
  }

  /** The final event: no stop sequence, the translated finish reason, the last usage if there was one. */
  predicate FinalSays(e: A.Event, finish: string, usage: Option<C.Usage>) {
    && e.MessageDelta? && e.stop.Some? && e.stop.value.stopSequence == None
    && e.stop.value.stopReason.Some? && ReasonSays(e.stop.value.stopReason.value, finish)
    && (e.usage.Some? <==> usage.Some?) && (usage.Some? ==> TokensSay(e.usage.value, usage.value))
  }

  lemma {:induction false} FinalsAppend(a: seq<A.Event>, b: seq<A.Event>)
    ensures Finals(a + b) == Finals(a) + Finals(b)
    decreases |b|
  {
    if b == [] {
      assert a + b == a;
    } else {
      var n := |b| - 1;
      assert (a + b)[..|a + b| - 1] == a + b[..n];
      FinalsAppend(a, b[..n]);
    }
  }

  lemma {:induction false} NoFinals(es: seq<A.Event>)
    requires forall e :: e in es ==> !e.MessageDelta?
    ensures Finals(es) == []
    decreases |es|
  {
    if es != [] {
      NoFinals(es[..|es| - 1]);
    }
  }

  lemma {:induction false} DeltaEventsAre(k: int, ds: seq<A.ContentDelta>)
    ensures forall e :: e in DeltaEvents(k, ds) ==> !e.MessageDelta?
    decreases |ds|
  {
    if ds != [] {
      DeltaEventsAre(k, ds[..|ds| - 1]);
    }
  }

  lemma {:induction false} ClosedEventsAre(ss: seq<Section>)
    ensures forall e :: e in ClosedEvents(ss) ==> !e.MessageDelta?
    decreases |ss|
  {
    hide DeltaEvents;
    if ss != [] {
      var n := |ss| - 1;
      ClosedEventsAre(ss[..n]);
      DeltaEventsAre(n, ss[n].deltas);
    }
  }

  lemma SectionEventsAre(ss: seq<Section>)
    ensures forall e :: e in SectionEvents(ss) ==> !e.MessageDelta?
  {
    hide DeltaEvents, ClosedEvents;
    if ss != [] {
      var n := |ss| - 1;
      ClosedEventsAre(ss[..n]);
      DeltaEventsAre(n, ss[n].deltas);
    }
  }

  lemma {:induction false} LastReports(cs: seq<C.Chunk>)
    ensures FinishOf(cs) == LastNonEmpty(Finishes(cs)) && UsageOf(cs) == LastSome(Usages(cs))
    decreases |cs|
  {
    hide LastNonEmpty, LastSome;
    if cs == [] {
      NothingReported();
    } else {
      var init, c := cs[..|cs| - 1], cs[|cs| - 1];
      LastReports(init);
      assert Finishes(cs) == Finishes(init) + [FinishIn(c)] && Usages(cs) == Usages(init) + [c.usage];
      LastSnoc(Finishes(init), FinishIn(c));
      LastSomeSnoc(Usages(init), c.usage);
    }
  }

  lemma NothingReported()
    ensures LastNonEmpty(Finishes([])) == "" && LastSome(Usages([])) == None
  {
  }

  lemma DoneSays(finish: string, usage: Option<C.Usage>)
    ensures var sent := Finals(DoneEvents(finish, usage));
      if finish == "" then sent == [] else |sent| == 1 && FinalSays(sent[0], finish, usage)
  {
    var es := DoneEvents(finish, usage);
    if finish == "" {
      NoFinals(es);
    } else {
      assert es == [es[0]] + [A.MessageStop];
      FinalsAppend([es[0]], [A.MessageStop]);
      assert [es[0]][..0] == [] && [A.MessageStop][..0] == [];
    }
  }

  /**
   For every input, complete, cut short or crashed: a message_delta is sent at most once, exactly when
   [DONE] was read, no block-opening fragment lacked its function and a finish reason was seen; it carries
   the translation of the last finish reason and the tokens of the last usage.
   */
  lemma StreamEndSays(items: seq<C.StreamItem>)
    ensures var cs, sent := BeforeDone(items), Finals(Output(items));
      var finish := LastNonEmpty(Finishes(cs));
      if HasDone(items) && !Crashes(Atoms(cs)) && finish != ""
      then |sent| == 1 && FinalSays(sent[0], finish, LastSome(Usages(cs)))
      else sent == []
  {
    hide PlaceAll, Atoms, BeforeDone, ClosedEvents, SectionEvents, DoneEvents, Finals, Crashes, BlockCount, Follows,
      FinalSays, FinishOf, UsageOf, LastNonEmpty, LastSome;
    var cs := BeforeDone(items);
    var ss := PlaceAll(NoLayout, Atoms(cs)).sections;
    BlocksByInput(Atoms(cs));
    LastReports(cs);
    NoFinals(StartEvents(cs));
    ClosedEventsAre(ss);
    NoFinals(ClosedEvents(ss));
    SectionEventsAre(ss);
    NoFinals(SectionEvents(ss));
    FinalsAppend(StartEvents(cs), ClosedEvents(ss));
    FinalsAppend(StartEvents(cs), SectionEvents(ss));
    FinalsAppend(StartEvents(cs) + ClosedEvents(ss), DoneEvents(FinishOf(cs), UsageOf(cs)));
    DoneSays(FinishOf(cs), UsageOf(cs));
  }

  /** The stream opens with the first chunk's id and model and a placeholder usage. */
  lemma StreamStartSays(items: seq<C.StreamItem>)
    requires BeforeDone(items) != []
    ensures Output(items) != [] && Output(items)[0].MessageStart? && Output(items)[0].message.Some?
    ensures var m, first := Output(items)[0].message.value, BeforeDone(items)[0];
      && m.id == first.id && m.model == first.model && m.typ == "message" && m.role == "assistant"
      && m.usage == Some(A.Usage(Some(0), Some(0), None, None))
  {
    hide PlaceAll, Atoms, BeforeDone, ClosedEvents, SectionEvents, DoneEvents, FinishOf, UsageOf;
    assert StartEvents(BeforeDone(items)) == [StartEvents(BeforeDone(items))[0]];
  }

  // ----- The non-stream path -----

  function WithFunction(calls: seq<C.ToolCall>): seq<C.ToolCall> {
    if calls == [] then []
    else
      var last := calls[|calls| - 1];
      WithFunction(calls[..|calls| - 1]) + (if last.function_.Some? then [last] else [])
  }

  predicate CallBlockSays(b: A.Block, call: C.ToolCall) {
    call.function_.Some? && b == A.ToolUseBlock(call.id, call.function_.value.name, call.function_.value.arguments)
  }

  /** Reasoning if present, then text if any, then one block for every call that has a function, in order. */
  predicate BlocksSay(blocks: seq<A.Block>, m: C.Message) {
    var thinking := if m.reasoning.Absent? then 0 else 1;
    var text := if C.ExtractText(m.content) == "" then 0 else 1;
    var calls := WithFunction(m.toolCalls);
    && |blocks| == thinking + text + |calls|
    && (thinking == 1 ==> blocks[0] == A.ThinkingBlock(C.ExtractText(m.reasoning), ""))
    && (text == 1 ==> blocks[thinking] == A.TextBlock(C.ExtractText(m.content)))
    && forall j :: 0 <= j < |calls| ==> CallBlockSays(blocks[thinking + text + j], calls[j])
  }

  lemma {:induction false} CallsSay(calls: seq<C.ToolCall>)
    ensures |ConvertToolCalls(calls)| == |WithFunction(calls)|
    ensures forall j :: 0 <= j < |WithFunction(calls)| ==>
      CallBlockSays(ConvertToolCalls(calls)[j], WithFunction(calls)[j])
    decreases |calls|
  {
    if calls != [] {
      var n := |calls| - 1;
      CallsSay(calls[..n]);
      OneCall(calls, n);
      assert calls[..n + 1] == calls;
    }
  }

  lemma MessageSays(m: C.Message)
    ensures BlocksSay(ConvertMessage(m), m)
  {
    hide C.PartsText, ConvertToolCalls, WithFunction;
    CallsSay(m.toolCalls);
  }

  /** Every field of a converted response, for every response. */
  lemma NonStreamSays(r: C.Response)
    ensures var resp := ConvertResponse(r);
      && resp.id == r.id && resp.model == r.model && resp.typ == "message" && resp.role == "assistant"
      && resp.stopSequence == None
      && (resp.usage.Some? <==> r.usage.Some?) && (r.usage.Some? ==> TokensSay(resp.usage.value, r.usage.value))
      && (if r.choices == [] then resp.stopReason == "" else ReasonSays(resp.stopReason, r.choices[0].finishReason))
      && (if r.choices == [] || r.choices[0].message.None? then resp.content == []
          else BlocksSay(resp.content, r.choices[0].message.value))
  {
    hide ConvertMessage, BlocksSay;
    if r.choices != [] && r.choices[0].message.Some? {
      MessageSays(r.choices[0].message.value);
    }
  }
}
