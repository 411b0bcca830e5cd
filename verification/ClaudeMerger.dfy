/**
 The Claude stream merger of pkg/streammerge/claude.go: folds message events back into one response.
 Merging is shown to undo the rendering of sections as events.
 */
module ClaudeMerger {
  import opened Prelude
  import A = ClaudeTypes

  /** The accumulator of one content block. */
  datatype Acc =
    | TextAcc(text: string)
    | ThinkingAcc(text: string, signature: string)
    | ToolAcc(id: string, name: string, input: string)
    | PassAcc(block: A.Block)

  datatype State = State(response: A.Response, blocks: seq<Option<Acc>>)

  /** Panicked: a content_block_start with a negative index. */
  datatype Outcome = Accepted | Rejected | Panicked

  const NoResponse := A.Response("", "", "", [], "", "", None, None)

  const Fresh := State(NoResponse, [])

  function BlockIndex(index: Option<int>): int {
    if index.Some? then index.value else 0
  }

  function NewAcc(b: Option<A.Block>): Option<Acc> {
    match b
    case None => None
    case Some(TextBlock(_)) => Some(TextAcc(""))
    case Some(ThinkingBlock(_, _)) => Some(ThinkingAcc("", ""))
    case Some(ToolUseBlock(id, name, _)) => Some(ToolAcc(id, name, ""))
    case Some(OtherBlock(_)) => Some(PassAcc(b.value))
  }

  function ApplyDelta(a: Acc, d: A.ContentDelta): Acc {
    match (a, d)
    case (TextAcc(t), TextDelta(s)) => TextAcc(t + s)
    case (ThinkingAcc(t, g), ThinkingDelta(s)) => ThinkingAcc(t + s, g)
    case (ThinkingAcc(t, g), SignatureDelta(s)) => ThinkingAcc(t, g + s)
    case (ToolAcc(id, n, i), InputJsonDelta(s)) => ToolAcc(id, n, i + s)
    case _ => a
  }

  function Build(a: Acc): A.Block {
    match a
    case TextAcc(t) => A.TextBlock(t)
    case ThinkingAcc(t, g) => A.ThinkingBlock(t, g)
    case ToolAcc(id, n, i) => A.ToolUseBlock(id, n, if i == "" then "{}" else i)
    case PassAcc(b) => b
  }

  function Overlay(dst: Option<int>, src: Option<int>): Option<int> {
    if src.Some? then src else dst
  }

  function MergeUsage(dst: Option<A.Usage>, src: Option<A.Usage>): Option<A.Usage> {
    match (dst, src)
    case (_, None) => dst
    case (None, Some(_)) => src
    case (Some(d), Some(s)) =>
      Some(A.Usage(
        Overlay(d.inputTokens, s.inputTokens), Overlay(d.outputTokens, s.outputTokens),
        Overlay(d.cacheCreation, s.cacheCreation), Overlay(d.cacheRead, s.cacheRead)))
  }

  function NonEmpty(dst: string, src: string): string {
    if src != "" then src else dst
  }

  function Padded(blocks: seq<Option<Acc>>, length: int): seq<Option<Acc>> {
    if |blocks| < length then blocks + seq(length - |blocks|, _ => None) else blocks
  }

  function Step(st: State, e: A.Event): (State, Outcome) {
    var r := st.response;
    match e
    case MessageStart(Some(m)) =>
      (st.(response := r.(id := NonEmpty(r.id, m.id), typ := NonEmpty(r.typ, m.typ),
                          role := NonEmpty(r.role, m.role), model := NonEmpty(r.model, m.model),
                          usage := MergeUsage(r.usage, m.usage))), Accepted)
    case BlockStart(index, b) =>
      var k := BlockIndex(index);
      if k < 0 then (st, Panicked)
      else (st.(blocks := Padded(st.blocks, k + 1)[k := NewAcc(b)]), Accepted)
    case BlockDelta(index, d) =>
      var k := BlockIndex(index);
      if k < 0 || k >= |st.blocks| || st.blocks[k].None? then (st, Rejected)
      else if d.None? then (st, Accepted)
      else (st.(blocks := st.blocks[k := Some(ApplyDelta(st.blocks[k].value, d.value))]), Accepted)
    case MessageDelta(stop, usage) =>
      (st.(response := r.(
        stopReason := if stop.Some? && stop.value.stopReason.Some? then stop.value.stopReason.value else r.stopReason,
        stopSequence := if stop.Some? && stop.value.stopSequence.Some? then stop.value.stopSequence else r.stopSequence,
        usage := MergeUsage(r.usage, usage))), Accepted)
    case _ => (st, Accepted)
  }

  function StepItem(st: State, item: A.StreamItem): (State, Outcome) {
    match item
    case Parsed(e) => Step(st, e)
    case StreamDone => (st, Accepted)
    case ParseError => (st, Rejected)
    case ForeignType => (st, Accepted)
  }

  function Content(blocks: seq<Option<Acc>>): seq<A.Block> {
    if blocks == [] then []
    else
      Content(blocks[..|blocks| - 1]) +
      (match blocks[|blocks| - 1] case None => [] case Some(a) => [Build(a)])
  }

  /** claudeMessagesMerger: Merge once per event, then Merged. */
  class Merger {
    var response: A.Response
    var blocks: seq<Option<Acc>>
    var finalized: bool

    constructor ()
      ensures Now() == Fresh && !finalized
    {
      response, blocks, finalized := NoResponse, [], false;
    }

    ghost function Now(): State
      reads this
    {
      State(response, blocks)
    }

    method Merge(item: A.StreamItem) returns (o: Outcome)
      modifies `response, `blocks
      ensures (Now(), o) == StepItem(old(Now()), item)
    {
      if !item.Parsed? {
        return if item.ParseError? then Rejected else Accepted;
      }
      match item.event {
        case MessageStart(Some(m)) =>
          if m.id != "" { response := response.(id := m.id); }
          if m.typ != "" { response := response.(typ := m.typ); }
          if m.role != "" { response := response.(role := m.role); }
          if m.model != "" { response := response.(model := m.model); }
          response := response.(usage := MergeUsage(response.usage, m.usage));
        case BlockStart(index, b) =>
          var k := BlockIndex(index);
          ghost var before := blocks;
          while |blocks| <= k
            invariant |before| <= |blocks| <= Max(|before|, k + 1)
            invariant blocks == Padded(before, |blocks|) && response == old(response)
          {
            blocks := blocks + [None];
          }
          assert blocks == Padded(before, k + 1);
          if k < 0 {
            return Panicked;
          }
          blocks := blocks[k := NewAcc(b)];
        case BlockDelta(index, d) =>
          var k := BlockIndex(index);
          if k < 0 || k >= |blocks| || blocks[k].None? {
            return Rejected;
          }
          if d.Some? {
            blocks := blocks[k := Some(ApplyDelta(blocks[k].value, d.value))];
          }
        case MessageDelta(stop, usage) =>
          if stop.Some? {
            if stop.value.stopReason.Some? {
              response := response.(stopReason := stop.value.stopReason.value);
            }
            if stop.value.stopSequence.Some? {
              response := response.(stopSequence := stop.value.stopSequence);
            }
          }
          response := response.(usage := MergeUsage(response.usage, usage));
        case _ =>
      }
      return Accepted;
    }

    method Merged() returns (r: A.Response)
      modifies `response, `finalized
      ensures finalized && r == response
      ensures response == if old(finalized) then old(response) else old(response).(content := Content(blocks))
    {
      if !finalized {
        finalized := true;
        var content: seq<A.Block> := [];
        for i := 0 to |blocks|
          invariant content == Content(blocks[..i])
          invariant response == old(response) && finalized
        {
          assert blocks[..i + 1][..i] == blocks[..i];
          if blocks[i].Some? {
            content := content + [Build(blocks[i].value)];
          }
        }
        assert blocks[..|blocks|] == blocks;
        response := response.(content := content);
      }
      return response;
    }
  }

  // ----- Whole runs -----

  /** All events merged in order; stops at the first one that is not accepted. */
  function Run(st: State, es: seq<A.Event>): (State, Outcome) {
    if es == [] then (st, Accepted)
    else
      var (mid, o) := Run(st, es[..|es| - 1]);
      if o == Accepted then Step(mid, es[|es| - 1]) else (mid, o)
  }

  lemma {:induction false} RunAppend(st: State, a: seq<A.Event>, b: seq<A.Event>)
    requires Run(st, a).1 == Accepted
    ensures Run(st, a + b) == Run(Run(st, a).0, b)
    decreases |b|
  {
    if b == [] {
      assert a + b == a;
    } else {
      var n := |b| - 1;
      assert (a + b)[..|a + b| - 1] == a + b[..n];
      RunAppend(st, a, b[..n]);
    }
  }

  lemma RunOne(st: State, e: A.Event)
    ensures Run(st, [e]) == Step(st, e)
  {
    assert [e][..0] == [];
    assert Run(st, []) == (st, Accepted);
  }
}
