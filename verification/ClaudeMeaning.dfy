/**
 What a merged Claude response says, read off the events alone (pkg/streammerge/claude.go:46-225), for
 every stream that is accepted: native ones with signatures, stop sequences and cache-creation counts
 included.
 */
module ClaudeMeaning {
  import opened Prelude
  import opened Reports
  import A = ClaudeTypes
  import opened ClaudeMerger

  // ----- What the events say about block k -----

  predicate StartsBlock(e: A.Event, k: nat) {
    e.BlockStart? && (if e.index.Some? then e.index.value else 0) == k
  }

  predicate AddsTo(e: A.Event, k: nat) {
    e.BlockDelta? && e.delta.Some? && (if e.index.Some? then e.index.value else 0) == k
  }

  /** The block announced by the last start of block k. */
  function Announced(es: seq<A.Event>, k: nat): Option<A.Block> {
    if es == [] then None
    else if StartsBlock(es[|es| - 1], k) then es[|es| - 1].block
    else Announced(es[..|es| - 1], k)
  }

  /** The deltas sent to block k since its last start. */
  function Since(es: seq<A.Event>, k: nat): seq<A.ContentDelta> {
    if es == [] then []
    else
      var last := es[|es| - 1];
      if StartsBlock(last, k) then []
      else Since(es[..|es| - 1], k) + (if AddsTo(last, k) then [last.delta.value] else [])
  }

  function Texts(ds: seq<A.ContentDelta>): seq<string> {
    seq(|ds|, i requires 0 <= i < |ds| => if ds[i].TextDelta? then ds[i].text else "")
  }

  function Thinkings(ds: seq<A.ContentDelta>): seq<string> {
    seq(|ds|, i requires 0 <= i < |ds| => if ds[i].ThinkingDelta? then ds[i].thinking else "")
  }

  function Signatures(ds: seq<A.ContentDelta>): seq<string> {
    seq(|ds|, i requires 0 <= i < |ds| => if ds[i].SignatureDelta? then ds[i].signature else "")
  }

  function Inputs(ds: seq<A.ContentDelta>): seq<string> {
    seq(|ds|, i requires 0 <= i < |ds| => if ds[i].InputJsonDelta? then ds[i].partialJson else "")
  }

  /** The final form of a block: id and name from its start, everything else joined from the deltas. */
  predicate BlockSays(b: A.Block, start: A.Block, ds: seq<A.ContentDelta>) {
    match start
    case TextBlock(_) => b == A.TextBlock(Concat(Texts(ds)))
    case ThinkingBlock(_, _) => b == A.ThinkingBlock(Concat(Thinkings(ds)), Concat(Signatures(ds)))
    case ToolUseBlock(id, name, _) =>
      b == A.ToolUseBlock(id, name, if Concat(Inputs(ds)) == "" then "{}" else Concat(Inputs(ds)))
    case OtherBlock(_) => b == start
  }

  // ----- Blocks -----

  lemma DeltaSnoc(ds: seq<A.ContentDelta>, d: A.ContentDelta)
    ensures Concat(Texts(ds + [d])) == Concat(Texts(ds)) + (if d.TextDelta? then d.text else "")
    ensures Concat(Thinkings(ds + [d])) == Concat(Thinkings(ds)) + (if d.ThinkingDelta? then d.thinking else "")
    ensures Concat(Signatures(ds + [d])) == Concat(Signatures(ds)) + (if d.SignatureDelta? then d.signature else "")
    ensures Concat(Inputs(ds + [d])) == Concat(Inputs(ds)) + (if d.InputJsonDelta? then d.partialJson else "")
  {
    hide Concat;
    var text := if d.TextDelta? then d.text else "";
    var thinking := if d.ThinkingDelta? then d.thinking else "";
    var signature := if d.SignatureDelta? then d.signature else "";
    var input := if d.InputJsonDelta? then d.partialJson else "";
    assert Texts(ds + [d]) == Texts(ds) + [text] && Thinkings(ds + [d]) == Thinkings(ds) + [thinking];
    assert Signatures(ds + [d]) == Signatures(ds) + [signature] && Inputs(ds + [d]) == Inputs(ds) + [input];
    ConcatSnoc(Texts(ds), text);
    ConcatSnoc(Thinkings(ds), thinking);
    ConcatSnoc(Signatures(ds), signature);
    ConcatSnoc(Inputs(ds), input);
  }

  /** The accumulator of a block after its deltas. */
  predicate AccSays(a: Acc, start: A.Block, ds: seq<A.ContentDelta>) {
    match start
    case TextBlock(_) => a == TextAcc(Concat(Texts(ds)))
    case ThinkingBlock(_, _) => a == ThinkingAcc(Concat(Thinkings(ds)), Concat(Signatures(ds)))
    case ToolUseBlock(id, name, _) => a == ToolAcc(id, name, Concat(Inputs(ds)))
    case OtherBlock(_) => a == PassAcc(start)
  }

  lemma NewSays(start: A.Block)
    ensures NewAcc(Some(start)).Some? && AccSays(NewAcc(Some(start)).value, start, [])
    ensures NewAcc(None) == None
  {
    assert Texts([]) == [] && Thinkings([]) == [] && Signatures([]) == [] && Inputs([]) == [];
    assert Concat([]) == "";
  }

  lemma DeltaSays(a: Acc, start: A.Block, ds: seq<A.ContentDelta>, d: A.ContentDelta)
    requires AccSays(a, start, ds)
    ensures AccSays(ApplyDelta(a, d), start, ds + [d])
  {
    hide Concat, Texts, Thinkings, Signatures, Inputs;
    DeltaSnoc(ds, d);
  }

  /** Block k of the merger's state is what the events say about it. */
  predicate SlotSays(slot: Option<Acc>, start: Option<A.Block>, ds: seq<A.ContentDelta>) {
    match slot
    case None => start == None
    case Some(a) => start.Some? && AccSays(a, start.value, ds)
  }

  function Slot(st: State, k: nat): Option<Acc> {
    if k < |st.blocks| then st.blocks[k] else None
  }

  lemma SlotStep(st: State, e: A.Event, es: seq<A.Event>, k: nat)
    requires Step(st, e).1 == Accepted
    requires SlotSays(Slot(st, k), Announced(es, k), Since(es, k))
    ensures SlotSays(Slot(Step(st, e).0, k), Announced(es + [e], k), Since(es + [e], k))
  {
    hide AccSays, ApplyDelta, NewAcc, MergeUsage;
    var longer := es + [e];
    assert longer[..|es|] == es && longer[|es|] == e;
    assert Since(es, k) + [] == Since(es, k);
    match e {
      case BlockStart(index, b) =>
        StartSlot(st, e, k);
        if b.Some? {
          NewSays(b.value);
        } else {
          NewSays(A.TextBlock(""));
        }
      case BlockDelta(index, d) =>
        if AddsTo(e, k) {
          DeltaSays(st.blocks[k].value, Announced(es, k).value, Since(es, k), d.value);
        }
      case _ =>
    }
  }

  lemma StartSlot(st: State, e: A.Event, k: nat)
    requires e.BlockStart? && Step(st, e).1 == Accepted
    ensures Slot(Step(st, e).0, k) == if StartsBlock(e, k) then NewAcc(e.block) else Slot(st, k)
  {
    hide NewAcc;
  }

  lemma {:induction false} SlotsSay(es: seq<A.Event>, k: nat)
    requires Run(Fresh, es).1 == Accepted
    ensures SlotSays(Slot(Run(Fresh, es).0, k), Announced(es, k), Since(es, k))
    decreases |es|
  {
    hide Step, SlotSays, Announced, Since;
    if es == [] {
      NothingSays(k);
    } else {
      var init, e := es[..|es| - 1], es[|es| - 1];
      assert es == init + [e];
      SlotsSay(init, k);
      SlotStep(Run(Fresh, init).0, e, init, k);
    }
  }

  lemma NothingSays(k: nat)
    ensures SlotSays(Slot(Fresh, k), Announced([], k), Since([], k))
  {
  }

  /** The block indices below n that were announced, in order. */
  function Held(es: seq<A.Event>, n: nat): seq<nat> {
    if n == 0 then [] else Held(es, n - 1) + (if Announced(es, n - 1).Some? then [n - 1] else [])
  }

  /** The content: one block for each of these indices, saying what the events say about it. */
  predicate ContentSays(content: seq<A.Block>, es: seq<A.Event>, n: nat) {
    |content| == |Held(es, n)| && forall j :: 0 <= j < |content| ==> EntrySays(content[j], es, Held(es, n)[j])
  }

  predicate EntrySays(b: A.Block, es: seq<A.Event>, k: nat) {
    Announced(es, k).Some? && BlockSays(b, Announced(es, k).value, Since(es, k))
  }

  lemma {:induction false} ContentBuilt(blocks: seq<Option<Acc>>, es: seq<A.Event>)
    requires forall k :: 0 <= k < |blocks| ==> SlotSays(blocks[k], Announced(es, k), Since(es, k))
    ensures ContentSays(Content(blocks), es, |blocks|)
    decreases |blocks|
  {
    hide BlockSays, Build, Announced, Since, SlotSays;
    if blocks != [] {
      var n := |blocks| - 1;
      ContentBuilt(blocks[..n], es);
      BuildSays(blocks[n], es, n);
    }
  }

  lemma BuildSays(slot: Option<Acc>, es: seq<A.Event>, k: nat)
    requires SlotSays(slot, Announced(es, k), Since(es, k))
    ensures slot.Some? <==> Announced(es, k).Some?
    ensures slot.Some? ==> EntrySays(Build(slot.value), es, k)
  {
    hide Concat;
  }

  // ----- Header, stop fields and usage -----

  function StartIn(e: A.Event): A.StartMessage {
    if e.MessageStart? && e.message.Some? then e.message.value else A.StartMessage("", "", "", "", None)
  }

  function StopIn(e: A.Event): A.StopInfo {
    if e.MessageDelta? && e.stop.Some? then e.stop.value else A.StopInfo(None, None)
  }

  function UsageIn(e: A.Event): Option<A.Usage> {
    match e
    case MessageStart(Some(m)) => m.usage
    case MessageDelta(_, u) => u
    case _ => None
  }

  datatype Count = Input | Output | CacheCreation | CacheRead

  function CountOf(c: Count, u: Option<A.Usage>): Option<int> {
    match (c, u)
    case (_, None) => None
    case (Input, Some(v)) => v.inputTokens
    case (Output, Some(v)) => v.outputTokens
    case (CacheCreation, Some(v)) => v.cacheCreation
    case (CacheRead, Some(v)) => v.cacheRead
  }

  function Counts(c: Count, es: seq<A.Event>): seq<Option<int>> {
    seq(|es|, i requires 0 <= i < |es| => CountOf(c, UsageIn(es[i])))
  }

  function Reasons(es: seq<A.Event>): seq<Option<string>> {
    seq(|es|, i requires 0 <= i < |es| => StopIn(es[i]).stopReason)
  }

  function Sequences(es: seq<A.Event>): seq<Option<string>> {
    seq(|es|, i requires 0 <= i < |es| => StopIn(es[i]).stopSequence)
  }

  function Ids(es: seq<A.Event>): seq<string> {
    seq(|es|, i requires 0 <= i < |es| => StartIn(es[i]).id)
  }

  function Types(es: seq<A.Event>): seq<string> {
    seq(|es|, i requires 0 <= i < |es| => StartIn(es[i]).typ)
  }

  function Roles(es: seq<A.Event>): seq<string> {
    seq(|es|, i requires 0 <= i < |es| => StartIn(es[i]).role)
  }

  function Models(es: seq<A.Event>): seq<string> {
    seq(|es|, i requires 0 <= i < |es| => StartIn(es[i]).model)
  }

  predicate Reported(es: seq<A.Event>) {
    exists i :: 0 <= i < |es| && UsageIn(es[i]).Some?
  }

  predicate HeadSays(r: A.Response, es: seq<A.Event>) {
    && r.id == LastNonEmpty(Ids(es)) && r.typ == LastNonEmpty(Types(es))
    && r.role == LastNonEmpty(Roles(es)) && r.model == LastNonEmpty(Models(es))
  }

  predicate StopSays(r: A.Response, es: seq<A.Event>) {
    && r.stopReason == (if LastSome(Reasons(es)).Some? then LastSome(Reasons(es)).value else "")
    && r.stopSequence == LastSome(Sequences(es))
  }

  predicate UsageSays(r: A.Response, es: seq<A.Event>) {
    (r.usage.Some? <==> Reported(es)) && forall c :: CountOf(c, r.usage) == LastSome(Counts(c, es))
  }

  lemma HeadStep(st: State, e: A.Event, es: seq<A.Event>)
    requires HeadSays(st.response, es)
    ensures HeadSays(Step(st, e).0.response, es + [e])
  {
    hide LastNonEmpty, MergeUsage, ApplyDelta, NewAcc, Padded;
    var longer := es + [e];
    assert Ids(longer) == Ids(es) + [StartIn(e).id] && Types(longer) == Types(es) + [StartIn(e).typ];
    assert Roles(longer) == Roles(es) + [StartIn(e).role] && Models(longer) == Models(es) + [StartIn(e).model];
    LastSnoc(Ids(es), StartIn(e).id);
    LastSnoc(Types(es), StartIn(e).typ);
    LastSnoc(Roles(es), StartIn(e).role);
    LastSnoc(Models(es), StartIn(e).model);
  }

  lemma StopStep(st: State, e: A.Event, es: seq<A.Event>)
    requires StopSays(st.response, es)
    ensures StopSays(Step(st, e).0.response, es + [e])
  {
    hide LastSome, MergeUsage, ApplyDelta, NewAcc, Padded;
    var longer := es + [e];
    assert Reasons(longer) == Reasons(es) + [StopIn(e).stopReason];
    assert Sequences(longer) == Sequences(es) + [StopIn(e).stopSequence];
    LastSomeSnoc(Reasons(es), StopIn(e).stopReason);
    LastSomeSnoc(Sequences(es), StopIn(e).stopSequence);
  }

  lemma CountMerged(c: Count, dst: Option<A.Usage>, src: Option<A.Usage>)
    ensures CountOf(c, MergeUsage(dst, src)) == if CountOf(c, src).Some? then CountOf(c, src) else CountOf(c, dst)
    ensures MergeUsage(dst, src).Some? <==> dst.Some? || src.Some?
  {
  }

  lemma UsageMoves(st: State, e: A.Event)
    ensures Step(st, e).0.response.usage == MergeUsage(st.response.usage, UsageIn(e))
  {
    hide ApplyDelta, NewAcc, Padded;
  }

  lemma UsageStep(st: State, e: A.Event, es: seq<A.Event>)
    requires UsageSays(st.response, es)
    ensures UsageSays(Step(st, e).0.response, es + [e])
  {
    hide LastSome, MergeUsage, Step, CountOf, UsageIn;
    var longer := es + [e];
    UsageMoves(st, e);
    CountMerged(Input, st.response.usage, UsageIn(e));
    assert longer[|es|] == e && forall i :: 0 <= i < |es| ==> longer[i] == es[i];
    assert Reported(longer) <==> Reported(es) || UsageIn(e).Some?;
    forall c ensures CountOf(c, Step(st, e).0.response.usage) == LastSome(Counts(c, longer)) {
      assert Counts(c, longer) == Counts(c, es) + [CountOf(c, UsageIn(e))];
      LastSomeSnoc(Counts(c, es), CountOf(c, UsageIn(e)));
      CountMerged(c, st.response.usage, UsageIn(e));
    }
  }

  lemma {:induction false} ReportsSay(es: seq<A.Event>)
    requires Run(Fresh, es).1 == Accepted
    ensures var r := Run(Fresh, es).0.response; HeadSays(r, es) && StopSays(r, es) && UsageSays(r, es)
    decreases |es|
  {
    hide Step, HeadSays, StopSays, UsageSays;
    if es == [] {
      NoReports();
    } else {
      var init, e := es[..|es| - 1], es[|es| - 1];
      assert es == init + [e];
      ReportsSay(init);
      var st := Run(Fresh, init).0;
      HeadStep(st, e, init);
      StopStep(st, e, init);
      UsageStep(st, e, init);
    }
  }

  lemma NoReports()
    ensures HeadSays(NoResponse, []) && StopSays(NoResponse, []) && UsageSays(NoResponse, [])
  {
  }

  // ----- Errors -----

  /** Deltas to a block that was not announced. */
  predicate Stray(es: seq<A.Event>, i: nat)
    requires i < |es|
  {
    es[i].BlockDelta? &&
    var k := if es[i].index.Some? then es[i].index.value else 0;
    k < 0 || Announced(es[..i], k).None?
  }

  predicate Negative(e: A.Event) {
    e.BlockStart? && e.index.Some? && e.index.value < 0
  }

  /** An event is not accepted exactly when it is a stray delta, rejected, or a negative start, a panic. */
  lemma NextAccepted(es: seq<A.Event>, e: A.Event)
    requires Run(Fresh, es).1 == Accepted
    ensures var o := Step(Run(Fresh, es).0, e).1;
      (o == Rejected <==> Stray(es + [e], |es|)) && (o == Panicked <==> Negative(e))
  {
    hide ApplyDelta, NewAcc, MergeUsage, Run, AccSays, Announced, Since;
    assert (es + [e])[..|es|] == es;
    if e.BlockDelta? {
      var k := if e.index.Some? then e.index.value else 0;
      if k >= 0 {
        SlotsSay(es, k);
      }
    }
  }

  /** Every event accepted so far: no stray delta and no negative start among them. */
  lemma {:induction false} AcceptedExactly(es: seq<A.Event>)
    ensures Run(Fresh, es).1 == Accepted <==> forall i :: 0 <= i < |es| ==> !Stray(es, i) && !Negative(es[i])
    decreases |es|
  {
    hide Step, Stray, Negative;
    if es != [] {
      var init, e := es[..|es| - 1], es[|es| - 1];
      assert es == init + [e];
      AcceptedExactly(init);
      forall i | 0 <= i < |init| ensures Stray(es, i) == Stray(init, i) && es[i] == init[i] {
        StrayPrefix(es, i);
      }
      if Run(Fresh, init).1 == Accepted {
        NextAccepted(init, e);
      }
    }
  }

  lemma StrayPrefix(es: seq<A.Event>, i: nat)
    requires i < |es| - 1
    ensures Stray(es, i) == Stray(es[..|es| - 1], i)
  {
    hide Announced;
    assert es[..|es| - 1][..i] == es[..i];
  }

  /**
   For every accepted stream: the merged response carries the last reported id, type, role, model, stop
   reason, stop sequence and token counts, and its content is one block for every announced index, in
   order, joined from the deltas sent to it since its last start.
   */
  lemma ResponseSays(es: seq<A.Event>)
    requires Run(Fresh, es).1 == Accepted
    ensures var st := Run(Fresh, es).0;
      && HeadSays(st.response, es) && StopSays(st.response, es) && UsageSays(st.response, es)
      && ContentSays(Content(st.blocks), es, |st.blocks|)
      && (forall k: nat :: k >= |st.blocks| ==> Announced(es, k).None?)
  {
    hide Run, HeadSays, StopSays, UsageSays, ContentSays, Announced, Since, AccSays;
    ReportsSay(es);
    var blocks := Run(Fresh, es).0.blocks;
    forall k: nat
      ensures k < |blocks| ==> SlotSays(blocks[k], Announced(es, k), Since(es, k))
      ensures k >= |blocks| ==> Announced(es, k).None?
    {
      SlotsSay(es, k);
    }
    ContentBuilt(blocks, es);
  }
}
