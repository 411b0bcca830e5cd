/**
 What a Claude client may rely on in the converted stream (pkg/engines/converter/claude.go:408-752):
 the event grammar, the kinds of the deltas and the order of the content.
 */
module StreamShape {
  import opened Prelude
  import C = ChatTypes
  import A = ClaudeTypes
  import opened StreamConverter

  /**
   The event grammar as a recognizer: message_start; blocks numbered 0, 1, 2, ..., each opened, fed and
   closed before the next; at most one message_delta; message_stop.
   strict also asks that every delta fits the kind of the block it is sent into.
   */
  datatype Phase =
    | Before
    | Idle(next: nat)
    | InBlock(index: nat, kind: Kind)
    | Summed(blocks: nat)
    | Ended(blocks: nat, summed: bool)
    | Bad

  function KindOf(b: A.Block): Option<Kind> {
    match b
    case TextBlock(_) => Some(Text)
    case ThinkingBlock(_, _) => Some(Thinking)
    case ToolUseBlock(_, _, _) => Some(Tool)
    case OtherBlock(_) => None
  }

  predicate Fits(k: Kind, d: A.ContentDelta) {
    match d
    case TextDelta(_) => k == Text
    case ThinkingDelta(_) => k == Thinking
    case SignatureDelta(_) => k == Thinking
    case InputJsonDelta(_) => k == Tool
    case OtherDelta => false
  }

  function Advance(strict: bool, p: Phase, e: A.Event): Phase {
    match (p, e)
    case (Before, MessageStart(Some(_))) => Idle(0)
    case (Idle(n), BlockStart(Some(k), Some(b))) =>
      if k == n && KindOf(b).Some? then InBlock(n, KindOf(b).value) else Bad
    case (InBlock(n, kind), BlockDelta(Some(k), Some(d))) =>
      if k == n && (strict ==> Fits(kind, d)) then p else Bad
    case (InBlock(n, _), BlockStop(Some(k))) => if k == n then Idle(n + 1) else Bad
    case (Idle(n), MessageDelta(Some(_), _)) => Summed(n)
    case (Idle(n), MessageStop) => Ended(n, false)
    case (Summed(n), MessageStop) => Ended(n, true)
    case _ => Bad
  }

  function Scan(strict: bool, p: Phase, es: seq<A.Event>): Phase {
    if es == [] then p else Advance(strict, Scan(strict, p, es[..|es| - 1]), es[|es| - 1])
  }

  lemma {:induction false} ScanAppend(strict: bool, p: Phase, a: seq<A.Event>, b: seq<A.Event>)
    ensures Scan(strict, p, a + b) == Scan(strict, Scan(strict, p, a), b)
    decreases |b|
  {
    if b == [] {
      assert a + b == a;
    } else {
      var n := |b| - 1;
      assert (a + b)[..|a + b| - 1] == a + b[..n];
      ScanAppend(strict, p, a, b[..n]);
    }
  }

  lemma ScanOne(strict: bool, p: Phase, e: A.Event)
    ensures Scan(strict, p, [e]) == Advance(strict, p, e)
  {
    assert [e][..0] == [];
  }

  /** Every delta of the section fits its kind. */
  predicate Pure(s: Section) {
    forall d :: d in s.deltas ==> Fits(s.kind, d)
  }

  predicate AllPure(ss: seq<Section>) {
    forall s :: s in ss ==> Pure(s)
  }

  predicate Announced(ss: seq<Section>) {
    forall s :: s in ss ==> KindOf(s.start) == Some(s.kind)
  }

  lemma {:induction false} ScanDeltas(strict: bool, n: nat, kind: Kind, ds: seq<A.ContentDelta>)
    ensures Scan(strict, InBlock(n, kind), DeltaEvents(n, ds)) ==
      if strict && (exists d :: d in ds && !Fits(kind, d)) then Bad else InBlock(n, kind)
    decreases |ds|
  {
    if ds != [] {
      var init, last := ds[..|ds| - 1], ds[|ds| - 1];
      assert ds == init + [last];
      ScanDeltas(strict, n, kind, init);
      var e := A.BlockDelta(Some(n), Some(last));
      ScanAppend(strict, InBlock(n, kind), DeltaEvents(n, init), [e]);
      ScanOne(strict, Scan(strict, InBlock(n, kind), DeltaEvents(n, init)), e);
    }
  }

  lemma ScanOpen(strict: bool, n: nat, s: Section)
    requires KindOf(s.start) == Some(s.kind)
    ensures Scan(strict, Idle(n), OpenEvents(n, s)) ==
      if strict && !Pure(s) then Bad else InBlock(n, s.kind)
  {
    hide Scan, DeltaEvents;
    var start := A.BlockStart(Some(n), Some(s.start));
    ScanAppend(strict, Idle(n), [start], DeltaEvents(n, s.deltas));
    ScanOne(strict, Idle(n), start);
    ScanDeltas(strict, n, s.kind, s.deltas);
  }

  lemma {:induction false} BadStays(strict: bool, es: seq<A.Event>)
    ensures Scan(strict, Bad, es) == Bad
    decreases |es|
  {
    if es != [] {
      BadStays(strict, es[..|es| - 1]);
    }
  }

  lemma {:induction false} ScanClosed(strict: bool, ss: seq<Section>)
    requires Announced(ss)
    ensures Scan(strict, Idle(0), ClosedEvents(ss)) == if strict && !AllPure(ss) then Bad else Idle(|ss|)
    decreases |ss|
  {
    hide Scan, OpenEvents, Pure;
    ScanNothing(strict, Idle(0));
    if ss != [] {
      var n := |ss| - 1;
      assert ss == ss[..n] + [ss[n]];
      ScanClosed(strict, ss[..n]);
      var stop := A.BlockStop(Some(n));
      var front := ClosedEvents(ss[..n]);
      ScanAppend(strict, Idle(0), front + OpenEvents(n, ss[n]), [stop]);
      ScanAppend(strict, Idle(0), front, OpenEvents(n, ss[n]));
      ScanOpen(strict, n, ss[n]);
      BadStays(strict, OpenEvents(n, ss[n]));
      ScanOne(strict, Scan(strict, Scan(strict, Idle(0), front), OpenEvents(n, ss[n])), stop);
    }
  }

  lemma ScanSections(strict: bool, ss: seq<Section>)
    requires Announced(ss)
    ensures Scan(strict, Idle(0), SectionEvents(ss)) ==
      if strict && !AllPure(ss) then Bad
      else if ss == [] then Idle(0) else InBlock(|ss| - 1, ss[|ss| - 1].kind)
  {
    hide Scan, DeltaEvents;
    if ss != [] {
      var n := |ss| - 1;
      assert ss == ss[..n] + [ss[n]];
      ScanClosed(strict, ss[..n]);
      ScanAppend(strict, Idle(0), ClosedEvents(ss[..n]), OpenEvents(n, ss[n]));
      ScanOpen(strict, n, ss[n]);
      BadStays(strict, OpenEvents(n, ss[n]));
    } else {
      ScanNothing(strict, Idle(0));
    }
  }

  lemma ScanNothing(strict: bool, p: Phase)
    ensures Scan(strict, p, []) == p
  {
  }

  lemma ScanStart(strict: bool, cs: seq<C.Chunk>)
    ensures Scan(strict, Before, StartEvents(cs)) == if cs == [] then Before else Idle(0)
  {
    if cs != [] {
      ScanOne(strict, Before, StartEvents(cs)[0]);
    }
  }

  lemma ScanDone(strict: bool, p: Phase, finish: string, usage: Option<C.Usage>)
    requires p.Idle? || p.Before? || p.Bad?
    ensures Scan(strict, p, DoneEvents(finish, usage)) == if p.Idle? then Ended(p.next, finish != "") else Bad
  {
    hide Scan;
    var es := DoneEvents(finish, usage);
    ScanOne(strict, p, A.MessageStop);
    if finish != "" {
      ScanAppend(strict, p, [es[0]], [A.MessageStop]);
      ScanOne(strict, p, es[0]);
      ScanOne(strict, Advance(strict, p, es[0]), A.MessageStop);
    } else {
      assert es == [A.MessageStop];
    }
  }

  lemma {:induction false} SectionsAnnounced(l: Layout, atoms: seq<Atom>)
    requires Announced(l.sections)
    ensures Announced(PlaceAll(l, atoms).sections)
    decreases atoms
  {
    if atoms != [] {
      SectionsAnnounced(Place(l, atoms[0]), atoms[1..]);
    }
  }

  /**
   The event grammar holds on every input: the output is rejected exactly when [DONE] comes before any
   chunk. It is complete exactly when there were chunks, [DONE] came, and no fragment had to open a block
   without a function; it then has one block for every fragment that opens one, and message_delta exactly
   when a finish reason was seen.
   */
  lemma GrammarHolds(items: seq<C.StreamItem>)
    ensures var cs, phase := BeforeDone(items), Scan(false, Before, Output(items));
      && (phase == Bad <==> cs == [] && HasDone(items))
      && (phase.Ended? <==> cs != [] && HasDone(items) && !Crashes(Atoms(cs)))
      && (phase.Ended? ==> phase == Ended(BlockCount(Atoms(cs)), FinishOf(cs) != ""))
  {
    hide Scan, Output, PlaceAll, Atoms, BeforeDone, Crashes, BlockCount, FinishOf, HasDone;
    OutputScanned(false, items);
    BlocksByInput(Atoms(BeforeDone(items)));
  }

  lemma OutputScanned(strict: bool, items: seq<C.StreamItem>)
    ensures var cs, phase := BeforeDone(items), Scan(strict, Before, Output(items));
      var l := PlaceAll(NoLayout, Atoms(cs));
      if cs == [] then phase == if HasDone(items) then Bad else Before
      else if strict && !AllPure(l.sections) then phase == Bad
      else if l.crashed then phase == Idle(|l.sections|)
      else if HasDone(items) then phase == Ended(|l.sections|, FinishOf(cs) != "")
      else phase.Idle? || phase.InBlock?
  {
    hide Scan, PlaceAll, Atoms, BeforeDone, ClosedEvents, SectionEvents, StartEvents, DoneEvents, FinishOf, UsageOf;
    var cs := BeforeDone(items);
    var l := PlaceAll(NoLayout, Atoms(cs));
    var start := StartEvents(cs);
    SectionsAnnounced(NoLayout, Atoms(cs));
    ScanStart(strict, cs);
    ScanClosed(strict, l.sections);
    ScanSections(strict, l.sections);
    ScanAppend(strict, Before, start, ClosedEvents(l.sections));
    ScanAppend(strict, Before, start, SectionEvents(l.sections));
    ScanAppend(strict, Before, start + ClosedEvents(l.sections), DoneEvents(FinishOf(cs), UsageOf(cs)));
    NoChunksNoSections(cs);
    if cs == [] {
      ScanNothing(strict, Before);
    }
    ScanDone(strict, Scan(strict, Before, start + ClosedEvents(l.sections)), FinishOf(cs), UsageOf(cs));
  }

  lemma NoChunksNoSections(cs: seq<C.Chunk>)
    ensures cs == [] ==> PlaceAll(NoLayout, Atoms(cs)) == NoLayout
    ensures SectionEvents([]) == [] && ClosedEvents([]) == []
  {
  }

  // ----- Kinds -----

  /** The kind of the open block, read off the input alone. */
  function OpenKind(atoms: seq<Atom>): Option<Kind> {
    if atoms == [] then None
    else
      match atoms[|atoms| - 1]
      case Think(_) => Some(Thinking)
      case Say(_) => Some(Text)
      case Call(_) => if OpenKind(atoms[..|atoms| - 1]) == Some(Thinking) then Some(Thinking) else Some(Tool)
  }

  /**
   Fragment i opens a block: reasoning and text do so when another kind is open, a call when the fragment
   before it is not one of the same index and no thinking block is open.
   */
  predicate Opens(atoms: seq<Atom>, i: nat)
    requires i < |atoms|
  {
    match atoms[i]
    case Think(_) => OpenKind(atoms[..i]) != Some(Thinking)
    case Say(_) => OpenKind(atoms[..i]) != Some(Text)
    case Call(tc) =>
      OpenKind(atoms[..i]) != Some(Thinking) &&
      (i == 0 || !atoms[i - 1].Call? || atoms[i - 1].call.index != tc.index)
  }

  /** Some fragment has to open a block and brings no function. */
  predicate Crashes(atoms: seq<Atom>) {
    exists i :: 0 <= i < |atoms| && CrashesAt(atoms, i)
  }

  predicate CrashesAt(atoms: seq<Atom>, i: nat)
    requires i < |atoms|
  {
    Opens(atoms, i) && Unopenable(atoms[i])
  }

  function BlockCount(atoms: seq<Atom>): nat {
    if atoms == [] then 0
    else BlockCount(atoms[..|atoms| - 1]) + (if Opens(atoms, |atoms| - 1) then 1 else 0)
  }

  lemma CrashesSnoc(init: seq<Atom>, a: Atom)
    ensures Crashes(init + [a]) <==> Crashes(init) || CrashesAt(init + [a], |init|)
    ensures BlockCount(init + [a]) == BlockCount(init) + (if Opens(init + [a], |init|) then 1 else 0)
  {
    hide Opens, Unopenable;
    var atoms := init + [a];
    assert atoms[..|init|] == init;
    forall i | 0 <= i < |init| ensures CrashesAt(atoms, i) == CrashesAt(init, i) {
      OpensPrefix(init, a, i);
    }
    if i :| 0 <= i < |init| && CrashesAt(init, i) {
      assert CrashesAt(atoms, i);
    }
  }

  lemma OpensPrefix(init: seq<Atom>, a: Atom, i: nat)
    requires i < |init|
    ensures Opens(init + [a], i) == Opens(init, i)
  {
    hide OpenKind;
    assert (init + [a])[..i] == init[..i];
  }

  /** The last section stands for the open block: its kind, and the index of the last call fragment. */
  predicate Follows(ss: seq<Section>, atoms: seq<Atom>) {
    LastKind(ss) == OpenKind(atoms) &&
    (atoms != [] && atoms[|atoms| - 1].Call? && LastKind(ss) == Some(Tool) ==>
      ss[|ss| - 1].toolIndex == atoms[|atoms| - 1].call.index)
  }

  lemma FollowsOn(ss: seq<Section>, init: seq<Atom>, a: Atom)
    requires Follows(ss, init)
    ensures Joins(ss, a) <==> !Opens(init + [a], |init|)
    ensures var l := Place(Layout(ss, false), a);
      && (l.crashed <==> !Joins(ss, a) && Unopenable(a))
      && (!l.crashed ==> Follows(l.sections, init + [a]) && |l.sections| == |ss| + (if Joins(ss, a) then 0 else 1))
  {
    var atoms := init + [a];
    assert atoms[..|init|] == init;
    assert init == [] ==> OpenKind(init) == None;
  }

  /** Crashes, blocks and kinds can all be read off the input. */
  lemma {:induction false} BlocksByInput(atoms: seq<Atom>)
    ensures var l := PlaceAll(NoLayout, atoms);
      && (l.crashed <==> Crashes(atoms))
      && (!l.crashed ==> |l.sections| == BlockCount(atoms) && Follows(l.sections, atoms))
    decreases |atoms|
  {
    hide Follows, Opens, Crashes, BlockCount, Joins;
    if atoms == [] {
      NoFragments();
    } else {
      var init, a := atoms[..|atoms| - 1], atoms[|atoms| - 1];
      assert atoms == init + [a];
      PlaceAllAppend(NoLayout, init, [a]);
      var l := PlaceAll(NoLayout, init);
      assert PlaceAll(l, [a]) == Place(l, a);
      BlocksByInput(init);
      CrashesSnoc(init, a);
      if !l.crashed {
        FollowsOn(l.sections, init, a);
      }
    }
  }

  lemma NoFragments()
    ensures !Crashes([]) && BlockCount([]) == 0 && Follows([], [])
  {
  }

  /** The fragments of every block, cut where one opens the next. */
  function Groups(atoms: seq<Atom>): seq<seq<Atom>> {
    if atoms == [] then []
    else
      var n := |atoms| - 1;
      var before, a := Groups(atoms[..n]), atoms[n];
      if before == [] || Opens(atoms, n) then before + [[a]]
      else before[|before| - 1 := before[|before| - 1] + [a]]
  }

  predicate StartSays(b: A.Block, first: Atom) {
    match first
    case Think(_) => b == A.ThinkingBlock("", "")
    case Say(_) => b == A.TextBlock("")
    case Call(tc) => tc.function_.Some? && b == A.ToolUseBlock(tc.id, tc.function_.value.name, "{}")
  }

  predicate GroupSays(s: Section, group: seq<Atom>) {
    group != [] && StartSays(s.start, group[0]) && s.deltas == DeltasOfAll(group)
  }

  predicate GroupsSay(ss: seq<Section>, groups: seq<seq<Atom>>) {
    |ss| == |groups| && forall j :: 0 <= j < |ss| ==> GroupSays(ss[j], groups[j])
  }

  lemma {:induction false} DeltasOfAllSnoc(atoms: seq<Atom>, a: Atom)
    ensures DeltasOfAll(atoms + [a]) == DeltasOfAll(atoms) + DeltasOf(a)
  {
    hide DeltasOf;
    if atoms == [] {
      assert atoms + [a] == [a] && [a][1..] == [];
    } else {
      assert (atoms + [a])[1..] == atoms[1..] + [a];
      DeltasOfAllSnoc(atoms[1..], a);
    }
  }

  lemma OneGroup(a: Atom)
    requires !Unopenable(a)
    ensures GroupSays(Opened(a), [a])
  {
    DeltasOfAllSnoc([], a);
    assert [] + [a] == [a];
  }

  lemma GroupGrows(s: Section, group: seq<Atom>, a: Atom)
    requires GroupSays(s, group)
    ensures GroupSays(s.(deltas := s.deltas + DeltasOf(a)), group + [a])
  {
    hide DeltasOf, DeltasOfAll;
    DeltasOfAllSnoc(group, a);
  }

  /**
   Block j of the output is group j of the input: it is announced with the kind, id and name of the fragment
   that opens it, and carries exactly the deltas of its group.
   */
  lemma {:induction false} BlocksAreGroups(atoms: seq<Atom>)
    requires !Crashes(atoms)
    ensures GroupsSay(PlaceAll(NoLayout, atoms).sections, Groups(atoms))
    decreases |atoms|
  {
    hide GroupSays, Crashes, BlockCount, Follows, Opens, Joins, Opened, DeltasOf;
    if atoms != [] {
      var init, a := atoms[..|atoms| - 1], atoms[|atoms| - 1];
      assert atoms == init + [a];
      CrashesSnoc(init, a);
      BlocksAreGroups(init);
      BlocksByInput(init);
      BlocksByInput(atoms);
      PlaceAllAppend(NoLayout, init, [a]);
      var l := PlaceAll(NoLayout, init);
      assert PlaceAll(l, [a]) == Place(l, a);
      FollowsOn(l.sections, init, a);
      if Joins(l.sections, a) {
        JoinsSomething(l.sections, a);
        GroupGrows(l.sections[|l.sections| - 1], Groups(init)[|l.sections| - 1], a);
      } else {
        OneGroup(a);
      }
    }
  }

  lemma JoinsSomething(ss: seq<Section>, a: Atom)
    requires Joins(ss, a)
    ensures ss != []
  {
  }

  /** A tool-call fragment with arguments arrives while a thinking block is open. */
  predicate Misrouted(atoms: seq<Atom>, i: nat)
    requires i < |atoms|
  {
    CallHasArguments(atoms[i]) && OpenKind(atoms[..i]) == Some(Thinking)
  }

  predicate CallHasArguments(a: Atom) {
    a.Call? && CallDeltas(a.call) != []
  }

  predicate Routed(atoms: seq<Atom>) {
    forall i :: 0 <= i < |atoms| ==> !Misrouted(atoms, i)
  }

  function LastKind(ss: seq<Section>): Option<Kind> {
    if ss == [] then None else Some(ss[|ss| - 1].kind)
  }

  lemma FeedPure(ss: seq<Section>, ds: seq<A.ContentDelta>)
    requires ss != []
    ensures AllPure(Feed(ss, ds)) <==> AllPure(ss) && (forall d :: d in ds ==> Fits(ss[|ss| - 1].kind, d))
  {
    var n := |ss| - 1;
    var fed := Feed(ss, ds);
    assert fed[n] in fed && ss[n] in ss;
    assert forall d :: d in fed[n].deltas <==> d in ss[n].deltas || d in ds;
    if AllPure(fed) {
      forall s | s in ss ensures Pure(s) {
        var i :| 0 <= i < |ss| && ss[i] == s;
        assert fed[i] in fed && Pure(fed[i]);
      }
    }
    if AllPure(ss) && (forall d :: d in ds ==> Fits(ss[n].kind, d)) {
      forall s | s in fed ensures Pure(s) {
        var i :| 0 <= i < |fed| && fed[i] == s;
        assert ss[i] in ss && Pure(ss[i]);
      }
    }
  }

  lemma PlacePure(l: Layout, a: Atom)
    requires !l.crashed && !Place(l, a).crashed
    ensures LastKind(Place(l, a).sections) ==
      match a
      case Think(_) => Some(Thinking)
      case Say(_) => Some(Text)
      case Call(_) => if LastKind(l.sections) == Some(Thinking) then Some(Thinking) else Some(Tool)
    ensures AllPure(Place(l, a).sections) <==>
      AllPure(l.sections) && !(CallHasArguments(a) && LastKind(l.sections) == Some(Thinking))
  {
    if Joins(l.sections, a) {
      FeedPure(l.sections, DeltasOf(a));
      if CallHasArguments(a) {
        assert DeltasOf(a)[0] in DeltasOf(a);
      }
    } else {
      var ss := l.sections + [Opened(a)];
      assert Pure(Opened(a));
      assert ss[|l.sections|] == Opened(a);
      assert forall s :: s in ss <==> s in l.sections || s == Opened(a);
    }
  }

  lemma EmptyPure()
    ensures AllPure([])
  {
  }

  lemma {:induction false} KindsFollowed(atoms: seq<Atom>)
    requires !Crashes(atoms)
    ensures LastKind(PlaceAll(NoLayout, atoms).sections) == OpenKind(atoms)
    ensures AllPure(PlaceAll(NoLayout, atoms).sections) <==> Routed(atoms)
    decreases |atoms|
  {
    hide Place, AllPure, Crashes, BlockCount, LastKind;
    BlocksByInput(atoms);
    if atoms == [] {
      assert AllPure(NoLayout.sections) by { EmptyPure(); }
    } else {
      var init, a := atoms[..|atoms| - 1], atoms[|atoms| - 1];
      assert atoms == init + [a];
      CrashesSnoc(init, a);
      BlocksByInput(init);
      PlaceAllAppend(NoLayout, init, [a]);
      var l := PlaceAll(NoLayout, init);
      assert PlaceAll(l, [a]) == Place(l, a);
      KindsFollowed(init);
      PlacePure(l, a);
      RoutedSnoc(init, a);
    }
  }

  lemma RoutedSnoc(init: seq<Atom>, a: Atom)
    ensures Routed(init + [a]) <==>
      Routed(init) && !(CallHasArguments(a) && OpenKind(init) == Some(Thinking))
  {
    hide OpenKind;
    var atoms := init + [a];
    assert atoms[..|init|] == init;
    forall i | 0 <= i < |init| ensures Misrouted(atoms, i) == Misrouted(init, i) {
      assert atoms[..i] == init[..i];
    }
    assert Misrouted(atoms, |init|) == (CallHasArguments(a) && OpenKind(init) == Some(Thinking));
  }

  /**
   Every delta fits the kind of its block if and only if no tool-call arguments arrive while a thinking
   block is open: the tool-call switch has no case for an open thinking block.
   */
  lemma DeltasFitBlocks(items: seq<C.StreamItem>)
    requires BeforeDone(items) != [] && !Crashes(Atoms(BeforeDone(items)))
    ensures Scan(true, Before, Output(items)) != Bad <==> Routed(Atoms(BeforeDone(items)))
  {
    hide Scan, Output, PlaceAll, Atoms, Routed, AllPure, Crashes, BlockCount;
    OutputScanned(true, items);
    BlocksByInput(Atoms(BeforeDone(items)));
    KindsFollowed(Atoms(BeforeDone(items)));
  }

  // ----- Content -----

  /** The deltas of a stream in the order they were sent. */
  function DeltasIn(es: seq<A.Event>): seq<A.ContentDelta> {
    if es == [] then []
    else
      DeltasIn(es[..|es| - 1]) +
      (match es[|es| - 1] case BlockDelta(_, Some(d)) => [d] case _ => [])
  }

  function DeltasOfAll(atoms: seq<Atom>): seq<A.ContentDelta> {
    if atoms == [] then [] else DeltasOf(atoms[0]) + DeltasOfAll(atoms[1..])
  }

  function SectionDeltas(ss: seq<Section>): seq<A.ContentDelta> {
    if ss == [] then [] else SectionDeltas(ss[..|ss| - 1]) + ss[|ss| - 1].deltas
  }

  lemma {:induction false} DeltasInAppend(a: seq<A.Event>, b: seq<A.Event>)
    ensures DeltasIn(a + b) == DeltasIn(a) + DeltasIn(b)
    decreases |b|
  {
    if b == [] {
      assert a + b == a;
    } else {
      var n := |b| - 1;
      assert (a + b)[..|a + b| - 1] == a + b[..n];
      DeltasInAppend(a, b[..n]);
    }
  }

  lemma DeltasInOne(e: A.Event)
    ensures DeltasIn([e]) == match e case BlockDelta(_, Some(d)) => [d] case _ => []
  {
    assert [e][..0] == [];
  }

  lemma {:induction false} DeltasInDeltas(k: int, ds: seq<A.ContentDelta>)
    ensures DeltasIn(DeltaEvents(k, ds)) == ds
    decreases |ds|
  {
    if ds != [] {
      var init, e := ds[..|ds| - 1], A.BlockDelta(Some(k), Some(ds[|ds| - 1]));
      DeltasInDeltas(k, init);
      DeltasInAppend(DeltaEvents(k, init), [e]);
      DeltasInOne(e);
    }
  }

  lemma DeltasInOpen(k: int, s: Section)
    ensures DeltasIn(OpenEvents(k, s)) == s.deltas
  {
    hide DeltasIn, DeltaEvents;
    var start := A.BlockStart(Some(k), Some(s.start));
    DeltasInAppend([start], DeltaEvents(k, s.deltas));
    DeltasInOne(start);
    DeltasInDeltas(k, s.deltas);
  }

  lemma {:induction false} DeltasInClosed(ss: seq<Section>)
    ensures DeltasIn(ClosedEvents(ss)) == SectionDeltas(ss)
    decreases |ss|
  {
    if ss != [] {
      hide DeltasIn;
      var n := |ss| - 1;
      var front, stop := ClosedEvents(ss[..n]), A.BlockStop(Some(n));
      DeltasInClosed(ss[..n]);
      DeltasInAppend(front + OpenEvents(n, ss[n]), [stop]);
      DeltasInAppend(front, OpenEvents(n, ss[n]));
      DeltasInOpen(n, ss[n]);
      DeltasInOne(stop);
    }
  }

  lemma DeltasInSections(ss: seq<Section>)
    ensures DeltasIn(SectionEvents(ss)) == SectionDeltas(ss)
  {
    hide DeltasIn;
    DeltasInClosed(ss);
    ClosedFromOpen(ss);
    if ss != [] {
      var stop := A.BlockStop(Some(|ss| - 1));
      DeltasInAppend(SectionEvents(ss), [stop]);
      DeltasInOne(stop);
    }
  }

  lemma PlacedDeltas(l: Layout, a: Atom)
    requires !Place(l, a).crashed
    ensures SectionDeltas(Place(l, a).sections) == SectionDeltas(l.sections) + DeltasOf(a)
  {
    var ss := l.sections;
    if Joins(ss, a) {
      var n := |ss| - 1;
      var fed := Feed(ss, DeltasOf(a));
      assert fed[..n] == ss[..n];
      assert SectionDeltas(ss[..n]) + (ss[n].deltas + DeltasOf(a))
          == SectionDeltas(ss[..n]) + ss[n].deltas + DeltasOf(a);
    } else {
      assert (ss + [Opened(a)])[..|ss|] == ss;
    }
  }

  lemma {:induction false} PlacedAllDeltas(l: Layout, atoms: seq<Atom>)
    requires !PlaceAll(l, atoms).crashed
    ensures SectionDeltas(PlaceAll(l, atoms).sections) == SectionDeltas(l.sections) + DeltasOfAll(atoms)
    decreases atoms
  {
    if atoms != [] {
      if Place(l, atoms[0]).crashed {
        CrashedStays(Place(l, atoms[0]), atoms[1..]);
      }
      hide Place, SectionDeltas;
      PlacedDeltas(l, atoms[0]);
      PlacedAllDeltas(Place(l, atoms[0]), atoms[1..]);
      assert SectionDeltas(l.sections) + DeltasOf(atoms[0]) + DeltasOfAll(atoms[1..])
          == SectionDeltas(l.sections) + (DeltasOf(atoms[0]) + DeltasOfAll(atoms[1..]));
    }
  }

  /**
   Nothing is lost, added or reordered: the deltas sent are exactly the non-empty reasoning, text and
   argument fragments of the input, in input order.
   */
  lemma ContentPreserved(items: seq<C.StreamItem>)
    requires !Crashes(Atoms(BeforeDone(items)))
    ensures DeltasIn(Output(items)) == DeltasOfAll(Atoms(BeforeDone(items)))
  {
    hide DeltasIn, PlaceAll, Atoms, BeforeDone, ClosedEvents, SectionEvents, FinishOf, UsageOf, Crashes, BlockCount;
    var cs := BeforeDone(items);
    BlocksByInput(Atoms(cs));
    var ss, start, done := PlaceAll(NoLayout, Atoms(cs)).sections, StartEvents(cs), DoneEvents(FinishOf(cs), UsageOf(cs));
    PlacedAllDeltas(NoLayout, Atoms(cs));
    NoDeltasOutside(cs);
    DeltasInClosed(ss);
    DeltasInSections(ss);
    DeltasInAppend(start, ClosedEvents(ss));
    DeltasInAppend(start, SectionEvents(ss));
    DeltasInAppend(start + ClosedEvents(ss), done);
  }

  lemma NoDeltasOutside(cs: seq<C.Chunk>)
    ensures DeltasIn(StartEvents(cs)) == [] && DeltasIn(DoneEvents(FinishOf(cs), UsageOf(cs))) == []
    ensures SectionDeltas([]) == []
  {
    hide FinishOf, UsageOf;
    var done := DoneEvents(FinishOf(cs), UsageOf(cs));
    if cs != [] {
      DeltasInOne(StartEvents(cs)[0]);
    }
    DeltasInOne(A.MessageStop);
    if |done| == 2 {
      DeltasInAppend([done[0]], [done[1]]);
      DeltasInOne(done[0]);
    }
  }
}
