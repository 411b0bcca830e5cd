/**
 Server-sent events (section 9.2.6 of the WHATWG HTML Living Standard, with this code's own handling of
 spaces and of several data lines): the printing loop of pkg/octollm/handler.go, lines 166-187, and the
 reader processSSEStream of pkg/engines/client/http.go, lines 266-348. Text is a sequence of characters
 standing for bytes.
 */
module Sse {
  import opened Prelude

  datatype Chunk = Chunk(body: string, meta: map<string, string>)

  // ----- Printing -----

  function Entry(c: Chunk, key: string): string {
    if key in c.meta then key + ": " + c.meta[key] + "\n" else ""
  }

  function PrintChunk(c: Chunk): string {
    Entry(c, "event") + Entry(c, "id") + "data: " + c.body + "\n\n"
  }

  function Print(chunks: seq<Chunk>): string {
    if chunks == [] then "" else PrintChunk(chunks[0]) + Print(chunks[1..])
  }

  lemma {:induction false} PrintAppend(a: seq<Chunk>, b: seq<Chunk>)
    ensures Print(a + b) == Print(a) + Print(b)
  {
    if a == [] {
      assert a + b == b;
    } else {
      assert (a + b)[1..] == a[1..] + b;
      PrintAppend(a[1..], b);
    }
  }

  /** The writes of httpSSEHandler. */
  method WriteStream(chunks: seq<Chunk>) returns (w: string)
    ensures w == Print(chunks)
  {
    hide Print;
    w := "";
    NothingPrinted();
    for i := 0 to |chunks|
      invariant w == Print(chunks[..i])
    {
      var c := chunks[i];
      PrintSnoc(chunks, i);
      var chunk := WriteChunk(c);
      w := w + chunk;
    }
    assert chunks[..|chunks|] == chunks;
  }

  method WriteChunk(c: Chunk) returns (w: string)
    ensures w == PrintChunk(c)
  {
    var event, id := "", "";
    if "event" in c.meta {
      event := "event: " + c.meta["event"] + "\n";
      assert "event" + ": " == "event: ";
    }
    if "id" in c.meta {
      id := "id: " + c.meta["id"] + "\n";
      assert "id" + ": " == "id: ";
    }
    w := event + id + "data: " + c.body + "\n\n";
  }

  lemma NothingPrinted()
    ensures Print([]) == ""
    ensures forall chunks: seq<Chunk> :: Print(chunks[..0]) == ""
  {
  }

  lemma PrintSnoc(chunks: seq<Chunk>, i: nat)
    requires i < |chunks|
    ensures Print(chunks[..i + 1]) == Print(chunks[..i]) + PrintChunk(chunks[i])
  {
    assert chunks[..i + 1] == chunks[..i] + [chunks[i]];
    PrintAppend(chunks[..i], [chunks[i]]);
    assert Print([chunks[i]]) == PrintChunk(chunks[i]) + Print([]);
  }

  // ----- Lines -----

  /** The first position of c, or -1. */
  function IndexOf(s: string, c: char): (r: int)
    ensures -1 <= r < |s|
    ensures r >= 0 ==> s[r] == c && c !in s[..r]
    ensures r == -1 ==> c !in s
  {
    if s == "" then -1
    else if s[0] == c then 0
    else
      var r := IndexOf(s[1..], c);
      if r == -1 then -1 else assert s[..r + 1] == [s[0]] + s[1..][..r]; r + 1
  }

  function DropCR(s: string): string {
    if s != "" && s[|s| - 1] == '\r' then s[..|s| - 1] else s
  }

  /** bufio.ScanLines: lines end at a newline, lose one trailing carriage return, and the last may be open. */
  function Lines(text: string): seq<string>
    decreases |text|
  {
    if text == "" then []
    else
      var i := IndexOf(text, '\n');
      if i == -1 then [DropCR(text)] else [DropCR(text[..i])] + Lines(text[i + 1..])
  }

  lemma {:induction false} FirstIndex(before: string, c: char, after: string)
    requires c !in before
    ensures IndexOf(before + [c] + after, c) == |before|
  {
    if before != "" {
      FirstIndex(before[1..], c, after);
      assert (before + [c] + after)[1..] == before[1..] + [c] + after;
    }
  }

  lemma LineFirst(line: string, rest: string)
    requires '\n' !in line
    ensures Lines(line + "\n" + rest) == [DropCR(line)] + Lines(rest)
  {
    var text := line + "\n" + rest;
    FirstIndex(line, '\n', rest);
    var i := |line|;
    assert text[..i] == line && text[i + 1..] == rest;
  }

  lemma {:induction false} LinesHaveNoNewline(text: string)
    ensures forall l :: l in Lines(text) ==> '\n' !in l
    decreases |text|
  {
    if text != "" {
      var i := IndexOf(text, '\n');
      if i != -1 {
        LinesHaveNoNewline(text[i + 1..]);
      }
    }
  }

  /** Text that ends at a line's end can be read piece by piece. */
  lemma {:induction false} LinesAppend(a: string, b: string)
    requires a == "" || a[|a| - 1] == '\n'
    ensures Lines(a + b) == Lines(a) + Lines(b)
    decreases |a|
  {
    hide Lines, DropCR;
    if a == "" {
      NoLines();
      assert a + b == b;
    } else {
      var i := IndexOf(a, '\n');
      assert i != -1 by {
        assert a[|a| - 1] in a;
      }
      var line, rest := a[..i], a[i + 1..];
      assert a == line + "\n" + rest;
      assert a + b == line + "\n" + (rest + b);
      LineFirst(line, rest);
      LineFirst(line, rest + b);
      LinesAppend(rest, b);
    }
  }

  // ----- Reading -----

  function TrimSpaces(s: string): string {
    if s != "" && s[0] == ' ' then TrimSpaces(s[1..]) else s
  }

  /** The reader between two lines: the body and metadata gathered so far, and what was dispatched. */
  datatype Reader = Reader(body: string, meta: map<string, string>, out: seq<Chunk>)

  const START := Reader("", map[], [])

  /** The text after the first colon; without a colon, the whole line. */
  function ValueOf(line: string): string {
    TrimSpaces(line[IndexOf(line, ':') + 1..])
  }

  function KeyOf(line: string): string {
    if IndexOf(line, ':') == -1 then line else line[..IndexOf(line, ':')]
  }

  function Step(st: Reader, line: string): Reader {
    if line == "" then
      if st.body == "" then Reader("", map[], st.out)
      else Reader("", map[], st.out + [Chunk(st.body, st.meta)])
    else if KeyOf(line) == "data" then st.(body := st.body + ValueOf(line))
    else if KeyOf(line) in {"event", "id"} then st.(meta := st.meta[KeyOf(line) := ValueOf(line)])
    else st
  }

  function Run(st: Reader, lines: seq<string>): Reader
    decreases |lines|
  {
    if lines == [] then st else Run(Step(st, lines[0]), lines[1..])
  }

  function Parse(text: string): seq<Chunk> {
    Run(START, Lines(text)).out
  }

  lemma {:induction false} RunAppend(st: Reader, a: seq<string>, b: seq<string>)
    ensures Run(st, a + b) == Run(Run(st, a), b)
    decreases |a|
  {
    hide Step;
    if a == [] {
      assert a + b == b;
    } else {
      assert (a + b)[1..] == a[1..] + b;
      RunAppend(Step(st, a[0]), a[1..], b);
    }
  }

  lemma RunFrom(st: Reader, lines: seq<string>, i: nat)
    requires i < |lines|
    ensures Run(st, lines[i..]) == Run(Step(st, lines[i]), lines[i + 1..])
  {
    hide Step;
    assert lines[i..][1..] == lines[i + 1..];
  }

  lemma RunNothing(st: Reader)
    ensures Run(st, []) == st
  {
  }

  /** slices.IndexFunc for the first byte that is not a space. */
  method FirstNonSpace(s: string) returns (start: int)
    ensures start == -1 ==> TrimSpaces(s) == ""
    ensures start != -1 ==> 0 <= start < |s| && s[start..] == TrimSpaces(s)
  {
    start := 0;
    while start < |s| && s[start] == ' '
      invariant 0 <= start <= |s|
      invariant TrimSpaces(s) == TrimSpaces(s[start..])
    {
      assert s[start..][1..] == s[start + 1..];
      start := start + 1;
    }
    if start == |s| {
      start := -1;
    }
  }

  /** processSSEStream. */
  method ProcessStream(text: string) returns (chunks: seq<Chunk>)
    ensures chunks == Parse(text)
  {
    hide IndexOf, TrimSpaces, Run, Lines;
    var meta: map<string, string> := map[];
    var body := "";
    chunks := [];
    var lines := Lines(text);
    for i := 0 to |lines|
      invariant Run(Reader(body, meta, chunks), lines[i..]) == Run(START, lines)
    {
      var line := lines[i];
      ghost var before := Reader(body, meta, chunks);
      RunFrom(before, lines, i);
      if |line| == 0 {
        if body == "" {
          meta := map[];
        } else {
          chunks := chunks + [Chunk(body, meta)];
          body := "";
          meta := map[];
        }
      } else {
        var colon := IndexOf(line, ':');
        if colon != 0 {
          var key := if colon == -1 then line else line[..colon];
          if key == "data" {
            var start := FirstNonSpace(line[colon + 1..]);
            if start != -1 {
              body := body + line[colon + 1..][start..];
            }
          } else if key == "event" || key == "id" {
            meta := meta[key := TrimSpaces(line[colon + 1..])];
          }
        }
      }
      assert Reader(body, meta, chunks) == Step(before, line);
    }
    RunNothing(Reader(body, meta, chunks));
    assert lines[|lines|..] == [];
  }

  // ----- Round trip -----

  /** One line, not starting with a space. */
  predicate Tame(s: string) {
    '\n' !in s && (s != "" ==> s[0] != ' ')
  }

  predicate EndsInCR(s: string) {
    s != "" && s[|s| - 1] == '\r'
  }

  predicate TameChunk(c: Chunk) {
    Tame(c.body) && c.meta.Keys <= {"event", "id"} && forall k :: k in c.meta ==> Tame(c.meta[k])
  }

  /** What survives printing and reading unharmed. */
  predicate Printable(c: Chunk) {
    TameChunk(c) && c.body != "" && !EndsInCR(c.body) && forall k :: k in c.meta ==> !EndsInCR(c.meta[k])
  }

  function Normal(m: map<string, string>): map<string, string> {
    map k | k in m :: DropCR(m[k])
  }

  /** What the reader makes of one printed chunk. */
  function Received(c: Chunk): seq<Chunk> {
    if DropCR(c.body) == "" then [] else [Chunk(DropCR(c.body), Normal(c.meta))]
  }

  function AllReceived(chunks: seq<Chunk>): seq<Chunk> {
    if chunks == [] then [] else Received(chunks[0]) + AllReceived(chunks[1..])
  }

  lemma DropTail(prefix: string, v: string)
    requires prefix != "" && !EndsInCR(prefix)
    ensures DropCR(prefix + v) == prefix + DropCR(v)
  {
    if EndsInCR(v) {
      assert (prefix + v)[..|prefix + v| - 1] == prefix + v[..|v| - 1];
    }
  }

  lemma Split(key: string, v: string)
    requires key != "" && ':' !in key
    ensures var line := key + ": " + v; KeyOf(line) == key && ValueOf(line) == TrimSpaces(v)
  {
    var line := key + ": " + v;
    FirstIndex(key, ':', " " + v);
    assert line == key + [':'] + (" " + v);
    assert line[..|key|] == key;
    assert line[|key| + 1..] == " " + v;
    assert (" " + v)[1..] == v;
  }

  lemma FieldLine(key: string, v: string)
    requires key in {"event", "id", "data"} && Tame(v)
    ensures var line := DropCR(key + ": " + v);
      line != "" && KeyOf(line) == key && ValueOf(line) == DropCR(v)
    ensures '\n' !in key + ": " + v
  {
    hide KeyOf, ValueOf, IndexOf;
    var plain := key + ": ";
    assert ':' !in key && '\n' !in plain;
    assert plain[|plain| - 1] == ' ';
    DropTail(plain, v);
    Split(key, DropCR(v));
    assert TrimSpaces(DropCR(v)) == DropCR(v);
  }

  lemma FieldStep(st: Reader, key: string, v: string, rest: string)
    requires key in {"event", "id", "data"} && Tame(v)
    ensures Run(st, Lines(key + ": " + v + "\n" + rest)) ==
      Run(if key == "data" then st.(body := st.body + DropCR(v)) else st.(meta := st.meta[key := DropCR(v)]),
          Lines(rest))
  {
    hide Lines, KeyOf, ValueOf, Tame, DropCR;
    var line := key + ": " + v;
    FieldLine(key, v);
    LineFirst(line, rest);
    assert key + ": " + v + "\n" + rest == line + "\n" + rest;
    assert ([DropCR(line)] + Lines(rest))[1..] == Lines(rest);
  }

  lemma EntryStep(st: Reader, c: Chunk, key: string, rest: string)
    requires key in {"event", "id"} && TameChunk(c)
    ensures Run(st, Lines(Entry(c, key) + rest)) ==
      Run(if key in c.meta then st.(meta := st.meta[key := DropCR(c.meta[key])]) else st, Lines(rest))
  {
    hide Lines, Run, Tame, DropCR;
    if key in c.meta {
      FieldStep(st, key, c.meta[key], rest);
    } else {
      assert "" + rest == rest;
    }
  }

  lemma BlankStep(st: Reader, rest: string)
    ensures Run(st, Lines("\n" + rest)) == Run(Step(st, ""), Lines(rest))
  {
    hide Lines, Step;
    LineFirst("", rest);
    assert "" + "\n" + rest == "\n" + rest;
    assert DropCR("") == "";
    assert ([""] + Lines(rest))[1..] == Lines(rest);
  }

  lemma ChunkReceived(out: seq<Chunk>, c: Chunk, rest: string)
    requires TameChunk(c)
    ensures Run(Reader("", map[], out), Lines(PrintChunk(c) + rest)) ==
      Run(Reader("", map[], out + Received(c)), Lines(rest))
  {
    hide Lines, Run, Tame, DropCR;
    var blank := "\n" + rest;
    var data := "data: " + c.body + "\n" + blank;
    var id := Entry(c, "id") + data;
    assert PrintChunk(c) + rest == Entry(c, "event") + id by {
      assert "\n\n" == "\n" + "\n";
    }
    var s0 := Reader("", map[], out);
    EntryStep(s0, c, "event", id);
    var s1 := if "event" in c.meta then s0.(meta := s0.meta["event" := DropCR(c.meta["event"])]) else s0;
    EntryStep(s1, c, "id", data);
    var s2 := if "id" in c.meta then s1.(meta := s1.meta["id" := DropCR(c.meta["id"])]) else s1;
    assert data == "data" + ": " + c.body + "\n" + blank;
    FieldStep(s2, "data", c.body, blank);
    var s3 := s2.(body := s2.body + DropCR(c.body));
    BlankStep(s3, rest);
    assert s2.meta == Normal(c.meta);
    assert s3.body == DropCR(c.body);
    assert out + [] == out;
    assert Step(s3, "") == Reader("", map[], out + Received(c));
  }

  lemma {:induction false} AllReceivedRun(out: seq<Chunk>, chunks: seq<Chunk>)
    requires forall c :: c in chunks ==> TameChunk(c)
    ensures Run(Reader("", map[], out), Lines(Print(chunks))).out == out + AllReceived(chunks)
    decreases |chunks|
  {
    hide Received, TameChunk, PrintChunk, Run, Lines;
    if chunks != [] {
      ChunkReceived(out, chunks[0], Print(chunks[1..]));
      AllReceivedRun(out + Received(chunks[0]), chunks[1..]);
      assert out + Received(chunks[0]) + AllReceived(chunks[1..]) == out + AllReceived(chunks);
    } else {
      NoLines();
      RunNothing(Reader("", map[], out));
      assert out + [] == out;
    }
  }

  // What can come out of the reader.

  predicate TameReader(st: Reader) {
    TameChunk(Chunk(st.body, st.meta)) && forall c :: c in st.out ==> TameChunk(c)
  }

  lemma {:induction false} TrimmedIsTame(s: string)
    requires '\n' !in s
    ensures Tame(TrimSpaces(s))
  {
    if s != "" && s[0] == ' ' {
      TrimmedIsTame(s[1..]);
    }
  }

  lemma JoinTame(a: string, b: string)
    requires Tame(a) && Tame(b)
    ensures Tame(a + b) && Tame("")
  {
  }

  lemma FieldTame(meta: map<string, string>, body: string, key: string, v: string)
    requires TameChunk(Chunk(body, meta)) && Tame(v)
    ensures key in {"event", "id"} ==> TameChunk(Chunk(body, meta[key := v]))
  {
    hide Tame;
  }

  lemma ValueTame(line: string)
    requires '\n' !in line
    ensures Tame(ValueOf(line))
  {
    TrimmedIsTame(line[IndexOf(line, ':') + 1..]);
  }

  lemma StepTame(st: Reader, line: string)
    requires TameReader(st) && '\n' !in line
    ensures TameReader(Step(st, line))
  {
    hide ValueOf, Tame, KeyOf;
    var v := ValueOf(line);
    ValueTame(line);
    JoinTame(st.body, v);
    FieldTame(st.meta, st.body, KeyOf(line), v);
  }

  lemma {:induction false} RunTame(st: Reader, lines: seq<string>)
    requires TameReader(st) && forall l :: l in lines ==> '\n' !in l
    ensures TameReader(Run(st, lines))
    decreases |lines|
  {
    hide Step, TameReader;
    if lines != [] {
      StepTame(st, lines[0]);
      RunTame(Step(st, lines[0]), lines[1..]);
    }
  }

  lemma ReceivedSame(c: Chunk)
    requires TameChunk(c)
    ensures Received(c) == [c] <==> Printable(c)
  {
    if Received(c) == [c] {
      assert Normal(c.meta) == c.meta;
      forall k | k in c.meta ensures !EndsInCR(c.meta[k]) {
        assert Normal(c.meta)[k] == c.meta[k];
      }
    }
    if Printable(c) {
      assert Normal(c.meta) == c.meta;
    }
  }

  lemma {:induction false} AllReceivedSame(chunks: seq<Chunk>)
    requires forall c :: c in chunks ==> TameChunk(c)
    ensures |AllReceived(chunks)| <= |chunks|
    ensures AllReceived(chunks) == chunks <==> forall c :: c in chunks ==> Printable(c)
  {
    hide TameChunk, Printable;
    if chunks != [] {
      AllReceivedSame(chunks[1..]);
      ReceivedSame(chunks[0]);
      if AllReceived(chunks) == chunks {
        assert |Received(chunks[0])| == 1;
        assert AllReceived(chunks)[0] == Received(chunks[0])[0];
        assert AllReceived(chunks)[1..] == AllReceived(chunks[1..]);
      }
      assert chunks == [chunks[0]] + chunks[1..];
    }
  }

  /** Reading what was printed gives the same chunks back exactly when every chunk is printable. */
  lemma RoundTrip(chunks: seq<Chunk>)
    ensures Parse(Print(chunks)) == chunks <==> forall c :: c in chunks ==> Printable(c)
  {
    hide Run, Lines, Print, TameChunk, AllReceived;
    if Parse(Print(chunks)) == chunks {
      LinesHaveNoNewline(Print(chunks));
      StartIsTame();
      RunTame(START, Lines(Print(chunks)));
    }
    if forall c :: c in chunks ==> TameChunk(c) {
      AllReceivedRun([], chunks);
      AllReceivedSame(chunks);
      assert [] + AllReceived(chunks) == AllReceived(chunks);
    }
  }

  lemma StartIsTame()
    ensures TameReader(START)
  {
  }

  // ----- What the reader overlooks -----

  /** A comment, or a field the reader does not know. */
  predicate Ignored(line: string) {
    line != "" && KeyOf(line) !in {"data", "event", "id"}
  }

  /** Ignored lines may stand anywhere, even inside an event. */
  lemma IgnoredAnywhere(before: string, line: string, after: string)
    requires before == "" || before[|before| - 1] == '\n'
    requires '\n' !in line && Ignored(DropCR(line))
    ensures Parse(before + line + "\n" + after) == Parse(before + after)
  {
    hide Lines;
    assert before + line + "\n" + after == before + (line + "\n" + after);
    LinesAppend(before, line + "\n" + after);
    LinesAppend(before, after);
    LineFirst(line, after);
    RunAppend(START, Lines(before), [DropCR(line)] + Lines(after));
    RunAppend(START, Lines(before), Lines(after));
    assert ([DropCR(line)] + Lines(after))[1..] == Lines(after);
  }

  lemma CommentsAreIgnored(text: string)
    ensures Ignored(":" + text)
  {
    assert IndexOf(":" + text, ':') == 0;
  }

  /** Between events, where the text so far ends in a blank line, further blank lines change nothing. */
  lemma ExtraBlankLine(before: string, blank: string, after: string)
    requires before == "" || (|before| >= 2 && before[|before| - 2..] == "\n\n")
    requires blank in {"", "\r"}
    ensures Parse(before + blank + "\n" + after) == Parse(before + after)
  {
    hide Lines;
    assert before + blank + "\n" + after == before + (blank + "\n" + after);
    LinesAppend(before, blank + "\n" + after);
    LinesAppend(before, after);
    LineFirst(blank, after);
    assert DropCR(blank) == "";
    var st := Run(START, Lines(before));
    RunAppend(START, Lines(before), [""] + Lines(after));
    RunAppend(START, Lines(before), Lines(after));
    assert ([""] + Lines(after))[1..] == Lines(after);
    assert st.body == "" && st.meta == map[] by {
      if before == "" {
        assert Lines(before) == [] by { NoLines(); }
      } else {
        var init := before[..|before| - 1];
        assert before == init + "\n";
        assert init[|init| - 1] == '\n' by {
          assert before[|before| - 2..][0] == '\n';
        }
        LinesAppend(init, "\n");
        BlankOnly();
        RunAppend(START, Lines(init), [""]);
        assert [""][1..] == [];
        assert before[|before| - 2..][1] == '\n';
      }
    }
  }

  lemma NoLines()
    ensures Lines("") == []
  {
  }

  lemma BlankOnly()
    ensures Lines("\n") == [""]
  {
    LineFirst("", "");
    assert "" + "\n" + "" == "\n";
  }

  lemma {:induction false} NothingDispatched(st: Reader, lines: seq<string>)
    requires "" !in lines
    ensures Run(st, lines).out == st.out
    decreases |lines|
  {
    if lines != [] {
      NothingDispatched(Step(st, lines[0]), lines[1..]);
    }
  }

  /** An event that the text does not end with a blank line is lost. */
  lemma UnterminatedIsLost(before: string, tail: string)
    requires before == "" || before[|before| - 1] == '\n'
    requires "" !in Lines(tail)
    ensures Parse(before + tail) == Parse(before)
  {
    hide Lines, Step;
    LinesAppend(before, tail);
    RunAppend(START, Lines(before), Lines(tail));
    NothingDispatched(Run(START, Lines(before)), Lines(tail));
  }

  // ----- What the reader makes of fields that the printer never writes -----

  function DataLines(vs: seq<string>): string {
    if vs == [] then "" else "data" + ": " + vs[0] + "\n" + DataLines(vs[1..])
  }

  lemma {:induction false} DataLinesRun(st: Reader, vs: seq<string>, rest: string)
    requires forall v :: v in vs ==> Tame(v) && !EndsInCR(v)
    ensures Run(st, Lines(DataLines(vs) + rest)) == Run(st.(body := st.body + Concat(vs)), Lines(rest))
    decreases |vs|
  {
    hide Run, Lines, Tame, DropCR, DataLines, Concat, EndsInCR;
    DataLinesCons(vs);
    if vs == [] {
      assert "" + rest == rest && st.body + "" == st.body;
    } else {
      NoCRToDrop(vs[0]);
      var below := DataLines(vs[1..]);
      Assoc("data" + ": " + vs[0] + "\n", below, rest);
      FieldStep(st, "data", vs[0], below + rest);
      DataLinesRun(st.(body := st.body + vs[0]), vs[1..], rest);
      Assoc(st.body, vs[0], Concat(vs[1..]));
    }
  }

  lemma Assoc(a: string, b: string, c: string)
    ensures (a + b) + c == a + (b + c)
  {
  }

  lemma DataLinesCons(vs: seq<string>)
    ensures vs == [] ==> DataLines(vs) == "" && Concat(vs) == ""
    ensures vs != [] ==>
      DataLines(vs) == "data" + ": " + vs[0] + "\n" + DataLines(vs[1..]) && Concat(vs) == vs[0] + Concat(vs[1..])
  {
  }

  lemma NoCRToDrop(v: string)
    requires !EndsInCR(v)
    ensures DropCR(v) == v
  {
  }

  /** Several data lines of one event are joined without a newline between them, unlike in the standard. */
  lemma DataLinesJoin(vs: seq<string>)
    requires forall v :: v in vs ==> Tame(v) && !EndsInCR(v)
    ensures Parse(DataLines(vs) + "\n") == if Concat(vs) == "" then [] else [Chunk(Concat(vs), map[])]
  {
    hide Run, Lines, Tame, DataLines, Concat;
    DataLinesRun(START, vs, "\n");
    assert "" + Concat(vs) == Concat(vs);
    BlankStep(START.(body := Concat(vs)), "");
    assert "\n" + "" == "\n";
    NoLines();
    RunNothing(Step(START.(body := Concat(vs)), ""));
  }

  /** An event without data is not dispatched, and its event name and id are forgotten. */
  lemma NoDataNoEvent(key: string, v: string, rest: string)
    requires key in {"event", "id"} && Tame(v)
    ensures Parse(key + ": " + v + "\n\n" + rest) == Parse(rest)
  {
    hide Run, Lines, Tame;
    var blank := "\n" + rest;
    assert key + ": " + v + "\n\n" + rest == key + ": " + v + "\n" + blank by {
      assert "\n\n" == "\n" + "\n";
    }
    FieldStep(START, key, v, blank);
    BlankStep(START.(meta := START.meta[key := DropCR(v)]), rest);
  }

  /** Of two fields with the same name the later one counts. */
  lemma LaterFieldWins(key: string, v: string, u: string, body: string)
    requires key in {"event", "id"} && Tame(v) && Tame(u) && Tame(body) && !EndsInCR(u) && !EndsInCR(body) && body != ""
    ensures Parse(key + ": " + v + "\n" + (key + ": " + u + "\n" + ("data: " + body + "\n" + "\n"))) ==
      [Chunk(body, map[key := u])]
  {
    hide Run, Lines, Tame;
    var data := "data" + ": " + body + "\n" + "\n";
    assert data == "data: " + body + "\n" + "\n";
    var s1 := START.(meta := map[key := DropCR(v)]);
    assert START.meta[key := DropCR(v)] == map[key := DropCR(v)];
    FieldStep(START, key, v, key + ": " + u + "\n" + data);
    FieldStep(s1, key, u, data);
    var s2 := START.(meta := map[key := u]);
    assert s1.meta[key := u] == map[key := u];
    FieldStep(s2, "data", body, "\n");
    var s3 := s2.(body := body);
    assert "" + body == body;
    BlankStep(s3, "");
    assert "\n" + "" == "\n";
    NoLines();
    RunNothing(Step(s3, ""));
  }

  /** A data line without a colon contributes its own name. */
  lemma ColonlessData()
    ensures Parse("data" + "\n" + "\n") == [Chunk("data", map[])]
  {
    hide Run, Lines, Step, DropCR;
    LineFirst("data", "\n");
    NoCRToDrop("data");
    ColonlessStep();
    RunFirst(START, "data", Lines("\n"));
    BlankStep(Reader("data", map[], []), "");
    assert "\n" + "" == "\n";
    NoLines();
    DispatchStep("data");
    RunNothing(Reader("", map[], [Chunk("data", map[])]));
  }

  lemma ColonlessStep()
    ensures Step(START, "data") == Reader("data", map[], [])
  {
    NoColon("data");
    assert "data"[0..] == "data" && TrimSpaces("data") == "data";
    assert "" + "data" == "data";
  }

  lemma DispatchStep(body: string)
    requires body != ""
    ensures Step(Reader(body, map[], []), "") == Reader("", map[], [Chunk(body, map[])])
  {
  }

  lemma NoColon(s: string)
    requires ':' !in s
    ensures IndexOf(s, ':') == -1
  {
  }

  lemma RunFirst(st: Reader, line: string, rest: seq<string>)
    ensures Run(st, [line] + rest) == Run(Step(st, line), rest)
  {
    hide Step;
    assert ([line] + rest)[1..] == rest;
  }
}
