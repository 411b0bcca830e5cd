/**
 Anthropic requests (pkg/engines/image-url-fetch/extract.go, lines 64-118): image blocks anywhere in
 messages[].content and in nested tool_result.content.
 */
module ClaudeImages {
  import opened Prelude
  import opened JsonEdits
  import opened ImageEdits
  import opened ArrayEdits
  import opened Text

  /** strings.EqualFold against a lower-case word. */
  predicate EqualsFold(s: string, word: string) {
    |s| == |word| && StartsWithFold(s, word)
  }

  function SourceUrl(b: Json): string {
    match Field(b, "source")
    case Some(Obj(f)) => if EqualsFold(Trim(StringIn(Obj(f), "type")), "url") then Trim(StringIn(Obj(f), "url")) else ""
    case _ => ""
  }

  predicate RemoteImage(b: Json) {
    b.Obj? && StringIn(b, "type") == "image" && IsRemote(SourceUrl(b))
  }

  /** The content array of a message or of a tool_result block. */
  function ArrayIn(j: Json): seq<Json> {
    match j
    case Obj(f) => (if "content" in f && f["content"].Arr? then f["content"].items else [])
    case _ => []
  }

  function Nested(b: Json): seq<Json> {
    if StringIn(b, "type") == "tool_result" then ArrayIn(b) else []
  }

  // ----- Jobs -----

  function BlockJobs(m: nat, path: seq<nat>, b: Json): seq<Job>
    decreases b, 0
  {
    if RemoteImage(b) then [ClaudeJob(m, path, SourceUrl(b))]
    else if Nested(b) == [] then []
    else Join(SliceJobs(m, path, Nested(b)))
  }

  function SliceJobs(m: nat, prefix: seq<nat>, items: seq<Json>): (r: seq<seq<Job>>)
    ensures |r| == |items|
    decreases items, 1
  {
    seq(|items|, i requires 0 <= i < |items| => BlockJobs(m, prefix + [i], items[i]))
  }

  function MessageJobs(ms: seq<Json>): (r: seq<seq<Job>>)
    ensures |r| == |ms|
  {
    seq(|ms|, m requires 0 <= m < |ms| => Join(SliceJobs(m, [], ArrayIn(ms[m]))))
  }

  function Messages(body: Json): seq<Json> {
    match Field(body, "messages") case Some(Arr(ms)) => ms case _ => []
  }

  function RequestJobs(body: Json): seq<Job> {
    Join(MessageJobs(Messages(body)))
  }

  /** collectFromClaudeContentSlice. */
  method CollectSlice(m: nat, prefix: seq<nat>, items: seq<Json>) returns (jobs: seq<Job>)
    ensures jobs == Join(SliceJobs(m, prefix, items))
    decreases items
  {
    hide Join, Trim, IsRemote, EqualsFold;
    jobs := [];
    ghost var all := SliceJobs(m, prefix, items);
    JoinNone();
    for i := 0 to |items|
      invariant jobs == Join(all[..i])
    {
      JoinOne(all, i);
      var b := items[i];
      var path := prefix + [i];
      assert all[i] == BlockJobs(m, path, b);
      if RemoteImage(b) {
        jobs := jobs + [ClaudeJob(m, path, SourceUrl(b))];
      } else if StringIn(b, "type") == "tool_result" && ArrayIn(b) != [] {
        assert Nested(b) == ArrayIn(b);
        var below := CollectSlice(m, path, ArrayIn(b));
        jobs := jobs + below;
      }
    }
    assert all[..|items|] == all;
  }

  /** collectClaudeImageReplaceJobs. */
  method CollectRequest(body: Json) returns (jobs: seq<Job>)
    ensures jobs == RequestJobs(body)
  {
    hide Join;
    var ms := Messages(body);
    ghost var all := MessageJobs(ms);
    jobs := [];
    JoinNone();
    for m := 0 to |ms|
      invariant jobs == Join(all[..m])
    {
      JoinOne(all, m);
      if ArrayIn(ms[m]) != [] {
        var found := CollectSlice(m, [], ArrayIn(ms[m]));
        jobs := jobs + found;
      } else {
        assert SliceJobs(m, [], ArrayIn(ms[m])) == [];
      }
    }
    assert all[..|ms|] == all;
  }

  // ----- The structural map -----

  function InlineBlock(b: Json, fetch: string -> Fetched): Json
    decreases b, 0
  {
    if RemoteImage(b) then
      if Usable(fetch(SourceUrl(b))) then Obj(b.fields["source" := ClaudeSource(fetch(SourceUrl(b)))]) else b
    else if Nested(b) != [] then Obj(b.fields["content" := Arr(InlineBlocks(Nested(b), fetch))])
    else b
  }

  function InlineBlocks(items: seq<Json>, fetch: string -> Fetched): (r: seq<Json>)
    ensures |r| == |items|
    decreases items, 1
  {
    seq(|items|, i requires 0 <= i < |items| => InlineBlock(items[i], fetch))
  }

  function InlineMessage(m: Json, fetch: string -> Fetched): Json {
    if ArrayIn(m) != [] then Obj(m.fields["content" := Arr(InlineBlocks(ArrayIn(m), fetch))]) else m
  }

  function InlineRequest(body: Json, fetch: string -> Fetched): Json {
    var ms := Messages(body);
    if ms == [] then body
    else Obj(body.fields["messages" := Arr(seq(|ms|, m requires 0 <= m < |ms| => InlineMessage(ms[m], fetch)))])
  }

  // ----- Edits relative to a block -----

  ghost function BlockEdits(b: Json, fetch: string -> Fetched): seq<Edit>
    decreases b, 0
  {
    if RemoteImage(b) then
      if Usable(fetch(SourceUrl(b))) then [Edit([Key("source")], ClaudeSource(fetch(SourceUrl(b))))] else []
    else if Nested(b) == [] then []
    else Under([Key("content")], Spread(SliceEdits(Nested(b), fetch)))
  }

  ghost function SliceEdits(items: seq<Json>, fetch: string -> Fetched): (r: seq<seq<Edit>>)
    ensures |r| == |items|
    decreases items, 1
  {
    seq(|items|, i requires 0 <= i < |items| => BlockEdits(items[i], fetch))
  }

  ghost function MessageEdits(ms: seq<Json>, fetch: string -> Fetched): (r: seq<seq<Edit>>)
    ensures |r| == |ms|
  {
    seq(|ms|, m requires 0 <= m < |ms| => Under([Key("content")], Spread(SliceEdits(ArrayIn(ms[m]), fetch))))
  }

  ghost function RequestEdits(body: Json, fetch: string -> Fetched): seq<Edit> {
    Under([Key("messages")], Spread(MessageEdits(Messages(body), fetch)))
  }

  ghost function Base(m: nat, path: seq<nat>): seq<Step> {
    [Key("messages"), Index(m)] + Deep(path)
  }

  lemma DeepSnoc(m: nat, prefix: seq<nat>, i: nat)
    ensures Base(m, prefix + [i]) == Base(m, prefix) + [Key("content")] + [Index(i)]
  {
    var p := prefix + [i];
    assert p[..|p| - 1] == prefix;
  }

  lemma {:induction false} SliceMakes(m: nat, prefix: seq<nat>, items: seq<Json>, fetch: string -> Fetched)
    ensures EditsOf(Inlining(fetch), Join(SliceJobs(m, prefix, items))) ==
      Under(Base(m, prefix) + [Key("content")], Spread(SliceEdits(items, fetch)))
    decreases items, 1
  {
    hide EditsOf, Join, Spread, Under;
    var jobs, es := SliceJobs(m, prefix, items), SliceEdits(items, fetch);
    var base := Base(m, prefix) + [Key("content")];
    forall i | 0 <= i < |items|
      ensures EditsOf(Inlining(fetch), jobs[i]) == Under(base + [Index(i)], es[i])
    {
      BlockMakes(m, prefix + [i], items[i], fetch);
      DeepSnoc(m, prefix, i);
    }
    JoinMakes(Inlining(fetch), base, jobs, es);
  }

  lemma {:induction false} BlockMakes(m: nat, path: seq<nat>, b: Json, fetch: string -> Fetched)
    ensures EditsOf(Inlining(fetch), BlockJobs(m, path, b)) == Under(Base(m, path), BlockEdits(b, fetch))
    decreases b, 0
  {
    hide EditsOf, Join, Spread, Under, Trim, StartsWithFold, Deep;
    if RemoteImage(b) {
      var j := ClaudeJob(m, path, SourceUrl(b));
      EditsOfOne(Inlining(fetch), j);
      SourceTrimmed(b);
      if Usable(fetch(SourceUrl(b))) {
        OneUnder(Base(m, path), [Key("source")], ClaudeSource(fetch(SourceUrl(b))));
      }
      UnderNone(Base(m, path));
    } else if Nested(b) == [] {
      NoEdits(Inlining(fetch), b);
      UnderNone(Base(m, path));
    } else {
      SliceMakes(m, path, Nested(b), fetch);
      UnderTwice(Base(m, path), [Key("content")], Spread(SliceEdits(Nested(b), fetch)));
    }
  }

  lemma SourceTrimmed(b: Json)
    ensures Trim(SourceUrl(b)) == SourceUrl(b)
  {
    match Field(b, "source")
    case Some(Obj(f)) => TrimTrims(StringIn(Obj(f), "url"));
    case _ =>
  }

  lemma RequestMakes(body: Json, fetch: string -> Fetched)
    ensures EditsOf(Inlining(fetch), RequestJobs(body)) == RequestEdits(body, fetch)
  {
    hide EditsOf, Join, Spread, Under, SliceJobs, SliceEdits;
    var ms := Messages(body);
    forall m | 0 <= m < |ms|
      ensures EditsOf(Inlining(fetch), MessageJobs(ms)[m]) ==
        Under([Key("messages")] + [Index(m)], MessageEdits(ms, fetch)[m])
    {
      SliceMakes(m, [], ArrayIn(ms[m]), fetch);
      assert Base(m, []) == [Key("messages")] + [Index(m)];
      UnderTwice([Key("messages")] + [Index(m)], [Key("content")], Spread(SliceEdits(ArrayIn(ms[m]), fetch)));
    }
    JoinMakes(Inlining(fetch), [Key("messages")], MessageJobs(ms), MessageEdits(ms, fetch));
  }

  // ----- The edits make the map -----

  lemma {:induction false} SliceInlined(items: seq<Json>, fetch: string -> Fetched)
    ensures Apply(Arr(items), Spread(SliceEdits(items, fetch))) == Some(Arr(InlineBlocks(items, fetch)))
    decreases items, 1
  {
    hide Apply, Spread;
    forall i | 0 <= i < |items|
      ensures Apply(items[i], SliceEdits(items, fetch)[i]) == Some(InlineBlocks(items, fetch)[i])
    {
      BlockInlined(items[i], fetch);
    }
    SpreadApplies(items, SliceEdits(items, fetch), InlineBlocks(items, fetch));
  }

  lemma {:induction false} BlockInlined(b: Json, fetch: string -> Fetched)
    ensures Apply(b, BlockEdits(b, fetch)) == Some(InlineBlock(b, fetch))
    decreases b, 0
  {
    hide Apply, Spread, Under, Trim, StartsWithFold;
    ApplyNothing(b);
    if RemoteImage(b) {
      if Usable(fetch(SourceUrl(b))) {
        ApplyOne(b, [Key("source")], ClaudeSource(fetch(SourceUrl(b))));
        SetKey(b, "source", ClaudeSource(fetch(SourceUrl(b))));
      }
    } else if Nested(b) != [] {
      SliceInlined(Nested(b), fetch);
      ApplyUnder(b, Key("content"), Spread(SliceEdits(Nested(b), fetch)));
    }
  }

  lemma RequestInlined(body: Json, fetch: string -> Fetched)
    ensures Apply(body, RequestEdits(body, fetch)) == Some(InlineRequest(body, fetch))
  {
    hide Apply, Spread, Under;
    var ms := Messages(body);
    if ms == [] {
      SpreadNothing([Key("messages")]);
      ApplyNothing(body);
    } else {
      var after := seq(|ms|, m requires 0 <= m < |ms| => InlineMessage(ms[m], fetch));
      forall m | 0 <= m < |ms| ensures Apply(ms[m], MessageEdits(ms, fetch)[m]) == Some(after[m]) {
        MessageInlined(ms[m], fetch);
      }
      SpreadApplies(ms, MessageEdits(ms, fetch), after);
      ApplyUnder(body, Key("messages"), Spread(MessageEdits(ms, fetch)));
    }
  }

  lemma MessageInlined(m: Json, fetch: string -> Fetched)
    ensures Apply(m, Under([Key("content")], Spread(SliceEdits(ArrayIn(m), fetch)))) == Some(InlineMessage(m, fetch))
  {
    hide Apply, Spread, Under;
    if ArrayIn(m) == [] {
      SpreadNothing([Key("content")]);
      ApplyNothing(m);
    } else {
      SliceInlined(ArrayIn(m), fetch);
      ApplyUnder(m, Key("content"), Spread(SliceEdits(ArrayIn(m), fetch)));
    }
  }

  // ----- Order -----

  lemma {:induction false} SliceApart(items: seq<Json>, fetch: string -> Fetched)
    ensures AllApart(Spread(SliceEdits(items, fetch)))
    decreases items, 1
  {
    hide Spread, AllApart;
    forall i | 0 <= i < |items| ensures AllApart(SliceEdits(items, fetch)[i]) {
      BlockApart(items[i], fetch);
    }
    SpreadApart(SliceEdits(items, fetch));
  }

  lemma {:induction false} BlockApart(b: Json, fetch: string -> Fetched)
    ensures AllApart(BlockEdits(b, fetch))
    decreases b, 0
  {
    hide Spread, RemoteImage, Apart;
    if !RemoteImage(b) && Nested(b) != [] {
      SliceApart(Nested(b), fetch);
      AllApartUnder([Key("content")], Spread(SliceEdits(Nested(b), fetch)));
    }
  }

  /** The edits of one request touch disjoint parts of the body, so their order is irrelevant. */
  lemma RequestApart(body: Json, fetch: string -> Fetched)
    ensures AllApart(EditsOf(Inlining(fetch), RequestJobs(body)))
  {
    hide Spread, AllApart, EditsOf, Under;
    var ms := Messages(body);
    forall m | 0 <= m < |ms| ensures AllApart(MessageEdits(ms, fetch)[m]) {
      SliceApart(ArrayIn(ms[m]), fetch);
      AllApartUnder([Key("content")], Spread(SliceEdits(ArrayIn(ms[m]), fetch)));
    }
    SpreadApart(MessageEdits(ms, fetch));
    AllApartUnder([Key("messages")], Spread(MessageEdits(ms, fetch)));
    RequestMakes(body, fetch);
  }

  // ----- The whole engine -----

  lemma {:induction false} NoNormalizing(jobs: seq<Job>)
    requires forall k :: 0 <= k < |jobs| ==> jobs[k].ClaudeJob?
    ensures EditsOf(Normalizing, jobs) == []
    decreases |jobs|
  {
    if jobs != [] {
      NoNormalizing(jobs[..|jobs| - 1]);
    }
  }

  /** Exactly the remote images are inlined and everything else is unchanged, unless a fetch failed. */
  method InlineImages(body: Json, fetch: string -> Fetched) returns (r: Outcome)
    ensures r == if AnyFetchError(RequestJobs(body), fetch) then FetchFailed else Body(InlineRequest(body, fetch))
  {
    hide EditsOf, Apply, AnyFetchError, RequestJobs, RequestEdits, InlineRequest;
    var jobs := CollectRequest(body);
    AllClaude(body);
    NoNormalizing(jobs);
    ApplyNothing(body);
    RequestMakes(body, fetch);
    RequestInlined(body, fetch);
    r := Process(body, jobs, fetch);
  }

  lemma AllClaude(body: Json)
    ensures forall k :: 0 <= k < |RequestJobs(body)| ==> RequestJobs(body)[k].ClaudeJob?
  {
    hide Join, SliceJobs;
    var all := MessageJobs(Messages(body));
    forall j | j in Join(all) ensures j.ClaudeJob? {
      JoinMember(all, j);
      var m :| 0 <= m < |all| && j in all[m];
      SliceClaude(m, [], ArrayIn(Messages(body)[m]), j);
    }
    forall k | 0 <= k < |RequestJobs(body)| ensures RequestJobs(body)[k].ClaudeJob? {
      assert RequestJobs(body)[k] in Join(all);
    }
  }

  lemma {:induction false} SliceClaude(m: nat, prefix: seq<nat>, items: seq<Json>, j: Job)
    requires j in Join(SliceJobs(m, prefix, items))
    ensures j.ClaudeJob?
    decreases items
  {
    hide Join, RemoteImage;
    JoinMember(SliceJobs(m, prefix, items), j);
    var i :| 0 <= i < |items| && j in SliceJobs(m, prefix, items)[i];
    if !RemoteImage(items[i]) {
      SliceClaude(m, prefix + [i], Nested(items[i]), j);
    }
  }

  // ----- What is left for another run -----

  /** The jobs whose fetch gave nothing. */
  function Left(jobs: seq<Job>, fetch: string -> Fetched): seq<Job> {
    if jobs == [] then []
    else
      var last := jobs[|jobs| - 1];
      Left(jobs[..|jobs| - 1], fetch) + (if Usable(fetch(RemoteUrl(last))) then [] else [last])
  }

  lemma {:induction false} LeftAppend(a: seq<Job>, b: seq<Job>, fetch: string -> Fetched)
    ensures Left(a + b, fetch) == Left(a, fetch) + Left(b, fetch)
    decreases |b|
  {
    hide Usable, RemoteUrl;
    if b == [] {
      assert a + b == a;
    } else {
      var n := |b| - 1;
      assert (a + b)[..|a + b| - 1] == a + b[..n];
      LeftAppend(a, b[..n], fetch);
    }
  }

  lemma {:induction false} JoinLeft(before: seq<seq<Job>>, after: seq<seq<Job>>, fetch: string -> Fetched)
    requires |before| == |after| && forall i :: 0 <= i < |after| ==> after[i] == Left(before[i], fetch)
    ensures Join(after) == Left(Join(before), fetch)
    decreases |before|
  {
    hide Left;
    if before == [] {
      LeftNothing(fetch);
    } else {
      var n := |before| - 1;
      JoinLeft(before[..n], after[..n], fetch);
      LeftAppend(Join(before[..n]), before[n], fetch);
    }
  }

  lemma LeftNothing(fetch: string -> Fetched)
    ensures Left([], fetch) == []
  {
  }

  lemma LeftOne(j: Job, fetch: string -> Fetched)
    ensures Left([j], fetch) == if Usable(fetch(RemoteUrl(j))) then [] else [j]
  {
    assert [j][..0] == [];
  }

  lemma {:induction false} SliceLeft(m: nat, prefix: seq<nat>, items: seq<Json>, fetch: string -> Fetched)
    ensures Join(SliceJobs(m, prefix, InlineBlocks(items, fetch))) == Left(Join(SliceJobs(m, prefix, items)), fetch)
    decreases items, 1
  {
    hide Join, Left;
    forall i | 0 <= i < |items|
      ensures SliceJobs(m, prefix, InlineBlocks(items, fetch))[i] == Left(SliceJobs(m, prefix, items)[i], fetch)
    {
      BlockLeft(m, prefix + [i], items[i], fetch);
    }
    JoinLeft(SliceJobs(m, prefix, items), SliceJobs(m, prefix, InlineBlocks(items, fetch)), fetch);
  }

  lemma {:induction false} BlockLeft(m: nat, path: seq<nat>, b: Json, fetch: string -> Fetched)
    ensures BlockJobs(m, path, InlineBlock(b, fetch)) == Left(BlockJobs(m, path, b), fetch)
    decreases b, 0
  {
    hide Join, Left, Trim, IsRemote, StartsWithFold;
    LeftNothing(fetch);
    if RemoteImage(b) {
      SourceTrimmed(b);
      LeftOne(ClaudeJob(m, path, SourceUrl(b)), fetch);
      if Usable(fetch(SourceUrl(b))) {
        InlinedIsNotRemote(b, fetch(SourceUrl(b)));
      }
    } else if Nested(b) != [] {
      SliceLeft(m, path, Nested(b), fetch);
      assert Nested(InlineBlock(b, fetch)) == InlineBlocks(Nested(b), fetch);
      assert !RemoteImage(InlineBlock(b, fetch));
    }
  }

  lemma InlinedIsNotRemote(b: Json, img: Fetched)
    requires b.Obj? && img.Image? && StringIn(b, "type") == "image"
    ensures !RemoteImage(Obj(b.fields["source" := ClaudeSource(img)]))
    ensures Nested(Obj(b.fields["source" := ClaudeSource(img)])) == []
  {
    assert Trim("base64") == "base64";
    assert !IsRemote("");
  }

  /** Running the engine again only meets the images whose fetch gave nothing. */
  lemma OnlyUnusableRemain(body: Json, fetch: string -> Fetched)
    ensures RequestJobs(InlineRequest(body, fetch)) == Left(RequestJobs(body), fetch)
  {
    hide Join, Left;
    LeftNothing(fetch);
    var ms := Messages(body);
    var after := Messages(InlineRequest(body, fetch));
    forall m | 0 <= m < |ms| ensures MessageJobs(after)[m] == Left(MessageJobs(ms)[m], fetch) {
      assert after[m] == InlineMessage(ms[m], fetch);
      assert ArrayIn(after[m]) == InlineBlocks(ArrayIn(ms[m]), fetch);
      SliceLeft(m, [], ArrayIn(ms[m]), fetch);
    }
    JoinLeft(MessageJobs(ms), MessageJobs(after), fetch);
  }

  // ----- The fields of an inlined block -----

  /** An image block whose source is an object of type url, letter case and outer white space aside. */
  predicate UrlImage(b: Json) {
    && b.Obj? && StringIn(b, "type") == "image"
    && "source" in b.fields && b.fields["source"].Obj?
    && var kind := Trim(StringIn(b.fields["source"], "type"));
       |kind| == 3 && LowerChar(kind[0]) == 'u' && LowerChar(kind[1]) == 'r' && LowerChar(kind[2]) == 'l'
  }

  predicate HasArray(j: Json, field: string) {
    j.Obj? && field in j.fields && j.fields[field].Arr? && j.fields[field].items != []
  }

  predicate ToolResult(b: Json) {
    StringIn(b, "type") == "tool_result" && HasArray(b, "content")
  }

  /** Every block of the content is inlined in its place and nothing else changes. */
  predicate ContentMapped(j: Json, r: Json, fetch: string -> Fetched)
    requires HasArray(j, "content")
  {
    var before := j.fields["content"].items;
    && r.Obj? && r.fields.Keys == j.fields.Keys
    && (forall k :: k in j.fields && k != "content" ==> r.fields[k] == j.fields[k])
    && r.fields["content"].Arr? && |r.fields["content"].items| == |before|
    && forall i :: 0 <= i < |before| ==> r.fields["content"].items[i] == InlineBlock(before[i], fetch)
  }

  /** The request's messages with a content array are mapped, the others and all other fields stay. */
  lemma RequestSays(body: Json, fetch: string -> Fetched)
    ensures var r := InlineRequest(body, fetch);
      if !HasArray(body, "messages") then r == body
      else
        var before := body.fields["messages"].items;
        && r.Obj? && r.fields.Keys == body.fields.Keys
        && (forall k :: k in body.fields && k != "messages" ==> r.fields[k] == body.fields[k])
        && r.fields["messages"].Arr? && |r.fields["messages"].items| == |before|
        && forall m :: 0 <= m < |before| ==>
             if HasArray(before[m], "content") then ContentMapped(before[m], r.fields["messages"].items[m], fetch)
             else r.fields["messages"].items[m] == before[m]
  {
    hide InlineBlock, ContentMapped;
    var ms := Messages(body);
    forall m | 0 <= m < |ms|
      ensures if HasArray(ms[m], "content") then ContentMapped(ms[m], InlineMessage(ms[m], fetch), fetch)
              else InlineMessage(ms[m], fetch) == ms[m]
    {
      MessageSays(ms[m], fetch);
    }
  }

  lemma MessageSays(m: Json, fetch: string -> Fetched)
    ensures if HasArray(m, "content") then ContentMapped(m, InlineMessage(m, fetch), fetch)
            else InlineMessage(m, fetch) == m
  {
    hide InlineBlock;
  }

  /**
   Exactly the blocks with a URL to fetch, whose fetch gave data, get a new source: type base64, with the
   media type and the data of that fetch and nothing else. All their other fields stay.
   */
  lemma BlockSays(b: Json, fetch: string -> Fetched)
    ensures var r := InlineBlock(b, fetch);
      if UrlImage(b) then
        var u := Trim(StringIn(b.fields["source"], "url"));
        if FetchUrl(u) && HasData(fetch(u)) then
          r.Obj? && r.fields.Keys == b.fields.Keys && (forall k :: k in b.fields && k != "source" ==> r.fields[k] == b.fields[k]) &&
          r.fields["source"].Obj? && r.fields["source"].fields.Keys == {"type", "media_type", "data"} &&
          StringIn(r.fields["source"], "type") == "base64" &&
          StringIn(r.fields["source"], "media_type") == fetch(u).mediaType &&
          StringIn(r.fields["source"], "data") == fetch(u).base64
        else r == b
      else if ToolResult(b) then ContentMapped(b, r, fetch)
      else r == b
  {
    hide Trim, InlineBlocks, InlineBlock, LowerChar, ContentMapped, IsRemote, FetchUrl, Nested, ToolResult, RemoteImage;
    if UrlImage(b) {
      UrlImageSays(b, fetch);
    } else {
      NotUrlImage(b);
      OtherBlockSays(b, fetch);
    }
  }

  lemma UrlImageSays(b: Json, fetch: string -> Fetched)
    requires UrlImage(b)
    ensures var u := Trim(StringIn(b.fields["source"], "url"));
      InlineBlock(b, fetch) ==
      if FetchUrl(u) && HasData(fetch(u)) then Obj(b.fields["source" := ClaudeSource(fetch(u))]) else b
  {
    hide Trim, InlineBlocks, LowerChar;
    UrlsToFetch();
    KindIsUrl(Trim(StringIn(b.fields["source"], "type")));
    assert RemoteImage(b) <==> FetchUrl(Trim(StringIn(b.fields["source"], "url")));
  }

  lemma OtherBlockSays(b: Json, fetch: string -> Fetched)
    requires !RemoteImage(b)
    ensures if ToolResult(b) then ContentMapped(b, InlineBlock(b, fetch), fetch) else InlineBlock(b, fetch) == b
  {
    hide RemoteImage;
    if ToolResult(b) {
      var before := b.fields["content"].items;
      assert Nested(b) == before;
      forall i | 0 <= i < |before| ensures InlineBlocks(before, fetch)[i] == InlineBlock(before[i], fetch) {
      }
    }
  }

  lemma KindIsUrl(kind: string)
    ensures EqualsFold(kind, "url") <==>
      |kind| == 3 && LowerChar(kind[0]) == 'u' && LowerChar(kind[1]) == 'r' && LowerChar(kind[2]) == 'l'
  {
    hide LowerChar;
    assert "url"[0] == 'u' && "url"[1] == 'r' && "url"[2] == 'l';
  }

  lemma NotUrlImage(b: Json)
    requires !UrlImage(b)
    ensures !RemoteImage(b)
  {
    hide Trim, LowerChar, StartsWithFold;
    if b.Obj? && "source" in b.fields && b.fields["source"].Obj? {
      KindIsUrl(Trim(StringIn(b.fields["source"], "type")));
    }
    EmptyIsNotRemote();
  }

  lemma EmptyIsNotRemote()
    ensures !IsRemote("")
  {
  }
}
