/**
 OpenAI requests (pkg/engines/image-url-fetch/extract.go, lines 10-61): image parts of
 messages[].content and messages[].reasoning_content.
 */
module OpenAIImages {
  import opened Prelude
  import opened JsonEdits
  import opened ImageEdits
  import opened ArrayEdits
  import opened Text

  function ArrayIn(j: Json, field: string): seq<Json> {
    match Field(j, field) case Some(Arr(items)) => items case _ => []
  }

  function PartUrl(item: Json): string {
    match Field(item, "image_url")
    case Some(Str(u)) => u
    case Some(Obj(f)) => StringIn(Obj(f), "url")
    case _ => ""
  }

  predicate ImagePart(item: Json) {
    StringIn(item, "type") in {"", "image_url"} && PartUrl(item) != ""
  }

  predicate ObjectForm(item: Json) {
    Field(item, "image_url").Some? && Field(item, "image_url").value.Obj?
  }

  // ----- Jobs -----

  function PartJobs(m: nat, field: string, i: nat, item: Json): seq<Job> {
    if ImagePart(item) then [OpenAIJob(m, field, i, PartUrl(item), ObjectForm(item))] else []
  }

  function FieldJobs(m: nat, field: string, items: seq<Json>): (r: seq<seq<Job>>)
    ensures |r| == |items|
  {
    seq(|items|, i requires 0 <= i < |items| => PartJobs(m, field, i, items[i]))
  }

  function MessageJobs(m: nat, msg: Json): seq<Job> {
    Join(FieldJobs(m, "content", ArrayIn(msg, "content"))) +
    Join(FieldJobs(m, "reasoning_content", ArrayIn(msg, "reasoning_content")))
  }

  function AllMessageJobs(ms: seq<Json>): (r: seq<seq<Job>>)
    ensures |r| == |ms|
  {
    seq(|ms|, m requires 0 <= m < |ms| => MessageJobs(m, ms[m]))
  }

  function RequestJobs(body: Json): seq<Job> {
    Join(AllMessageJobs(ArrayIn(body, "messages")))
  }

  /** collectFromOpenAIMessageContent. */
  method CollectField(m: nat, field: string, items: seq<Json>) returns (jobs: seq<Job>)
    ensures jobs == Join(FieldJobs(m, field, items))
  {
    hide Join;
    jobs := [];
    ghost var all := FieldJobs(m, field, items);
    JoinNone();
    for i := 0 to |items|
      invariant jobs == Join(all[..i])
    {
      JoinOne(all, i);
      var item := items[i];
      assert all[i] == PartJobs(m, field, i, item);
      if StringIn(item, "type") == "" || StringIn(item, "type") == "image_url" {
        var u := PartUrl(item);
        if u != "" {
          jobs := jobs + [OpenAIJob(m, field, i, u, ObjectForm(item))];
        }
      }
    }
    assert all[..|items|] == all;
  }

  /** collectOpenAIImageReplaceJobs. */
  method CollectRequest(body: Json) returns (jobs: seq<Job>)
    ensures jobs == RequestJobs(body)
  {
    hide Join, FieldJobs;
    var ms := ArrayIn(body, "messages");
    ghost var all := AllMessageJobs(ms);
    jobs := [];
    JoinNone();
    for m := 0 to |ms|
      invariant jobs == Join(all[..m])
    {
      JoinOne(all, m);
      var content := CollectField(m, "content", ArrayIn(ms[m], "content"));
      jobs := jobs + content;
      var reasoning := CollectField(m, "reasoning_content", ArrayIn(ms[m], "reasoning_content"));
      jobs := jobs + reasoning;
      assert all[m] == content + reasoning;
    }
    assert all[..|ms|] == all;
  }

  // ----- The structural map, one step for each pass -----

  /** The new value of a part's image_url (or of its url, in object form), when the pass changes it. */
  function NewValue(p: Pass, item: Json): Option<Json> {
    var u := Trim(PartUrl(item));
    match p
    case Normalizing => if IsDataUrl(u) && !ObjectForm(item) then Some(UrlObject(u)) else None
    case Inlining(fetch) =>
      if !IsRemote(u) || !Usable(fetch(u)) then None
      else if ObjectForm(item) then Some(Str(DataUrl(fetch(u))))
      else Some(UrlObject(DataUrl(fetch(u))))
  }

  /** Replace what image_url refers to. */
  function WithImage(item: Json, value: Json): Json
    requires ImagePart(item)
  {
    if ObjectForm(item) then
      Obj(item.fields["image_url" := Obj(item.fields["image_url"].fields["url" := value])])
    else Obj(item.fields["image_url" := value])
  }

  function PassPart(p: Pass, item: Json): Json {
    if ImagePart(item) && NewValue(p, item).Some? then WithImage(item, NewValue(p, item).value) else item
  }

  /** Both passes on one part; at most one of them changes it. */
  function InlinePart(item: Json, fetch: string -> Fetched): Json {
    if !ImagePart(item) then item
    else
      var u := Trim(PartUrl(item));
      if IsDataUrl(u) then
        if ObjectForm(item) then item else WithImage(item, UrlObject(u))
      else if u == "" || !Usable(fetch(u)) then item
      else if ObjectForm(item) then WithImage(item, Str(DataUrl(fetch(u))))
      else WithImage(item, UrlObject(DataUrl(fetch(u))))
  }

  /** How far a part has come. */
  datatype Stage = Original | Normalized | Inlined(fetch: string -> Fetched)

  function Start(p: Pass): Stage {
    if p.Normalizing? then Original else Normalized
  }

  function End(p: Pass): Stage {
    match p case Normalizing => Normalized case Inlining(fetch) => Inlined(fetch)
  }

  function PartAt(s: Stage, item: Json): Json {
    match s
    case Original => item
    case Normalized => PassPart(Normalizing, item)
    case Inlined(fetch) => InlinePart(item, fetch)
  }

  function PartsAt(s: Stage, items: seq<Json>): (r: seq<Json>)
    ensures |r| == |items|
  {
    seq(|items|, i requires 0 <= i < |items| => PartAt(s, items[i]))
  }

  function FieldAt(s: Stage, msg: Json, field: string): Json {
    var items := ArrayIn(msg, field);
    if items == [] then msg else Obj(msg.fields[field := Arr(PartsAt(s, items))])
  }

  function MessageAt(s: Stage, msg: Json): Json {
    FieldAt(s, FieldAt(s, msg, "content"), "reasoning_content")
  }

  function MessagesAt(s: Stage, ms: seq<Json>): (r: seq<Json>)
    ensures |r| == |ms|
  {
    seq(|ms|, m requires 0 <= m < |ms| => MessageAt(s, ms[m]))
  }

  function RequestAt(s: Stage, body: Json): Json {
    var ms := ArrayIn(body, "messages");
    if ms == [] then body else Obj(body.fields["messages" := Arr(MessagesAt(s, ms))])
  }

  /** The body with every part inlined. */
  function InlineRequest(body: Json, fetch: string -> Fetched): Json {
    RequestAt(Inlined(fetch), body)
  }

  // ----- Edits relative to a part, an array, a message -----

  ghost function PartEdits(p: Pass, item: Json): seq<Edit> {
    if !ImagePart(item) || NewValue(p, item).None? then []
    else [Edit([Key("image_url")] + (if ObjectForm(item) then [Key("url")] else []), NewValue(p, item).value)]
  }

  ghost function FieldEdits(p: Pass, items: seq<Json>): (r: seq<seq<Edit>>)
    ensures |r| == |items|
  {
    seq(|items|, i requires 0 <= i < |items| => PartEdits(p, items[i]))
  }

  ghost function MessageEdits(p: Pass, msg: Json): seq<Edit> {
    Under([Key("content")], Spread(FieldEdits(p, ArrayIn(msg, "content")))) +
    Under([Key("reasoning_content")], Spread(FieldEdits(p, ArrayIn(msg, "reasoning_content"))))
  }

  ghost function AllMessageEdits(p: Pass, ms: seq<Json>): (r: seq<seq<Edit>>)
    ensures |r| == |ms|
  {
    seq(|ms|, m requires 0 <= m < |ms| => MessageEdits(p, ms[m]))
  }

  ghost function RequestEdits(p: Pass, body: Json): seq<Edit> {
    Under([Key("messages")], Spread(AllMessageEdits(p, ArrayIn(body, "messages"))))
  }

  lemma PartMakes(p: Pass, m: nat, field: string, i: nat, item: Json)
    ensures EditsOf(p, PartJobs(m, field, i, item)) ==
      Under([Key("messages"), Index(m), Key(field)] + [Index(i)], PartEdits(p, item))
  {
    hide EditsOf, Under, Trim, StartsWithFold;
    var base := [Key("messages"), Index(m), Key(field)] + [Index(i)];
    NoEdits(p, item);
    UnderNone(base);
    if ImagePart(item) {
      var j := OpenAIJob(m, field, i, PartUrl(item), ObjectForm(item));
      EditsOfOne(p, j);
      EmptyIsNotData();
      if NewValue(p, item).Some? {
        var path := [Key("image_url")] + (if ObjectForm(item) then [Key("url")] else []);
        OneUnder(base, path, NewValue(p, item).value);
        assert Path(j) == base + path;
      }
    }
  }

  lemma FieldMakes(p: Pass, m: nat, field: string, items: seq<Json>)
    ensures EditsOf(p, Join(FieldJobs(m, field, items))) ==
      Under([Key("messages"), Index(m), Key(field)], Spread(FieldEdits(p, items)))
  {
    hide EditsOf, Join, Spread, Under, PartEdits, PartJobs;
    forall i | 0 <= i < |items|
      ensures EditsOf(p, FieldJobs(m, field, items)[i]) ==
        Under([Key("messages"), Index(m), Key(field)] + [Index(i)], FieldEdits(p, items)[i])
    {
      PartMakes(p, m, field, i, items[i]);
    }
    JoinMakes(p, [Key("messages"), Index(m), Key(field)], FieldJobs(m, field, items), FieldEdits(p, items));
  }

  lemma MessageMakes(p: Pass, m: nat, msg: Json)
    ensures EditsOf(p, MessageJobs(m, msg)) == Under([Key("messages")] + [Index(m)], MessageEdits(p, msg))
  {
    hide EditsOf, Join, Spread, Under, FieldJobs, FieldEdits;
    var base := [Key("messages")] + [Index(m)];
    var c, r := ArrayIn(msg, "content"), ArrayIn(msg, "reasoning_content");
    FieldMakes(p, m, "content", c);
    FieldMakes(p, m, "reasoning_content", r);
    EditsOfAppend(p, Join(FieldJobs(m, "content", c)), Join(FieldJobs(m, "reasoning_content", r)));
    UnderTwice(base, [Key("content")], Spread(FieldEdits(p, c)));
    UnderTwice(base, [Key("reasoning_content")], Spread(FieldEdits(p, r)));
    assert base + [Key("content")] == [Key("messages"), Index(m), Key("content")];
    assert base + [Key("reasoning_content")] == [Key("messages"), Index(m), Key("reasoning_content")];
    UnderAppend(base, Under([Key("content")], Spread(FieldEdits(p, c))),
                Under([Key("reasoning_content")], Spread(FieldEdits(p, r))));
  }

  lemma RequestMakes(p: Pass, body: Json)
    ensures EditsOf(p, RequestJobs(body)) == RequestEdits(p, body)
  {
    hide EditsOf, Join, Spread, Under, MessageJobs, MessageEdits;
    var ms := ArrayIn(body, "messages");
    forall m | 0 <= m < |ms|
      ensures EditsOf(p, AllMessageJobs(ms)[m]) == Under([Key("messages")] + [Index(m)], AllMessageEdits(p, ms)[m])
    {
      MessageMakes(p, m, ms[m]);
    }
    JoinMakes(p, [Key("messages")], AllMessageJobs(ms), AllMessageEdits(p, ms));
  }

  // ----- The edits make the map -----

  lemma ImageReplaced(item: Json, value: Json)
    requires ImagePart(item)
    ensures SetAt(item, [Key("image_url")] + (if ObjectForm(item) then [Key("url")] else []), value) ==
      Some(WithImage(item, value))
  {
    if ObjectForm(item) {
      assert ([Key("image_url")] + [Key("url")])[1..] == [Key("url")];
      SetKey(Field(item, "image_url").value, "url", value);
    } else {
      assert [Key("image_url")] + [] == [Key("image_url")];
      SetKey(item, "image_url", value);
    }
  }

  lemma PartPassed(p: Pass, item: Json)
    ensures Apply(PartAt(Start(p), item), PartEdits(p, item)) == Some(PartAt(End(p), item))
  {
    hide Apply, SetAt, Trim, StartsWithFold, WithImage;
    ApplyNothing(PartAt(Start(p), item));
    EmptyIsNotData();
    if ImagePart(item) && NewValue(p, item).Some? {
      var path := [Key("image_url")] + (if ObjectForm(item) then [Key("url")] else []);
      ApplyOne(item, path, NewValue(p, item).value);
      ImageReplaced(item, NewValue(p, item).value);
    }
  }

  lemma FieldPassed(p: Pass, j: Json, field: string, items: seq<Json>)
    requires items != [] ==> Field(j, field) == Some(Arr(PartsAt(Start(p), items)))
    ensures Apply(j, Under([Key(field)], Spread(FieldEdits(p, items)))) ==
      Some(if items == [] then j else Obj(j.fields[field := Arr(PartsAt(End(p), items))]))
  {
    hide Apply, Spread, Under, PartEdits, PartAt;
    if items == [] {
      SpreadNothing([Key(field)]);
      ApplyNothing(j);
    } else {
      var b, a := PartsAt(Start(p), items), PartsAt(End(p), items);
      forall i | 0 <= i < |items| ensures Apply(b[i], FieldEdits(p, items)[i]) == Some(a[i]) {
        PartPassed(p, items[i]);
      }
      SpreadApplies(b, FieldEdits(p, items), a);
      ApplyUnder(j, Key(field), Spread(FieldEdits(p, items)));
    }
  }

  lemma MessagePassed(p: Pass, msg: Json)
    ensures Apply(MessageAt(Start(p), msg), MessageEdits(p, msg)) == Some(MessageAt(End(p), msg))
  {
    hide Apply, Spread, Under, PartsAt, FieldEdits;
    var c, r := ArrayIn(msg, "content"), ArrayIn(msg, "reasoning_content");
    var j := MessageAt(Start(p), msg);
    FieldPassed(p, j, "content", c);
    var mid := if c == [] then j else Obj(j.fields["content" := Arr(PartsAt(End(p), c))]);
    FieldPassed(p, mid, "reasoning_content", r);
    ApplyAppend(j, Under([Key("content")], Spread(FieldEdits(p, c))),
                Under([Key("reasoning_content")], Spread(FieldEdits(p, r))));
    var done := if r == [] then mid else Obj(mid.fields["reasoning_content" := Arr(PartsAt(End(p), r))]);
    if msg.Obj? {
      assert done.fields == MessageAt(End(p), msg).fields;
    }
  }

  lemma RequestPassed(p: Pass, body: Json)
    ensures Apply(RequestAt(Start(p), body), RequestEdits(p, body)) == Some(RequestAt(End(p), body))
  {
    hide Apply, Spread, Under, MessageAt, MessageEdits;
    var ms := ArrayIn(body, "messages");
    var start := RequestAt(Start(p), body);
    if ms == [] {
      SpreadNothing([Key("messages")]);
      ApplyNothing(body);
    } else {
      forall m | 0 <= m < |ms|
        ensures Apply(MessagesAt(Start(p), ms)[m], AllMessageEdits(p, ms)[m]) == Some(MessagesAt(End(p), ms)[m])
      {
        MessagePassed(p, ms[m]);
      }
      SpreadApplies(MessagesAt(Start(p), ms), AllMessageEdits(p, ms), MessagesAt(End(p), ms));
      ApplyUnder(start, Key("messages"), Spread(AllMessageEdits(p, ms)));
      assert start.fields["messages" := Arr(MessagesAt(End(p), ms))] == RequestAt(End(p), body).fields;
    }
  }

  lemma Untouched(body: Json)
    ensures RequestAt(Original, body) == body
  {
    var ms := ArrayIn(body, "messages");
    forall m | 0 <= m < |ms| ensures MessageAt(Original, ms[m]) == ms[m] {
      FieldUntouched(ms[m], "content");
      FieldUntouched(ms[m], "reasoning_content");
    }
    assert MessagesAt(Original, ms) == ms;
    if ms != [] {
      assert body.fields["messages" := Arr(ms)] == body.fields;
    }
  }

  lemma FieldUntouched(msg: Json, field: string)
    ensures FieldAt(Original, msg, field) == msg
  {
    var items := ArrayIn(msg, field);
    assert PartsAt(Original, items) == items;
    if items != [] {
      assert msg.fields[field := Arr(items)] == msg.fields;
    }
  }

  // ----- Order -----

  lemma FieldApart(p: Pass, field: string, items: seq<Json>)
    ensures AllApart(Under([Key(field)], Spread(FieldEdits(p, items))))
  {
    hide Spread, Apart, Under;
    SpreadApart(FieldEdits(p, items));
    AllApartUnder([Key(field)], Spread(FieldEdits(p, items)));
  }

  lemma MessageApart(p: Pass, msg: Json)
    ensures AllApart(MessageEdits(p, msg))
  {
    hide Spread, Apart, FieldEdits;
    var c, r := Spread(FieldEdits(p, ArrayIn(msg, "content"))), Spread(FieldEdits(p, ArrayIn(msg, "reasoning_content")));
    var low, high := Under([Key("content")], c), Under([Key("reasoning_content")], r);
    FieldApart(p, "content", ArrayIn(msg, "content"));
    FieldApart(p, "reasoning_content", ArrayIn(msg, "reasoning_content"));
    var all: seq<Edit> := low + high;
    forall i, k | 0 <= i < k < |all| ensures Apart(all[i].path, all[k].path) {
      if i < |low| <= k {
        ApartSteps(Key("content"), Key("reasoning_content"), c[i].path, r[k - |low|].path);
      }
    }
  }

  /** Within each pass the edits touch disjoint parts of the body, so their order is irrelevant. */
  lemma RequestApart(p: Pass, body: Json)
    ensures AllApart(EditsOf(p, RequestJobs(body)))
  {
    hide Spread, Apart, EditsOf, Under, MessageEdits;
    var ms := ArrayIn(body, "messages");
    forall m | 0 <= m < |ms| ensures AllApart(AllMessageEdits(p, ms)[m]) {
      MessageApart(p, ms[m]);
    }
    SpreadApart(AllMessageEdits(p, ms));
    AllApartUnder([Key("messages")], Spread(AllMessageEdits(p, ms)));
    RequestMakes(p, body);
  }

  // ----- The whole engine -----

  /**
   Exactly the remote images are inlined and data URLs in string form become objects; everything else is
   unchanged, unless a fetch failed.
   */
  method InlineImages(body: Json, fetch: string -> Fetched) returns (r: Outcome)
    ensures r == if AnyFetchError(RequestJobs(body), fetch) then FetchFailed else Body(InlineRequest(body, fetch))
  {
    hide EditsOf, Apply, AnyFetchError, RequestJobs, RequestEdits, RequestAt;
    var jobs := CollectRequest(body);
    RequestMakes(Normalizing, body);
    RequestMakes(Inlining(fetch), body);
    RequestPassed(Normalizing, body);
    RequestPassed(Inlining(fetch), body);
    Untouched(body);
    r := Process(body, jobs, fetch);
  }

  // ----- The fields of an inlined part -----

  /** The new image_url of a part: the object with its url replaced, or a new object with only a url. */
  predicate ImageIs(before: Json, after: Json, url: string) {
    && before.Obj? && after.Obj? && "image_url" in before.fields && after.fields.Keys == before.fields.Keys
    && (forall k :: k in before.fields && k != "image_url" ==> after.fields[k] == before.fields[k])
    && after.fields["image_url"].Obj?
    && var old_, new_ := before.fields["image_url"], after.fields["image_url"].fields;
       && "url" in new_ && new_["url"] == Str(url)
       && (if old_.Obj? then new_.Keys == old_.fields.Keys && forall k :: k in new_ && k != "url" ==> new_[k] == old_.fields[k]
           else new_.Keys == {"url"})
  }

  /** The url of a part as written: the string itself, or the object's url. */
  function WrittenUrl(item: Json): string {
    match item
    case Obj(f) =>
      (if "image_url" !in f then ""
       else match f["image_url"] case Str(u) => u case Obj(g) => StringIn(Obj(g), "url") case _ => "")
    case _ => ""
  }

  /**
   A part of type image_url, or of no type, with a url: a data URL in string form becomes an object around
   its trimmed form; a URL to fetch whose fetch gave data becomes a data URL made of that fetch's media type
   and data; every other part stays.
   */
  lemma PartSays(item: Json, fetch: string -> Fetched)
    ensures var r, u := InlinePart(item, fetch), Trim(WrittenUrl(item));
      if StringIn(item, "type") !in {"", "image_url"} || WrittenUrl(item) == "" then r == item
      else if u != "" && !FetchUrl(u) then
        if ObjectForm(item) then r == item else ImageIs(item, r, u)
      else if FetchUrl(u) && HasData(fetch(u)) then
        ImageIs(item, r, "data:" + fetch(u).mediaType + ";base64," + fetch(u).base64)
      else r == item
  {
    hide Trim, StartsWithFold;
    EmptyIsNotData();
    UrlsToFetch();
  }

  /** Every part of the field's array is inlined in its place; the field stays as it is if it has none. */
  predicate FieldMapped(j: Json, r: Json, field: string, fetch: string -> Fetched) {
    j.Obj? && r.Obj? && (field in j.fields <==> field in r.fields) &&
    (field in j.fields ==>
       if j.fields[field].Arr? then
         r.fields[field].Arr? && |r.fields[field].items| == |j.fields[field].items| &&
         forall i :: 0 <= i < |j.fields[field].items| ==>
           r.fields[field].items[i] == InlinePart(j.fields[field].items[i], fetch)
       else r.fields[field] == j.fields[field])
  }

  predicate MessageMapped(m: Json, r: Json, fetch: string -> Fetched) {
    if !m.Obj? then r == m
    else
      FieldMapped(m, r, "content", fetch) && FieldMapped(m, r, "reasoning_content", fetch) &&
      r.fields.Keys == m.fields.Keys &&
      forall k :: k in m.fields && k != "content" && k != "reasoning_content" ==> r.fields[k] == m.fields[k]
  }

  lemma MessageSays(m: Json, fetch: string -> Fetched)
    ensures MessageMapped(m, MessageAt(Inlined(fetch), m), fetch)
  {
    hide InlinePart;
    FieldSays(m, "content", fetch);
    var mid := FieldAt(Inlined(fetch), m, "content");
    FieldSays(mid, "reasoning_content", fetch);
  }

  lemma FieldSays(m: Json, field: string, fetch: string -> Fetched)
    ensures var r := FieldAt(Inlined(fetch), m, field);
      if !m.Obj? then r == m
      else
        FieldMapped(m, r, field, fetch) && r.fields.Keys == m.fields.Keys &&
        forall k :: k in m.fields && k != field ==> r.fields[k] == m.fields[k]
  {
    hide InlinePart;
  }

  /** In every message the parts of content and reasoning_content are mapped, and nothing else changes. */
  lemma RequestSays(body: Json, fetch: string -> Fetched)
    ensures var r := InlineRequest(body, fetch);
      if !(body.Obj? && "messages" in body.fields && body.fields["messages"].Arr?) then r == body
      else
        var before := body.fields["messages"].items;
        && r.Obj? && r.fields.Keys == body.fields.Keys
        && (forall k :: k in body.fields && k != "messages" ==> r.fields[k] == body.fields[k])
        && r.fields["messages"].Arr? && |r.fields["messages"].items| == |before|
        && forall m :: 0 <= m < |before| ==> MessageMapped(before[m], r.fields["messages"].items[m], fetch)
  {
    hide MessageAt, MessageMapped;
    var ms := ArrayIn(body, "messages");
    forall m | 0 <= m < |ms| ensures MessageMapped(ms[m], MessageAt(Inlined(fetch), ms[m]), fetch) {
      MessageSays(ms[m], fetch);
    }
  }
}
