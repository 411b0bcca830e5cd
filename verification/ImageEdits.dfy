/**
 Inlining of remote images: pkg/engines/image-url-fetch/extract.go, replace_job.go and the two edit
 passes of image_url_fetch.go. Collecting jobs with paths and editing the body at those paths is shown
 to equal one structural map over the body.
 */
module ImageEdits {
  import opened Prelude
  import opened JsonEdits
  import opened Text

  // ----- URLs -----

  function LowerChar(c: char): char {
    if 'A' <= c <= 'Z' then (c as int + 32) as char else c
  }

  /** s begins with the lower-case word, letter case aside. */
  predicate StartsWithFold(s: string, word: string) {
    |word| <= |s| && forall i :: 0 <= i < |word| ==> LowerChar(s[i]) == word[i]
  }

  predicate IsDataUrl(u: string) {
    StartsWithFold(u, "data:")
  }

  predicate IsRemote(u: string) {
    u != "" && !IsDataUrl(u)
  }

  /** Not empty and not beginning with "data:", letter case aside. */
  predicate FetchUrl(u: string) {
    u != "" &&
    !(|u| >= 5 && LowerChar(u[0]) == 'd' && LowerChar(u[1]) == 'a' && LowerChar(u[2]) == 't' && LowerChar(u[3]) == 'a' &&
      LowerChar(u[4]) == ':')
  }

  lemma UrlsToFetch()
    ensures forall u :: IsRemote(u) <==> FetchUrl(u)
  {
    hide LowerChar;
    forall u ensures IsRemote(u) <==> FetchUrl(u) {
      assert "data:"[0] == 'd' && "data:"[1] == 'a' && "data:"[2] == 't' && "data:"[3] == 'a' && "data:"[4] == ':';
    }
  }

  // ----- Reading the body -----

  function Field(j: Json, k: string): Option<Json> {
    Child(j, Key(k))
  }

  function StringIn(j: Json, k: string): string {
    match Field(j, k) case Some(Str(t)) => t case _ => ""
  }

  /** What fetching a URL gave; an empty media type with empty data is left alone. */
  datatype Fetched = Image(mediaType: string, base64: string) | FetchError(error: string)

  datatype Job =
    | ClaudeJob(msgIndex: nat, indices: seq<nat>, url: string)
    | OpenAIJob(msgIndex: nat, field: string, part: nat, url: string, isObject: bool)

  function RemoteUrl(j: Job): string {
    Trim(j.url)
  }

  function Deep(indices: seq<nat>): seq<Step> {
    if indices == [] then []
    else Deep(indices[..|indices| - 1]) + [Key("content"), Index(indices[|indices| - 1])]
  }

  /** jsonParserPathToSource and jsonParserPath. */
  function Path(j: Job): seq<Step> {
    match j
    case ClaudeJob(m, indices, _) => [Key("messages"), Index(m)] + Deep(indices) + [Key("source")]
    case OpenAIJob(m, field, part, _, isObject) =>
      [Key("messages"), Index(m), Key(field), Index(part), Key("image_url")] + (if isObject then [Key("url")] else [])
  }

  function DataUrl(img: Fetched): string
    requires img.Image?
  {
    "data:" + img.mediaType + ";base64," + img.base64
  }

  function ClaudeSource(img: Fetched): Json
    requires img.Image?
  {
    Obj(map["type" := Str("base64"), "media_type" := Str(img.mediaType), "data" := Str(img.base64)])
  }

  function UrlObject(u: string): Json {
    Obj(map["url" := Str(u)])
  }

  predicate Usable(img: Fetched) {
    img.Image? && !(img.mediaType == "" && img.base64 == "")
  }

  /** inlineReplacement. */
  function Replacement(j: Job, img: Fetched): Json
    requires img.Image?
  {
    if j.ClaudeJob? then ClaudeSource(img)
    else if j.isObject then Str(DataUrl(img))
    else UrlObject(DataUrl(img))
  }

  predicate HasData(img: Fetched) {
    img.Image? && (img.mediaType != "" || img.base64 != "")
  }

  function InlineEdits(j: Job, fetch: string -> Fetched): seq<Edit> {
    var u := RemoteUrl(j);
    if IsRemote(u) && Usable(fetch(u)) then [Edit(Path(j), Replacement(j, fetch(u)))] else []
  }

  /** normalizeExistingURL, made for data URLs in string form. */
  function NormalizeEdits(j: Job): seq<Edit> {
    if IsDataUrl(RemoteUrl(j)) && j.OpenAIJob? && !j.isObject then [Edit(Path(j), UrlObject(RemoteUrl(j)))] else []
  }

  /** The first pass rewrites data URLs in string form; the second inlines what was fetched. */
  datatype Pass = Normalizing | Inlining(fetch: string -> Fetched)

  function PassEdits(p: Pass, j: Job): (r: seq<Edit>)
    ensures |r| <= 1
  {
    match p
    case Normalizing => NormalizeEdits(j)
    case Inlining(fetch) => InlineEdits(j, fetch)
  }

  function EditsOf(p: Pass, jobs: seq<Job>): seq<Edit> {
    if jobs == [] then [] else EditsOf(p, jobs[..|jobs| - 1]) + PassEdits(p, jobs[|jobs| - 1])
  }

  lemma {:induction false} EditsOfAppend(p: Pass, a: seq<Job>, b: seq<Job>)
    ensures EditsOf(p, a + b) == EditsOf(p, a) + EditsOf(p, b)
    decreases |b|
  {
    hide PassEdits;
    if b == [] {
      assert a + b == a;
    } else {
      var n := |b| - 1;
      assert (a + b)[..|a + b| - 1] == a + b[..n];
      EditsOfAppend(p, a, b[..n]);
    }
  }

  lemma EditsOfOne(p: Pass, j: Job)
    ensures EditsOf(p, [j]) == PassEdits(p, j)
  {
    assert [j][..0] == [];
  }

  // ----- Process -----

  datatype Outcome = Body(json: Json) | FetchFailed | EditFailed

  function RemoteUrls(jobs: seq<Job>): set<string> {
    set j | j in jobs && IsRemote(RemoteUrl(j)) :: RemoteUrl(j)
  }

  predicate AnyFetchError(jobs: seq<Job>, fetch: string -> Fetched) {
    exists u :: u in RemoteUrls(jobs) && fetch(u).FetchError?
  }

  function Edited(r: Option<Json>): Outcome {
    match r case None => EditFailed case Some(j) => Body(j)
  }

  /** The first pass over the jobs: data URLs in string form become objects, the others are gathered. */
  method NormalizePass(body: Json, jobs: seq<Job>) returns (r: Option<Json>, unique: set<string>)
    ensures r == Apply(body, EditsOf(Normalizing, jobs))
    ensures r.Some? ==> unique == RemoteUrls(jobs)
  {
    hide Trim, StartsWithFold, Path, SetAt, Apply, EditsOf;
    var out := body;
    unique := {};
    NoEdits(Normalizing, body);
    for i := 0 to |jobs|
      invariant Apply(body, EditsOf(Normalizing, jobs[..i])) == Some(out)
      invariant unique == RemoteUrls(jobs[..i])
    {
      var u := RemoteUrl(jobs[i]);
      EditsSnoc(Normalizing, body, jobs, i);
      EmptyIsNotData();
      RemoteUrlsSnoc(jobs, i);
      if u != "" {
        if IsDataUrl(u) {
          if jobs[i].OpenAIJob? && !jobs[i].isObject {
            var edited := SetAt(out, Path(jobs[i]), UrlObject(u));
            if edited.None? {
              return None, {};
            }
            out := edited.value;
          }
        } else {
          unique := unique + {u};
        }
      }
    }
    assert jobs[..|jobs|] == jobs;
    return Some(out), unique;
  }

  /** The second pass: every remote URL is replaced by what its fetch gave. */
  method InlinePass(body: Json, jobs: seq<Job>, result: map<string, Fetched>, ghost fetch: string -> Fetched)
    returns (r: Option<Json>)
    requires result.Keys == RemoteUrls(jobs)
    requires forall u :: u in result ==> result[u] == fetch(u) && fetch(u).Image?
    ensures r == Apply(body, EditsOf(Inlining(fetch), jobs))
  {
    hide Trim, StartsWithFold, Path, SetAt, Apply, EditsOf;
    var out := body;
    NoEdits(Inlining(fetch), body);
    for i := 0 to |jobs|
      invariant Apply(body, EditsOf(Inlining(fetch), jobs[..i])) == Some(out)
    {
      var u := RemoteUrl(jobs[i]);
      EditsSnoc(Inlining(fetch), body, jobs, i);
      EmptyIsNotData();
      if u != "" && !IsDataUrl(u) {
        assert u in result by {
          assert jobs[i] in jobs && IsRemote(u);
        }
        var fr := result[u];
        if !(fr.mediaType == "" && fr.base64 == "") {
          var edited := SetAt(out, Path(jobs[i]), Replacement(jobs[i], fr));
          if edited.None? {
            return None;
          }
          out := edited.value;
        }
      }
    }
    assert jobs[..|jobs|] == jobs;
    return Some(out);
  }

  /** Both edit passes around the fetches of the distinct remote URLs. */
  method Process(body: Json, jobs: seq<Job>, fetch: string -> Fetched) returns (r: Outcome)
    ensures r ==
      (match Apply(body, EditsOf(Normalizing, jobs))
       case None => EditFailed
       case Some(mid) =>
         if AnyFetchError(jobs, fetch) then FetchFailed else Edited(Apply(mid, EditsOf(Inlining(fetch), jobs))))
  {
    hide Apply, EditsOf, RemoteUrls;
    var normalized, unique := NormalizePass(body, jobs);
    if normalized.None? {
      return EditFailed;
    }
    if unique == {} {
      NoneRemote(jobs, fetch);
      NoEdits(Inlining(fetch), normalized.value);
      return Body(normalized.value);
    }
    var result := map u | u in unique :: fetch(u);
    if u :| u in unique && fetch(u).FetchError? {
      return FetchFailed;
    }
    var inlined := InlinePass(normalized.value, jobs, result, fetch);
    return Edited(inlined);
  }

  lemma NoEdits(p: Pass, body: Json)
    ensures forall jobs: seq<Job> :: EditsOf(p, jobs[..0]) == []
    ensures EditsOf(p, []) == [] && Apply(body, []) == Some(body)
  {
  }

  lemma RemoteUrlsSnoc(jobs: seq<Job>, i: nat)
    requires i < |jobs|
    ensures RemoteUrls(jobs[..0]) == {}
    ensures RemoteUrls(jobs[..i + 1]) ==
      RemoteUrls(jobs[..i]) + (if IsRemote(RemoteUrl(jobs[i])) then {RemoteUrl(jobs[i])} else {})
  {
    hide RemoteUrl, IsRemote;
    assert jobs[..i + 1] == jobs[..i] + [jobs[i]];
  }

  lemma EmptyIsNotData()
    ensures !IsDataUrl("")
  {
  }

  lemma NoneRemote(jobs: seq<Job>, fetch: string -> Fetched)
    requires RemoteUrls(jobs) == {}
    ensures EditsOf(Inlining(fetch), jobs) == []
  {
    hide RemoteUrl, IsRemote;
    forall k | 0 <= k < |jobs| ensures !IsRemote(RemoteUrl(jobs[k])) {
      assert jobs[k] in jobs;
      assert RemoteUrl(jobs[k]) !in RemoteUrls(jobs);
    }
    NoInline(jobs, fetch);
  }

  lemma {:induction false} NoInline(jobs: seq<Job>, fetch: string -> Fetched)
    requires forall k :: 0 <= k < |jobs| ==> !IsRemote(RemoteUrl(jobs[k]))
    ensures EditsOf(Inlining(fetch), jobs) == []
    decreases |jobs|
  {
    hide RemoteUrl, IsRemote;
    if jobs != [] {
      NoInline(jobs[..|jobs| - 1], fetch);
    }
  }

  lemma ApplyOneMore(body: Json, edits: seq<Edit>, more: seq<Edit>)
    requires |more| <= 1
    ensures Apply(body, edits + more) ==
      match Apply(body, edits)
      case None => None
      case Some(m) => if more == [] then Some(m) else SetAt(m, more[0].path, more[0].value)
  {
    ApplyAppend(body, edits, more);
    if more != [] {
      assert more[..0] == [];
    }
  }

  lemma {:induction false} EditsStuck(p: Pass, body: Json, jobs: seq<Job>, i: nat)
    requires i <= |jobs| && Apply(body, EditsOf(p, jobs[..i])) == None
    ensures Apply(body, EditsOf(p, jobs)) == None
    decreases |jobs| - i
  {
    hide PassEdits, SetAt;
    if i == |jobs| {
      assert jobs[..i] == jobs;
    } else {
      assert jobs[..i + 1][..i] == jobs[..i];
      ApplyAppend(body, EditsOf(p, jobs[..i]), PassEdits(p, jobs[i]));
      EditsStuck(p, body, jobs, i + 1);
    }
  }

  lemma EditsSnoc(p: Pass, body: Json, jobs: seq<Job>, i: nat)
    requires i < |jobs|
    ensures var more := PassEdits(p, jobs[i]);
      Apply(body, EditsOf(p, jobs[..i + 1])) ==
      match Apply(body, EditsOf(p, jobs[..i]))
      case None => None
      case Some(m) => if more == [] then Some(m) else SetAt(m, more[0].path, more[0].value)
    ensures Apply(body, EditsOf(p, jobs[..i + 1])) == None ==> Apply(body, EditsOf(p, jobs)) == None
  {
    hide Apply, SetAt, PassEdits;
    assert jobs[..i + 1][..i] == jobs[..i];
    ApplyOneMore(body, EditsOf(p, jobs[..i]), PassEdits(p, jobs[i]));
    if Apply(body, EditsOf(p, jobs[..i + 1])) == None {
      EditsStuck(p, body, jobs, i + 1);
    }
  }
}
