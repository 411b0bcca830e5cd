/** pkg/engines/image-url-fetch/cache/file_store.go over a map of files, without faults. */
module FileStore {
  import opened Prelude
  import opened Text
  import opened MemoryIndex
  import opened CachePaths

  datatype Cached = Cached(data: string, contentType: string, bucket: string)

  datatype Op =
    | Get(key: string)
    | Put(key: string, data: string, contentType: string, now: int)
    | Delete(key: string)
    | DeleteBucket(bucket: string)

  datatype Answer = Hit(data: string, contentType: string) | Miss | Done | InvalidKey

  // ----- What the store means -----

  predicate PathsRight(root: Path, byKey: map<string, Entry>) {
    forall k :: k in byKey ==>
      KeyOk(k) && Plain(byKey[k].bucketID) && byKey[k].dataPath == DataPath(root, byKey[k].bucketID, k)
  }

  function PathsOf(byKey: map<string, Entry>): set<Path> {
    set k | k in byKey :: byKey[k].dataPath
  }

  /** The keys whose file is there, with what Get gives for them. */
  function View(byKey: map<string, Entry>, files: map<Path, string>): map<string, Cached> {
    map k | k in byKey && byKey[k].dataPath in files ::
      Cached(files[byKey[k].dataPath], byKey[k].contentType, byKey[k].bucketID)
  }

  /** DeleteBucket drops the bucket's keys, and any key whose file the argument happens to name. */
  predicate Struck(root: Path, b: string, key: string, c: Cached) {
    Trim(b) != "" && (c.bucket == b || DataPath(root, c.bucket, key) == Join(root, b))
  }

  function Next(root: Path, duration: int, a: map<string, Cached>, op: Op): map<string, Cached> {
    match op
    case Get(_) => a
    case Put(k, data, ct, now) => if KeyOk(k) then a[k := Cached(data, ct, BucketID(duration, now))] else a
    case Delete(k) => if KeyOk(k) then a - {k} else a
    case DeleteBucket(b) => map k | k in a && !Struck(root, b, k, a[k]) :: a[k]
  }

  function AnswerTo(a: map<string, Cached>, op: Op): Answer {
    match op
    case Get(k) =>
      (if !KeyOk(k) then InvalidKey else if k in a then Hit(a[k].data, a[k].contentType) else Miss)
    case Put(k, _, _, _) => if KeyOk(k) then Done else InvalidKey
    case Delete(k) => if KeyOk(k) then Done else InvalidKey
    case DeleteBucket(_) => Done
  }

  function After(root: Path, duration: int, ops: seq<Op>): map<string, Cached> {
    if ops == [] then map[]
    else Next(root, duration, After(root, duration, ops[..|ops| - 1]), ops[|ops| - 1])
  }

  /** The last Put of a key that nothing since has deleted. */
  function LastPut(root: Path, duration: int, ops: seq<Op>, key: string): Option<Cached> {
    if ops == [] then None
    else
      var earlier := LastPut(root, duration, ops[..|ops| - 1], key);
      match ops[|ops| - 1]
      case Get(_) => earlier
      case Put(k, data, ct, now) =>
        if k == key && KeyOk(k) then Some(Cached(data, ct, BucketID(duration, now))) else earlier
      case Delete(k) => if k == key then None else earlier
      case DeleteBucket(b) => if earlier.Some? && Struck(root, b, key, earlier.value) then None else earlier
  }

  lemma {:induction false} AfterIsLastPut(root: Path, duration: int, ops: seq<Op>, key: string)
    requires KeyOk(key)
    ensures LastPut(root, duration, ops, key) ==
      var a := After(root, duration, ops); if key in a then Some(a[key]) else None
    decreases |ops|
  {
    hide KeyOk, Struck, BucketID;
    if ops != [] {
      AfterIsLastPut(root, duration, ops[..|ops| - 1], key);
    }
  }

  // ----- One step on the maps -----

  lemma PathsDiffer(root: Path, byKey: map<string, Entry>, j: string, k: string)
    requires PathsRight(root, byKey) && j in byKey && k in byKey && j != k
    ensures byKey[j].dataPath != byKey[k].dataPath
  {
    hide DataPath, Plain, KeyOk;
    DataPathsDiffer(root, byKey[j].bucketID, j, byKey[k].bucketID, k);
  }

  function FilesAfterPut(byKey: map<string, Entry>, files: map<Path, string>, e: Entry, data: string): map<Path, string> {
    var written := files[e.dataPath := data];
    if e.key in byKey && byKey[e.key].dataPath != e.dataPath then written - {byKey[e.key].dataPath} else written
  }

  /** Different keys have different files. */
  ghost predicate Distinct(byKey: map<string, Entry>) {
    forall j, k :: j in byKey && k in byKey && j != k ==> byKey[j].dataPath != byKey[k].dataPath
  }

  lemma RightIsDistinct(root: Path, byKey: map<string, Entry>)
    requires PathsRight(root, byKey)
    ensures Distinct(byKey)
  {
    hide PathsRight;
    forall j, k | j in byKey && k in byKey && j != k ensures byKey[j].dataPath != byKey[k].dataPath {
      PathsDiffer(root, byKey, j, k);
    }
  }

  lemma PutView(byKey: map<string, Entry>, files: map<Path, string>, e: Entry, data: string)
    requires Distinct(byKey) && Distinct(byKey[e.key := e])
    ensures View(byKey[e.key := e], FilesAfterPut(byKey, files, e, data)) ==
      View(byKey, files)[e.key := Cached(data, e.contentType, e.bucketID)]
  {
    hide View;
    var after, files' := byKey[e.key := e], FilesAfterPut(byKey, files, e, data);
    var l, r := View(after, files'), View(byKey, files)[e.key := Cached(data, e.contentType, e.bucketID)];
    forall k ensures (k in l <==> k in r) && (k in l ==> l[k] == r[k]) {
      ViewAt(after, files', k);
      ViewAt(byKey, files, k);
      if k in byKey && k != e.key {
        assert after[k].dataPath != after[e.key].dataPath;
      }
    }
  }

  lemma PutFiles(byKey: map<string, Entry>, files: map<Path, string>, e: Entry, data: string)
    requires Distinct(byKey) && Distinct(byKey[e.key := e]) && files.Keys <= PathsOf(byKey)
    ensures FilesAfterPut(byKey, files, e, data).Keys <= PathsOf(byKey[e.key := e])
  {
    var after, files' := byKey[e.key := e], FilesAfterPut(byKey, files, e, data);
    forall p | p in files' ensures p in PathsOf(after) {
      if p == e.dataPath {
        assert after[e.key].dataPath == p;
      } else {
        var k :| k in byKey && byKey[k].dataPath == p;
        assert after[k].dataPath == p;
      }
    }
  }

  lemma PutSynced(byKey: map<string, Entry>, files: map<Path, string>, e: Entry, data: string)
    requires Distinct(byKey) && Distinct(byKey[e.key := e]) && files.Keys == PathsOf(byKey)
    ensures FilesAfterPut(byKey, files, e, data).Keys == PathsOf(byKey[e.key := e])
  {
    var after, files' := byKey[e.key := e], FilesAfterPut(byKey, files, e, data);
    PutFiles(byKey, files, e, data);
    forall p | p in PathsOf(after) ensures p in files' {
      var k :| k in after && after[k].dataPath == p;
      if k != e.key {
        assert byKey[k].dataPath in PathsOf(byKey);
      }
    }
  }

  lemma PutKeeps(root: Path, byKey: map<string, Entry>, files: map<Path, string>, e: Entry, data: string)
    requires PathsRight(root, byKey) && files.Keys <= PathsOf(byKey)
    requires KeyOk(e.key) && Plain(e.bucketID) && e.dataPath == DataPath(root, e.bucketID, e.key)
    ensures PathsRight(root, byKey[e.key := e])
    ensures FilesAfterPut(byKey, files, e, data).Keys <= PathsOf(byKey[e.key := e])
    ensures View(byKey[e.key := e], FilesAfterPut(byKey, files, e, data)) ==
      View(byKey, files)[e.key := Cached(data, e.contentType, e.bucketID)]
    ensures files.Keys == PathsOf(byKey) ==>
      FilesAfterPut(byKey, files, e, data).Keys == PathsOf(byKey[e.key := e])
  {
    hide DataPath, Plain, KeyOk, Distinct, View, PathsOf, FilesAfterPut;
    RightIsDistinct(root, byKey);
    RightIsDistinct(root, byKey[e.key := e]);
    PutView(byKey, files, e, data);
    PutFiles(byKey, files, e, data);
    if files.Keys == PathsOf(byKey) {
      PutSynced(byKey, files, e, data);
    }
  }

  lemma DeleteKeeps(root: Path, byKey: map<string, Entry>, files: map<Path, string>, key: string)
    requires PathsRight(root, byKey) && files.Keys <= PathsOf(byKey) && key in byKey
    ensures PathsRight(root, byKey - {key})
    ensures (files - {byKey[key].dataPath}).Keys <= PathsOf(byKey - {key})
    ensures View(byKey - {key}, files - {byKey[key].dataPath}) == View(byKey, files) - {key}
    ensures files.Keys == PathsOf(byKey) ==> (files - {byKey[key].dataPath}).Keys == PathsOf(byKey - {key})
  {
    hide DataPath, Plain, KeyOk;
    var after, files' := byKey - {key}, files - {byKey[key].dataPath};
    forall k | k in after ensures byKey[k].dataPath != byKey[key].dataPath {
      PathsDiffer(root, byKey, k, key);
    }
    forall p | p in files' ensures p in PathsOf(after) {
      var k :| k in byKey && byKey[k].dataPath == p;
      assert k in after;
    }
    forall p | p in PathsOf(after) && files.Keys == PathsOf(byKey) ensures p in files' {
      var k :| k in after && after[k].dataPath == p;
      assert byKey[k].dataPath in PathsOf(byKey);
    }
  }

  function PathsIn(byKey: map<string, Entry>, b: string): set<Path> {
    set k | k in byKey && byKey[k].bucketID == b :: byKey[k].dataPath
  }

  /** No key outside the bucket has its file under the path that the argument names. */
  predicate NamesNoOther(root: Path, byKey: map<string, Entry>, b: string) {
    forall k :: k in byKey && byKey[k].bucketID != b ==> byKey[k].dataPath != Join(root, b)
  }

  function FilesAfterBucket(root: Path, byKey: map<string, Entry>, files: map<Path, string>, b: string)
    : map<Path, string>
  {
    files - PathsIn(byKey, b) - {Join(root, b)}
  }

  lemma OthersKept(byKey: map<string, Entry>, b: string)
    requires Distinct(byKey)
    ensures forall k :: k in WithoutBucket(byKey, b) ==> byKey[k].dataPath !in PathsIn(byKey, b)
  {
    forall k | k in WithoutBucket(byKey, b) ensures byKey[k].dataPath !in PathsIn(byKey, b) {
      assert k !in KeysIn(byKey, b);
    }
  }

  lemma BucketFiles(root: Path, byKey: map<string, Entry>, files: map<Path, string>, b: string)
    requires Distinct(byKey) && files.Keys <= PathsOf(byKey)
    ensures FilesAfterBucket(root, byKey, files, b).Keys <= PathsOf(WithoutBucket(byKey, b))
  {
    hide Join;
    var after := WithoutBucket(byKey, b);
    forall p | p in FilesAfterBucket(root, byKey, files, b) ensures p in PathsOf(after) {
      var k :| k in byKey && byKey[k].dataPath == p;
      assert k in after && after[k].dataPath == p;
    }
  }

  lemma BucketSynced(root: Path, byKey: map<string, Entry>, files: map<Path, string>, b: string)
    requires Distinct(byKey) && files.Keys == PathsOf(byKey)
    ensures FilesAfterBucket(root, byKey, files, b).Keys == PathsOf(WithoutBucket(byKey, b)) <==>
      NamesNoOther(root, byKey, b)
  {
    hide Join, Distinct;
    var after, files' := WithoutBucket(byKey, b), FilesAfterBucket(root, byKey, files, b);
    BucketFiles(root, byKey, files, b);
    OthersKept(byKey, b);
    forall p | p in PathsOf(after) && p != Join(root, b) ensures p in files' {
      var k :| k in after && after[k].dataPath == p;
      assert byKey[k].dataPath in PathsOf(byKey);
    }
    forall k | k in byKey && byKey[k].bucketID != b ensures byKey[k].dataPath in PathsOf(after) {
      assert k in after;
    }
    if NamesNoOther(root, byKey, b) {
      assert Join(root, b) !in PathsOf(after);
    }
  }

  lemma BucketView(root: Path, duration: int, byKey: map<string, Entry>, files: map<Path, string>, b: string)
    requires PathsRight(root, byKey) && Distinct(byKey) && Trim(b) != ""
    ensures View(WithoutBucket(byKey, b), FilesAfterBucket(root, byKey, files, b)) ==
      Next(root, duration, View(byKey, files), DeleteBucket(b))
  {
    hide Join, Distinct, DataPath, Plain, KeyOk, Trim;
    OthersKept(byKey, b);
  }

  lemma DeleteBucketKeeps(root: Path, duration: int, byKey: map<string, Entry>, files: map<Path, string>, b: string)
    requires PathsRight(root, byKey) && files.Keys <= PathsOf(byKey) && Trim(b) != ""
    ensures var after, files' := WithoutBucket(byKey, b), FilesAfterBucket(root, byKey, files, b);
      PathsRight(root, after) && files'.Keys <= PathsOf(after) &&
      View(after, files') == Next(root, duration, View(byKey, files), DeleteBucket(b)) &&
      (files.Keys == PathsOf(byKey) ==> (files'.Keys == PathsOf(after) <==> NamesNoOther(root, byKey, b)))
  {
    hide DataPath, Plain, KeyOk, Join, Trim, Distinct, View, PathsOf, FilesAfterBucket, NamesNoOther, Next;
    RightIsDistinct(root, byKey);
    BucketFiles(root, byKey, files, b);
    BucketView(root, duration, byKey, files, b);
    if files.Keys == PathsOf(byKey) {
      BucketSynced(root, byKey, files, b);
    }
  }

  class Store {
    const root: Path
    const duration: int
    const ix: Index
    var files: map<Path, string>

    /** Every file belongs to an indexed key; a key may have lost its file until Get notices. */
    predicate Valid()
      reads this, ix
    {
      ix.Valid() && PathsRight(root, ix.byKey) && files.Keys <= PathsOf(ix.byKey)
    }

    /** The files are exactly the indexed paths. */
    predicate Synced()
      reads this, ix
    {
      files.Keys == PathsOf(ix.byKey)
    }

    function Contents(): map<string, Cached>
      reads this, ix
    {
      View(ix.byKey, files)
    }

    constructor (root: Path, duration: int)
      ensures Valid() && Synced() && Contents() == map[] && fresh(ix)
      ensures this.root == root && this.duration == duration
    {
      this.root, this.duration := root, duration;
      ix := new Index();
      files := map[];
    }

    method Get(key: string) returns (r: Answer)
      requires Valid()
      modifies ix
      ensures Valid() && Contents() == old(Contents()) && (old(Synced()) ==> Synced())
      ensures r == AnswerTo(old(Contents()), Op.Get(key))
    {
      hide Inverse, PathsRight, KeyOk, View, PathsOf;
      ViewAt(ix.byKey, files, key);
      if !KeyOk(key) {
        return InvalidKey;
      }
      var e := ix.Snapshot(key);
      if e.None? {
        return Miss;
      }
      if e.value.dataPath !in files {
        DeleteKeeps(root, ix.byKey, files, key);
        assert files - {e.value.dataPath} == files;
        assert Contents() - {key} == Contents();
        var _ := ix.DeleteKey(key);
        return Miss;
      }
      return Hit(files[e.value.dataPath], e.value.contentType);
    }

    method Put(key: string, data: string, contentType: string, now: int) returns (r: Answer)
      requires Valid()
      modifies this`files, ix
      ensures Valid() && (old(Synced()) ==> Synced())
      ensures Contents() == Next(root, duration, old(Contents()), Op.Put(key, data, contentType, now))
      ensures r == AnswerTo(old(Contents()), Op.Put(key, data, contentType, now))
    {
      hide Inverse, PathsRight, KeyOk, PathsOf, View, DataPath, Plain, BucketID;
      if !KeyOk(key) {
        return InvalidKey;
      }
      var bucket := BucketID(duration, now);
      var dataPath := DataPath(root, bucket, key);
      var ent := Entry(key, bucket, dataPath, |data|, contentType);
      BucketPlain(duration, now);
      PutKeeps(root, ix.byKey, files, ent, data);
      ghost var expected := FilesAfterPut(ix.byKey, files, ent, data);
      files := files[dataPath := data];
      var prev := ix.InsertOrReplace(ent);
      if prev.Some? && prev.value.dataPath != ent.dataPath {
        files := files - {prev.value.dataPath};
      }
      assert files == expected;
      return Done;
    }

    method Delete(key: string) returns (r: Answer)
      requires Valid()
      modifies this`files, ix
      ensures Valid() && (old(Synced()) ==> Synced())
      ensures Contents() == Next(root, duration, old(Contents()), Op.Delete(key))
      ensures r == AnswerTo(old(Contents()), Op.Delete(key))
    {
      hide Inverse, PathsRight, KeyOk;
      if !KeyOk(key) {
        return InvalidKey;
      }
      if key in ix.byKey {
        DeleteKeeps(root, ix.byKey, files, key);
      }
      var prev := ix.DeleteKey(key);
      if prev.None? {
        assert ix.byKey == old(ix.byKey);
        assert Contents() - {key} == Contents();
        return Done;
      }
      files := files - {prev.value.dataPath};
      return Done;
    }

    /** The entries' files go, and then whatever the joined path names. */
    method DeleteBucket(b: string) returns (r: Answer)
      requires Valid()
      modifies this`files, ix
      ensures Valid() && r == Done
      ensures Contents() == Next(root, duration, old(Contents()), Op.DeleteBucket(b))
      ensures old(Synced()) ==> (Synced() <==> Trim(b) == "" || NamesNoOther(root, old(ix.byKey), b))
    {
      hide Inverse, PathsRight, Trim, Join, PathsOf, View, WithoutBucket, PathsIn, KeysIn, Lists, NamesNoOther, Next;
      if Trim(b) == "" {
        NothingStruck(root, duration, Contents(), b);
        return Done;
      }
      DeleteBucketKeeps(root, duration, ix.byKey, files, b);
      ghost var byKey, before := ix.byKey, files;
      var ents := ix.RemoveBucket(b);
      RemoveFiles(ents);
      PathsListed(ents, byKey, b);
      files := files - {Join(root, b)};
      return Done;
    }

    method RemoveFiles(ents: seq<Entry>)
      modifies this`files
      ensures files == old(files) - (set e | e in ents :: e.dataPath)
    {
      for i := 0 to |ents|
        invariant files == old(files) - (set e | e in ents[..i] :: e.dataPath)
      {
        assert ents[..i + 1] == ents[..i] + [ents[i]];
        files := files - {ents[i].dataPath};
      }
      assert ents[..|ents|] == ents;
    }
  }

  lemma ViewAt(byKey: map<string, Entry>, files: map<Path, string>, key: string)
    ensures key in View(byKey, files) <==> key in byKey && byKey[key].dataPath in files
    ensures key in View(byKey, files) ==>
      View(byKey, files)[key] == Cached(files[byKey[key].dataPath], byKey[key].contentType, byKey[key].bucketID)
  {
  }

  lemma BucketPlain(duration: int, now: int)
    ensures Plain(BucketID(duration, now))
  {
    DecimalPlain(now - Rem(now, Window(duration)));
  }

  lemma NothingStruck(root: Path, duration: int, a: map<string, Cached>, b: string)
    requires Trim(b) == ""
    ensures Next(root, duration, a, DeleteBucket(b)) == a
  {
  }

  lemma PathsListed(ents: seq<Entry>, byKey: map<string, Entry>, b: string)
    requires Lists(ents, byKey, KeysIn(byKey, b))
    ensures (set e | e in ents :: e.dataPath) == PathsIn(byKey, b)
  {
    var all := set e | e in ents :: e.dataPath;
    forall p | p in PathsIn(byKey, b) ensures p in all {
      var k :| k in byKey && byKey[k].bucketID == b && byKey[k].dataPath == p;
      assert k in KeysIn(byKey, b) && byKey[k] in ents;
    }
    forall p | p in all ensures p in PathsIn(byKey, b) {
      var e :| e in ents && e.dataPath == p;
      assert e.key in byKey && byKey[e.key].bucketID == b;
    }
  }

  method Perform(store: Store, op: Op) returns (r: Answer)
    requires store.Valid()
    modifies store`files, store.ix
    ensures store.Valid()
    ensures store.Contents() == Next(store.root, store.duration, old(store.Contents()), op)
    ensures r == AnswerTo(old(store.Contents()), op)
  {
    match op
    case Get(k) => r := store.Get(k);
    case Put(k, data, ct, now) => r := store.Put(k, data, ct, now);
    case Delete(k) => r := store.Delete(k);
    case DeleteBucket(b) => r := store.DeleteBucket(b);
  }

  /** Any run from an empty store: every answer is the one given by the operations so far. */
  method Run(store: Store, ops: seq<Op>) returns (answers: seq<Answer>)
    requires store.Valid() && store.Contents() == map[]
    modifies store`files, store.ix
    ensures |answers| == |ops|
    ensures forall i :: 0 <= i < |ops| ==> answers[i] == AnswerAt(store.root, store.duration, ops, i)
  {
    hide Next, AnswerTo, After;
    ghost var root, duration := store.root, store.duration;
    answers := [];
    NothingDone(root, duration, ops);
    for i := 0 to |ops|
      invariant store.Valid() && store.Contents() == After(root, duration, ops[..i])
      invariant |answers| == i
      invariant forall k :: 0 <= k < i ==> answers[k] == AnswerAt(root, duration, ops, k)
    {
      AfterSnoc(root, duration, ops, i);
      var r := Perform(store, ops[i]);
      answers := answers + [r];
    }
  }

  /** The answer determined by the operations before position i. */
  function AnswerAt(root: Path, duration: int, ops: seq<Op>, i: nat): Answer
    requires i < |ops|
  {
    AnswerTo(After(root, duration, ops[..i]), ops[i])
  }

  lemma NothingDone(root: Path, duration: int, ops: seq<Op>)
    ensures After(root, duration, ops[..0]) == map[]
  {
  }

  lemma AfterSnoc(root: Path, duration: int, ops: seq<Op>, i: nat)
    requires i < |ops|
    ensures After(root, duration, ops[..i + 1]) == Next(root, duration, After(root, duration, ops[..i]), ops[i])
  {
    hide Next;
    assert ops[..i + 1][..i] == ops[..i];
  }

  /** Get returns what the key's last Put stored, unless something deleted it since. */
  lemma GetGivesLastPut(root: Path, duration: int, ops: seq<Op>, key: string)
    ensures AnswerTo(After(root, duration, ops), Get(key)) ==
      if !KeyOk(key) then InvalidKey
      else match LastPut(root, duration, ops, key) case None => Miss case Some(c) => Hit(c.data, c.contentType)
  {
    if KeyOk(key) {
      AfterIsLastPut(root, duration, ops, key);
    }
  }

  /** A bucket argument without a slash deletes exactly the keys of that bucket. */
  lemma PlainDeleteBucket(root: Path, duration: int, a: map<string, Cached>, b: string)
    requires '/' !in b && Trim(b) != ""
    requires forall k :: k in a ==> KeyOk(k) && Plain(a[k].bucket)
    ensures Next(root, duration, a, DeleteBucket(b)) == map k | k in a && a[k].bucket != b :: a[k]
  {
    hide DataPath, Join, Trim, KeyOk, Plain;
    forall k | k in a ensures DataPath(root, a[k].bucket, k) != Join(root, b) {
      NoSlashNoStrike(root, b, a[k].bucket, k);
    }
  }
}
