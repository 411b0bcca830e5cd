/**
 pkg/engines/image-url-fetch/cache/memory_index.go: entries by key, and the keys of every bucket. The lock
 is not modelled: every method is one atomic step.
 */
module MemoryIndex {
  import opened Prelude

  type Path = seq<string>

  datatype Entry = Entry(key: string, bucketID: string, dataPath: Path, size: nat, contentType: string)

  function Buckets(byKey: map<string, Entry>): set<string> {
    set k | k in byKey :: byKey[k].bucketID
  }

  function KeysIn(byKey: map<string, Entry>, b: string): set<string> {
    set k | k in byKey && byKey[k].bucketID == b
  }

  /** The keys of every bucket that holds any. */
  function Inverse(byKey: map<string, Entry>): map<string, set<string>> {
    map b | b in Buckets(byKey) :: KeysIn(byKey, b)
  }

  function DropKey(byBucket: map<string, set<string>>, b: string, key: string): map<string, set<string>> {
    if b !in byBucket then byBucket
    else if byBucket[b] - {key} == {} then byBucket - {b}
    else byBucket[b := byBucket[b] - {key}]
  }

  function AddKey(byBucket: map<string, set<string>>, b: string, key: string): map<string, set<string>> {
    byBucket[b := (if b in byBucket then byBucket[b] else {}) + {key}]
  }

  lemma BucketMember(byKey: map<string, Entry>, b: string)
    ensures b in Buckets(byKey) <==> KeysIn(byKey, b) != {}
  {
    if b in Buckets(byKey) {
      var k :| k in byKey && byKey[k].bucketID == b;
      assert k in KeysIn(byKey, b);
    }
  }

  lemma SameInverse(a: map<string, set<string>>, byKey: map<string, Entry>)
    requires forall b :: b in a ==> a[b] == KeysIn(byKey, b) && a[b] != {}
    requires forall b :: KeysIn(byKey, b) != {} ==> b in a
    ensures a == Inverse(byKey)
  {
    forall b ensures b in a <==> b in Buckets(byKey) {
      BucketMember(byKey, b);
    }
    assert a.Keys == Inverse(byKey).Keys;
  }

  lemma InverseAt(byKey: map<string, Entry>, b: string)
    ensures b in Inverse(byKey) <==> KeysIn(byKey, b) != {}
    ensures b in Inverse(byKey) ==> Inverse(byKey)[b] == KeysIn(byKey, b)
  {
    BucketMember(byKey, b);
  }

  lemma DropIsInverse(byKey: map<string, Entry>, key: string)
    requires key in byKey
    ensures DropKey(Inverse(byKey), byKey[key].bucketID, key) == Inverse(byKey - {key})
  {
    hide Inverse;
    var a := DropKey(Inverse(byKey), byKey[key].bucketID, key);
    forall b
      ensures b in a ==> a[b] == KeysIn(byKey - {key}, b) && a[b] != {}
      ensures KeysIn(byKey - {key}, b) != {} ==> b in a
    {
      InverseAt(byKey, b);
      InverseAt(byKey, byKey[key].bucketID);
      assert KeysIn(byKey - {key}, b) == KeysIn(byKey, b) - {key};
      assert b != byKey[key].bucketID ==> key !in KeysIn(byKey, b);
    }
    SameInverse(a, byKey - {key});
  }

  lemma AddIsInverse(byKey: map<string, Entry>, key: string, e: Entry)
    requires key !in byKey
    ensures AddKey(Inverse(byKey), e.bucketID, key) == Inverse(byKey[key := e])
  {
    hide Inverse;
    var a := AddKey(Inverse(byKey), e.bucketID, key);
    forall b
      ensures b in a ==> a[b] == KeysIn(byKey[key := e], b) && a[b] != {}
      ensures KeysIn(byKey[key := e], b) != {} ==> b in a
    {
      InverseAt(byKey, b);
      InverseAt(byKey, e.bucketID);
      assert KeysIn(byKey[key := e], b) == KeysIn(byKey, b) + (if b == e.bucketID then {key} else {});
    }
    SameInverse(a, byKey[key := e]);
  }

  function WithoutBucket(byKey: map<string, Entry>, b: string): map<string, Entry> {
    byKey - KeysIn(byKey, b)
  }

  lemma RemoveIsInverse(byKey: map<string, Entry>, b: string)
    ensures Inverse(byKey) - {b} == Inverse(WithoutBucket(byKey, b))
  {
    hide Inverse;
    var a := Inverse(byKey) - {b};
    var rest := WithoutBucket(byKey, b);
    forall c
      ensures c in a ==> a[c] == KeysIn(rest, c) && a[c] != {}
      ensures KeysIn(rest, c) != {} ==> c in a
    {
      InverseAt(byKey, c);
      assert c != b ==> KeysIn(rest, c) == KeysIn(byKey, c);
      assert c == b ==> KeysIn(rest, c) == {};
    }
    SameInverse(a, rest);
  }

  class Index {
    var byKey: map<string, Entry>
    var byBucket: map<string, set<string>>

    /** The second map is exactly the inverse of the first, without empty buckets. */
    predicate Valid()
      reads this
    {
      byBucket == Inverse(byKey) && forall k :: k in byKey ==> byKey[k].key == k
    }

    constructor ()
      ensures Valid() && byKey == map[]
    {
      byKey, byBucket := map[], map[];
    }

    method Snapshot(key: string) returns (e: Option<Entry>)
      requires Valid()
      ensures e == if key in byKey then Some(byKey[key]) else None
    {
      if key !in byKey {
        return None;
      }
      return Some(byKey[key]);
    }

    /** deleteKey. */
    method DeleteKey(key: string) returns (prev: Option<Entry>)
      requires Valid()
      modifies this
      ensures Valid() && byKey == old(byKey) - {key}
      ensures prev == if key in old(byKey) then Some(old(byKey)[key]) else None
    {
      hide Inverse, DropKey;
      if key !in byKey {
        assert byKey == byKey - {key};
        return None;
      }
      DropIsInverse(byKey, key);
      var cur := byKey[key];
      byKey := byKey - {key};
      Unlink(cur.bucketID, key);
      return Some(cur);
    }

    /** insertOrReplace. */
    method InsertOrReplace(e: Entry) returns (prev: Option<Entry>)
      requires Valid()
      modifies this
      ensures Valid() && byKey == old(byKey)[e.key := e]
      ensures prev == if e.key in old(byKey) then Some(old(byKey)[e.key]) else None
    {
      hide Inverse, DropKey, AddKey;
      prev := None;
      ghost var rest := byKey - {e.key};
      if e.key in byKey {
        DropIsInverse(byKey, e.key);
        prev := Some(byKey[e.key]);
        Unlink(byKey[e.key].bucketID, e.key);
      } else {
        assert rest == byKey;
      }
      AddIsInverse(rest, e.key, e);
      byKey := byKey[e.key := e];
      assert byKey == rest[e.key := e];
      Link(e.bucketID, e.key);
    }

    method Unlink(b: string, key: string)
      modifies this`byBucket
      ensures byBucket == DropKey(old(byBucket), b, key)
    {
      if b in byBucket {
        var m := byBucket[b] - {key};
        if |m| == 0 {
          byBucket := byBucket - {b};
        } else {
          byBucket := byBucket[b := m];
        }
      }
    }

    method Link(b: string, key: string)
      modifies this`byBucket
      ensures byBucket == AddKey(old(byBucket), b, key)
    {
      if b !in byBucket {
        byBucket := byBucket[b := {}];
      }
      byBucket := byBucket[b := byBucket[b] + {key}];
      assert byBucket == AddKey(old(byBucket), b, key);
    }

    /** removeBucket: the entries come back in no particular order. */
    method RemoveBucket(b: string) returns (out: seq<Entry>)
      requires Valid()
      modifies this
      ensures Valid() && byKey == WithoutBucket(old(byKey), b)
      ensures Lists(out, old(byKey), KeysIn(old(byKey), b))
    {
      hide Inverse, KeysIn, Lists;
      ghost var before := byKey;
      InverseAt(before, b);
      RemoveIsInverse(before, b);
      KeysInMap(before, b);
      if b !in byBucket || |byBucket[b]| == 0 {
        ListsNothing(before);
        assert KeysIn(before, b) == {};
        assert WithoutBucket(before, b) == before;
        return [];
      }
      out := TakeKeys(byBucket[b]);
      byBucket := byBucket - {b};
    }

    method TakeKeys(keys: set<string>) returns (out: seq<Entry>)
      requires keys <= byKey.Keys && forall k :: k in byKey ==> byKey[k].key == k
      modifies this`byKey
      ensures byKey == old(byKey) - keys
      ensures Lists(out, old(byKey), keys)
    {
      hide Lists;
      ghost var before := byKey;
      ListsNothing(before);
      out := [];
      var left := keys;
      WithoutNone(before, keys);
      while left != {}
        invariant left <= keys && keys <= before.Keys
        invariant byKey == before - (keys - left)
        invariant Lists(out, before, keys - left)
        decreases |left|
      {
        var k := NextKey(left);
        WithoutOneMore(before, keys, left, k);
        ListsSnoc(out, before, keys - left, k);
        out := out + [byKey[k]];
        byKey := byKey - {k};
        left := left - {k};
      }
      assert keys - {} == keys;
    }
  }

  lemma WithoutNone(byKey: map<string, Entry>, keys: set<string>)
    ensures keys - keys == {} && byKey - {} == byKey
  {
  }

  lemma WithoutOneMore(byKey: map<string, Entry>, keys: set<string>, left: set<string>, k: string)
    requires k in left && left <= keys <= byKey.Keys
    ensures keys - (left - {k}) == (keys - left) + {k}
    ensures byKey - (keys - left) - {k} == byKey - (keys - (left - {k}))
    ensures k in byKey - (keys - left) && (byKey - (keys - left))[k] == byKey[k]
  {
  }

  /** The entries of exactly these keys, each once. */
  predicate Lists(out: seq<Entry>, byKey: map<string, Entry>, keys: set<string>) {
    |out| == |keys| && keys <= byKey.Keys &&
    (forall k :: k in keys ==> byKey[k] in out) && forall e :: e in out ==> e.key in keys && e == byKey[e.key]
  }

  lemma ListsNothing(byKey: map<string, Entry>)
    ensures Lists([], byKey, {})
  {
  }

  lemma ListsSnoc(out: seq<Entry>, byKey: map<string, Entry>, keys: set<string>, k: string)
    requires Lists(out, byKey, keys) && k in byKey && k !in keys && byKey[k].key == k
    ensures Lists(out + [byKey[k]], byKey, keys + {k})
  {
  }

  lemma KeysInMap(byKey: map<string, Entry>, b: string)
    ensures KeysIn(byKey, b) <= byKey.Keys
  {
  }
}
