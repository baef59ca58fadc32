/** Object storage with flat keys: the Cloud Storage backend and its reference semantics. */
module FlatStorage {
  import opened Text
  import opened Integrity
  import opened Layout

  type Objects = Files

  /** A listed object. */
  datatype ObjectRef = ObjectRef(key: string, size: nat)

  /** The keys that a prefix listing returns. */
  function Keys(objects: Objects, prefix: string): set<string> {
    set k | k in objects && prefix <= k
  }

  function Without(objects: Objects, prefix: string): Objects {
    map k | k in objects && !(prefix <= k) :: objects[k]
  }

  ghost predicate Mentions(refs: seq<ObjectRef>, key: string) {
    exists i :: 0 <= i < |refs| && refs[i].key == key
  }

  /** `refs` lists exactly the objects under the prefix, each once. */
  ghost predicate IsListingOf(refs: seq<ObjectRef>, objects: Objects, prefix: string) {
    && (forall i :: 0 <= i < |refs| ==> refs[i].key in Keys(objects, prefix) && refs[i].size == |objects[refs[i].key]|)
    && (forall i, j :: 0 <= i < j < |refs| ==> refs[i].key != refs[j].key)
    && (forall k :: k in Keys(objects, prefix) ==> Mentions(refs, k))
  }

  class Bucket {
    var objects: Objects

    constructor ()
      ensures objects == map[]
    {
      objects := map[];
    }
  }

  /** A per-request adapter over a bucket, bound to one workspace and one credential scope. */
  class Storage {
    const bucket: Bucket
    const id: WorkspaceId
    const scope: Option<string>

    constructor (bucket: Bucket, id: WorkspaceId, scope: Option<string>)
      ensures this.bucket == bucket && this.id == id && this.scope == scope
    {
      this.bucket := bucket;
      this.id := id;
      this.scope := scope;
    }

    method GetObject(key: string) returns (r: Result<Bytes>)
      ensures Guard(id, scope, key).Err? ==> r == Err(Isolation)
      ensures Guard(id, scope, key).Ok? ==>
                r == if key in bucket.objects then Ok(bucket.objects[key]) else Err(NotFound)
    {
      var g := Guard(id, scope, key);
      if g.Err? {
        return Err(g.error);
      }
      if key !in bucket.objects {
        return Err(NotFound);
      }
      return Ok(bucket.objects[key]);
    }

    method PutObject(key: string, data: Bytes) returns (r: Result<ObjectRef>)
      modifies bucket
      ensures Guard(id, scope, key).Err? ==> r == Err(Isolation) && bucket.objects == old(bucket.objects)
      ensures Guard(id, scope, key).Ok? ==>
                r == Ok(ObjectRef(key, |data|)) && bucket.objects == old(bucket.objects)[key := data]
    {
      var g := Guard(id, scope, key);
      if g.Err? {
        return Err(g.error);
      }
      bucket.objects := bucket.objects[key := data];
      return Ok(ObjectRef(key, |data|));
    }

    /** The backend lists in an order of its own. */
    method ListObjects(prefix: string) returns (r: Result<seq<ObjectRef>>)
      ensures Guard(id, scope, prefix).Err? ==> r == Err(Isolation)
      ensures Guard(id, scope, prefix).Ok? ==> r.Ok? && IsListingOf(r.value, bucket.objects, prefix)
    {
      var g := Guard(id, scope, prefix);
      if g.Err? {
        return Err(g.error);
      }
      var refs: seq<ObjectRef> := [];
      var rest := Keys(bucket.objects, prefix);
      while rest != {}
        invariant rest <= Keys(bucket.objects, prefix)
        invariant forall i :: 0 <= i < |refs| ==>
                    refs[i].key in Keys(bucket.objects, prefix) && refs[i].key !in rest
                    && refs[i].size == |bucket.objects[refs[i].key]|
        invariant forall i, j :: 0 <= i < j < |refs| ==> refs[i].key != refs[j].key
        invariant forall k :: k in Keys(bucket.objects, prefix) && k !in rest ==> Mentions(refs, k)
        decreases |rest|
      {
        var key :| key in rest;
        ghost var before := refs;
        refs := refs + [ObjectRef(key, |bucket.objects[key]|)];
        rest := rest - {key};
        assert refs[|before|].key == key;
        forall k | Mentions(before, k) ensures Mentions(refs, k) {
          var i :| 0 <= i < |before| && before[i].key == k;
          assert refs[i].key == k;
        }
      }
      return Ok(refs);
    }

    method DeletePrefix(prefix: string) returns (r: Result<nat>)
      modifies bucket
      ensures Guard(id, scope, prefix).Err? ==> r == Err(Isolation) && bucket.objects == old(bucket.objects)
      ensures Guard(id, scope, prefix).Ok? ==>
                r == Ok(|Keys(old(bucket.objects), prefix)|) && bucket.objects == Without(old(bucket.objects), prefix)
    {
      var g := Guard(id, scope, prefix);
      if g.Err? {
        return Err(g.error);
      }
      ghost var before := bucket.objects;
      var rest := Keys(bucket.objects, prefix);
      var count := 0;
      while rest != {}
        invariant rest <= Keys(before, prefix)
        invariant count == |Keys(before, prefix)| - |rest|
        invariant bucket.objects == map k | k in before && (!(prefix <= k) || k in rest) :: before[k]
        decreases |rest|
      {
        var key :| key in rest;
        bucket.objects := bucket.objects - {key};
        rest := rest - {key};
        count := count + 1;
      }
      assert bucket.objects == Without(before, prefix);
      return Ok(count);
    }
  }
}
