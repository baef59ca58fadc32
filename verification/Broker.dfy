/** The credential broker: it checks who owns a workspace before it mints a credential for it. */
module Broker {
  import opened Text
  import opened Integrity
  import opened Layout
  import opened Registry

  datatype Role = ObjectViewer | ObjectAdmin

  /** One access rule: a role on the objects of a bucket whose resource name has a prefix. */
  datatype Boundary = Boundary(bucket: string, role: Role, namePrefix: string)

  datatype Credential = Credential(secret: string, scope: Option<string>, expiresAt: Option<int>)

  /** What exchanges a boundary for a token. */
  type Minter = (Boundary, int) -> string

  function EndsWith(s: string, end: string): bool {
    |end| <= |s| && s[|s| - |end|..] == end
  }

  predicate ReadOnly(permissions: seq<string>) {
    forall i :: 0 <= i < |permissions| ==> EndsWith(permissions[i], ".get") || EndsWith(permissions[i], ".list")
  }

  function ResourceName(bucket: string, key: string): string {
    "projects/_/buckets/" + bucket + "/objects/" + key
  }

  function BuildBoundary(bucket: string, prefix: string, permissions: seq<string>): Boundary {
    Boundary(bucket, if ReadOnly(permissions) then ObjectViewer else ObjectAdmin, ResourceName(bucket, prefix))
  }

  /** What the storage service decides for a name under a boundary. */
  predicate Admits(b: Boundary, name: string) {
    b.namePrefix <= name
  }

  /** `DownscopedCredentialBroker.issue`. */
  function Issue(s: State, minter: Minter, bucket: string, ttl: int, p: Principal, w: string,
                 permissions: seq<string>, now: int): Result<Credential> {
    match Owner(s, w)
    case None => Err(Authorization)
    case Some(owner) =>
      if owner != p.key then Err(Isolation)
      else if !IsWorkspaceId(w) then Err(BadValue)
      else
        var token := minter(BuildBoundary(bucket, Prefix(w), permissions), ttl);
        Ok(Credential(token, Some(Prefix(w)), Some(now + ttl)))
  }

  /** A permission that reads: its name ends in `.get` or `.list`. */
  ghost predicate IsReading(permission: string) {
    exists front: string :: permission == front + ".get" || permission == front + ".list"
  }

  /** The credential for a workspace: minted for a boundary on the bucket that admits the objects below the
      workspace, for viewing if and only if every permission reads, and valid from now for its lifetime. */
  ghost predicate IsCredentialFor(c: Credential, minter: Minter, bucket: string, ttl: int, w: string,
                                  permissions: seq<string>, now: int) {
    exists b: Boundary ::
      && b.bucket == bucket
      && b.namePrefix == "projects/_/buckets/" + bucket + "/objects/workspaces/" + w + "/"
      && (b.role == ObjectViewer <==> forall i :: 0 <= i < |permissions| ==> IsReading(permissions[i]))
      && c.secret == minter(b, ttl) && c.scope == Some("workspaces/" + w + "/") && c.expiresAt == Some(now + ttl)
  }

  lemma EndsWithReads(permission: string)
    ensures IsReading(permission) <==> EndsWith(permission, ".get") || EndsWith(permission, ".list")
  {
    if EndsWith(permission, ".get") {
      assert permission == permission[..|permission| - 4] + ".get";
    } else if EndsWith(permission, ".list") {
      assert permission == permission[..|permission| - 5] + ".list";
    }
  }

  lemma BoundaryIs(bucket: string, w: string, permissions: seq<string>)
    ensures var b := BuildBoundary(bucket, Prefix(w), permissions);
            && b.bucket == bucket
            && b.namePrefix == "projects/_/buckets/" + bucket + "/objects/workspaces/" + w + "/"
            && (b.role == ObjectViewer <==> forall i :: 0 <= i < |permissions| ==> IsReading(permissions[i]))
  {
    hide EndsWith, IsReading;
    forall permission ensures IsReading(permission) <==> EndsWith(permission, ".get") || EndsWith(permission, ".list") {
      EndsWithReads(permission);
    }
    assert ResourceName(bucket, Prefix(w)) == "projects/_/buckets/" + bucket + "/objects/workspaces/" + w + "/";
  }

  /** A credential is issued if and only if the workspace is known, is the principal's and has a valid id,
      and refused with the error of the first of these that fails. */
  lemma IssuedCredential(s: State, minter: Minter, bucket: string, ttl: int, p: Principal, w: string,
                         permissions: seq<string>, now: int)
    ensures var r := Issue(s, minter, bucket, ttl, p, w, permissions, now);
            && (r.Ok? ==> IsCredentialFor(r.value, minter, bucket, ttl, w, permissions, now))
            && (r == Err(Authorization) <==> w !in s.workspaces)
            && (r == Err(Isolation) <==> w in s.workspaces && s.workspaces[w].principalKey != p.key)
            && (r == Err(BadValue)
                <==> w in s.workspaces && s.workspaces[w].principalKey == p.key && !IsWorkspaceId(w))
            && (r.Ok? <==> w in s.workspaces && s.workspaces[w].principalKey == p.key && IsWorkspaceId(w))
  {
    BoundaryIs(bucket, w, permissions);
    hide IsReading, ReadOnly, IsWorkspaceId, ResourceName;
  }

  /** Only the owner of a workspace gets a credential, and it reaches no further than the workspace. */
  lemma IssuedToOwnerOnly(s: State, minter: Minter, bucket: string, ttl: int, p: Principal, w: string,
                          permissions: seq<string>, now: int)
    ensures Issue(s, minter, bucket, ttl, p, w, permissions, now).Ok?
            <==> w in s.workspaces && s.workspaces[w].principalKey == p.key && IsWorkspaceId(w)
    ensures Issue(s, minter, bucket, ttl, p, w, permissions, now).Ok? ==>
              Issue(s, minter, bucket, ttl, p, w, permissions, now).value.scope == Some(Prefix(w))
  {
  }

  lemma AdmitsExact(bucket: string, prefix: string, permissions: seq<string>, key: string)
    ensures Admits(BuildBoundary(bucket, prefix, permissions), ResourceName(bucket, key)) <==> prefix <= key
  {
    var base := "projects/_/buckets/" + bucket + "/objects/";
    assert ResourceName(bucket, key) == base + key && ResourceName(bucket, prefix) == base + prefix;
    if base + prefix <= base + key {
      var rest := (base + key)[|base + prefix|..];
      assert base + key == base + prefix + rest;
      ConcatAssoc(base, prefix, rest);
      DropPrefix(base, key, prefix + rest);
    }
    if prefix <= key {
      var rest := key[|prefix|..];
      ConcatAssoc(base, prefix, rest);
    }
  }

  /** The adapter's guard lets through exactly the keys that resolve into the workspace and that the
      boundary admits: the application layer and the boundary agree. */
  lemma GuardAgreesWithBoundary(w: string, bucket: string, permissions: seq<string>, key: string)
    requires IsWorkspaceId(w)
    ensures Guard(w, Some(Prefix(w)), key).Ok?
            <==> ["workspaces", w] <= KeyPath(key)
                 && Admits(BuildBoundary(bucket, Prefix(w), permissions), ResourceName(bucket, key))
  {
    AdmitsExact(bucket, Prefix(w), permissions, key);
    ContainsIffResolvesInside(w, key);
  }

  /** No object is admitted by the boundaries of two workspaces. */
  lemma BoundariesAreDisjoint(v: string, w: string, bucket: string, asked: seq<string>, wanted: seq<string>,
                              key: string)
    requires IsWorkspaceId(v) && IsWorkspaceId(w)
    requires Admits(BuildBoundary(bucket, Prefix(v), asked), ResourceName(bucket, key))
    requires Admits(BuildBoundary(bucket, Prefix(w), wanted), ResourceName(bucket, key))
    ensures v == w
  {
    AdmitsExact(bucket, Prefix(v), asked, key);
    AdmitsExact(bucket, Prefix(w), wanted, key);
    IdentifiersAreNames(v);
    IdentifiersAreNames(w);
    var x, y := key[|Prefix(v)|..], key[|Prefix(w)|..];
    assert key == "workspaces/" + (v + "/" + x) && key == "workspaces/" + (w + "/" + y);
    DropPrefix("workspaces/", v + "/" + x, w + "/" + y);
    SlashUnique(v, x, w, y);
  }
}
