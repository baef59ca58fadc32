/** Object keys of a workspace and the guard that every storage adapter applies to them. */
module Layout {
  import opened Text
  import opened Integrity
  import opened Paths

  // ---------------------------------------------------------------------------
  // Identifiers
  // ---------------------------------------------------------------------------

  /** `^[...]{n}$` with `re.match`: `$` also matches in front of a final line feed. */
  predicate FixedLength(s: string, n: nat) {
    |s| == n || (|s| == n + 1 && s[n] == '\n')
  }

  predicate IsDigestName(s: string) {
    FixedLength(s, 64) && IsHex(s[..64])
  }

  predicate IsIdChar(c: char) {
    '0' <= c <= '9' || 'a' <= c <= 'f' || 'A' <= c <= 'F' || c == '-'
  }

  predicate IsWorkspaceId(s: string) {
    FixedLength(s, 36) && forall k :: 0 <= k < 36 ==> IsIdChar(s[k])
  }

  function ZeroId(): (s: string)
    ensures IsWorkspaceId(s)
  {
    seq(36, _ => '0')
  }

  /** Ids that a workspace layout accepts. */
  type WorkspaceId = s: string | IsWorkspaceId(s) witness ZeroId()

  lemma IdentifiersAreNames(s: string)
    requires IsWorkspaceId(s) || IsDigestName(s)
    ensures ProperName(s) && '/' !in s
  {
    assert IsDigestName(s) ==> forall k :: 0 <= k < 64 ==> s[..64][k] == s[k] != '/';
  }

  // ---------------------------------------------------------------------------
  // posixpath.normpath
  // ---------------------------------------------------------------------------

  /** The component loop of `normpath`. */
  function NormComponents(components: seq<string>, rooted: bool, kept: seq<string>): seq<string> {
    if components == [] then kept
    else
      var c := components[0];
      var kept' :=
        if c == "" || c == "." then kept
        else if c != ".." || (!rooted && kept == []) || (kept != [] && kept[|kept| - 1] == "..") then kept + [c]
        else if kept != [] then kept[..|kept| - 1]
        else kept;
      NormComponents(components[1..], rooted, kept')
  }

  function Slashes(n: nat): string {
    if n == 0 then "" else "/" + Slashes(n - 1)
  }

  function LeadingSlashes(path: string): nat {
    if !("/" <= path) then 0
    else if "//" <= path && !("///" <= path) then 2
    else 1
  }

  function NormPath(path: string): string {
    var initial := LeadingSlashes(path);
    var result := Slashes(initial) + Join(NormComponents(Split(path, '/'), initial > 0, []), '/');
    if path == "" || result == "" then "." else result
  }

  function LeftStripSlashes(s: string): string {
    if s != "" && s[0] == '/' then LeftStripSlashes(s[1..]) else s
  }

  function RightStripSlashes(s: string): string {
    if s != "" && s[|s| - 1] == '/' then RightStripSlashes(s[..|s| - 1]) else s
  }

  // ---------------------------------------------------------------------------
  // The workspace layout
  // ---------------------------------------------------------------------------

  function Prefix(id: string): string {
    "workspaces/" + id + "/"
  }

  /** True iff `key` resolves to somewhere inside the workspace. */
  predicate Contains(id: string, key: string) {
    var normalized := LeftStripSlashes(NormPath("/" + key));
    normalized == RightStripSlashes(Prefix(id)) || Prefix(id) <= normalized
  }

  function JoinKey(id: string, suffix: string): Result<string> {
    var key := Prefix(id) + suffix;
    if Contains(id, key) then Ok(key) else Err(BadValue)
  }

  function RevisionPrefix(id: string, digest: string): Result<string> {
    if !IsDigestName(digest) then Err(BadValue) else JoinKey(id, "revisions/sha256-" + digest + "/")
  }

  /** The two checks every adapter makes before it touches a key. */
  function Guard(id: string, scope: Option<string>, key: string): Result<string> {
    if !Contains(id, key) then Err(Isolation)
    else if scope.Some? && !(scope.value <= key) then Err(Isolation)
    else Ok(key)
  }

  /** The key strings behind `revision_prefix`, `revision_skills_prefix` and `revision_manifest_key`. */
  function RevisionRoot(id: string, digest: string): string {
    Prefix(id) + "revisions/sha256-" + digest + "/"
  }

  function SkillsRoot(id: string, digest: string): string {
    RevisionRoot(id, digest) + "skills/"
  }

  function ManifestKey(id: string, digest: string): string {
    RevisionRoot(id, digest) + "manifest.json"
  }

  // ---------------------------------------------------------------------------
  // What `contains` decides
  // ---------------------------------------------------------------------------

  /** Where a key leads when the bucket is read as a directory tree. */
  function KeyPath(key: string): Path {
    Walk([], Split(key, '/'))
  }

  lemma {:induction false} NormIsWalk(components: seq<string>, kept: seq<string>)
    requires forall k :: 0 <= k < |kept| ==> kept[k] != ".."
    ensures NormComponents(components, true, kept) == Walk(kept, components)
  {
    if components != [] {
      NormIsWalk(components[1..], Step(kept, components[0]));
    }
  }

  lemma KeyPathResolved(key: string)
    ensures Resolved(KeyPath(key))
  {
    WalkResolved([], Split(key, '/'));
  }

  lemma StripAfterSlashes(n: nat, s: string)
    requires s == "" || s[0] != '/'
    ensures LeftStripSlashes(Slashes(n) + s) == s
  {
    if n > 0 {
      assert (Slashes(n) + s)[1..] == Slashes(n - 1) + s;
      StripAfterSlashes(n - 1, s);
    } else {
      assert Slashes(n) + s == s;
    }
  }

  /** The normalised key is the joined path that the key resolves to. */
  lemma NormalizedKey(key: string)
    ensures LeftStripSlashes(NormPath("/" + key)) == Join(KeyPath(key), '/')
  {
    var path, joined := "/" + key, Join(KeyPath(key), '/');
    var initial := LeadingSlashes(path);
    assert initial > 0;
    assert path[1..] == key;
    assert Split(path, '/') == [""] + Split(key, '/');
    NormIsWalk(Split(path, '/'), []);
    assert Walk([], Split(path, '/')) == KeyPath(key);
    KeyPathResolved(key);
    if KeyPath(key) != [] {
      JoinedPathNonempty(KeyPath(key));
    }
    StripAfterSlashes(initial, joined);
  }

  lemma PrefixWithoutSlash(id: string)
    requires id != "" && '/' !in id
    ensures RightStripSlashes(Prefix(id)) == "workspaces/" + id
    ensures Join(["workspaces", id], '/') == "workspaces/" + id
    ensures Resolved(["workspaces", id]) <==> ProperName(id)
  {
    var s := "workspaces/" + id;
    assert Prefix(id)[..|Prefix(id)| - 1] == s;
    assert s[|s| - 1] == id[|id| - 1] && id[|id| - 1] in id;
    assert ["workspaces", id][1..] == [id];
    assert "workspaces" + ['/'] == "workspaces/";
  }

  /** `contains` holds exactly for the keys that resolve into the workspace's directory. */
  lemma ContainsIffResolvesInside(id: string, key: string)
    requires IsWorkspaceId(id)
    ensures Contains(id, key) <==> ["workspaces", id] <= KeyPath(key)
  {
    var home, p := ["workspaces", id], KeyPath(key);
    IdentifiersAreNames(id);
    PrefixWithoutSlash(id);
    NormalizedKey(key);
    KeyPathResolved(key);
    JoinedPrefix(home, p);
    if Join(p, '/') == Join(home, '/') {
      JoinedPathsDiffer(p, home);
    }
    assert home <= p <==> home == p || home < p;
  }

  /** No key belongs to two workspaces. */
  lemma ContainedInOneWorkspace(a: string, b: string, key: string)
    requires IsWorkspaceId(a) && IsWorkspaceId(b)
    requires Contains(a, key) && Contains(b, key)
    ensures a == b
  {
    ContainsIffResolvesInside(a, key);
    ContainsIffResolvesInside(b, key);
    assert KeyPath(key)[1] == ["workspaces", a][1] == ["workspaces", b][1];
  }

  lemma SplitAtSlash(a: string, rest: string)
    requires '/' !in a
    ensures Split(a + "/" + rest, '/') == [a] + Split(rest, '/')
  {
    SplitAppend(a, rest, '/');
    SplitNoSep(a, '/');
    assert a + ['/'] + rest == a + "/" + rest;
  }

  lemma SplitBelowHome(id: string, suffix: string)
    requires '/' !in id
    ensures Split(Prefix(id) + suffix, '/') == ["workspaces", id] + Split(suffix, '/')
  {
    assert Prefix(id) + suffix == "workspaces" + "/" + (id + "/" + suffix);
    SplitAtSlash("workspaces", id + "/" + suffix);
    SplitAtSlash(id, suffix);
    assert ["workspaces"] + ([id] + Split(suffix, '/')) == ["workspaces", id] + Split(suffix, '/');
  }

  /** A key below the prefix whose remainder has no `..` resolves into the workspace. */
  lemma PlainKeyPath(id: string, suffix: string)
    requires ProperName(id) && ".." !in Split(suffix, '/')
    ensures ["workspaces", id] <= KeyPath(Prefix(id) + suffix)
  {
    SplitBelowHome(id, suffix);
    var home, rest := ["workspaces", id], Split(suffix, '/');
    WalkAppend([], home, rest);
    WalkProper([], home);
    assert [] + home == home;
    WalkStaysBelow(home, rest);
  }

  lemma PlainKeyIsContained(id: string, suffix: string)
    requires IsWorkspaceId(id) && ".." !in Split(suffix, '/')
    ensures Contains(id, Prefix(id) + suffix)
  {
    IdentifiersAreNames(id);
    PlainKeyPath(id, suffix);
    ContainsIffResolvesInside(id, Prefix(id) + suffix);
  }

  lemma RevisionSuffix(digest: string, rest: string)
    requires IsDigestName(digest) && ".." !in Split(rest, '/')
    ensures ".." !in Split("revisions/sha256-" + digest + "/" + rest, '/')
  {
    IdentifiersAreNames(digest);
    var name := "sha256-" + digest;
    var s := "revisions/sha256-" + digest + "/" + rest;
    assert s == "revisions" + "/" + (name + "/" + rest);
    SplitAtSlash("revisions", name + "/" + rest);
    SplitAtSlash(name, rest);
    assert |name| > 2;
  }

  /** The layout's own revision keys never trip the escape check of `_join`. */
  lemma RevisionPrefixIsDefined(id: string, digest: string)
    requires IsWorkspaceId(id)
    ensures RevisionPrefix(id, digest) == if IsDigestName(digest) then Ok(RevisionRoot(id, digest)) else Err(BadValue)
  {
    if IsDigestName(digest) {
      SplitNoSep("", '/');
      RevisionSuffix(digest, "");
      var suffix := "revisions/sha256-" + digest + "/";
      assert suffix + "" == suffix && RevisionRoot(id, digest) + "" == RevisionRoot(id, digest);
      PlainKeyIsContained(id, suffix);
      RevisionKeySuffix(id, digest, "");
    }
  }

  /** Every validated path of a revision, its manifest and its prefix pass both guard checks. */
  lemma RevisionKeysPassTheGuard(id: string, digest: string, rest: string)
    requires IsWorkspaceId(id) && IsDigestName(digest)
    requires ".." !in Split(rest, '/')
    ensures Guard(id, None, RevisionRoot(id, digest) + rest) == Ok(RevisionRoot(id, digest) + rest)
    ensures Guard(id, Some(Prefix(id)), RevisionRoot(id, digest) + rest) == Ok(RevisionRoot(id, digest) + rest)
  {
    RevisionSuffix(digest, rest);
    var suffix := "revisions/sha256-" + digest + "/" + rest;
    PlainKeyIsContained(id, suffix);
    RevisionKeySuffix(id, digest, rest);
  }

  lemma RevisionKeySuffix(id: string, digest: string, rest: string)
    ensures RevisionRoot(id, digest) + rest == Prefix(id) + ("revisions/sha256-" + digest + "/" + rest)
  {
  }

  lemma SkillPathHasNoDots(rel: string)
    requires SafePath(rel) || rel == ""
    ensures ".." !in Split("skills/" + rel, '/')
  {
    assert "skills" + "/" + rel == "skills/" + rel;
    SplitAtSlash("skills", rel);
    SplitNoSep("", '/');
  }

  lemma SkillKeyPassesTheGuard(id: string, digest: string, rel: string)
    requires IsWorkspaceId(id) && IsDigestName(digest) && (SafePath(rel) || rel == "")
    ensures Guard(id, None, SkillsRoot(id, digest) + rel) == Ok(SkillsRoot(id, digest) + rel)
    ensures Guard(id, Some(Prefix(id)), SkillsRoot(id, digest) + rel) == Ok(SkillsRoot(id, digest) + rel)
  {
    SkillPathHasNoDots(rel);
    RevisionKeysPassTheGuard(id, digest, "skills/" + rel);
    ConcatAssoc(RevisionRoot(id, digest), "skills/", rel);
  }

  lemma ManifestKeyPassesTheGuard(id: string, digest: string)
    requires IsWorkspaceId(id) && IsDigestName(digest)
    ensures Guard(id, None, ManifestKey(id, digest)) == Ok(ManifestKey(id, digest))
    ensures Guard(id, Some(Prefix(id)), ManifestKey(id, digest)) == Ok(ManifestKey(id, digest))
  {
    SplitNoSep("manifest.json", '/');
    RevisionKeysPassTheGuard(id, digest, "manifest.json");
  }

  // ---------------------------------------------------------------------------
  // Keys are unambiguous
  // ---------------------------------------------------------------------------

  lemma SlashUnique(a: string, x: string, b: string, y: string)
    requires '/' !in a && '/' !in b && a + "/" + x == b + "/" + y
    ensures a == b && x == y
  {
    SplitAtSlash(a, x);
    SplitAtSlash(b, y);
    assert a == ([a] + Split(x, '/'))[0] == b;
    DropPrefix(a + "/", x, y);
  }

  /** Workspace, digest and remainder can be read back from a key below a revision. */
  lemma RevisionKeyUnique(id: string, digest: string, x: string, id': string, digest': string, y: string)
    requires '/' !in id && '/' !in digest && '/' !in id' && '/' !in digest'
    requires RevisionRoot(id, digest) + x == RevisionRoot(id', digest') + y
    ensures id == id' && digest == digest' && x == y
  {
    RevisionKeyShape(id, digest, x);
    RevisionKeyShape(id', digest', y);
    DropPrefix("workspaces/", id + "/" + ("revisions/sha256-" + (digest + "/" + x)),
               id' + "/" + ("revisions/sha256-" + (digest' + "/" + y)));
    SlashUnique(id, "revisions/sha256-" + (digest + "/" + x), id', "revisions/sha256-" + (digest' + "/" + y));
    DropPrefix("revisions/sha256-", digest + "/" + x, digest' + "/" + y);
    SlashUnique(digest, x, digest', y);
  }

  lemma RevisionKeyShape(id: string, digest: string, x: string)
    ensures RevisionRoot(id, digest) + x == "workspaces/" + (id + "/" + ("revisions/sha256-" + (digest + "/" + x)))
  {
  }

  /** A key of one revision lies under the skills prefix of another only if they are the same. */
  lemma SkillsPrefixUnique(id: string, digest: string, id': string, digest': string, x: string)
    requires '/' !in id && '/' !in digest && '/' !in id' && '/' !in digest'
    requires SkillsRoot(id, digest) <= RevisionRoot(id', digest') + x
    ensures id == id' && digest == digest' && "skills/" <= x
  {
    var key := RevisionRoot(id', digest') + x;
    var rest := key[|SkillsRoot(id, digest)|..];
    ConcatAssoc(RevisionRoot(id, digest), "skills/", rest);
    RevisionKeyUnique(id, digest, "skills/" + rest, id', digest', x);
  }
}
