/** Object keys, spelled out: which ids and digests are accepted, where a key leads, which keys an adapter lets
    through, and where the parts of a revision are kept. */
module Keys {
  import opened Text
  import opened Integrity
  import opened PlainPaths
  import opened Paths
  import opened Layout

  predicate IsHexDigit(c: char) {
    c in "0123456789abcdef"
  }

  /** `core` fills the pattern; behind it at most a line feed may stand. */
  ghost predicate IsNamed(s: string, core: string) {
    s == core || s == core + "\n"
  }

  /** 64 lower-case hexadecimal digits. */
  lemma DigestNameIs(s: string)
    ensures IsDigestName(s)
            <==> exists core: string ::
                   IsNamed(s, core) && |core| == 64 && forall k :: 0 <= k < 64 ==> IsHexDigit(core[k])
  {
    forall c: char ensures IsHexDigit(c) <==> '0' <= c <= '9' || 'a' <= c <= 'f' {
    }
    hide IsHexDigit;
    if IsDigestName(s) {
      assert s == s[..64] || s == s[..64] + "\n";
      assert IsNamed(s, s[..64]);
    }
    if core: string :| IsNamed(s, core) && |core| == 64 && forall k :: 0 <= k < 64 ==> IsHexDigit(core[k]) {
      assert s[..64] == core;
    }
  }

  /** 36 hexadecimal digits in either case, and hyphens. */
  lemma WorkspaceIdIs(s: string)
    ensures IsWorkspaceId(s)
            <==> exists core: string ::
                   IsNamed(s, core) && |core| == 36
                   && forall k :: 0 <= k < 36 ==> IsHexDigit(core[k]) || core[k] in "ABCDEF-"
  {
    forall c: char ensures IsHexDigit(c) || c in "ABCDEF-" <==> IsIdChar(c) {
    }
    hide IsHexDigit, IsIdChar;
    if IsWorkspaceId(s) {
      assert s == s[..36] || s == s[..36] + "\n";
      assert IsNamed(s, s[..36]);
    }
    if core: string :| IsNamed(s, core) && |core| == 36
                       && forall k :: 0 <= k < 36 ==> IsHexDigit(core[k]) || core[k] in "ABCDEF-" {
      assert forall k :: 0 <= k < 36 ==> s[k] == core[k];
    }
  }

  /** Walking along components: nothing for an empty one and a dot, one level up for two dots, which stay at the
      root there, and one level down for every other name. */
  lemma WalkIs(at: Path, a: seq<string>, b: seq<string>, name: string)
    ensures Walk(at, []) == at
    ensures Walk(at, a + b) == Walk(Walk(at, a), b)
    ensures Walk(at, [name])
            == if name == "" || name == "." then at
               else if name != ".." then at + [name]
               else if at == [] then []
               else at[..|at| - 1]
  {
    WalkAppend(at, a, b);
    assert Walk(Step(at, name), [name][1..]) == Step(at, name);
  }

  /** The components of a key lie between its slashes. */
  lemma {:induction false} KeyHasComponents(key: string, name: string)
    ensures name in Split(key, '/') <==> HasSegment(key, '/', name)
    ensures Join(Split(key, '/'), '/') == key
  {
    SplitGivesSegments(key, '/', name);
    JoinSplit(key, '/');
  }

  /** An adapter lets a key through if and only if the key leads into the workspace and begins with the scope of
      its credential, if that has one. */
  lemma GuardIs(w: string, scope: Option<string>, key: string)
    requires IsWorkspaceId(w)
    ensures Guard(w, scope, key)
            == if ["workspaces", w] <= Walk([], Split(key, '/')) && (scope.Some? ==> scope.value <= key) then Ok(key)
               else Err(Isolation)
  {
    hide Contains;
    ContainsIffResolvesInside(w, key);
  }

  /** Where the parts of a revision are kept. */
  lemma RevisionKeysAre(w: string, digest: string)
    ensures Prefix(w) == "workspaces/" + w + "/"
    ensures SkillsRoot(w, digest) == "workspaces/" + w + "/revisions/sha256-" + digest + "/skills/"
    ensures ManifestKey(w, digest) == "workspaces/" + w + "/revisions/sha256-" + digest + "/manifest.json"
  {
    assert RevisionRoot(w, digest) == "workspaces/" + w + "/revisions/sha256-" + digest + "/";
  }

  /** A revision prefix is given out exactly for a digest. */
  lemma RevisionPrefixIs(w: string, digest: string)
    requires IsWorkspaceId(w)
    ensures RevisionPrefix(w, digest)
            == if IsDigestName(digest) then Ok("workspaces/" + w + "/revisions/sha256-" + digest + "/")
               else Err(BadValue)
  {
    RevisionPrefixIsDefined(w, digest);
    assert RevisionRoot(w, digest) == "workspaces/" + w + "/revisions/sha256-" + digest + "/";
  }
}
