/** Publish and start: an untouched published revision comes back as the session's files. */
module RoundTrip {
  import opened Text
  import opened Integrity
  import opened Paths
  import opened Disk
  import opened Layout
  import opened FlatStorage
  import opened StorageRefinement
  import opened Drafts
  import opened Materializer
  import opened MaterializerTheorems
  import opened Sessions
  import opened Pipeline
  import opened Immutability

  /** No scope, or the one that the broker gives. */
  predicate OwnScope(w: string, scope: Option<string>) {
    scope == None || scope == Some(Prefix(w))
  }

  lemma {:induction false} AnswersAt(o: Objects, w: string, scope: Option<string>, prefix: string,
                                     refs: seq<ObjectRef>, i: nat)
    requires i < |refs|
    ensures |Answers(o, w, scope, prefix, refs)| == |refs|
    ensures Answers(o, w, scope, prefix, refs)[i]
            == Download(Relative(refs[i].key, prefix), AnswerOf(o, w, scope, refs[i].key))
  {
    if |refs| > 1 {
      AnswersAt(o, w, scope, prefix, refs[1..], if i == 0 then 0 else i - 1);
    } else {
      assert Answers(o, w, scope, prefix, refs[1..]) == [];
    }
  }

  lemma {:induction false} RelOf(downloads: seq<Download>, i: nat)
    requires i < |downloads|
    ensures downloads[i].rel in Rels(downloads)
  {
    if i > 0 {
      RelOf(downloads[1..], i - 1);
    }
  }

  /** What the adapter answers for a file of the bundle. */
  lemma FileAnswer(o: Objects, a: Approval, scope: Option<string>, rel: string)
    requires HoldsExactly(o, a) && AllSafe(a.files) && rel in a.files
    requires IsWorkspaceId(a.workspaceId) && IsDigestName(a.digest) && OwnScope(a.workspaceId, scope)
    ensures Relative(FileKey(a, rel), SkillsRoot(a.workspaceId, a.digest)) == rel
    ensures AnswerOf(o, a.workspaceId, scope, FileKey(a, rel)) == Ok(a.files[rel])
  {
    SkillKeyPassesTheGuard(a.workspaceId, a.digest, rel);
  }

  lemma ListedAnswer(o: Objects, a: Approval, scope: Option<string>, refs: seq<ObjectRef>, i: nat)
    requires HoldsExactly(o, a) && AllSafe(a.files) && i < |refs|
    requires IsWorkspaceId(a.workspaceId) && IsDigestName(a.digest) && OwnScope(a.workspaceId, scope)
    requires IsListingOf(refs, o, SkillsRoot(a.workspaceId, a.digest))
    ensures var root := SkillsRoot(a.workspaceId, a.digest);
            var rel := Relative(refs[i].key, root);
            rel in a.files && AnswerOf(o, a.workspaceId, scope, refs[i].key) == Ok(a.files[rel])
  {
    var k := refs[i].key;
    assert k in Keys(o, SkillsRoot(a.workspaceId, a.digest));
    var rel :| rel in a.files && k == FileKey(a, rel);
    FileAnswer(o, a, scope, rel);
  }

  /** A store that holds exactly the bundle answers honestly, in whatever order it lists. */
  lemma ExactStoreIsHonest(o: Objects, a: Approval, scope: Option<string>, refs: seq<ObjectRef>)
    requires HoldsExactly(o, a) && AllSafe(a.files)
    requires IsWorkspaceId(a.workspaceId) && IsDigestName(a.digest) && OwnScope(a.workspaceId, scope)
    requires IsListingOf(refs, o, SkillsRoot(a.workspaceId, a.digest))
    ensures Honest(Answers(o, a.workspaceId, scope, SkillsRoot(a.workspaceId, a.digest), refs), a.files)
  {
    hide HoldsExactly, AllSafe, SafePath, IsWorkspaceId, IsDigestName, SkillsRoot, Guard, SkillKey, IsListingOf,
      AnswerOf, Relative, Rels;
    var root := SkillsRoot(a.workspaceId, a.digest);
    var downloads := Answers(o, a.workspaceId, scope, root, refs);
    AnswerCount(o, a.workspaceId, scope, root, refs);
    forall i | 0 <= i < |downloads|
      ensures downloads[i].rel in a.files && downloads[i].reply == Ok(a.files[downloads[i].rel])
    {
      AnswersAt(o, a.workspaceId, scope, root, refs, i);
      ListedAnswer(o, a, scope, refs, i);
    }
    forall rel | rel in a.files ensures rel in Rels(downloads) {
      var i := ListedAt(o, a, scope, refs, rel);
      AnswersAt(o, a.workspaceId, scope, root, refs, i);
      RelOf(downloads, i);
    }
  }

  lemma {:induction false} AnswerCount(o: Objects, w: string, scope: Option<string>, prefix: string,
                                       refs: seq<ObjectRef>)
    ensures |Answers(o, w, scope, prefix, refs)| == |refs|
  {
    if refs != [] {
      AnswersAt(o, w, scope, prefix, refs, 0);
    }
  }

  lemma ListedAt(o: Objects, a: Approval, scope: Option<string>, refs: seq<ObjectRef>, rel: string) returns (i: nat)
    requires HoldsExactly(o, a) && AllSafe(a.files) && rel in a.files
    requires IsWorkspaceId(a.workspaceId) && IsDigestName(a.digest) && OwnScope(a.workspaceId, scope)
    requires IsListingOf(refs, o, SkillsRoot(a.workspaceId, a.digest))
    ensures i < |refs| && Relative(refs[i].key, SkillsRoot(a.workspaceId, a.digest)) == rel
  {
    UnderOwnPrefix(a, rel);
    assert Mentions(refs, FileKey(a, rel));
    i :| 0 <= i < |refs| && refs[i].key == FileKey(a, rel);
    FileAnswer(o, a, scope, rel);
  }

  lemma ListedPrefixIsRoot(a: Approval, scope: Option<string>)
    requires IsWorkspaceId(a.workspaceId) && IsDigestName(a.digest) && OwnScope(a.workspaceId, scope)
    ensures ListedPrefix(a.workspaceId, scope, a.digest) == Ok(SkillsRoot(a.workspaceId, a.digest))
  {
    RevisionPrefixIsDefined(a.workspaceId, a.digest);
    SkillKeyPassesTheGuard(a.workspaceId, a.digest, "");
    assert SkillsRoot(a.workspaceId, a.digest) + "" == SkillsRoot(a.workspaceId, a.digest);
  }

  lemma ApprovedIsSafe(env: Env, s: Sys, a: Approval)
    requires ApprovalsHold(env, s.approved) && a in s.approved
    ensures AllSafe(a.files) && IsWorkspaceId(a.workspaceId) && IsDigestName(a.digest)
    ensures a.digest == Digest(env.platform.sha, a.files)
  {
    hide Problems, Digest, AllSafe, SafePath, IsWorkspaceId;
    VettedCanBePublished(env.platform, Draft(a.workspaceId, Open, a.base, a.files, {}));
    assert a.digest[..64] == a.digest;
  }

  /** What an attempt to start on the revision of `a` does, in a store that an undisturbed run left. */
  ghost function StartOn(env: Env, s: Sys, a: Approval, scope: Option<string>, place: Place, refs: seq<ObjectRef>,
                         again: seq<ObjectRef>): Materializer.Outcome {
    Attempt(env.platform.sha, place.disk, place.root, place.catalog, Access(s.objects, a.workspaceId, scope),
            place.session, a.digest, refs, again)
  }

  ghost predicate Listings(s: Sys, a: Approval, scope: Option<string>, refs: seq<ObjectRef>, again: seq<ObjectRef>) {
    && ListsRevision(refs, Access(s.objects, a.workspaceId, scope), a.digest)
    && ListsRevision(again, Access(s.objects, a.workspaceId, scope), a.digest)
  }

  ghost function SkillsOf(a: Approval, place: Place): Path {
    SkillsDir(place.root, a.workspaceId, place.session)
  }

  lemma StoredAnswers(env: Env, s: Sys, a: Approval, scope: Option<string>, place: Place, refs: seq<ObjectRef>,
                      again: seq<ObjectRef>)
    returns (downloads: seq<Download>, redone: seq<Download>)
    requires ApprovalsHold(env, s.approved) && a in s.approved && HoldsExactly(s.objects, a)
    requires OwnScope(a.workspaceId, scope) && Listings(s, a, scope, refs, again)
    ensures Honest(downloads, a.files) && Honest(redone, a.files)
    ensures StartOn(env, s, a, scope, place, refs, again)
            == Materialized(env.platform.sha, place.disk, place.root, place.catalog, a.workspaceId, place.session,
                            a.digest, downloads, redone)
  {
    hide HoldsExactly, ApprovalsHold, IsListingOf, Materialized, Honest, Guard, RevisionPrefix, SkillsRoot;
    ApprovedIsSafe(env, s, a);
    ListedPrefixIsRoot(a, scope);
    ExactStoreIsHonest(s.objects, a, scope, refs);
    ExactStoreIsHonest(s.objects, a, scope, again);
    downloads := Answers(s.objects, a.workspaceId, scope, SkillsRoot(a.workspaceId, a.digest), refs);
    redone := Answers(s.objects, a.workspaceId, scope, SkillsRoot(a.workspaceId, a.digest), again);
  }

  /** After every undisturbed run, a start on a registered revision succeeds exactly when the revision's
      paths are canonical and none is a directory of another, and it reproduces the published files. */
  lemma PublishThenStart(env: Env, steps: seq<Step>, a: Approval, scope: Option<string>, place: Place,
                         refs: seq<ObjectRef>, again: seq<ObjectRef>)
    requires PossibleRun(env, INITIAL, steps) && UndisturbedRun(env, INITIAL, steps)
    requires var s := Run(env, INITIAL, steps);
             && a in s.approved && Registered(s, a) && Distinguishable(env, s.approved, KeyOf(a))
             && OwnScope(a.workspaceId, scope) && Listings(s, a, scope, refs, again)
             && place.catalog == None && Fresh(place.disk, place.root, a.workspaceId, place.session)
             && !Collide(env.platform.sha, a.files,
                         FilesBelow(StartOn(env, s, a, scope, place, refs, again).tree, SkillsOf(a, place)))
    ensures var o := StartOn(env, Run(env, INITIAL, steps), a, scope, place, refs, again);
            && (o.problem == None <==> PrefixFree(a.files.Keys))
            && (o.problem == None ==> FilesBelow(o.tree, SkillsOf(a, place)) == a.files)
  {
    RegisteredRevisionsAreExact(env, steps, a);
    InitialInv(env);
    RunKeeps(env, INITIAL, steps);
    hide Run, PossibleRun, UndisturbedRun, HoldsExactly, AllSeparatorFree, Collide, PrefixFree, Attempt, ListsRevision,
      Fresh, Honest, Derived, AllVetted, AllPinned, SessionsHold, PublicationsApproved, RevisionsApproved,
      ApprovalsHold, Materialized, FilesBelow;
    var s := Run(env, INITIAL, steps);
    ApprovedIsSafe(env, s, a);
    var downloads, redone := StoredAnswers(env, s, a, scope, place, refs, again);
    HonestStart(env.platform.sha, place.disk, place.root, a.workspaceId, place.session, downloads, redone, a.files);
  }

  /** With a catalog the session holds the catalog overridden by the published files. */
  lemma PublishThenStartOverCatalog(env: Env, steps: seq<Step>, a: Approval, scope: Option<string>, place: Place,
                                    refs: seq<ObjectRef>, again: seq<ObjectRef>)
    requires PossibleRun(env, INITIAL, steps) && UndisturbedRun(env, INITIAL, steps)
    requires var s := Run(env, INITIAL, steps);
             && a in s.approved && Registered(s, a) && Distinguishable(env, s.approved, KeyOf(a))
             && (forall k :: k in a.files ==> Canonical(k))
             && OwnScope(a.workspaceId, scope) && Listings(s, a, scope, refs, again)
    requires place.catalog.Some? && Fresh(place.disk, place.root, a.workspaceId, place.session)
    requires CatalogApart(place.disk, place.catalog.value, SkillsOf(a, place))
    ensures var o := StartOn(env, Run(env, INITIAL, steps), a, scope, place, refs, again);
            && (o.problem == None <==> Fits(place.disk, place.catalog.value, a.files.Keys))
            && (o.problem == None ==>
                      FilesBelow(o.tree, SkillsOf(a, place)) == FilesBelow(place.disk, place.catalog.value) + a.files)
  {
    RegisteredRevisionsAreExact(env, steps, a);
    InitialInv(env);
    RunKeeps(env, INITIAL, steps);
    hide Run, PossibleRun, UndisturbedRun, HoldsExactly, Fits, Attempt, ListsRevision, Fresh, Honest, Derived,
      AllVetted, AllPinned, SessionsHold, PublicationsApproved, RevisionsApproved, ApprovalsHold, Materialized,
      FilesBelow;
    var s := Run(env, INITIAL, steps);
    var downloads, redone := StoredAnswers(env, s, a, scope, place, refs, again);
    CatalogIsOverridden(env.platform.sha, place.disk, place.root, place.catalog.value, a.workspaceId, place.session,
                        a.digest, downloads, redone, a.files);
  }
}
