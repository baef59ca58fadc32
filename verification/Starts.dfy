/** What a session gets, spelled out: on a stored revision a start hands over the published files, in the
    directory that the session names. */
module Starts {
  import opened Text
  import opened Integrity
  import opened Paths
  import opened Disk
  import opened Layout
  import opened FlatStorage
  import opened StorageRefinement
  import opened Registry
  import opened Broker
  import opened Materializer
  import opened MaterializerTheorems
  import opened Sessions
  import opened Publications
  import opened Pipeline
  import opened Immutability
  import opened RoundTrip
  import opened PublishSteps

  /** Below the revision's skills prefix the store holds the files and nothing else. */
  ghost predicate Stores(o: Objects, w: string, digest: string, files: Files) {
    && (forall path :: path in files ==>
              SkillNames(w, digest)(path) in o && o[SkillNames(w, digest)(path)] == files[path])
    && (forall k :: k in o && RevisionPrefixText(w, digest) + "skills/" <= k ==>
              exists path :: path in files && k == SkillNames(w, digest)(path))
  }

  /** The principal may start on its workspace: it has a generation, the credential on the request is the
      broker's or there is none, and then the workspace is the principal's. */
  ghost predicate MayStart(s: State, call: StartCall, w: string) {
    var gens := Generations(s, w);
    && gens != [] && gens[|gens| - 1].workspaceId == w && IsWorkspaceId(w)
    && IsDigestName(gens[|gens| - 1].contentDigest)
    && (call.credential == None ==> w in s.workspaces && s.workspaces[w].principalKey == call.principal.key)
    && (call.credential.Some? ==> OwnScope(w, call.credential.value.scope))
  }

  ghost function Newest(s: State, w: string): Generation
    requires Generations(s, w) != []
  {
    Generations(s, w)[|Generations(s, w)| - 1]
  }

  /** The directory of the session that is handed to the agent. */
  ghost function Handed(setting: Setting, call: StartCall, w: string): Path {
    setting.root + [w, call.session, "skills"]
  }

  ghost function Stored(w: string, digest: string, files: Files): Approval {
    Approval(w, digest, None, files)
  }

  lemma StoresIsExact(o: Objects, w: string, digest: string, files: Files)
    requires Stores(o, w, digest, files)
    ensures HoldsExactly(o, Stored(w, digest, files))
  {
    hide SkillNames;
    var a := Stored(w, digest, files);
    forall path ensures FileKey(a, path) == SkillNames(w, digest)(path) {
      KeysAre(w, digest, path);
    }
    assert SkillsRoot(w, digest) == RevisionPrefixText(w, digest) + "skills/";
  }

  /** What a start that is let through does with a stored revision. */
  lemma StartIsFilled(setting: Setting, call: StartCall, w: string, s: State, o: Objects, t: Tree, t': Tree,
                      r: Result<StartedSession>, refs: seq<ObjectRef>, again: seq<ObjectRef>, files: Files)
    returns (downloads: seq<Download>, redone: seq<Download>)
    requires MayStart(s, call, w) && Fresh(t, setting.root, w, call.session)
    requires StartDoes(setting, call, w, s, o, t, t', r, refs, again)
    requires Stores(o, w, Newest(s, w).contentDigest, files) && AllSafe(files)
    ensures Honest(downloads, files) && Honest(redone, files)
    ensures Outcome(t', ProblemOf(r))
            == Materialized(setting.sha, t, setting.root, setting.catalog, w, call.session,
                            Newest(s, w).contentDigest, downloads, redone)
    ensures r.Ok? ==> IsStartedOn(r.value, setting.root, call, Newest(s, w))
  {
    hide StartAccess, Materialized, MakeAll, IsStartedOn, IsVerified, StartedOn, IsListingOf, HoldsExactly, Honest,
      Guard, RevisionPrefix, SkillsRoot, Fresh, Answers, Stores, AllSafe, IsWorkspaceId, IsDigestName;
    var gen := Newest(s, w);
    StartAccessIs(s, setting.broker, call.principal, w, call.credential, call.now);
    var scope := StartAccess(s, setting.broker, call.principal, w, call.credential, call.now).value.1;
    assert OwnScope(w, scope) by { assert Prefix(w) == "workspaces/" + w + "/"; }
    SessionMade(t, setting.root, w, call.session);
    var a := Stored(w, gen.contentDigest, files);
    StoresIsExact(o, w, gen.contentDigest, files);
    ListedPrefixIsRoot(a, scope);
    ExactStoreIsHonest(o, a, scope, refs);
    ExactStoreIsHonest(o, a, scope, again);
    downloads := Answers(o, w, scope, SkillsRoot(w, gen.contentDigest), refs);
    redone := Answers(o, w, scope, SkillsRoot(w, gen.contentDigest), again);
  }

  /** Without a catalog, a start on a stored revision with its own digest succeeds exactly when no path is a
      directory of another; then the session is pinned to the newest generation, and the directory that it
      hands to the agent holds the published files and nothing else. */
  lemma StartHandsOverPublishedFiles(setting: Setting, call: StartCall, w: string, s: State, o: Objects, t: Tree,
                                     t': Tree, r: Result<StartedSession>, refs: seq<ObjectRef>, again: seq<ObjectRef>,
                                     files: Files)
    requires MayStart(s, call, w) && Fresh(t, setting.root, w, call.session) && setting.catalog == None
    requires StartDoes(setting, call, w, s, o, t, t', r, refs, again)
    requires Stores(o, w, Newest(s, w).contentDigest, files) && AllSafe(files) && AllSeparatorFree(files)
    requires Digest(setting.sha, files) == Newest(s, w).contentDigest
    requires !Collide(setting.sha, files, FilesBelow(t', Handed(setting, call, w)))
    ensures r.Ok? <==> PrefixFree(files.Keys)
    ensures r.Ok? ==>
              && IsStartedOn(r.value, setting.root, call, Newest(s, w))
              && r.value.connection.skillsPaths == [r.value.materialized.skillsDir]
              && FilesBelow(t', r.value.materialized.skillsDir) == files
  {
    hide StartAccess, Materialized, StartDoes, Honest, Fresh, Stores, AllSafe, AllSeparatorFree, PrefixFree, MayStart,
      Collide, Digest, FilesBelow;
    NewestIsOfWorkspace(s, call, w);
    var downloads, redone := StartIsFilled(setting, call, w, s, o, t, t', r, refs, again, files);
    assert SkillsDir(setting.root, w, call.session) == Handed(setting, call, w);
    HonestStart(setting.sha, t, setting.root, w, call.session, downloads, redone, files);
  }

  lemma NewestIsOfWorkspace(s: State, call: StartCall, w: string)
    requires MayStart(s, call, w)
    ensures Generations(s, w) != [] && Newest(s, w).workspaceId == w
  {
  }

  /** With a catalog, it succeeds exactly when the files fit on top of it, and the directory holds the catalog
      overridden by the published files. */
  lemma StartHandsOverCatalogAndFiles(setting: Setting, call: StartCall, w: string, s: State, o: Objects, t: Tree,
                                      t': Tree, r: Result<StartedSession>, refs: seq<ObjectRef>,
                                      again: seq<ObjectRef>, files: Files)
    requires MayStart(s, call, w) && Fresh(t, setting.root, w, call.session)
    requires setting.catalog.Some? && CatalogApart(t, setting.catalog.value, Handed(setting, call, w))
    requires StartDoes(setting, call, w, s, o, t, t', r, refs, again)
    requires Stores(o, w, Newest(s, w).contentDigest, files) && AllSafe(files)
    requires forall path :: path in files ==> Canonical(path)
    ensures r.Ok? <==> Fits(t, setting.catalog.value, files.Keys)
    ensures r.Ok? ==>
              && IsStartedOn(r.value, setting.root, call, Newest(s, w))
              && r.value.connection.skillsPaths == [r.value.materialized.skillsDir]
              && FilesBelow(t', r.value.materialized.skillsDir) == FilesBelow(t, setting.catalog.value) + files
  {
    hide StartAccess, Materialized, StartDoes, Honest, Fresh, Stores, AllSafe, Fits, MayStart, FilesBelow, Canonical;
    NewestIsOfWorkspace(s, call, w);
    var downloads, redone := StartIsFilled(setting, call, w, s, o, t, t', r, refs, again, files);
    assert SkillsDir(setting.root, w, call.session) == Handed(setting, call, w);
    CatalogIsOverridden(setting.sha, t, setting.root, setting.catalog.value, w, call.session,
                        Newest(s, w).contentDigest, downloads, redone, files);
  }

  /** The session that the machine of runs records has the conversation that the start answers, and the files
      below the directory that the start hands over. */
  lemma RecordedSessionIsHandedOver(env: Env, s: Sys, setting: Setting, call: StartCall, place: Place, t': Tree,
                                    r: Result<StartedSession>, refs: seq<ObjectRef>, again: seq<ObjectRef>)
    returns (downloads: seq<Download>, redone: seq<Download>)
    requires setting == Setting(env.broker, env.platform.sha, place.root, place.catalog)
    requires place.session == call.session
    requires StartDoes(setting, call, HomeOf(s.registry, env.derive, call.principal.key), s.registry, s.objects,
                       place.disk, t', r, refs, again)
    requires r.Ok?
    ensures AfterOpen(env, s, call.principal, call.credential, call.geSession, call.id,
                      place.(downloads := downloads, again := redone), call.now)
            == s.(conversations := s.conversations[call.id := r.value.conversation],
                  sessions := s.sessions + [Started(r.value.conversation, place.catalog.Some?,
                                                    FilesBelow(t', r.value.materialized.skillsDir))])
  {
    hide StartAccess, Attempt, MakeAll, IsVerified, ListsRevision, HomeOf, AfterOpen, FilesBelow, ListedPrefix, Answers;
    var w := HomeOf(s.registry, env.derive, call.principal.key);
    var (gen, scope) := StartAccess(s.registry, env.broker, call.principal, w, call.credential, call.now).value;
    AccessIsOwn(s.registry, env.broker, call.principal, w, call.credential, call.now);
    StartIsAStep(env, s, call.principal, call.credential, call.geSession, call.id, place, call.now, refs, again);
    var prefix := ListedPrefix(w, scope, gen.contentDigest).value;
    downloads, redone := Answers(s.objects, w, scope, prefix, refs), Answers(s.objects, w, scope, prefix, again);
  }
}
