/** Session start: resolve the active generation, materialize it and pin a conversation to it. */
module Sessions {
  import opened Text
  import opened Integrity
  import opened Paths
  import opened Disk
  import opened Layout
  import opened FlatStorage
  import opened LocalStorage
  import opened Registry
  import opened Broker
  import opened Materializer
  import opened MaterializerTheorems

  // ---------------------------------------------------------------------------
  // Conversations
  // ---------------------------------------------------------------------------

  datatype Conversation = Conversation(
    id: string,
    principalKey: string,
    workspaceId: string,
    generation: int,
    contentDigest: string,
    geSession: string,
    createdAt: int)

  function GetConversation(items: map<string, Conversation>, id: string, principalKey: string): Result<Conversation> {
    if id !in items then Err(NotFound)
    else if items[id].principalKey != principalKey then Err(Isolation)
    else Ok(items[id])
  }

  class ConversationStore {
    var items: map<string, Conversation>

    constructor ()
      ensures items == map[]
    {
      items := map[];
    }

    /** `id` is the random id of the new conversation. */
    method Create(id: string, p: Principal, w: string, generation: int, digest: string, geSession: string,
                  now: int) returns (c: Conversation)
      modifies this
      ensures c == Conversation(id, p.key, w, generation, digest, geSession, now)
      ensures items == old(items)[id := c]
    {
      c := Conversation(id, p.key, w, generation, digest, geSession, now);
      items := items[id := c];
    }

    method Get(id: string, p: Principal) returns (r: Result<Conversation>)
      ensures r.Ok? <==> id in items && items[id].principalKey == p.key
      ensures r.Ok? ==> r.value == items[id] && r.value.principalKey == p.key
      ensures id !in items <==> r == Err(NotFound)
      ensures r == GetConversation(items, id, p.key)
    {
      if id !in items {
        return Err(NotFound);
      }
      if items[id].principalKey != p.key {
        return Err(Isolation);
      }
      return Ok(items[id]);
    }
  }

  // ---------------------------------------------------------------------------
  // Materialization
  // ---------------------------------------------------------------------------

  datatype MaterializedSession = MaterializedSession(
    sessionId: string,
    workspaceId: string,
    generation: int,
    contentDigest: string,
    root: Path,
    skillsDir: Path,
    appDataDir: Path,
    inputsDir: Path,
    workDir: Path)

  function SessionOf(root: Path, session: string, gen: Generation): MaterializedSession {
    var base := SessionDir(root, gen.workspaceId, session);
    MaterializedSession(session, gen.workspaceId, gen.number, gen.contentDigest, base,
                        SkillsDir(root, gen.workspaceId, session),
                        base + ["antigravity-data"], base + ["inputs"], base + ["work"])
  }

  /** The session of a generation: its own directory below the root, with one directory per purpose. */
  ghost predicate IsSessionOf(m: MaterializedSession, root: Path, session: string, gen: Generation) {
    && m.sessionId == session && m.workspaceId == gen.workspaceId
    && m.generation == gen.number && m.contentDigest == gen.contentDigest
    && m.root == root + [gen.workspaceId, session]
    && m.skillsDir == m.root + ["skills"] && m.appDataDir == m.root + ["antigravity-data"]
    && m.inputsDir == m.root + ["inputs"] && m.workDir == m.root + ["work"]
  }

  /** Without a catalog, what lies below the directory the session names has the digest it names. */
  ghost predicate IsVerified(sha: Sha256, t: Tree, catalog: Option<Path>, m: MaterializedSession) {
    catalog == None ==>
      AllSafe(FilesBelow(t, m.skillsDir)) && Digest(sha, FilesBelow(t, m.skillsDir)) == m.contentDigest
  }

  /** Where a start looks for objects, as the adapter it was given sees it. */
  datatype Access = Access(objects: Objects, workspaceId: string, scope: Option<string>)

  /** What materializing a generation through an adapter does, when the store lists the objects in the
      order of `refs`, and of `again` when they are compared. */
  ghost function Attempt(sha: Sha256, t: Tree, root: Path, catalog: Option<Path>, a: Access, session: string,
                         digest: string,
                         refs: seq<ObjectRef>, again: seq<ObjectRef>): Outcome
  {
    match ListedPrefix(a.workspaceId, a.scope, digest)
    case Ok(prefix) =>
      Materialized(sha, t, root, catalog, a.workspaceId, session, digest,
                   Answers(a.objects, a.workspaceId, a.scope, prefix, refs),
                   Answers(a.objects, a.workspaceId, a.scope, prefix, again))
    case Err(e) =>
      match MakeAll(t, SessionDir(root, a.workspaceId, session), SUBDIRS)
      case Err(e') => Outcome(t, Some(e'))
      case Ok(made) => Outcome(WithCatalog(made, catalog, SkillsDir(root, a.workspaceId, session)), Some(e))
  }

  ghost predicate ListsRevision(refs: seq<ObjectRef>, a: Access, digest: string) {
    ListedPrefix(a.workspaceId, a.scope, digest).Ok? ==>
      IsListingOf(refs, a.objects, ListedPrefix(a.workspaceId, a.scope, digest).value)
  }

  /** An attempt that goes through has verified the directory that the session names. */
  lemma AttemptIsVerified(sha: Sha256, t: Tree, root: Path, catalog: Option<Path>, a: Access, session: string,
                          gen: Generation, refs: seq<ObjectRef>, again: seq<ObjectRef>)
    requires gen.workspaceId == a.workspaceId
    requires Attempt(sha, t, root, catalog, a, session, gen.contentDigest, refs, again).problem == None
    ensures IsVerified(sha, Attempt(sha, t, root, catalog, a, session, gen.contentDigest, refs, again).tree, catalog,
                       SessionOf(root, session, gen))
    ensures IsSessionOf(SessionOf(root, session, gen), root, session, gen)
  {
    hide Materialized, Answers, ListedPrefix, MakeAll, WithCatalog, Digest, AllSafe;
    if catalog == None {
      var prefix := ListedPrefix(a.workspaceId, a.scope, gen.contentDigest).value;
      StartedTreeIsVerified(sha, t, root, a.workspaceId, session, gen.contentDigest,
                            Answers(a.objects, a.workspaceId, a.scope, prefix, refs),
                            Answers(a.objects, a.workspaceId, a.scope, prefix, again));
    }
  }

  ghost function ProblemOf<T>(r: Result<T>): Option<Error> {
    if r.Err? then Some(r.error) else None
  }

  class SessionMaterializer {
    const volume: Volume
    const root: Path
    const catalog: Option<Path>
    const sha: Sha256

    constructor (volume: Volume, root: Path, catalog: Option<Path>, sha: Sha256)
      ensures this.volume == volume && this.root == root && this.catalog == catalog && this.sha == sha
    {
      this.volume := volume;
      this.root := root;
      this.catalog := catalog;
      this.sha := sha;
    }

    /** The session id is new, and the catalog does not contain the sessions. */
    ghost predicate Ready(w: string, session: string)
      reads this, volume
    {
      && WellFormed(volume.tree) && FilePath(SessionDir(root, w, session))
      && SessionDir(root, w, session) !in volume.tree
      && (catalog.Some? ==> !(catalog.value <= SkillsDir(root, w, session)))
    }

    method MakeSession(base: Path) returns (problem: Option<Error>)
      modifies volume
      ensures match MakeAll(old(volume.tree), base, SUBDIRS)
              case Ok(t) => problem == None && volume.tree == t
              case Err(e) => problem == Some(e) && volume.tree == old(volume.tree)
    {
      var t := volume.tree;
      for i := 0 to |SUBDIRS|
        invariant volume.tree == old(volume.tree)
        invariant MakeAll(old(volume.tree), base, SUBDIRS) == MakeAll(t, base, SUBDIRS[i..])
      {
        assert SUBDIRS[i..][1..] == SUBDIRS[i + 1..];
        var made := MakeDirs(t, [], base + [SUBDIRS[i]]);
        if made.Err? {
          return Some(made.error);
        }
        t := made.value;
      }
      volume.tree := t;
      return None;
    }

    method ListRevision(storage: FlatStorage.Storage, digest: string) returns (prefix: Result<string>,
        refs: seq<ObjectRef>)
      ensures prefix == ListedPrefix(storage.id, storage.scope, digest)
      ensures ListsRevision(refs, Access(storage.bucket.objects, storage.id, storage.scope), digest)
    {
      refs := [];
      var revision := RevisionPrefix(storage.id, digest);
      if revision.Err? {
        return Err(revision.error), [];
      }
      var listed := storage.ListObjects(revision.value + "skills/");
      if listed.Err? {
        return Err(listed.error), [];
      }
      return Ok(revision.value + "skills/"), listed.value;
    }

    ghost function AccessOf(storage: FlatStorage.Storage): Access
      reads storage.bucket
    {
      Access(storage.bucket.objects, storage.id, storage.scope)
    }

    ghost function AnswersOf(storage: FlatStorage.Storage, prefix: string, refs: seq<ObjectRef>): seq<Download>
      reads storage.bucket
    {
      Answers(storage.bucket.objects, storage.id, storage.scope, prefix, refs)
    }

    method Inspect(storage: FlatStorage.Storage, skills: Path, digest: string,
                   prefix: string) returns (problem: Option<Error>, ghost again: seq<ObjectRef>)
      requires catalog == None ==> WellFormed(volume.tree)
      requires ListedPrefix(storage.id, storage.scope, digest) == Ok(prefix)
      ensures ListsRevision(again, AccessOf(storage), digest)
      ensures problem == Verify(sha, volume.tree, skills, catalog, digest, AnswersOf(storage, prefix, again))
    {
      var _, refs := ListRevision(storage, digest);
      again := refs;
      if catalog == None {
        problem := CheckTree(sha, volume.tree, skills, digest);
      } else {
        problem := CheckEach(sha, volume.tree, storage, skills, prefix, refs);
      }
    }

    /** Download the listed objects over the catalog and verify the result. */
    method FillSession(storage: FlatStorage.Storage, skills: Path, digest: string, prefix: string, refs: seq<ObjectRef>)
      returns (problem: Option<Error>, ghost again: seq<ObjectRef>)
      requires catalog == None ==> WellFormed(volume.tree) && IsDir(volume.tree, skills)
      requires ListedPrefix(storage.id, storage.scope, digest) == Ok(prefix)
      requires ListsRevision(refs, AccessOf(storage), digest)
      modifies volume
      ensures ListsRevision(again, AccessOf(storage), digest)
      ensures LaidAndVerified(old(volume.tree), problem, skills, digest, AnswersOf(storage, prefix, refs),
                              AnswersOf(storage, prefix, again))
    {
      hide LayDown, Verify, Guard, IsListingOf, RevisionPrefix, WellFormed, Answers;
      again := refs;
      problem := FetchAll(volume, storage, skills, prefix, refs);
      if catalog == None {
        LayDownWellFormed(old(volume.tree), skills, AnswersOf(storage, prefix, refs));
      }
      if problem == None {
        problem, again := Inspect(storage, skills, digest, prefix);
      }
    }

    /** The volume is what the download loop and the verification make of `t`. */
    ghost predicate LaidAndVerified(t: Tree, problem: Option<Error>, skills: Path, digest: string,
                                    downloads: seq<Download>, again: seq<Download>)
      reads this, volume
    {
      var laid := LayDown(t, skills, downloads);
      && volume.tree == laid.tree
      && problem == if laid.problem.Some? then laid.problem else Verify(sha, laid.tree, skills, catalog, digest, again)
    }

    method Materialize(storage: FlatStorage.Storage, gen: Generation, session: string)
      returns (r: Result<MaterializedSession>, ghost refs: seq<ObjectRef>, ghost again: seq<ObjectRef>)
      requires Ready(storage.id, session)
      modifies volume
      ensures gen.workspaceId != storage.id ==> r == Err(BadValue) && volume.tree == old(volume.tree)
      ensures gen.workspaceId == storage.id ==>
                && (MakeAll(old(volume.tree), SessionDir(root, storage.id, session), SUBDIRS).Ok? ==>
                      && ListsRevision(refs, AccessOf(storage), gen.contentDigest)
                      && ListsRevision(again, AccessOf(storage), gen.contentDigest))
                && Outcome(volume.tree, ProblemOf(r))
                   == Attempt(sha, old(volume.tree), root, catalog, AccessOf(storage), session, gen.contentDigest, refs,
                              again)
      ensures r.Ok? ==> r.value == SessionOf(root, session, gen)
      ensures r.Ok? ==> IsSessionOf(r.value, root, session, gen) && IsVerified(sha, volume.tree, catalog, r.value)
    {
      hide IsVerified, IsSessionOf, Attempt;
      r, refs, again := MaterializeAll(storage, gen, session);
      if r.Ok? {
        AttemptIsVerified(sha, old(volume.tree), root, catalog, AccessOf(storage), session, gen, refs, again);
      }
    }

    /** The steps of a materialization. */
    method MaterializeAll(storage: FlatStorage.Storage, gen: Generation, session: string)
      returns (r: Result<MaterializedSession>, ghost refs: seq<ObjectRef>, ghost again: seq<ObjectRef>)
      requires Ready(storage.id, session)
      modifies volume
      ensures gen.workspaceId != storage.id ==> r == Err(BadValue) && volume.tree == old(volume.tree)
      ensures gen.workspaceId == storage.id ==>
                && (MakeAll(old(volume.tree), SessionDir(root, storage.id, session), SUBDIRS).Ok? ==>
                      && ListsRevision(refs, AccessOf(storage), gen.contentDigest)
                      && ListsRevision(again, AccessOf(storage), gen.contentDigest))
                && Outcome(volume.tree, ProblemOf(r))
                   == Attempt(sha, old(volume.tree), root, catalog, AccessOf(storage), session, gen.contentDigest, refs,
                              again)
      ensures r.Ok? ==> r.value == SessionOf(root, session, gen)
    {
      hide LayDown, MakeAll, Verify, CopyTree, WellFormed, Guard, RevisionPrefix, IsListingOf;
      refs, again := [], [];
      if gen.workspaceId != storage.id {
        return Err(BadValue), refs, again;
      }
      var skills := SkillsDir(root, storage.id, session);
      var problem := MakeSession(SessionDir(root, storage.id, session));
      if problem.Some? {
        return Err(problem.value), refs, again;
      }
      ghost var made := volume.tree;
      MadeIsReady(old(volume.tree), made, root, storage.id, session);
      if catalog.Some? && IsDir(volume.tree, catalog.value) {
        volume.tree := CopyTree(volume.tree, catalog.value, skills);
      }
      assert volume.tree == WithCatalog(made, catalog, skills);
      var prefix, listed := ListRevision(storage, gen.contentDigest);
      refs, again := listed, listed;
      if prefix.Err? {
        return Err(prefix.error), refs, again;
      }
      problem, again := FillSession(storage, skills, gen.contentDigest, prefix.value, listed);
      if problem.Some? {
        return Err(problem.value), refs, again;
      }
      return Ok(SessionOf(root, session, gen)), refs, again;
    }
  }

  lemma {:induction false} MadeNeedsNoFile(t: Tree, at: Path, parts: Path)
    requires MakeDirs(t, at, parts).Ok? && Resolved(parts)
    ensures !FileOnTheWay(t, at, parts)
  {
    MakeDirsExact(t, at, parts);
  }

  lemma MadeIsReady(t: Tree, made: Tree, root: Path, w: string, session: string)
    requires WellFormed(t) && FilePath(SessionDir(root, w, session)) && SessionDir(root, w, session) !in t
    requires MakeAll(t, SessionDir(root, w, session), SUBDIRS) == Ok(made)
    ensures Fresh(t, root, w, session)
    ensures WellFormed(made) && IsDir(made, SkillsDir(root, w, session))
  {
    var base := SessionDir(root, w, session);
    var first := base + ["skills"];
    assert SUBDIRS[0] == "skills";
    assert MakeDirs(t, [], first).Ok?;
    MadeNeedsNoFile(t, [], first);
    forall p | OnTheWay(p, [], root + [w]) ensures !IsFile(t, p) {
      assert [] + (root + [w]) <= [] + first;
      assert OnTheWay(p, [], first);
    }
    SessionMade(t, root, w, session);
  }

  // ---------------------------------------------------------------------------
  // Starting a session
  // ---------------------------------------------------------------------------

  /** What the agent runtime is given: directories, and an environment that carries no credential. */
  datatype Connection = Connection(skillsPaths: seq<Path>, appDataDir: Path, env: map<string, string>)

  function ForSession(m: MaterializedSession): Connection {
    Connection([m.skillsDir], m.appDataDir, map[])
  }

  datatype StartedSession = StartedSession(
    conversation: Conversation,
    connection: Connection,
    materialized: MaterializedSession)

  /** How the credential broker is deployed. */
  datatype BrokerConfig = BrokerConfig(minter: Minter, bucket: string, ttl: int)

  const SESSION_PERMISSIONS := ["storage.objects.get", "storage.objects.list"]

  /** The scope of the credential on the request, or of one that the broker issues. */
  function ScopeFor(s: State, broker: BrokerConfig, p: Principal, w: string, credential: Option<Credential>,
                    now: int): Result<Option<string>> {
    if credential.Some? then Ok(credential.value.scope)
    else
      var issued :- Issue(s, broker.minter, broker.bucket, broker.ttl, p, w, SESSION_PERMISSIONS, now);
      Ok(issued.scope)
  }

  /** The generation that a start pins and the scope of its adapter. */
  function StartAccess(s: State, broker: BrokerConfig, p: Principal, w: string, credential: Option<Credential>,
                       now: int): Result<(Generation, Option<string>)> {
    var gen :- ResolveActive(s, w);
    var scope :- ScopeFor(s, broker, p, w, credential, now);
    if !IsWorkspaceId(w) || gen.workspaceId != w then Err(BadValue) else Ok((gen, scope))
  }

  /** Who may start on a workspace with generations, and with which error others are refused: the newest
      generation is resolved first, then the credential is looked for, then the id of the workspace is
      checked. */
  lemma StartAccessIs(s: State, broker: BrokerConfig, p: Principal, w: string, credential: Option<Credential>,
                      now: int)
    ensures var r := StartAccess(s, broker, p, w, credential, now);
            var gens := Generations(s, w);
            var owned := w in s.workspaces && s.workspaces[w].principalKey == p.key;
            && (gens == [] ==> r == Err(NotFound))
            && (gens != [] && credential == None && w !in s.workspaces ==> r == Err(Authorization))
            && (gens != [] && credential == None && w in s.workspaces && !owned ==> r == Err(Isolation))
            && (gens != [] && (credential.Some? || owned) ==>
                  if IsWorkspaceId(w) && gens[|gens| - 1].workspaceId == w
                  then r == Ok((gens[|gens| - 1], if credential.Some? then credential.value.scope
                                                  else Some("workspaces/" + w + "/")))
                  else r == Err(BadValue))
  {
    hide IsWorkspaceId, BuildBoundary;
    IssuedCredential(s, broker.minter, broker.bucket, broker.ttl, p, w, SESSION_PERMISSIONS, now);
  }

  /** What a session asks for only reads. */
  lemma SessionsOnlyRead()
    ensures forall i :: 0 <= i < |SESSION_PERMISSIONS| ==> IsReading(SESSION_PERMISSIONS[i])
  {
    assert SESSION_PERMISSIONS[0] == "storage.objects" + ".get";
    assert SESSION_PERMISSIONS[1] == "storage.objects" + ".list";
  }

  /** The credential is minted for viewing the objects of the workspace. */
  ghost predicate IsViewing(c: Credential, broker: BrokerConfig, w: string, now: int) {
    && c.secret
       == broker.minter(Boundary(broker.bucket, ObjectViewer,
                                 "projects/_/buckets/" + broker.bucket + "/objects/workspaces/" + w + "/"),
                        broker.ttl)
    && c.scope == Some("workspaces/" + w + "/") && c.expiresAt == Some(now + broker.ttl)
  }

  lemma SessionCredentialViews(s: State, broker: BrokerConfig, p: Principal, w: string, now: int)
    ensures var r := Issue(s, broker.minter, broker.bucket, broker.ttl, p, w, SESSION_PERMISSIONS, now);
            r.Ok? ==> IsViewing(r.value, broker, w, now)
  {
    SessionsOnlyRead();
    BoundaryIs(broker.bucket, w, SESSION_PERMISSIONS);
    hide IsReading, BuildBoundary, IsWorkspaceId;
    assert Prefix(w) == "workspaces/" + w + "/";
  }

  function Pinned(id: string, p: Principal, gen: Generation, geSession: string, now: int): Conversation {
    Conversation(id, p.key, gen.workspaceId, gen.number, gen.contentDigest, geSession, now)
  }

  /** What a start is asked for. */
  datatype StartCall = StartCall(principal: Principal, credential: Option<Credential>, geSession: string,
                                 session: string, id: string, now: int)

  function StartedOn(root: Path, call: StartCall, gen: Generation): StartedSession {
    var m := SessionOf(root, call.session, gen);
    StartedSession(Pinned(call.id, call.principal, gen, call.geSession, call.now), ForSession(m), m)
  }

  /** What a successful start answers: a conversation pinned to the generation for the principal, the session
      of that generation, and a connection to the session's own directories and to nothing else. */
  ghost predicate IsStartedOn(r: StartedSession, root: Path, call: StartCall, gen: Generation) {
    && r.conversation.id == call.id && r.conversation.principalKey == call.principal.key
    && r.conversation.geSession == call.geSession && r.conversation.createdAt == call.now
    && r.conversation.workspaceId == r.materialized.workspaceId == gen.workspaceId
    && r.conversation.generation == r.materialized.generation == gen.number
    && r.conversation.contentDigest == r.materialized.contentDigest == gen.contentDigest
    && IsSessionOf(r.materialized, root, call.session, gen)
    && r.connection.skillsPaths == [r.materialized.skillsDir]
    && r.connection.appDataDir == r.materialized.appDataDir && r.connection.env == map[]
  }

  /** How a start is deployed. */
  datatype Setting = Setting(broker: BrokerConfig, sha: Sha256, root: Path, catalog: Option<Path>)

  /** What a start does when the registry is `s`, the store holds `o` and the disk goes from `t` to `t'`. */
  ghost predicate StartDoes(setting: Setting, call: StartCall, w: string, s: State, o: Objects, t: Tree, t': Tree,
                            r: Result<StartedSession>, refs: seq<ObjectRef>, again: seq<ObjectRef>) {
    match StartAccess(s, setting.broker, call.principal, w, call.credential, call.now)
    case Err(e) => r == Err(e) && t' == t
    case Ok((gen, scope)) => StartDoesOn(setting, call, w, gen, Access(o, w, scope), t, t', r, refs, again)
  }

  ghost predicate StartDoesOn(setting: Setting, call: StartCall, w: string, gen: Generation, a: Access, t: Tree,
                              t': Tree, r: Result<StartedSession>, refs: seq<ObjectRef>, again: seq<ObjectRef>) {
    && Outcome(t', ProblemOf(r))
       == Attempt(setting.sha, t, setting.root, setting.catalog, a, call.session, gen.contentDigest, refs, again)
    && (MakeAll(t, SessionDir(setting.root, a.workspaceId, call.session), SUBDIRS).Ok? ==>
          ListsRevision(refs, a, gen.contentDigest) && ListsRevision(again, a, gen.contentDigest))
    && (r.Ok? ==>
          && r.value == StartedOn(setting.root, call, gen) && IsStartedOn(r.value, setting.root, call, gen)
          && IsVerified(setting.sha, t', setting.catalog, r.value.materialized))
  }

  class SessionLifecycle {
    const registry: InMemoryRegistry
    const broker: BrokerConfig
    const bucket: Bucket
    const materializer: SessionMaterializer
    const conversations: ConversationStore
    const placement: Placement

    constructor (registry: InMemoryRegistry, broker: BrokerConfig, bucket: Bucket, materializer: SessionMaterializer,
                 conversations: ConversationStore, placement: Placement)
      ensures this.registry == registry && this.broker == broker && this.bucket == bucket
      ensures this.materializer == materializer
      ensures this.conversations == conversations && this.placement == placement
    {
      this.registry := registry;
      this.broker := broker;
      this.bucket := bucket;
      this.materializer := materializer;
      this.conversations := conversations;
      this.placement := placement;
    }

    ghost function Disk(): Tree
      reads this, materializer, materializer.volume
    {
      materializer.volume.tree
    }

    /** The checks before the materialization. */
    method Prepare(p: Principal, credential: Option<Credential>, now: int) returns (w: string, r: Result<(Generation,
        Option<string>)>)
      requires registry.Valid()
      modifies registry
      ensures registry.Valid()
      ensures w == HomeOf(old(registry.View()), registry.derive, p.key)
      ensures registry.View() == Ensure(old(registry.View()), registry.derive, p, placement, now)
      ensures r == StartAccess(registry.View(), broker, p, w, credential, now)
    {
      hide Ensure, IsWorkspaceId, IsViewing, BuildBoundary, HomeOf;
      var ws := registry.EnsureWorkspace(p, placement, now);
      w := ws.workspaceId;
      var gen := registry.ResolveActiveGeneration(w);
      if gen.Err? {
        return w, Err(gen.error);
      }
      var scope: Option<string>;
      if credential.Some? {
        scope := credential.value.scope;
      } else {
        var owner := registry.WorkspaceOwner(w);
        var issued := IssueTo(owner, broker, p, w, now);
        if issued.Err? {
          return w, Err(issued.error);
        }
        scope := issued.value.scope;
      }
      if !IsWorkspaceId(w) || gen.value.workspaceId != w {
        return w, Err(BadValue);
      }
      return w, Ok((gen.value, scope));
    }

    ghost function Here(): Setting {
      Setting(broker, materializer.sha, materializer.root, materializer.catalog)
    }

    /** `call.session` and `call.id` are the random ids of the new session and conversation. */
    method Start(call: StartCall)
      returns (r: Result<StartedSession>, ghost refs: seq<ObjectRef>, ghost again: seq<ObjectRef>)
      requires registry.Valid()
      requires materializer.Ready(HomeOf(registry.View(), registry.derive, call.principal.key), call.session)
      modifies registry, materializer.volume, conversations
      ensures registry.Valid()
      ensures registry.View() == Ensure(old(registry.View()), registry.derive, call.principal, placement, call.now)
      ensures StartDoes(Here(), call, HomeOf(old(registry.View()), registry.derive, call.principal.key),
                        registry.View(), bucket.objects, old(Disk()), Disk(), r, refs, again)
      ensures conversations.items
              == if r.Ok? then old(conversations.items)[call.id := r.value.conversation] else old(conversations.items)
    {
      hide StartAccess, StartDoesOn, Ensure, WellFormed, SessionDir, SkillsDir, FilePath, HomeOf;
      refs, again := [], [];
      var w, access := Prepare(call.principal, call.credential, call.now);
      if access.Err? {
        return Err(access.error), refs, again;
      }
      AccessIsOwn(registry.View(), broker, call.principal, w, call.credential, call.now);
      r, refs, again := Launch(call, w, access.value.0, access.value.1);
    }

    /** The part of a start that follows the checks. */
    method Launch(call: StartCall, w: string, gen: Generation, scope: Option<string>)
      returns (r: Result<StartedSession>, ghost refs: seq<ObjectRef>, ghost again: seq<ObjectRef>)
      requires IsWorkspaceId(w) && gen.workspaceId == w && materializer.Ready(w, call.session)
      modifies materializer.volume, conversations
      ensures StartDoesOn(Here(), call, w, gen, Access(bucket.objects, w, scope), old(Disk()), Disk(), r, refs, again)
      ensures conversations.items
              == if r.Ok? then old(conversations.items)[call.id := r.value.conversation] else old(conversations.items)
    {
      hide Attempt, ListsRevision, WellFormed, SessionOf, SkillsDir, SessionDir, FilePath, MakeAll, IsWorkspaceId,
        IsSessionOf, IsVerified;
      var storage := new FlatStorage.Storage(bucket, w, scope);
      var done, listed, relisted := materializer.Materialize(storage, gen, call.session);
      refs, again := listed, relisted;
      if done.Err? {
        return Err(done.error), refs, again;
      }
      var connection := ForSession(done.value);
      var c := conversations.Create(call.id, call.principal, w, gen.number, gen.contentDigest, call.geSession,
                                    call.now);
      SessionMeans(done.value, materializer.root, call.session, gen);
      return Ok(StartedSession(c, connection, done.value)), refs, again;
    }
  }

  lemma SessionMeans(m: MaterializedSession, root: Path, session: string, gen: Generation)
    requires IsSessionOf(m, root, session, gen)
    ensures m.workspaceId == gen.workspaceId && m.generation == gen.number && m.contentDigest == gen.contentDigest
  {
  }

  lemma AccessIsOwn(s: State, broker: BrokerConfig, p: Principal, w: string, credential: Option<Credential>, now: int)
    requires StartAccess(s, broker, p, w, credential, now).Ok?
    ensures IsWorkspaceId(w) && StartAccess(s, broker, p, w, credential, now).value.0.workspaceId == w
  {
  }

  method IssueTo(owner: Option<string>, broker: BrokerConfig, p: Principal, w: string,
                 now: int) returns (r: Result<Credential>)
    ensures forall s: State :: Owner(s, w) == owner ==>
              r == Issue(s, broker.minter, broker.bucket, broker.ttl, p, w, SESSION_PERMISSIONS, now)
    ensures r.Ok? ==> IsViewing(r.value, broker, w, now)
  {
    SessionsOnlyRead();
    BoundaryIs(broker.bucket, w, SESSION_PERMISSIONS);
    hide IsReading, BuildBoundary, IsWorkspaceId;
    if owner.None? {
      return Err(Authorization);
    }
    if owner.value != p.key {
      return Err(Isolation);
    }
    if !IsWorkspaceId(w) {
      return Err(BadValue);
    }
    var boundary := BuildBoundary(broker.bucket, Prefix(w), SESSION_PERMISSIONS);
    return Ok(Credential(broker.minter(boundary, broker.ttl), Some(Prefix(w)), Some(now + broker.ttl)));
  }
}
