/** Tenants do not interfere: what a principal does through the API leaves every other principal's
    drafts, revisions, generations, objects and conversations alone, and depends on nothing of theirs. */
module Isolation {
  import opened Text
  import opened Integrity
  import opened Paths
  import opened Disk
  import opened Layout
  import opened FlatStorage
  import opened Registry
  import opened Broker
  import opened Drafts
  import opened Materializer
  import opened Sessions
  import opened Pipeline
  import opened PublishSteps

  // ---------------------------------------------------------------------------
  // Requests
  // ---------------------------------------------------------------------------

  /** The state that tenants share. */
  datatype Shared = Shared(registry: State, drafts: Table, objects: Objects, conversations: map<string, Conversation>)

  /** An order in which the store lists a set of keys. */
  type Order = set<string> -> seq<string>

  /** Where a session is put, and the orders of the store's two listings. */
  datatype Local = Local(disk: Tree, root: Path, catalog: Option<Path>, session: string, order: Order, again: Order)

  /** Random ids and the order in which a dictionary is gone through come with the request. */
  datatype Action =
    | NewDraft(id: string, base: Option<string>)
    | Edit(id: string, path: string, content: Option<Bytes>)
    | Check(id: string)
    | Hand(id: string)
    | Issue(id: string, credential: Option<Credential>, activate: bool, note: string, order: seq<string>)
    | Open(credential: Option<Credential>, geSession: string, cid: string, local: Local)

  datatype Request = Request(p: Principal, placement: Placement, now: int, action: Action)

  datatype Reply =
    | Failed(error: Error)
    | Shown(draft: Draft)
    | Issued(result: PublishResult)
    | Opened(conversation: Conversation, files: Files)

  /** `_assert_owns_draft`: somebody else's draft is reported like a missing one. */
  function OwnDraft(drafts: Table, id: string, w: string): Option<Draft> {
    if id in drafts && drafts[id].workspaceId == w then Some(drafts[id]) else None
  }

  function AfterTable(s: Shared, r: Result<Table>, id: string): (Shared, Reply) {
    match r
    case Err(e) => (s, Failed(e))
    case Ok(drafts) => if id in drafts then (s.(drafts := drafts), Shown(drafts[id])) else (s, Failed(NotFound))
  }

  function Guarded(s: Shared, w: string, id: string, r: Result<Table>): (Shared, Reply) {
    if OwnDraft(s.drafts, id, w).None? then (s, Failed(NotFound)) else AfterTable(s, r, id)
  }

  /** The loop of `publish` over the draft's files in the order of `order`. */
  function WriteInOrder(o: Objects, w: string, scope: Option<string>, digest: string, files: Files,
                        order: seq<string>): (Objects, bool)
    decreases order
  {
    if order == [] then (o, true)
    else if order[0] !in files then WriteInOrder(o, w, scope, digest, files, order[1..])
    else
      var key := SkillKey(w, digest, order[0]);
      if Guard(w, scope, key).Err? then (o, false)
      else WriteInOrder(o[key := files[order[0]]], w, scope, digest, files, order[1..])
  }

  /** What is entered and marked once everything is written. */
  ghost function EnterIssued(env: Env, s: Shared, id: string, d: Draft, activate: bool, note: string,
                             now: int): (Shared, Reply)
    requires ManifestOf(env.platform, d.files).Some?
  {
    match Enter(s.registry, PublishedRevision(env.platform, d, now), activate, note, now)
    case Err(e) => (s, Failed(e))
    case Ok(registry) =>
      (s.(registry := registry, drafts := s.drafts[id := d.(status := Published)]),
       Issued(PublishResult(DigestOf(env.platform, d), EnteredGeneration(s.registry, d.workspaceId, activate))))
  }

  ghost function IssueChecked(env: Env, s: Shared, id: string, d: Draft, scope: Option<string>, activate: bool,
                              note: string, now: int,
                              order: seq<string>): (Shared, Reply)
    requires ManifestOf(env.platform, d.files).Some?
  {
    var w, digest := d.workspaceId, DigestOf(env.platform, d);
    var (o, ok) := WriteInOrder(s.objects, w, scope, digest, d.files, order);
    var key := ManifestKey(w, digest);
    if !ok || Guard(w, scope, key).Err? then (s.(objects := o), Failed(Isolation))
    else
      var manifest := env.platform.dumps(ManifestOf(env.platform, d.files).value);
      EnterIssued(env, s.(objects := o[key := manifest]), id, d, activate, note, now)
  }

  const PUBLISH_PERMISSIONS := ["storage.objects.create", "storage.objects.get"]

  /** The scope of the adapter for a request. */
  function AdapterScope(env: Env, r: State, p: Principal, w: string, credential: Option<Credential>,
                        permissions: seq<string>, now: int): Result<Option<string>> {
    if credential.Some? then Ok(credential.value.scope)
    else
      var issued :- Broker.Issue(r, env.broker.minter, env.broker.bucket, env.broker.ttl, p, w, permissions, now);
      Ok(issued.scope)
  }

  ghost function AfterIssue(env: Env, s: Shared, p: Principal, w: string, a: Action, now: int): (Shared, Reply)
    requires a.Issue?
  {
    if OwnDraft(s.drafts, a.id, w).None? then (s, Failed(NotFound))
    else
      match AdapterScope(env, s.registry, p, w, a.credential, PUBLISH_PERMISSIONS, now)
      case Err(e) => (s, Failed(e))
      case Ok(scope) =>
        if !IsWorkspaceId(w) then (s, Failed(BadValue))
        else
          match PublishCheck(env.platform, s.drafts, a.id, w)
          case Err(e) => (s, Failed(e))
          case Ok(d) => IssueChecked(env, s, a.id, d, scope, a.activate, a.note, now, a.order)
  }

  function RefsOf(o: Objects, prefix: string, keys: seq<string>): seq<ObjectRef>
    decreases keys
  {
    if keys == [] then []
    else [ObjectRef(keys[0], if keys[0] in Keys(o, prefix) then |o[keys[0]]| else 0)] + RefsOf(o, prefix, keys[1..])
  }

  /** What the store lists of the revision: the keys that it holds now, by string prefix. */
  function Listed(o: Objects, w: string, scope: Option<string>, digest: string, order: Order): seq<ObjectRef> {
    match ListedPrefix(w, scope, digest)
    case Err(_) => []
    case Ok(prefix) => RefsOf(o, prefix, order(Keys(o, prefix)))
  }

  /** The materialization of a start, with the store's own listings and answers. */
  ghost function Fetched(env: Env, o: Objects, w: string, scope: Option<string>, digest: string, l: Local): Outcome {
    Attempt(env.platform.sha, l.disk, l.root, l.catalog, Access(o, w, scope), l.session, digest,
            Listed(o, w, scope, digest, l.order), Listed(o, w, scope, digest, l.again))
  }

  ghost function AfterOpenIn(env: Env, s: Shared, p: Principal, w: string, a: Action, now: int): (Shared, Reply)
    requires a.Open?
  {
    match StartAccess(s.registry, env.broker, p, w, a.credential, now)
    case Err(e) => (s, Failed(e))
    case Ok((gen, scope)) =>
      var o := Fetched(env, s.objects, w, scope, gen.contentDigest, a.local);
      if o.problem.Some? then (s, Failed(o.problem.value))
      else
        var c := Pinned(a.cid, p, gen, a.geSession, now);
        (s.(conversations := s.conversations[a.cid := c]),
         Reply.Opened(c, FilesBelow(o.tree, SkillsDir(a.local.root, w, a.local.session))))
  }

  /** One request of a principal, through the API. */
  ghost function Perform(env: Env, s: Shared, p: Principal, w: string, a: Action, now: int): (Shared, Reply) {
    match a
    case NewDraft(id, base) => AfterTable(s, Create(env.platform, s.registry, s.drafts, id, w, base), id)
    case Edit(id, path, content) => Guarded(s, w, id, Patch(s.drafts, id, path, content))
    case Check(id) => Guarded(s, w, id, Validate(env.platform, s.drafts, id))
    case Hand(id) => Guarded(s, w, id, Submit(s.drafts, id))
    case Issue(_, _, _, _, _) => AfterIssue(env, s, p, w, a, now)
    case Open(_, _, _, _) => AfterOpenIn(env, s, p, w, a, now)
  }

  function Met(env: Env, s: Shared, r: Request): Shared {
    s.(registry := Ensure(s.registry, env.derive, r.p, r.placement, r.now))
  }

  ghost function Act(env: Env, s: Shared, r: Request): (Shared, Reply) {
    Perform(env, Met(env, s, r), r.p, HomeOf(s.registry, env.derive, r.p.key), r.action, r.now)
  }

  // ---------------------------------------------------------------------------
  // What a tenant can observe
  // ---------------------------------------------------------------------------

  /** A tenant can name the keys that resolve into its workspace, and it can list the keys that have its
      prefix as a string; these need not resolve into it. */
  predicate Visible(w: string, k: string) {
    IsWorkspaceId(w) && (Contains(w, k) || Prefix(w) <= k)
  }

  function OwnObject(o: Objects, k: string, w: string): Option<Bytes> {
    if Visible(w, k) && k in o then Some(o[k]) else None
  }

  function OwnConversation(items: map<string, Conversation>, cid: string, key: string): Option<Conversation> {
    if cid in items && items[cid].principalKey == key then Some(items[cid]) else None
  }

  function OwnWorkspace(r: State, w: string): Option<Workspace> {
    if w in r.workspaces then Some(r.workspaces[w]) else None
  }

  /** The registries agree on everything about the principal's workspace. */
  ghost predicate AgreeRegistry(r: State, r': State, key: string, w: string) {
    && (key in r.byPrincipal <==> key in r'.byPrincipal)
    && OwnWorkspace(r, w) == OwnWorkspace(r', w)
    && Generations(r, w) == Generations(r', w)
    && (forall digest :: GetRevision(r, w, digest) == GetRevision(r', w, digest))
  }

  ghost predicate AgreeDrafts(d: Table, d': Table, w: string) {
    forall id :: OwnDraft(d, id, w) == OwnDraft(d', id, w)
  }

  ghost predicate AgreeObjects(o: Objects, o': Objects, w: string) {
    forall k :: OwnObject(o, k, w) == OwnObject(o', k, w)
  }

  ghost predicate AgreeConversations(c: map<string, Conversation>, c': map<string, Conversation>, key: string) {
    forall cid :: OwnConversation(c, cid, key) == OwnConversation(c', cid, key)
  }

  /** The two states look the same to the principal. */
  ghost predicate Agree(env: Env, s: Shared, t: Shared, key: string) {
    var w := env.derive(key);
    && AgreeRegistry(s.registry, t.registry, key, w)
    && AgreeDrafts(s.drafts, t.drafts, w)
    && AgreeObjects(s.objects, t.objects, w)
    && AgreeConversations(s.conversations, t.conversations, key)
  }

  /** Every principal in contact lives in the workspace derived for it. */
  ghost predicate AtHome(env: Env, s: Shared) {
    forall k :: k in s.registry.byPrincipal ==> s.registry.byPrincipal[k] == env.derive(k)
  }

  lemma HomeIsDerived(env: Env, s: Shared, key: string)
    requires AtHome(env, s)
    ensures HomeOf(s.registry, env.derive, key) == env.derive(key)
  {
  }

  lemma AgreeTransitively(env: Env, s: Shared, t: Shared, u: Shared, key: string)
    requires Agree(env, s, t, key) && Agree(env, t, u, key)
    ensures Agree(env, s, u, key)
  {
    hide OwnDraft, OwnObject, OwnConversation, OwnWorkspace, Generations, GetRevision;
  }

  // ---------------------------------------------------------------------------
  // Other tenants see nothing
  // ---------------------------------------------------------------------------

  lemma MeetingIsUnseen(env: Env, s: Shared, r: Request, q: string)
    requires AtHome(env, s) && r.p.key != q && env.derive(r.p.key) != env.derive(q)
    ensures Agree(env, s, Met(env, s, r), q) && AtHome(env, Met(env, s, r))
  {
  }

  /** Only entries of workspace `w` differ. */
  ghost predicate OnlyTables(d: Table, d': Table, w: string) {
    forall id :: (id in d && d[id].workspaceId != w <==> id in d' && d'[id].workspaceId != w)
                 && (id in d && d[id].workspaceId != w ==> d'[id] == d[id])
  }

  ghost predicate OnlyRegistry(r: State, r': State, w: string) {
    && r'.byPrincipal == r.byPrincipal
    && (forall v :: v != w ==> OwnWorkspace(r, v) == OwnWorkspace(r', v) && Generations(r, v) == Generations(r', v))
    && (forall v, digest :: v != w ==> GetRevision(r, v, digest) == GetRevision(r', v, digest))
  }

  /** Only keys differ that both resolve into the workspace and have its prefix. */
  ghost predicate OnlyObjects(o: Objects, o': Objects, w: string) {
    forall k :: !(Contains(w, k) && Prefix(w) <= k) ==> (k in o <==> k in o') && (k in o ==> o[k] == o'[k])
  }

  ghost predicate OnlyConversations(c: map<string, Conversation>, c': map<string, Conversation>, key: string) {
    forall cid :: (cid in c && c[cid].principalKey != key <==> cid in c' && c'[cid].principalKey != key)
                  && (cid in c && c[cid].principalKey != key ==> c'[cid] == c[cid])
  }

  /** The step changed nothing outside the workspace and the conversations of its principal. */
  ghost predicate Within(s: Shared, s': Shared, key: string, w: string) {
    && OnlyRegistry(s.registry, s'.registry, w)
    && OnlyTables(s.drafts, s'.drafts, w)
    && (s'.objects == s.objects || (IsWorkspaceId(w) && OnlyObjects(s.objects, s'.objects, w)))
    && OnlyConversations(s.conversations, s'.conversations, key)
  }

  lemma PrefixesAreDisjoint(v: string, w: string, k: string)
    requires IsWorkspaceId(v) && IsWorkspaceId(w) && Prefix(v) <= k && Prefix(w) <= k
    ensures v == w
  {
    IdentifiersAreNames(v);
    IdentifiersAreNames(w);
    var x, y := k[|Prefix(v)|..], k[|Prefix(w)|..];
    assert "workspaces/" + (v + "/" + x) == k == "workspaces/" + (w + "/" + y);
    DropPrefix("workspaces/", v + "/" + x, w + "/" + y);
    SlashUnique(v, x, w, y);
  }

  /** What a tenant writes, no other tenant can name or list. */
  lemma OwnKeysAreInvisible(v: string, w: string, k: string)
    requires IsWorkspaceId(w) && v != w && Contains(w, k) && Prefix(w) <= k
    ensures !Visible(v, k)
  {
    hide Contains, IsWorkspaceId, Prefix;
    if Visible(v, k) {
      if Contains(v, k) {
        ContainedInOneWorkspace(v, w, k);
      } else {
        PrefixesAreDisjoint(v, w, k);
      }
    }
  }

  lemma ObjectsUnseen(o: Objects, o': Objects, w: string, v: string)
    requires IsWorkspaceId(w) && OnlyObjects(o, o', w) && v != w
    ensures AgreeObjects(o, o', v)
  {
    hide Contains, IsWorkspaceId, Prefix, Visible;
    forall k ensures OwnObject(o, k, v) == OwnObject(o', k, v) {
      if Contains(w, k) && Prefix(w) <= k {
        OwnKeysAreInvisible(v, w, k);
      }
    }
  }

  lemma RevisionKeysHaveThePrefix(w: string, digest: string, rel: string)
    ensures Prefix(w) <= SkillKey(w, digest, rel) && Prefix(w) <= ManifestKey(w, digest)
    ensures Prefix(w) <= SkillsRoot(w, digest)
  {
  }

  lemma WithinIsUnseen(env: Env, s: Shared, s': Shared, key: string, q: string)
    requires Within(s, s', key, env.derive(key)) && key != q && env.derive(key) != env.derive(q)
    ensures Agree(env, s, s', q)
  {
    hide IsWorkspaceId, OnlyObjects, Generations, GetRevision, OwnWorkspace;
    var w, v := env.derive(key), env.derive(q);
    if s'.objects != s.objects {
      ObjectsUnseen(s.objects, s'.objects, w, v);
    }
  }

  lemma {:induction false} WritesWithin(o: Objects, w: string, scope: Option<string>, digest: string, files: Files,
                                        order: seq<string>)
    ensures OnlyObjects(o, WriteInOrder(o, w, scope, digest, files, order).0, w)
    decreases order
  {
    hide Contains, SkillKey, Prefix;
    if order != [] {
      RevisionKeysHaveThePrefix(w, digest, order[0]);
    }
    if order != [] && order[0] in files && Guard(w, scope, SkillKey(w, digest, order[0])).Ok? {
      WritesWithin(o[SkillKey(w, digest, order[0]) := files[order[0]]], w, scope, digest, files, order[1..]);
    } else if order != [] && order[0] !in files {
      WritesWithin(o, w, scope, digest, files, order[1..]);
    }
  }

  lemma EnterWithin(r: State, rev: Revision, activate: bool, note: string, now: int)
    requires Enter(r, rev, activate, note, now).Ok?
    ensures OnlyRegistry(r, Enter(r, rev, activate, note, now).value, rev.workspaceId)
  {
    var r' := Enter(r, rev, activate, note, now).value;
    forall v, digest | v != rev.workspaceId ensures GetRevision(r, v, digest) == GetRevision(r', v, digest) {
    }
  }

  lemma SameIsWithin(s: Shared, key: string, w: string)
    ensures Within(s, s, key, w)
  {
  }

  lemma EnterIssuedWithin(env: Env, s: Shared, id: string, d: Draft, activate: bool, note: string, now: int,
                          key: string)
    requires ManifestOf(env.platform, d.files).Some? && id in s.drafts && s.drafts[id] == d
    ensures Within(s, EnterIssued(env, s, id, d, activate, note, now).0, key, d.workspaceId)
  {
    hide Enter, EnteredGeneration, DigestOf, ManifestOf, OnlyRegistry;
    var rev := PublishedRevision(env.platform, d, now);
    RegistryUnchanged(s.registry, d.workspaceId);
    if Enter(s.registry, rev, activate, note, now).Ok? {
      EnterWithin(s.registry, rev, activate, note, now);
    }
  }

  lemma RegistryUnchanged(r: State, w: string)
    ensures OnlyRegistry(r, r, w)
  {
  }

  lemma WithinTwice(s: Shared, m: Shared, s': Shared, key: string, w: string)
    requires Within(s, m, key, w) && Within(m, s', key, w)
    ensures Within(s, s', key, w)
  {
    hide Contains, IsWorkspaceId, OwnWorkspace, Generations, GetRevision;
  }

  lemma IssueCheckedWithin(env: Env, s: Shared, id: string, d: Draft, scope: Option<string>, activate: bool,
                           note: string, now: int,
                           order: seq<string>, key: string)
    requires ManifestOf(env.platform, d.files).Some? && id in s.drafts && s.drafts[id] == d
    requires IsWorkspaceId(d.workspaceId)
    ensures Within(s, IssueChecked(env, s, id, d, scope, activate, note, now, order).0, key, d.workspaceId)
  {
    var w, digest := d.workspaceId, DigestOf(env.platform, d);
    var (o, ok) := WriteInOrder(s.objects, w, scope, digest, d.files, order);
    WritesWithin(s.objects, w, scope, digest, d.files, order);
    RegistryUnchanged(s.registry, w);
    RevisionKeysHaveThePrefix(w, digest, "");
    hide EnterIssued, Contains, Prefix, DigestOf, ManifestOf, ManifestKey, OnlyRegistry, WriteInOrder, IsWorkspaceId;
    assert Within(s, s.(objects := o), key, w);
    var mkey := ManifestKey(w, digest);
    if ok && Guard(w, scope, mkey).Ok? {
      var m := s.(objects := o[mkey := env.platform.dumps(ManifestOf(env.platform, d.files).value)]);
      assert Within(s, m, key, w);
      EnterIssuedWithin(env, m, id, d, activate, note, now, key);
      WithinTwice(s, m, EnterIssued(env, m, id, d, activate, note, now).0, key, w);
    }
  }

  lemma IssueWithin(env: Env, s: Shared, p: Principal, w: string, a: Action, now: int)
    requires a.Issue?
    ensures Within(s, AfterIssue(env, s, p, w, a, now).0, p.key, w)
  {
    hide Within, AdapterScope, IssueChecked, Publishable, IsWorkspaceId;
    SameIsWithin(s, p.key, w);
    if OwnDraft(s.drafts, a.id, w).Some? && PublishCheck(env.platform, s.drafts, a.id, w).Ok? && IsWorkspaceId(w) {
      var scope := AdapterScope(env, s.registry, p, w, a.credential, PUBLISH_PERMISSIONS, now);
      if scope.Ok? {
        CheckedHasManifest(env, s.drafts, a.id, w);
        IssueCheckedWithin(env, s, a.id, s.drafts[a.id], scope.value, a.activate, a.note, now, a.order, p.key);
      }
    }
  }

  lemma CheckedHasManifest(env: Env, drafts: Table, id: string, w: string)
    requires PublishCheck(env.platform, drafts, id, w).Ok?
    ensures id in drafts && PublishCheck(env.platform, drafts, id, w).value == drafts[id] && drafts[id].workspaceId == w
    ensures ManifestOf(env.platform, drafts[id].files).Some?
  {
  }

  lemma NewConversationWithin(s: Shared, c: Conversation, key: string, w: string)
    requires c.id !in s.conversations && c.principalKey == key
    ensures Within(s, s.(conversations := s.conversations[c.id := c]), key, w)
  {
    RegistryUnchanged(s.registry, w);
    hide OnlyRegistry;
  }

  lemma OpenWithin(env: Env, s: Shared, p: Principal, w: string, a: Action, now: int)
    requires a.Open? && a.cid !in s.conversations
    ensures Within(s, AfterOpenIn(env, s, p, w, a, now).0, p.key, w)
  {
    hide StartAccess, Materialized, ListedPrefix, FilesBelow, Within, Fetched;
    SameIsWithin(s, p.key, w);
    if StartAccess(s.registry, env.broker, p, w, a.credential, now).Ok? {
      NewConversationWithin(s, Pinned(a.cid, p, StartAccess(s.registry, env.broker, p, w, a.credential, now).value.0,
                                      a.geSession, now), p.key, w);
    }
  }

  predicate IsTableAction(a: Action) {
    a.NewDraft? || a.Edit? || a.Check? || a.Hand?
  }

  /** What an action on drafts makes of the principal's draft. */
  function Change(env: Env, r: State, own: Option<Draft>, w: string, a: Action): Result<Draft>
    requires IsTableAction(a)
  {
    if a.NewDraft? then Seeded(env.platform, r, w, a.base)
    else if own.None? then Err(NotFound)
    else if IsFrozen(own.value) then Err(Conflict)
    else
      match a
      case Edit(_, path, content) => Ok(Patched(own.value, path, content))
      case Check(_) => Ok(Checked(env.platform, own.value))
      case _ => if own.value.status != Validated then Err(Validation) else Ok(own.value.(status := Submitted))
  }

  lemma ChangeStaysInWorkspace(env: Env, r: State, own: Option<Draft>, w: string, a: Action)
    requires IsTableAction(a) && (own.Some? ==> own.value.workspaceId == w) && Change(env, r, own, w, a).Ok?
    ensures Change(env, r, own, w, a).value.workspaceId == w
  {
    hide Problems;
  }

  lemma TableIsChange(env: Env, s: Shared, p: Principal, w: string, a: Action, now: int)
    requires IsTableAction(a)
    ensures Perform(env, s, p, w, a, now)
            == match Change(env, s.registry, OwnDraft(s.drafts, a.id, w), w, a)
               case Err(e) => (s, Failed(e))
               case Ok(d) => (s.(drafts := s.drafts[a.id := d]), Shown(d))
  {
    hide Problems, AfterIssue, AfterOpenIn, Seeded, Patched, Checked;
  }

  lemma UpdateWithin(s: Shared, id: string, d: Draft, key: string, w: string)
    requires d.workspaceId == w && (id in s.drafts ==> s.drafts[id].workspaceId == w)
    ensures Within(s, s.(drafts := s.drafts[id := d]), key, w)
  {
    RegistryUnchanged(s.registry, w);
    hide OnlyRegistry;
  }

  lemma TableWithin(env: Env, s: Shared, p: Principal, w: string, a: Action, now: int)
    requires IsTableAction(a) && (a.NewDraft? ==> a.id !in s.drafts)
    ensures Within(s, Perform(env, s, p, w, a, now).0, p.key, w)
  {
    hide Perform, Within, Seeded, Patched, Checked;
    TableIsChange(env, s, p, w, a, now);
    SameIsWithin(s, p.key, w);
    var own := OwnDraft(s.drafts, a.id, w);
    if Change(env, s.registry, own, w, a).Ok? {
      ChangeStaysInWorkspace(env, s.registry, own, w, a);
      UpdateWithin(s, a.id, Change(env, s.registry, own, w, a).value, p.key, w);
    }
  }

  /** Random ids are new. */
  ghost predicate FreshIds(s: Shared, a: Action) {
    match a
    case NewDraft(id, _) => id !in s.drafts
    case Open(_, _, cid, _) => cid !in s.conversations
    case _ => true
  }

  lemma PerformWithin(env: Env, s: Shared, p: Principal, w: string, a: Action, now: int)
    requires FreshIds(s, a)
    ensures Within(s, Perform(env, s, p, w, a, now).0, p.key, w)
  {
    if a.Issue? {
      IssueWithin(env, s, p, w, a, now);
    } else if a.Open? {
      OpenWithin(env, s, p, w, a, now);
    } else {
      TableWithin(env, s, p, w, a, now);
    }
  }

  /** A request of one principal is invisible to every other. */
  lemma RequestsAreInvisibleToOthers(env: Env, s: Shared, r: Request, q: string)
    requires AtHome(env, s) && FreshIds(s, r.action) && r.p.key != q && env.derive(r.p.key) != env.derive(q)
    ensures Agree(env, s, Act(env, s, r).0, q) && AtHome(env, Act(env, s, r).0)
  {
    hide Perform, Within, Agree, Ensure;
    HomeIsDerived(env, s, r.p.key);
    MeetingIsUnseen(env, s, r, q);
    var met, w := Met(env, s, r), env.derive(r.p.key);
    PerformWithin(env, met, r.p, w, r.action, r.now);
    WithinIsUnseen(env, met, Perform(env, met, r.p, w, r.action, r.now).0, r.p.key, q);
    AgreeTransitively(env, s, met, Perform(env, met, r.p, w, r.action, r.now).0, q);
    WithinKeepsHomes(env, met, Perform(env, met, r.p, w, r.action, r.now).0, r.p.key, w);
  }

  lemma WithinKeepsHomes(env: Env, s: Shared, s': Shared, key: string, w: string)
    requires AtHome(env, s) && Within(s, s', key, w)
    ensures AtHome(env, s')
  {
  }

  // ---------------------------------------------------------------------------
  // A tenant depends on its own state only
  // ---------------------------------------------------------------------------

  lemma SameMeeting(env: Env, s: Shared, t: Shared, r: Request)
    requires AtHome(env, s) && AtHome(env, t) && Agree(env, s, t, r.p.key)
    ensures Agree(env, Met(env, s, r), Met(env, t, r), r.p.key)
    ensures AtHome(env, Met(env, s, r)) && AtHome(env, Met(env, t, r))
  {
    var w := env.derive(r.p.key);
    forall digest
      ensures GetRevision(Met(env, s, r).registry, w, digest) == GetRevision(Met(env, t, r).registry, w, digest)
    {
      assert GetRevision(s.registry, w, digest) == GetRevision(t.registry, w, digest);
    }
  }

  /** The same reply, and states that look the same afterwards. */
  ghost predicate SameResult(env: Env, x: (Shared, Reply), y: (Shared, Reply), key: string) {
    x.1 == y.1 && Agree(env, x.0, y.0, key)
  }

  lemma SameUpdate(env: Env, s: Shared, t: Shared, id: string, d: Draft, key: string)
    requires Agree(env, s, t, key) && d.workspaceId == env.derive(key)
    ensures Agree(env, s.(drafts := s.drafts[id := d]), t.(drafts := t.drafts[id := d]), key)
  {
    hide AgreeRegistry, AgreeObjects, AgreeConversations;
    var w := env.derive(key);
    var x, y := s.drafts[id := d], t.drafts[id := d];
    forall i ensures OwnDraft(x, i, w) == OwnDraft(y, i, w) {
      assert OwnDraft(s.drafts, i, w) == OwnDraft(t.drafts, i, w);
    }
  }

  lemma SameChange(env: Env, s: Shared, t: Shared, key: string, a: Action)
    requires Agree(env, s, t, key) && IsTableAction(a)
    ensures var w := env.derive(key);
            Change(env, s.registry, OwnDraft(s.drafts, a.id, w), w, a)
            == Change(env, t.registry, OwnDraft(t.drafts, a.id, w), w, a)
  {
    hide AgreeObjects, AgreeConversations, Patched, Checked;
    var w := env.derive(key);
    assert OwnDraft(s.drafts, a.id, w) == OwnDraft(t.drafts, a.id, w);
    assert a.NewDraft? && a.base.Some? ==>
             GetRevision(s.registry, w, a.base.value) == GetRevision(t.registry, w, a.base.value);
  }

  lemma SameTableResult(env: Env, s: Shared, t: Shared, p: Principal, a: Action, now: int)
    requires Agree(env, s, t, p.key) && IsTableAction(a)
    ensures SameResult(env, Perform(env, s, p, env.derive(p.key), a, now),
                       Perform(env, t, p, env.derive(p.key), a, now), p.key)
  {
    hide Agree, Perform, Change;
    var w := env.derive(p.key);
    TableIsChange(env, s, p, w, a, now);
    TableIsChange(env, t, p, w, a, now);
    SameChange(env, s, t, p.key, a);
    var own := OwnDraft(s.drafts, a.id, w);
    if Change(env, s.registry, own, w, a).Ok? {
      ChangeStaysInWorkspace(env, s.registry, own, w, a);
      SameUpdate(env, s, t, a.id, Change(env, s.registry, own, w, a).value, p.key);
    }
  }

  lemma {:induction false} SameWrites(o: Objects, o': Objects, w: string, scope: Option<string>, digest: string,
                                      files: Files, order: seq<string>)
    requires AgreeObjects(o, o', w)
    ensures WriteInOrder(o, w, scope, digest, files, order).1 == WriteInOrder(o', w, scope, digest, files, order).1
    ensures AgreeObjects(WriteInOrder(o, w, scope, digest, files, order).0,
                         WriteInOrder(o', w, scope, digest, files, order).0, w)
    decreases order
  {
    hide Contains, SkillKey, IsWorkspaceId, Guard;
    if order != [] {
      if order[0] !in files {
        SameWrites(o, o', w, scope, digest, files, order[1..]);
      } else if Guard(w, scope, SkillKey(w, digest, order[0])).Ok? {
        var key := SkillKey(w, digest, order[0]);
        SameWrite(o, o', w, key, files[order[0]]);
        SameWrites(o[key := files[order[0]]], o'[key := files[order[0]]], w, scope, digest, files, order[1..]);
      }
    }
  }

  lemma SameWrite(o: Objects, o': Objects, w: string, key: string, data: Bytes)
    requires AgreeObjects(o, o', w)
    ensures AgreeObjects(o[key := data], o'[key := data], w)
  {
    hide Contains, IsWorkspaceId;
    var x, y := o[key := data], o'[key := data];
    forall k ensures OwnObject(x, k, w) == OwnObject(y, k, w) {
      assert OwnObject(o, k, w) == OwnObject(o', k, w);
    }
  }

  lemma SameEntry(r: State, r': State, rev: Revision, activate: bool, note: string, now: int, key: string)
    requires AgreeRegistry(r, r', key, rev.workspaceId)
    ensures Enter(r, rev, activate, note, now).Ok? <==> Enter(r', rev, activate, note, now).Ok?
    ensures Enter(r, rev, activate, note, now).Err? ==>
              Enter(r, rev, activate, note, now).error == Enter(r', rev, activate, note, now).error
    ensures Enter(r, rev, activate, note, now).Ok? ==>
              AgreeRegistry(Enter(r, rev, activate, note, now).value, Enter(r', rev, activate, note, now).value, key,
                            rev.workspaceId)
    ensures EnteredGeneration(r, rev.workspaceId, activate) == EnteredGeneration(r', rev.workspaceId, activate)
  {
    var w := rev.workspaceId;
    SameRecord(r, r', rev, key);
    hide RecordRevision;
    if RecordRevision(r, rev).Ok? && activate {
      SameActivation(RecordRevision(r, rev).value, RecordRevision(r', rev).value, w, rev.contentDigest, note, now, key);
    }
  }

  lemma SameRecord(r: State, r': State, rev: Revision, key: string)
    requires AgreeRegistry(r, r', key, rev.workspaceId)
    ensures RecordRevision(r, rev).Ok? <==> RecordRevision(r', rev).Ok?
    ensures RecordRevision(r, rev).Err? ==> RecordRevision(r, rev).error == RecordRevision(r', rev).error
    ensures RecordRevision(r, rev).Ok? ==>
              AgreeRegistry(RecordRevision(r, rev).value, RecordRevision(r', rev).value, key, rev.workspaceId)
  {
    var w := rev.workspaceId;
    assert GetRevision(r, w, rev.contentDigest) == GetRevision(r', w, rev.contentDigest);
    if RecordRevision(r, rev).Ok? {
      var s, s' := RecordRevision(r, rev).value, RecordRevision(r', rev).value;
      forall digest ensures GetRevision(s, w, digest) == GetRevision(s', w, digest) {
        assert GetRevision(r, w, digest) == GetRevision(r', w, digest);
      }
    }
  }

  lemma SameActivation(r: State, r': State, w: string, digest: string, note: string, now: int, key: string)
    requires AgreeRegistry(r, r', key, w)
    ensures Activate(r, w, digest, note, now).Ok? <==> Activate(r', w, digest, note, now).Ok?
    ensures Activate(r, w, digest, note, now).Err? ==>
              Activate(r, w, digest, note, now).error == Activate(r', w, digest, note, now).error
    ensures Activate(r, w, digest, note, now).Ok? ==>
              AgreeRegistry(Activate(r, w, digest, note, now).value, Activate(r', w, digest, note, now).value, key, w)
  {
    assert GetRevision(r, w, digest) == GetRevision(r', w, digest);
    if Activate(r, w, digest, note, now).Ok? {
      var s, s' := Activate(r, w, digest, note, now).value, Activate(r', w, digest, note, now).value;
      forall d ensures GetRevision(s, w, d) == GetRevision(s', w, d) {
        assert GetRevision(r, w, d) == GetRevision(r', w, d);
      }
    }
  }

  lemma SameEntering(env: Env, s: Shared, t: Shared, id: string, d: Draft, activate: bool, note: string, now: int,
                     key: string)
    requires Agree(env, s, t, key) && d.workspaceId == env.derive(key) && ManifestOf(env.platform, d.files).Some?
    ensures SameResult(env, EnterIssued(env, s, id, d, activate, note, now),
                       EnterIssued(env, t, id, d, activate, note, now), key)
  {
    hide Enter, EnteredGeneration, AgreeRegistry, AgreeDrafts, AgreeObjects, AgreeConversations, DigestOf, ManifestOf;
    var rev := PublishedRevision(env.platform, d, now);
    SameEntry(s.registry, t.registry, rev, activate, note, now, key);
    SameUpdate(env, s, t, id, d.(status := Published), key);
  }

  lemma SameIssueChecked(env: Env, s: Shared, t: Shared, id: string, d: Draft, scope: Option<string>, activate: bool,
                         note: string, now: int,
                         order: seq<string>, key: string)
    requires Agree(env, s, t, key) && d.workspaceId == env.derive(key) && ManifestOf(env.platform, d.files).Some?
    ensures SameResult(env, IssueChecked(env, s, id, d, scope, activate, note, now, order),
                       IssueChecked(env, t, id, d, scope, activate, note, now, order), key)
  {
    hide EnterIssued, AgreeRegistry, AgreeDrafts, AgreeObjects, AgreeConversations, DigestOf, ManifestOf, WriteInOrder,
      ManifestKey, Guard;
    var w, digest := d.workspaceId, DigestOf(env.platform, d);
    SameWrites(s.objects, t.objects, w, scope, digest, d.files, order);
    var (o, ok) := WriteInOrder(s.objects, w, scope, digest, d.files, order);
    var (o', _) := WriteInOrder(t.objects, w, scope, digest, d.files, order);
    var mkey, manifest := ManifestKey(w, digest), env.platform.dumps(ManifestOf(env.platform, d.files).value);
    SameWrite(o, o', w, mkey, manifest);
    if ok && Guard(w, scope, mkey).Ok? {
      SameEntering(env, s.(objects := o[mkey := manifest]), t.(objects := o'[mkey := manifest]), id, d, activate,
                   note, now, key);
    }
  }

  lemma SameScope(env: Env, r: State, r': State, p: Principal, w: string, credential: Option<Credential>,
                  permissions: seq<string>, now: int)
    requires AgreeRegistry(r, r', p.key, w)
    ensures AdapterScope(env, r, p, w, credential, permissions, now)
            == AdapterScope(env, r', p, w, credential, permissions, now)
  {
  }

  lemma SameCheck(env: Env, d: Table, d': Table, id: string, w: string)
    requires OwnDraft(d, id, w).Some? && OwnDraft(d, id, w) == OwnDraft(d', id, w)
    ensures PublishCheck(env.platform, d, id, w) == PublishCheck(env.platform, d', id, w)
  {
  }

  lemma SameIssue(env: Env, s: Shared, t: Shared, p: Principal, a: Action, now: int)
    requires Agree(env, s, t, p.key) && a.Issue?
    ensures SameResult(env, AfterIssue(env, s, p, env.derive(p.key), a, now),
                       AfterIssue(env, t, p, env.derive(p.key), a, now), p.key)
  {
    var w := env.derive(p.key);
    assert OwnDraft(s.drafts, a.id, w) == OwnDraft(t.drafts, a.id, w);
    SameScope(env, s.registry, t.registry, p, w, a.credential, PUBLISH_PERMISSIONS, now);
    hide Agree, AdapterScope, IssueChecked, PublishCheck, IsWorkspaceId;
    if OwnDraft(s.drafts, a.id, w).Some? {
      SameCheck(env, s.drafts, t.drafts, a.id, w);
      var scope := AdapterScope(env, s.registry, p, w, a.credential, PUBLISH_PERMISSIONS, now);
      if scope.Ok? && IsWorkspaceId(w) && PublishCheck(env.platform, s.drafts, a.id, w).Ok? {
        CheckedHasManifest(env, s.drafts, a.id, w);
        SameIssueChecked(env, s, t, a.id, s.drafts[a.id], scope.value, a.activate, a.note, now, a.order, p.key);
      }
    }
  }

  lemma SameAnswer(o: Objects, o': Objects, w: string, scope: Option<string>, key: string)
    requires AgreeObjects(o, o', w) && IsWorkspaceId(w)
    ensures AnswerOf(o, w, scope, key) == AnswerOf(o', w, scope, key)
  {
    hide Contains, IsWorkspaceId, Prefix;
    assert OwnObject(o, key, w) == OwnObject(o', key, w);
  }

  lemma {:induction false} SameAnswers(o: Objects, o': Objects, w: string, scope: Option<string>, prefix: string,
                                       refs: seq<ObjectRef>)
    requires AgreeObjects(o, o', w) && IsWorkspaceId(w)
    ensures Answers(o, w, scope, prefix, refs) == Answers(o', w, scope, prefix, refs)
  {
    hide AgreeObjects, IsWorkspaceId, Relative, AnswerOf;
    if refs != [] {
      SameAnswer(o, o', w, scope, refs[0].key);
      SameAnswers(o, o', w, scope, prefix, refs[1..]);
    }
  }

  /** A listing under the workspace's prefix shows only what the tenant observes. */
  lemma SameKeys(o: Objects, o': Objects, w: string, prefix: string)
    requires AgreeObjects(o, o', w) && IsWorkspaceId(w) && Prefix(w) <= prefix
    ensures Keys(o, prefix) == Keys(o', prefix)
    ensures forall k :: k in Keys(o, prefix) ==> o[k] == o'[k]
  {
    hide Contains, IsWorkspaceId, Prefix;
    forall k | prefix <= k ensures k in o <==> k in o' {
      assert OwnObject(o, k, w) == OwnObject(o', k, w);
    }
    forall k | k in Keys(o, prefix) ensures o[k] == o'[k] {
      assert OwnObject(o, k, w) == OwnObject(o', k, w);
    }
  }

  lemma {:induction false} SameRefs(o: Objects, o': Objects, prefix: string, keys: seq<string>)
    requires Keys(o, prefix) == Keys(o', prefix) && forall k :: k in Keys(o, prefix) ==> o[k] == o'[k]
    ensures RefsOf(o, prefix, keys) == RefsOf(o', prefix, keys)
    decreases keys
  {
    hide Keys;
    if keys != [] {
      SameRefs(o, o', prefix, keys[1..]);
    }
  }

  lemma ListedPrefixHasThePrefix(w: string, scope: Option<string>, digest: string)
    requires IsWorkspaceId(w) && ListedPrefix(w, scope, digest).Ok?
    ensures Prefix(w) <= ListedPrefix(w, scope, digest).value
  {
    RevisionPrefixIsDefined(w, digest);
    RevisionKeysHaveThePrefix(w, digest, "");
    hide IsWorkspaceId, Contains, IsDigestName, RevisionPrefix;
  }

  lemma SameListing(o: Objects, o': Objects, w: string, scope: Option<string>, digest: string, order: Order)
    requires AgreeObjects(o, o', w) && IsWorkspaceId(w)
    ensures Listed(o, w, scope, digest, order) == Listed(o', w, scope, digest, order)
  {
    hide AgreeObjects, IsWorkspaceId, ListedPrefix, Prefix, Keys;
    if ListedPrefix(w, scope, digest).Ok? {
      var prefix := ListedPrefix(w, scope, digest).value;
      ListedPrefixHasThePrefix(w, scope, digest);
      SameKeys(o, o', w, prefix);
      SameRefs(o, o', prefix, order(Keys(o, prefix)));
    }
  }

  lemma SameFetch(env: Env, o: Objects, o': Objects, w: string, scope: Option<string>, digest: string, l: Local)
    requires AgreeObjects(o, o', w) && IsWorkspaceId(w)
    ensures Fetched(env, o, w, scope, digest, l) == Fetched(env, o', w, scope, digest, l)
  {
    hide AgreeObjects, IsWorkspaceId, ListedPrefix, Materialized, Listed, MakeAll, WithCatalog;
    SameListing(o, o', w, scope, digest, l.order);
    SameListing(o, o', w, scope, digest, l.again);
    if ListedPrefix(w, scope, digest).Ok? {
      var prefix := ListedPrefix(w, scope, digest).value;
      SameAnswers(o, o', w, scope, prefix, Listed(o, w, scope, digest, l.order));
      SameAnswers(o, o', w, scope, prefix, Listed(o, w, scope, digest, l.again));
    }
  }

  lemma SameAccess(env: Env, r: State, r': State, p: Principal, w: string, credential: Option<Credential>, now: int)
    requires AgreeRegistry(r, r', p.key, w)
    ensures StartAccess(r, env.broker, p, w, credential, now) == StartAccess(r', env.broker, p, w, credential, now)
    ensures StartAccess(r, env.broker, p, w, credential, now).Ok? ==> IsWorkspaceId(w)
  {
    hide IsWorkspaceId;
  }

  lemma SameConversation(env: Env, s: Shared, t: Shared, c: Conversation, key: string)
    requires Agree(env, s, t, key)
    ensures Agree(env, s.(conversations := s.conversations[c.id := c]), t.(conversations := t.conversations[c.id := c]),
                  key)
  {
    hide AgreeRegistry, AgreeDrafts, AgreeObjects;
    var x, y := s.conversations[c.id := c], t.conversations[c.id := c];
    forall cid ensures OwnConversation(x, cid, key) == OwnConversation(y, cid, key) {
      assert OwnConversation(s.conversations, cid, key) == OwnConversation(t.conversations, cid, key);
    }
  }

  lemma SameOpen(env: Env, s: Shared, t: Shared, p: Principal, a: Action, now: int)
    requires Agree(env, s, t, p.key) && a.Open?
    ensures SameResult(env, AfterOpenIn(env, s, p, env.derive(p.key), a, now),
                       AfterOpenIn(env, t, p, env.derive(p.key), a, now), p.key)
  {
    var w := env.derive(p.key);
    SameAccess(env, s.registry, t.registry, p, w, a.credential, now);
    var access := StartAccess(s.registry, env.broker, p, w, a.credential, now);
    if access.Ok? {
      SameFetch(env, s.objects, t.objects, w, access.value.1, access.value.0.contentDigest, a.local);
      SameConversation(env, s, t, Pinned(a.cid, p, access.value.0, a.geSession, now), p.key);
    }
    hide Agree, StartAccess, Fetched, FilesBelow;
  }

  /** The reply to a principal and what it sees afterwards depend on what it sees before, and on
      nothing else. */
  lemma RepliesDependOnOwnState(env: Env, s: Shared, t: Shared, r: Request)
    requires AtHome(env, s) && AtHome(env, t) && Agree(env, s, t, r.p.key)
    ensures SameResult(env, Act(env, s, r), Act(env, t, r), r.p.key)
  {
    hide Agree, Perform, Met, AtHome, SameResult;
    HomeIsDerived(env, s, r.p.key);
    HomeIsDerived(env, t, r.p.key);
    SameMeeting(env, s, t, r);
    SamePerformance(env, Met(env, s, r), Met(env, t, r), r.p, r.action, r.now);
  }

  lemma SamePerformance(env: Env, s: Shared, t: Shared, p: Principal, a: Action, now: int)
    requires Agree(env, s, t, p.key)
    ensures SameResult(env, Perform(env, s, p, env.derive(p.key), a, now),
                       Perform(env, t, p, env.derive(p.key), a, now), p.key)
  {
    hide Agree, SameResult, AfterIssue, AfterOpenIn, AfterTable, Guarded;
    if a.Issue? {
      SameIssue(env, s, t, p, a, now);
    } else if a.Open? {
      SameOpen(env, s, t, p, a, now);
    } else {
      SameTableResult(env, s, t, p, a, now);
    }
  }

  // ---------------------------------------------------------------------------
  // Runs
  // ---------------------------------------------------------------------------

  ghost function ActAll(env: Env, s: Shared, requests: seq<Request>): Shared
    decreases requests
  {
    if requests == [] then s else ActAll(env, Act(env, s, requests[0]).0, requests[1..])
  }

  /** The replies to one principal in the course of a run. */
  ghost function RepliesTo(env: Env, s: Shared, requests: seq<Request>, key: string): seq<Reply>
    decreases requests
  {
    if requests == [] then []
    else
      var (next, reply) := Act(env, s, requests[0]);
      (if requests[0].p.key == key then [reply] else []) + RepliesTo(env, next, requests[1..], key)
  }

  /** The run without everybody else. */
  function Alone(requests: seq<Request>, key: string): seq<Request> {
    if requests == [] then []
    else (if requests[0].p.key == key then [requests[0]] else []) + Alone(requests[1..], key)
  }

  /** Random ids are new in the course of the run, and derived ids of the principals differ. */
  ghost predicate Separate(env: Env, s: Shared, requests: seq<Request>, key: string)
    decreases requests
  {
    requests != [] ==>
      && FreshIds(s, requests[0].action)
      && (requests[0].p.key != key ==> env.derive(requests[0].p.key) != env.derive(key))
      && Separate(env, Act(env, s, requests[0]).0, requests[1..], key)
  }

  lemma ActKeepsHomes(env: Env, s: Shared, r: Request)
    requires AtHome(env, s)
    ensures AtHome(env, Act(env, s, r).0)
  {
    HomesAfterPerform(env, Met(env, s, r), r.p, HomeOf(s.registry, env.derive, r.p.key), r.action, r.now);
    hide Perform;
  }

  lemma HomesAfterPerform(env: Env, s: Shared, p: Principal, w: string, a: Action, now: int)
    ensures Perform(env, s, p, w, a, now).0.registry.byPrincipal == s.registry.byPrincipal
  {
    hide Enter, EnteredGeneration, PublishCheck, AdapterScope, StartAccess, Fetched, FilesBelow, WriteInOrder, DigestOf,
      ManifestOf, Create, Patch, Validate, Submit;
    if a.Issue? && PublishCheck(env.platform, s.drafts, a.id, w).Ok? {
      CheckedHasManifest(env, s.drafts, a.id, w);
      var rev := PublishedRevision(env.platform, s.drafts[a.id], now);
      if Enter(s.registry, rev, a.activate, a.note, now).Ok? {
        EnterKeepsPrincipals(s.registry, rev, a.activate, a.note, now);
      }
    }
  }

  /** Non-interference: a principal gets the replies, and ends up seeing the state, that it would have
      got and seen had nobody else ever made a request. */
  lemma {:induction false} OthersMakeNoDifference(env: Env, s: Shared, t: Shared, requests: seq<Request>, key: string)
    requires AtHome(env, s) && AtHome(env, t) && Agree(env, s, t, key) && Separate(env, s, requests, key)
    ensures Agree(env, ActAll(env, s, requests), ActAll(env, t, Alone(requests, key)), key)
    ensures RepliesTo(env, s, requests, key) == RepliesTo(env, t, Alone(requests, key), key)
    decreases requests
  {
    hide Agree, Act, AtHome, FreshIds;
    if requests != [] {
      var r, rest := requests[0], requests[1..];
      var next := Act(env, s, r).0;
      ActKeepsHomes(env, s, r);
      if r.p.key == key {
        ActKeepsHomes(env, t, r);
        RepliesDependOnOwnState(env, s, t, r);
        OthersMakeNoDifference(env, next, Act(env, t, r).0, rest, key);
        assert Alone(requests, key) == [r] + Alone(rest, key);
        assert ([r] + Alone(rest, key))[1..] == Alone(rest, key);
      } else {
        RequestsAreInvisibleToOthers(env, s, r, key);
        AgreeSymmetric(env, s, next, key);
        AgreeTransitively(env, next, s, t, key);
        OthersMakeNoDifference(env, next, t, rest, key);
        assert Alone(requests, key) == Alone(rest, key);
      }
    }
  }

  lemma AgreeSymmetric(env: Env, s: Shared, t: Shared, key: string)
    requires Agree(env, s, t, key)
    ensures Agree(env, t, s, key)
  {
    hide OwnDraft, OwnObject, OwnConversation, OwnWorkspace, Generations, GetRevision;
  }

  const NOBODY := Shared(EMPTY, map[], map[], map[])

  /** From the beginning: whoever else uses the system, a principal cannot tell. */
  lemma NobodyCanTell(env: Env, requests: seq<Request>, key: string)
    requires Separate(env, NOBODY, requests, key)
    ensures Agree(env, ActAll(env, NOBODY, requests), ActAll(env, NOBODY, Alone(requests, key)), key)
    ensures RepliesTo(env, NOBODY, requests, key) == RepliesTo(env, NOBODY, Alone(requests, key), key)
  {
    OthersMakeNoDifference(env, NOBODY, NOBODY, requests, key);
  }

  // ---------------------------------------------------------------------------
  // Publishing through the API is `publish`
  // ---------------------------------------------------------------------------

  lemma PartialStep(o: Objects, o': Objects, key: string, data: Bytes, more: Objects)
    requires key in more && more[key] == data && PartiallyWritten(o[key := data], o', more)
    ensures PartiallyWritten(o, o', more)
  {
  }

  lemma {:induction false} StoppedInOrder(o: Objects, w: string, scope: Option<string>, digest: string, files: Files,
                                          order: seq<string>)
    ensures PartiallyWritten(o, WriteInOrder(o, w, scope, digest, files, order).0, SkillObjects(w, digest, files))
    decreases order
  {
    hide Guard, SkillKey, PartiallyWritten;
    NothingIsPartial(o, SkillObjects(w, digest, files));
    if order != [] {
      if order[0] !in files {
        StoppedInOrder(o, w, scope, digest, files, order[1..]);
      } else if Guard(w, scope, SkillKey(w, digest, order[0])).Ok? {
        var key, data := SkillKey(w, digest, order[0]), files[order[0]];
        StoppedInOrder(o[key := data], w, scope, digest, files, order[1..]);
        SkillObject(w, digest, files, order[0]);
        PartialStep(o, WriteInOrder(o, w, scope, digest, files, order).0, key, data, SkillObjects(w, digest, files));
      }
    }
  }

  lemma NothingIsPartial(o: Objects, more: Objects)
    ensures PartiallyWritten(o, o, more)
  {
  }

  ghost predicate ListsOnly(order: seq<string>, files: Files) {
    forall i :: 0 <= i < |order| ==> order[i] in files
  }

  lemma {:induction false} WrittenInOrder(o: Objects, w: string, scope: Option<string>, digest: string, files: Files,
                                          order: seq<string>)
    requires ListsOnly(order, files)
    ensures WriteInOrder(o, w, scope, digest, files, order).1 ==>
              WriteInOrder(o, w, scope, digest, files, order).0
              == o + SkillObjects(w, digest, Restricted(files, Names(order)))
    ensures WriteInOrder(o, w, scope, digest, files, order).1
            <==> forall rel :: rel in Names(order) ==> Guard(w, scope, SkillKey(w, digest, rel)).Ok?
    decreases order
  {
    hide Guard, SkillKey, Restricted;
    if order == [] {
      NothingRestricted(o, w, digest, files);
    } else {
      assert order[0] in files;
      assert order[0] in Names(order);
      if Guard(w, scope, SkillKey(w, digest, order[0])).Ok? {
        WrittenInOrder(o[SkillKey(w, digest, order[0]) := files[order[0]]], w, scope, digest, files, order[1..]);
        WritesCompose(o, w, digest, files, order[0], Names(order[1..]));
      }
    }
  }

  lemma NothingRestricted(o: Objects, w: string, digest: string, files: Files)
    ensures o + SkillObjects(w, digest, Restricted(files, {})) == o
  {
    assert Restricted(files, {}) == map[];
    NoSkills(w, digest);
  }

  function AsReply(r: Result<PublishResult>): Reply {
    match r case Ok(x) => Issued(x) case Err(e) => Failed(e)
  }

  function WorldIn(s: Shared): World {
    World(s.objects, s.registry, s.drafts)
  }

  lemma IssueEnters(env: Env, s: Shared, id: string, d: Draft, scope: Option<string>, activate: bool, note: string,
                    now: int, order: seq<string>)
    requires ManifestOf(env.platform, d.files).Some? && ListsOnly(order, d.files) && Names(order) == d.files.Keys
    requires GuardsPass(d.workspaceId, scope, DigestOf(env.platform, d), d.files)
    ensures IssueChecked(env, s, id, d, scope, activate, note, now, order)
            == EnterIssued(env, s.(objects := PublishedObjects(env.platform, s.objects, d)), id, d, activate, note, now)
  {
    WrittenInOrder(s.objects, d.workspaceId, scope, DigestOf(env.platform, d), d.files, order);
    AllRestricted(d.files);
    hide WriteInOrder, Guard, DigestOf, ManifestOf, Names, Restricted, EnterIssued, SkillKey, ManifestKey;
  }

  lemma IssueStops(env: Env, s: Shared, id: string, d: Draft, scope: Option<string>, activate: bool, note: string,
                   now: int, order: seq<string>)
    requires ManifestOf(env.platform, d.files).Some? && ListsOnly(order, d.files) && Names(order) == d.files.Keys
    requires !GuardsPass(d.workspaceId, scope, DigestOf(env.platform, d), d.files)
    ensures var x := IssueChecked(env, s, id, d, scope, activate, note, now, order);
            && x.1 == Failed(Isolation) && StoppedShort(env.platform, d, WorldIn(s), WorldIn(x.0))
  {
    WrittenInOrder(s.objects, d.workspaceId, scope, DigestOf(env.platform, d), d.files, order);
    StoppedInOrder(s.objects, d.workspaceId, scope, DigestOf(env.platform, d), d.files, order);
    hide WriteInOrder, Guard, DigestOf, ManifestOf, Names, EnterIssued, SkillKey, ManifestKey, PartiallyWritten;
  }

  lemma OutcomeOfEntering(platform: Platform, w: string, scope: Option<string>, id: string, activate: bool,
                          note: string, now: int, before: World, d: Draft)
    requires PublishCheck(platform, before.drafts, id, w) == Ok(d) && ManifestOf(platform, d.files).Some?
    requires GuardsPass(d.workspaceId, scope, DigestOf(platform, d), d.files)
    ensures Entered(platform, id, d, activate, note, now,
                    before.(objects := PublishedObjects(platform, before.objects, d)))
            in PublishOutcomes(platform, w, scope, id, activate, note, now, before)
  {
    hide Entered, DigestOf, GuardsPass, PublishedObjects, PublishCheck, ManifestOf;
  }

  lemma OutcomeOfStopping(platform: Platform, w: string, scope: Option<string>, id: string, activate: bool,
                          note: string, now: int,
                          before: World, after: World, d: Draft)
    requires PublishCheck(platform, before.drafts, id, w) == Ok(d) && ManifestOf(platform, d.files).Some?
    requires !GuardsPass(d.workspaceId, scope, DigestOf(platform, d), d.files)
    requires StoppedShort(platform, d, before, after)
    ensures (after, Err(Isolation)) in PublishOutcomes(platform, w, scope, id, activate, note, now, before)
  {
    hide Entered, DigestOf, GuardsPass, PublishedObjects, PublishCheck, ManifestOf, StoppedShort;
    var e: (World, Result<PublishResult>) := (after, Err(Isolation));
    assert e in PublishOutcomes(platform, w, scope, id, activate, note, now, before);
  }

  ghost predicate IsPublishOutcome(env: Env, s: Shared, x: (Shared, Reply), r: Result<PublishResult>, w: string,
                                   scope: Option<string>, id: string,
                                   activate: bool, note: string, now: int)
  {
    x.1 == AsReply(r)
    && (WorldIn(x.0), r) in PublishOutcomes(env.platform, w, scope, id, activate, note, now, WorldIn(s))
  }

  /** When `order` lists the draft's files, the publication has an outcome of `publish`. */
  lemma IssueIsPublish(env: Env, s: Shared, id: string, w: string, scope: Option<string>, activate: bool,
                       note: string, now: int, order: seq<string>)
    returns (r: Result<PublishResult>)
    requires PublishCheck(env.platform, s.drafts, id, w).Ok?
    requires var d := PublishCheck(env.platform, s.drafts, id, w).value;
             ListsOnly(order, d.files) && Names(order) == d.files.Keys
    ensures var d := PublishCheck(env.platform, s.drafts, id, w).value;
            && ManifestOf(env.platform, d.files).Some?
            && IsPublishOutcome(env, s, IssueChecked(env, s, id, d, scope, activate, note, now, order), r, w, scope, id,
                                activate, note, now)
  {
    CheckedHasManifest(env, s.drafts, id, w);
    hide PublishCheck, DigestOf, ManifestOf, Names, Entered, IssueChecked, EnterIssued, GuardsPass, PublishedObjects,
      PublishOutcomes, ListsOnly, StoppedShort;
    var d := s.drafts[id];
    if GuardsPass(d.workspaceId, scope, DigestOf(env.platform, d), d.files) {
      var written := PublishedObjects(env.platform, s.objects, d);
      IssueEnters(env, s, id, d, scope, activate, note, now, order);
      EnteredIsIssued(env, s.(objects := written), id, d, activate, note, now);
      OutcomeOfEntering(env.platform, w, scope, id, activate, note, now, WorldIn(s), d);
      r := Entered(env.platform, id, d, activate, note, now, WorldIn(s).(objects := written)).1;
    } else {
      IssueStops(env, s, id, d, scope, activate, note, now, order);
      OutcomeOfStopping(env.platform, w, scope, id, activate, note, now, WorldIn(s),
                        WorldIn(IssueChecked(env, s, id, d, scope, activate, note, now, order).0), d);
      r := Err(Isolation);
    }
  }

  lemma EnteredIsIssued(env: Env, s: Shared, id: string, d: Draft, activate: bool, note: string, now: int)
    requires ManifestOf(env.platform, d.files).Some?
    ensures var (x, reply) := EnterIssued(env, s, id, d, activate, note, now);
            var (y, r) := Entered(env.platform, id, d, activate, note, now, WorldIn(s));
            WorldIn(x) == y && reply == AsReply(r)
  {
    hide Enter, EnteredGeneration, DigestOf, ManifestOf;
  }

  // ---------------------------------------------------------------------------
  // Starting through the API is `start`
  // ---------------------------------------------------------------------------

  /** The order lists each key of a set once, and nothing else. */
  ghost predicate Enumerates(order: Order) {
    forall keys: set<string> ::
      && (forall k :: k in order(keys) <==> k in keys)
      && (forall i, j :: 0 <= i < j < |order(keys)| ==> order(keys)[i] != order(keys)[j])
  }

  lemma {:induction false} RefAt(o: Objects, prefix: string, keys: seq<string>, i: nat)
    requires i < |keys|
    ensures |RefsOf(o, prefix, keys)| == |keys|
    ensures RefsOf(o, prefix, keys)[i] == ObjectRef(keys[i], if keys[i] in Keys(o, prefix) then |o[keys[i]]| else 0)
    decreases keys
  {
    if |keys| > 1 {
      RefAt(o, prefix, keys[1..], if i == 0 then 0 else i - 1);
    } else {
      assert RefsOf(o, prefix, keys[1..]) == [];
    }
  }

  lemma RefsList(o: Objects, prefix: string, keys: seq<string>)
    requires forall k :: k in keys <==> k in Keys(o, prefix)
    requires forall i, j :: 0 <= i < j < |keys| ==> keys[i] != keys[j]
    ensures IsListingOf(RefsOf(o, prefix, keys), o, prefix)
  {
    hide RefsOf;
    var refs := RefsOf(o, prefix, keys);
    if keys != [] {
      RefAt(o, prefix, keys, 0);
    } else {
      NoRefs(o, prefix);
    }
    forall i | 0 <= i < |refs|
      ensures refs[i].key == keys[i] && refs[i].key in Keys(o, prefix) && refs[i].size == |o[refs[i].key]|
    {
      RefAt(o, prefix, keys, i);
      assert keys[i] in keys;
    }
    forall k | k in Keys(o, prefix) ensures Mentions(refs, k) {
      var i :| 0 <= i < |keys| && keys[i] == k;
      assert refs[i].key == k;
    }
  }

  lemma NoRefs(o: Objects, prefix: string)
    ensures RefsOf(o, prefix, []) == []
  {
  }

  /** A start through the API materializes what listings of the store, as it is, lead to. */
  lemma OpenListsTheStore(o: Objects, w: string, scope: Option<string>, digest: string, order: Order)
    requires Enumerates(order)
    ensures ListsRevision(Listed(o, w, scope, digest, order), Access(o, w, scope), digest)
  {
    hide ListedPrefix, Keys, IsListingOf, RefsOf;
    if ListedPrefix(w, scope, digest).Ok? {
      var prefix := ListedPrefix(w, scope, digest).value;
      RefsList(o, prefix, order(Keys(o, prefix)));
    }
  }

  // ---------------------------------------------------------------------------
  // Requests are the calls
  // ---------------------------------------------------------------------------

  ghost function StartOf(a: Action, p: Principal, now: int): StartCall
    requires a.Open?
  {
    StartCall(p, a.credential, a.geSession, a.local.session, a.cid, now)
  }

  /** A request to start is a start: the conversation that it answers and stores, the files below the directory
      that it hands over, or its error. */
  lemma OpenIsStart(env: Env, s: Shared, p: Principal, w: string, a: Action, now: int)
    returns (t: Tree, r: Result<StartedSession>, refs: seq<ObjectRef>, again: seq<ObjectRef>)
    requires a.Open? && Enumerates(a.local.order) && Enumerates(a.local.again)
    ensures StartDoes(Setting(env.broker, env.platform.sha, a.local.root, a.local.catalog), StartOf(a, p, now), w,
                      s.registry, s.objects, a.local.disk, t, r, refs, again)
    ensures Perform(env, s, p, w, a, now)
            == match r
               case Err(e) => (s, Failed(e))
               case Ok(x) =>
                 (s.(conversations := s.conversations[a.cid := x.conversation]),
                  Reply.Opened(x.conversation, FilesBelow(t, x.materialized.skillsDir)))
  {
    hide StartAccess, Attempt, MakeAll, IsVerified, Listed, FilesBelow, ListsRevision;
    t, refs, again := a.local.disk, [], [];
    var access := StartAccess(s.registry, env.broker, p, w, a.credential, now);
    if access.Err? {
      r := Err(access.error);
    } else {
      var (gen, scope) := access.value;
      AccessIsOwn(s.registry, env.broker, p, w, a.credential, now);
      t, r, refs, again := StartInStore(env, s, p, w, a, now, gen, scope);
    }
  }

  lemma StartInStore(env: Env, s: Shared, p: Principal, w: string, a: Action, now: int, gen: Generation,
                     scope: Option<string>)
    returns (t: Tree, r: Result<StartedSession>, refs: seq<ObjectRef>, again: seq<ObjectRef>)
    requires a.Open? && Enumerates(a.local.order) && Enumerates(a.local.again) && gen.workspaceId == w
    ensures StartDoesOn(Setting(env.broker, env.platform.sha, a.local.root, a.local.catalog), StartOf(a, p, now), w,
                        gen, Access(s.objects, w, scope), a.local.disk, t, r, refs, again)
    ensures Outcome(t, ProblemOf(r)) == Fetched(env, s.objects, w, scope, gen.contentDigest, a.local)
    ensures r.Ok? ==> r.value == StartedOn(a.local.root, StartOf(a, p, now), gen)
  {
    hide Attempt, MakeAll, IsVerified, Listed, ListsRevision;
    var access := Access(s.objects, w, scope);
    refs := Listed(s.objects, w, scope, gen.contentDigest, a.local.order);
    again := Listed(s.objects, w, scope, gen.contentDigest, a.local.again);
    OpenListsTheStore(s.objects, w, scope, gen.contentDigest, a.local.order);
    OpenListsTheStore(s.objects, w, scope, gen.contentDigest, a.local.again);
    var o := Fetched(env, s.objects, w, scope, gen.contentDigest, a.local);
    t := o.tree;
    if o.problem.Some? {
      r := Err(o.problem.value);
    } else {
      r := Ok(StartedOn(a.local.root, StartOf(a, p, now), gen));
      AttemptIsVerified(env.platform.sha, a.local.disk, a.local.root, a.local.catalog, access, a.local.session, gen,
                        refs, again);
    }
  }

  /** What a request answers that makes the call `r` on the draft. */
  ghost predicate AnswersCall(s: Shared, x: (Shared, Reply), r: Result<Table>, id: string) {
    match r
    case Err(e) => x == (s, Failed(e))
    case Ok(drafts) => id in drafts && x == (s.(drafts := drafts), Shown(drafts[id]))
  }

  /** The requests on drafts are the service's calls on the principal's own drafts; another's draft is reported
      as missing and left alone. */
  lemma DraftRequestsAreCalls(env: Env, s: Shared, p: Principal, w: string, a: Action, now: int)
    requires a.NewDraft? || a.Edit? || a.Check? || a.Hand?
    ensures a.NewDraft? ==>
              AnswersCall(s, Perform(env, s, p, w, a, now),
                          Create(env.platform, s.registry, s.drafts, a.id, w, a.base), a.id)
    ensures !a.NewDraft? && !(a.id in s.drafts && s.drafts[a.id].workspaceId == w) ==>
              Perform(env, s, p, w, a, now) == (s, Failed(NotFound))
    ensures !a.NewDraft? && a.id in s.drafts && s.drafts[a.id].workspaceId == w ==>
              AnswersCall(s, Perform(env, s, p, w, a, now),
                          if a.Edit? then Patch(s.drafts, a.id, a.path, a.content)
                          else if a.Check? then Validate(env.platform, s.drafts, a.id)
                          else Submit(s.drafts, a.id), a.id)
  {
  }

  /** A request to publish another's draft finds none; a publisher without a credential must own the workspace,
      and gets one that may write; otherwise the request is the service's publication. */
  lemma IssueRequestIsPublication(env: Env, s: Shared, p: Principal, w: string, a: Action, now: int)
    returns (r: Result<PublishResult>)
    requires a.Issue?
    requires a.id in s.drafts ==>
               ListsOnly(a.order, s.drafts[a.id].files) && Names(a.order) == s.drafts[a.id].files.Keys
    ensures var x := Perform(env, s, p, w, a, now);
            var owned := w in s.registry.workspaces && s.registry.workspaces[w].principalKey == p.key;
            if !(a.id in s.drafts && s.drafts[a.id].workspaceId == w) then x == (s, Failed(NotFound))
            else if a.credential == None && w !in s.registry.workspaces then x == (s, Failed(Authorization))
            else if a.credential == None && !owned then x == (s, Failed(Isolation))
            else if !IsWorkspaceId(w) then x == (s, Failed(BadValue))
            else IsPublishOutcome(env, s, x, r, w,
                                  if a.credential.Some? then a.credential.value.scope
                                  else Some("workspaces/" + w + "/"), a.id, a.activate, a.note, now)
  {
    hide IsWorkspaceId, IssueChecked, PublishCheck, BuildBoundary, IsPublishOutcome, ListsOnly, Names;
    IssuedCredential(s.registry, env.broker.minter, env.broker.bucket, env.broker.ttl, p, w, PUBLISH_PERMISSIONS, now);
    var scope := if a.credential.Some? then a.credential.value.scope else Some("workspaces/" + w + "/");
    if !IsWorkspaceId(w) {
      r := Err(BadValue);
    } else if PublishCheck(env.platform, s.drafts, a.id, w).Ok? {
      CheckedIsOwn(env, s, a.id, w);
      r := IssueIsPublish(env, s, a.id, w, scope, a.activate, a.note, now, a.order);
    } else {
      r := RefusedIsPublish(env, s, a.id, w, scope, a.activate, a.note, now);
    }
  }

  lemma CheckedIsOwn(env: Env, s: Shared, id: string, w: string)
    requires PublishCheck(env.platform, s.drafts, id, w).Ok?
    ensures id in s.drafts && PublishCheck(env.platform, s.drafts, id, w).value == s.drafts[id]
  {
    hide Publishable;
  }

  lemma RefusedIsPublish(env: Env, s: Shared, id: string, w: string, scope: Option<string>, activate: bool,
                         note: string, now: int)
    returns (r: Result<PublishResult>)
    requires PublishCheck(env.platform, s.drafts, id, w).Err?
    ensures r == Err(PublishCheck(env.platform, s.drafts, id, w).error)
    ensures IsPublishOutcome(env, s, (s, Failed(r.error)), r, w, scope, id, activate, note, now)
  {
    hide PublishCheck;
    r := Err(PublishCheck(env.platform, s.drafts, id, w).error);
  }

  /** What a publication asks for writes: its credential is minted for administering objects. */
  lemma PublishersMayWrite(bucket: string, w: string)
    ensures BuildBoundary(bucket, Prefix(w), PUBLISH_PERMISSIONS).role == ObjectAdmin
  {
    var creating := PUBLISH_PERMISSIONS[0];
    assert creating[|creating| - 1] == 'e' && creating[|creating| - 4..][3] == creating[|creating| - 5..][4] == 'e';
    assert !ReadOnly(PUBLISH_PERMISSIONS);
  }
}
