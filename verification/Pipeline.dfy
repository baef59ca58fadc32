/** The whole control plane as one state machine: drafts, publications in flight, the object store,
    the registry, conversations and the sessions that were started. Every call is one step, except
    `publish`, whose writes are separate steps that interleave with everything else. */
module Pipeline {
  import opened Text
  import opened Json
  import opened Integrity
  import opened Paths
  import opened Disk
  import opened Layout
  import opened FlatStorage
  import opened Registry
  import opened Drafts
  import opened Broker
  import opened Materializer
  import opened MaterializerTheorems
  import opened Sessions

  // ---------------------------------------------------------------------------
  // States
  // ---------------------------------------------------------------------------

  datatype Env = Env(platform: Platform, derive: Derivation, broker: BrokerConfig)

  /** What a publication found when it checked its draft. */
  datatype Approval = Approval(workspaceId: string, digest: string, base: Option<string>, files: Files)

  datatype Phase = Writing | Recording | Activating | Finishing

  /** A call of `publish` in flight. */
  datatype Publication = Publication(
    draftId: string,
    approval: Approval,
    manifest: Json,
    scope: Option<string>,
    activate: bool,
    note: string,
    done: set<string>,
    phase: Phase)

  /** A session that started, with the files of its skills directory at that moment. */
  datatype Started = Started(conversation: Conversation, catalog: bool, files: Files)

  datatype Sys = Sys(
    registry: State,
    drafts: Table,
    objects: Objects,
    publications: map<string, Publication>,
    approved: set<Approval>,
    conversations: map<string, Conversation>,
    sessions: seq<Started>)

  const INITIAL := Sys(EMPTY, map[], map[], map[], {}, map[], [])

  /** The local side of a start: a disk, where sessions go, new ids, and whatever the store answers. */
  datatype Place = Place(
    disk: Tree,
    root: Path,
    catalog: Option<Path>,
    session: string,
    downloads: seq<Download>,
    again: seq<Download>)

  datatype Step =
    | Contact(p: Principal, placement: Placement, now: int)
    | CreateDraft(id: string, w: string, base: Option<string>)
    | PatchDraft(id: string, path: string, content: Option<Bytes>)
    | ValidateDraft(id: string)
    | SubmitDraft(id: string)
    | Begin(pid: string, id: string, w: string, scope: Option<string>, activate: bool, note: string)
    | PutFile(pid: string, rel: string)
    | PutManifest(pid: string)
    | RecordIt(pid: string, now: int)
    | ActivateIt(pid: string, now: int)
    | Finish(pid: string)
    | Abort(pid: string)
    | Reactivate(w: string, digest: string, note: string, now: int)
    | Start(p: Principal, placement: Placement, credential: Option<Credential>, geSession: string, cid: string,
            place: Place, now: int)
    | Tamper(key: string, content: Option<Bytes>)

  // ---------------------------------------------------------------------------
  // Steps
  // ---------------------------------------------------------------------------

  function WithDrafts(s: Sys, r: Result<Table>): Sys {
    if r.Ok? then s.(drafts := r.value) else s
  }

  function Aborted(s: Sys, pid: string): Sys {
    s.(publications := s.publications - {pid})
  }

  function Advanced(s: Sys, pid: string, pub: Publication): Sys {
    s.(publications := s.publications[pid := pub])
  }

  ghost function AfterBegin(env: Env, s: Sys, pid: string, id: string, w: string, scope: Option<string>,
                            activate: bool, note: string): Sys {
    match PublishCheck(env.platform, s.drafts, id, w)
    case Err(_) => s
    case Ok(d) =>
      var a := Approval(w, DigestOf(env.platform, d), d.baseDigest, d.files);
      var pub := Publication(id, a, ManifestOf(env.platform, d.files).value, scope, activate, note, {}, Writing);
      Advanced(s, pid, pub).(approved := s.approved + {a})
  }

  /** The draft's files as the loop of `publish` sees them now: a change of their number stops it. */
  function LiveFiles(s: Sys, pub: Publication): Option<Files> {
    if pub.draftId !in s.drafts || |s.drafts[pub.draftId].files| != |pub.approval.files| then None
    else Some(s.drafts[pub.draftId].files)
  }

  function FileKey(a: Approval, rel: string): string {
    SkillKey(a.workspaceId, a.digest, rel)
  }

  /** One iteration of the loop over the draft's files. */
  function AfterPutFile(s: Sys, pid: string, rel: string): Sys {
    if pid !in s.publications || s.publications[pid].phase != Writing then s
    else
      var pub := s.publications[pid];
      match LiveFiles(s, pub)
      case None => Aborted(s, pid)
      case Some(live) =>
        if rel !in live then s
        else if Guard(pub.approval.workspaceId, pub.scope, FileKey(pub.approval, rel)).Err? then Aborted(s, pid)
        else
          var written := s.objects[FileKey(pub.approval, rel) := live[rel]];
          Advanced(s, pid, pub.(done := pub.done + {rel})).(objects := written)
  }

  /** The end of the loop and the copy of the manifest. */
  function AfterPutManifest(env: Env, s: Sys, pid: string): Sys {
    if pid !in s.publications || s.publications[pid].phase != Writing then s
    else
      var pub := s.publications[pid];
      var key := ManifestKey(pub.approval.workspaceId, pub.approval.digest);
      match LiveFiles(s, pub)
      case None => Aborted(s, pid)
      case Some(live) =>
        if !(live.Keys <= pub.done) then s
        else if Guard(pub.approval.workspaceId, pub.scope, key).Err? then Aborted(s, pid)
        else Advanced(s, pid, pub.(phase := Recording)).(objects := s.objects[key := env.platform.dumps(pub.manifest)])
  }

  function AfterRecord(s: Sys, pid: string, now: int): Sys {
    if pid !in s.publications || s.publications[pid].phase != Recording then s
    else
      var pub := s.publications[pid];
      match RecordRevision(s.registry,
                           Revision(pub.approval.workspaceId, pub.approval.digest, pub.manifest, now,
                                    pub.approval.base))
      case Err(_) => Aborted(s, pid)
      case Ok(r) => Advanced(s, pid, pub.(phase := if pub.activate then Activating else Finishing)).(registry := r)
  }

  function AfterActivate(s: Sys, pid: string, now: int): Sys {
    if pid !in s.publications || s.publications[pid].phase != Activating then s
    else
      var pub := s.publications[pid];
      match Activate(s.registry, pub.approval.workspaceId, pub.approval.digest, pub.note, now)
      case Err(_) => Aborted(s, pid)
      case Ok(r) => Advanced(s, pid, pub.(phase := Finishing)).(registry := r)
  }

  function AfterFinish(s: Sys, pid: string): Sys {
    if pid !in s.publications || s.publications[pid].phase != Finishing then s
    else
      var id := s.publications[pid].draftId;
      if id !in s.drafts then Aborted(s, pid)
      else Aborted(s, pid).(drafts := s.drafts[id := s.drafts[id].(status := Published)])
  }

  function AfterReactivate(s: Sys, w: string, digest: string, note: string, now: int): Sys {
    match Activate(s.registry, w, digest, note, now)
    case Err(_) => s
    case Ok(r) => s.(registry := r)
  }

  function AfterContact(env: Env, s: Sys, p: Principal, placement: Placement, now: int): Sys {
    s.(registry := Ensure(s.registry, env.derive, p, placement, now))
  }

  /** A start in a world where the principal's workspace exists. */
  ghost function AfterOpen(env: Env, s: Sys, p: Principal, credential: Option<Credential>, geSession: string,
                           cid: string, place: Place, now: int): Sys {
    var w := HomeOf(s.registry, env.derive, p.key);
    match StartAccess(s.registry, env.broker, p, w, credential, now)
    case Err(_) => s
    case Ok((gen, _)) =>
      var o := Materialized(env.platform.sha, place.disk, place.root, place.catalog, w, place.session,
                            gen.contentDigest,
                            place.downloads, place.again);
      if o.problem.Some? then s
      else
        var c := Pinned(cid, p, gen, geSession, now);
        s.(conversations := s.conversations[cid := c],
           sessions := s.sessions + [Started(c, place.catalog.Some?,
                                             FilesBelow(o.tree, SkillsDir(place.root, w, place.session)))])
  }

  function AfterTamper(s: Sys, key: string, content: Option<Bytes>): Sys {
    match content
    case None => s.(objects := s.objects - {key})
    case Some(data) => s.(objects := s.objects[key := data])
  }

  ghost function Next(env: Env, s: Sys, step: Step): Sys {
    match step
    case Contact(p, placement, now) => AfterContact(env, s, p, placement, now)
    case CreateDraft(id, w, base) => WithDrafts(s, Create(env.platform, s.registry, s.drafts, id, w, base))
    case PatchDraft(id, path, content) => WithDrafts(s, Patch(s.drafts, id, path, content))
    case ValidateDraft(id) => WithDrafts(s, Validate(env.platform, s.drafts, id))
    case SubmitDraft(id) => WithDrafts(s, Submit(s.drafts, id))
    case Begin(pid, id, w, scope, activate, note) => AfterBegin(env, s, pid, id, w, scope, activate, note)
    case PutFile(pid, rel) => AfterPutFile(s, pid, rel)
    case PutManifest(pid) => AfterPutManifest(env, s, pid)
    case RecordIt(pid, now) => AfterRecord(s, pid, now)
    case ActivateIt(pid, now) => AfterActivate(s, pid, now)
    case Finish(pid) => AfterFinish(s, pid)
    case Abort(pid) => Aborted(s, pid)
    case Reactivate(w, digest, note, now) => AfterReactivate(s, w, digest, note, now)
    case Start(p, placement, credential, geSession, cid, place, now) =>
      AfterOpen(env, AfterContact(env, s, p, placement, now), p, credential, geSession, cid, place, now)
    case Tamper(key, content) => AfterTamper(s, key, content)
  }

  /** No other principal in contact has the same derived workspace id. */
  ghost predicate OwnId(env: Env, s: Sys, p: Principal) {
    forall k :: k in s.registry.byPrincipal && env.derive(k) == env.derive(p.key) ==> k == p.key
  }

  /** Random ids are new, and derived ids differ for the principals of the run. */
  ghost predicate Possible(env: Env, s: Sys, step: Step) {
    match step
    case Contact(p, _, _) => OwnId(env, s, p)
    case CreateDraft(id, _, _) => id !in s.drafts
    case Begin(pid, _, w, _, _, _) => pid !in s.publications && IsWorkspaceId(w)
    case Start(p, _, _, _, cid, _, _) => OwnId(env, s, p) && cid !in s.conversations
    case _ => true
  }

  ghost predicate PossibleRun(env: Env, s: Sys, steps: seq<Step>)
    decreases steps
  {
    steps == [] || (Possible(env, s, steps[0]) && PossibleRun(env, Next(env, s, steps[0]), steps[1..]))
  }

  ghost function Run(env: Env, s: Sys, steps: seq<Step>): Sys
    decreases steps
  {
    if steps == [] then s else Run(env, Next(env, s, steps[0]), steps[1..])
  }

  // ---------------------------------------------------------------------------
  // Invariant
  // ---------------------------------------------------------------------------

  ghost predicate IsApproved(s: Sys, w: string, digest: string) {
    exists a :: a in s.approved && a.workspaceId == w && a.digest == digest
  }

  /** Every approval is of validated files and carries their digest. */
  ghost predicate ApprovalsHold(env: Env, approved: set<Approval>) {
    forall a :: a in approved ==>
      && Problems(env.platform, a.workspaceId, a.base, a.files) == {}
      && a.digest == Digest(env.platform.sha, a.files)
      && IsWorkspaceId(a.workspaceId)
  }

  ghost predicate PublicationsApproved(s: Sys) {
    forall pid :: pid in s.publications ==> s.publications[pid].approval in s.approved
  }

  ghost predicate RevisionsApproved(s: Sys) {
    forall k :: k in s.registry.revisions ==> IsApproved(s, k.workspaceId, k.digest)
  }

  /** The registry knows every workspace by the principal it was derived for. */
  ghost predicate Derived(env: Env, r: State) {
    forall w :: w in r.workspaces ==>
      r.workspaces[w].principalKey in r.byPrincipal && env.derive(r.workspaces[w].principalKey) == w
  }

  /** The generation that a conversation is pinned to has the digest the conversation recorded. */
  ghost predicate PinHolds(r: State, c: Conversation) {
    var g := GetGeneration(r, c.workspaceId, c.generation);
    g.Ok? && g.value.contentDigest == c.contentDigest
  }

  ghost predicate AllPinned(s: Sys) {
    forall cid :: cid in s.conversations ==> PinHolds(s.registry, s.conversations[cid])
  }

  ghost predicate SessionHolds(env: Env, s: Sys, x: Started) {
    && x.conversation.id in s.conversations && s.conversations[x.conversation.id] == x.conversation
    && (!x.catalog ==> Digest(env.platform.sha, x.files) == x.conversation.contentDigest && AllSeparatorFree(x.files))
  }

  ghost predicate SessionsHold(env: Env, s: Sys) {
    forall i :: 0 <= i < |s.sessions| ==> SessionHolds(env, s, s.sessions[i])
  }

  ghost predicate SysInv(env: Env, s: Sys) {
    && Inv(s.registry)
    && Derived(env, s.registry)
    && AllVetted(env.platform, s.drafts)
    && ApprovalsHold(env, s.approved)
    && PublicationsApproved(s)
    && RevisionsApproved(s)
    && AllPinned(s)
    && SessionsHold(env, s)
  }

  lemma InitialInv(env: Env)
    ensures SysInv(env, INITIAL)
  {
    EmptyInv();
  }

  // ---------------------------------------------------------------------------
  // What only grows
  // ---------------------------------------------------------------------------

  /** Revisions stay as they are and generation lists are only appended to. */
  ghost predicate RegistryGrows(r: State, r': State) {
    && (forall k :: k in r.revisions ==> k in r'.revisions && r'.revisions[k] == r.revisions[k])
    && (forall w :: Generations(r, w) <= Generations(r', w))
  }

  ghost predicate Grows(s: Sys, s': Sys) {
    && RegistryGrows(s.registry, s'.registry)
    && s.approved <= s'.approved
    && (forall cid :: cid in s.conversations ==>
              cid in s'.conversations && s'.conversations[cid] == s.conversations[cid])
    && s.sessions <= s'.sessions
  }

  lemma GrowsTransitively(s: Sys, s': Sys, s'': Sys)
    requires Grows(s, s') && Grows(s', s'')
    ensures Grows(s, s'')
  {
    forall w ensures Generations(s.registry, w) <= Generations(s''.registry, w) {
      assert Generations(s.registry, w) <= Generations(s'.registry, w) <= Generations(s''.registry, w);
    }
  }

  /** A pinned generation is found unchanged, however many activations follow. */
  lemma PinStays(r: State, r': State, c: Conversation)
    requires Inv(r) && Inv(r') && RegistryGrows(r, r') && PinHolds(r, c)
    ensures PinHolds(r', c)
    ensures GetGeneration(r', c.workspaceId, c.generation) == GetGeneration(r, c.workspaceId, c.generation)
  {
    GetGenerationIsPositional(r, c.workspaceId, c.generation);
    GetGenerationIsPositional(r', c.workspaceId, c.generation);
    assert Generations(r, c.workspaceId) <= Generations(r', c.workspaceId);
  }

  lemma PinsStay(s: Sys, s': Sys)
    requires Inv(s.registry) && Inv(s'.registry) && RegistryGrows(s.registry, s'.registry) && AllPinned(s)
    requires s'.conversations == s.conversations
    ensures AllPinned(s')
  {
    hide PinHolds, Inv;
    forall cid | cid in s'.conversations ensures PinHolds(s'.registry, s'.conversations[cid]) {
      PinStays(s.registry, s'.registry, s.conversations[cid]);
    }
  }

  lemma StillApproved(s: Sys, s': Sys)
    requires s.approved <= s'.approved && RevisionsApproved(s)
    requires s'.registry.revisions.Keys <= s.registry.revisions.Keys
    ensures RevisionsApproved(s')
  {
    forall k | k in s'.registry.revisions ensures IsApproved(s', k.workspaceId, k.digest) {
      assert IsApproved(s, k.workspaceId, k.digest);
      var a :| a in s.approved && a.workspaceId == k.workspaceId && a.digest == k.digest;
      assert a in s'.approved;
    }
  }

  /** A step that leaves registry, conversations and sessions alone. */
  lemma QuietStep(env: Env, s: Sys, s': Sys)
    requires SysInv(env, s)
    requires s'.registry == s.registry && s'.conversations == s.conversations && s'.sessions == s.sessions
    requires AllVetted(env.platform, s'.drafts)
    requires s.approved <= s'.approved && ApprovalsHold(env, s'.approved) && PublicationsApproved(s')
    ensures SysInv(env, s') && Grows(s, s')
  {
    hide Inv, Derived, AllVetted, ApprovalsHold, PinHolds, PublicationsApproved;
    StillApproved(s, s');
    assert SessionsHold(env, s');
  }

  /** A step that only changes the registry, and drops or advances publications. */
  lemma RegistryStep(env: Env, s: Sys, s': Sys)
    requires SysInv(env, s)
    requires s'.conversations == s.conversations && s'.sessions == s.sessions && s'.drafts == s.drafts
    requires s'.approved == s.approved
    requires Inv(s'.registry) && Derived(env, s'.registry) && RegistryGrows(s.registry, s'.registry)
    requires RevisionsApproved(s') && PublicationsApproved(s')
    ensures SysInv(env, s') && Grows(s, s')
  {
    hide Inv, Derived, AllVetted, ApprovalsHold, PinHolds, PublicationsApproved, RevisionsApproved, RegistryGrows;
    PinsStay(s, s');
    assert SessionsHold(env, s');
  }

  // ---------------------------------------------------------------------------
  // Every step keeps the invariant
  // ---------------------------------------------------------------------------

  lemma ContactKeeps(env: Env, s: Sys, p: Principal, placement: Placement, now: int)
    requires SysInv(env, s) && OwnId(env, s, p)
    ensures var s' := AfterContact(env, s, p, placement, now); SysInv(env, s') && Grows(s, s')
  {
    var s' := AfterContact(env, s, p, placement, now);
    IdIsFree(env, s, p);
    EnsureKeepsInv(s.registry, env.derive, p, placement, now);
    EnsureKeepsGenerations(s.registry, env.derive, p, placement, now);
    ContactKeepsDerived(env, s, p, placement, now);
    hide Inv, Derived, AllVetted, ApprovalsHold, AllPinned, SessionsHold;
    StillApproved(s, s');
    RegistryStep(env, s, s');
  }

  lemma IdIsFree(env: Env, s: Sys, p: Principal)
    requires Derived(env, s.registry) && OwnId(env, s, p)
    ensures p.key in s.registry.byPrincipal || env.derive(p.key) !in s.registry.workspaces
  {
  }

  lemma ContactKeepsDerived(env: Env, s: Sys, p: Principal, placement: Placement, now: int)
    requires Derived(env, s.registry) && OwnId(env, s, p)
    ensures Derived(env, Ensure(s.registry, env.derive, p, placement, now))
  {
  }

  lemma DraftStepKeeps(env: Env, s: Sys, drafts: Table)
    requires SysInv(env, s) && AllVetted(env.platform, drafts)
    ensures SysInv(env, s.(drafts := drafts)) && Grows(s, s.(drafts := drafts))
  {
    hide Inv, Derived, ApprovalsHold, AllVetted, AllPinned, SessionsHold;
    QuietStep(env, s, s.(drafts := drafts));
  }

  lemma PublicationStepKeeps(env: Env, s: Sys, s': Sys)
    requires SysInv(env, s) && PublicationsApproved(s')
    requires s' == s.(publications := s'.publications, objects := s'.objects)
    ensures SysInv(env, s') && Grows(s, s')
  {
    hide Inv, Derived, ApprovalsHold, AllVetted, AllPinned, SessionsHold, PublicationsApproved;
    QuietStep(env, s, s');
  }

  lemma BeginKeeps(env: Env, s: Sys, pid: string, id: string, w: string, scope: Option<string>, activate: bool,
                   note: string)
    requires SysInv(env, s) && IsWorkspaceId(w)
    ensures var s' := AfterBegin(env, s, pid, id, w, scope, activate, note); SysInv(env, s') && Grows(s, s')
  {
    hide Inv, Derived, AllPinned, SessionsHold, Problems, Publishable;
    var s' := AfterBegin(env, s, pid, id, w, scope, activate, note);
    assert PublishCheck(env.platform, s.drafts, id, w).Ok? ==> Vetted(env.platform, s.drafts[id]);
    QuietStep(env, s, s');
  }

  lemma PutFileKeeps(env: Env, s: Sys, pid: string, rel: string)
    requires SysInv(env, s)
    ensures SysInv(env, AfterPutFile(s, pid, rel)) && Grows(s, AfterPutFile(s, pid, rel))
  {
    hide Inv, Derived, ApprovalsHold, AllVetted, AllPinned, SessionsHold, Guard;
    PublicationStepKeeps(env, s, AfterPutFile(s, pid, rel));
  }

  lemma PutManifestKeeps(env: Env, s: Sys, pid: string)
    requires SysInv(env, s)
    ensures SysInv(env, AfterPutManifest(env, s, pid)) && Grows(s, AfterPutManifest(env, s, pid))
  {
    hide Inv, Derived, ApprovalsHold, AllVetted, AllPinned, SessionsHold, Guard;
    PublicationStepKeeps(env, s, AfterPutManifest(env, s, pid));
  }

  lemma AbortKeeps(env: Env, s: Sys, pid: string)
    requires SysInv(env, s)
    ensures SysInv(env, Aborted(s, pid)) && Grows(s, Aborted(s, pid))
  {
    hide Inv, Derived, ApprovalsHold, AllVetted, AllPinned, SessionsHold;
    PublicationStepKeeps(env, s, Aborted(s, pid));
  }

  lemma TamperKeeps(env: Env, s: Sys, key: string, content: Option<Bytes>)
    requires SysInv(env, s)
    ensures SysInv(env, AfterTamper(s, key, content)) && Grows(s, AfterTamper(s, key, content))
  {
    hide Inv, Derived, ApprovalsHold, AllVetted, AllPinned, SessionsHold;
    PublicationStepKeeps(env, s, AfterTamper(s, key, content));
  }

  lemma RecordGrows(r: State, rev: Revision)
    requires RecordRevision(r, rev).Ok?
    ensures RegistryGrows(r, RecordRevision(r, rev).value)
  {
  }

  lemma ActivateGrows(r: State, w: string, digest: string, note: string, now: int)
    requires Activate(r, w, digest, note, now).Ok?
    ensures RegistryGrows(r, Activate(r, w, digest, note, now).value)
  {
    var r' := Activate(r, w, digest, note, now).value;
    forall v ensures Generations(r, v) <= Generations(r', v) {
    }
  }

  lemma ActivateKeepsDerived(env: Env, r: State, w: string, digest: string, note: string, now: int)
    requires Derived(env, r) && Activate(r, w, digest, note, now).Ok?
    ensures Derived(env, Activate(r, w, digest, note, now).value)
  {
  }

  lemma RecordKeeps(env: Env, s: Sys, pid: string, now: int)
    requires SysInv(env, s)
    ensures SysInv(env, AfterRecord(s, pid, now)) && Grows(s, AfterRecord(s, pid, now))
  {
    hide Inv, Derived, ApprovalsHold, AllVetted, AllPinned, SessionsHold;
    var s' := AfterRecord(s, pid, now);
    if pid in s.publications && s.publications[pid].phase == Recording {
      var pub := s.publications[pid];
      var rev := Revision(pub.approval.workspaceId, pub.approval.digest, pub.manifest, now, pub.approval.base);
      if RecordRevision(s.registry, rev).Ok? {
        RecordRevisionKeepsInv(s.registry, rev);
        RecordGrows(s.registry, rev);
        RecordedIsApproved(env, s, pid, now);
        RegistryStep(env, s, s');
      } else {
        AbortKeeps(env, s, pid);
      }
    } else {
      QuietStep(env, s, s');
    }
  }

  lemma RecordedIsApproved(env: Env, s: Sys, pid: string, now: int)
    requires SysInv(env, s) && pid in s.publications && s.publications[pid].phase == Recording
    ensures RevisionsApproved(AfterRecord(s, pid, now))
    ensures Derived(env, AfterRecord(s, pid, now).registry)
    ensures PublicationsApproved(AfterRecord(s, pid, now))
  {
    hide Inv, ApprovalsHold, AllVetted, AllPinned, SessionsHold;
    var s', a := AfterRecord(s, pid, now), s.publications[pid].approval;
    assert a in s.approved;
    hide Materialized, Problems, Digest;
    forall k | k in s'.registry.revisions ensures IsApproved(s', k.workspaceId, k.digest) {
      if k in s.registry.revisions {
        assert IsApproved(s, k.workspaceId, k.digest);
      } else {
        assert k == RevisionKey(a.workspaceId, a.digest);
      }
    }
  }

  lemma ActivateKeeps(env: Env, s: Sys, w: string, digest: string, note: string, now: int, publications: map<string,
                      Publication>)
    requires SysInv(env, s) && Activate(s.registry, w, digest, note, now).Ok?
    requires PublicationsApproved(s.(publications := publications))
    ensures var s' := s.(registry := Activate(s.registry, w, digest, note, now).value, publications := publications);
            SysInv(env, s') && Grows(s, s')
  {
    hide Inv, Derived, ApprovalsHold, AllVetted, AllPinned, SessionsHold, RevisionsApproved, RegistryGrows;
    var s' := s.(registry := Activate(s.registry, w, digest, note, now).value, publications := publications);
    ActivateKeepsInv(s.registry, w, digest, note, now);
    ActivateGrows(s.registry, w, digest, note, now);
    ActivateKeepsDerived(env, s.registry, w, digest, note, now);
    StillApproved(s, s');
    RegistryStep(env, s, s');
  }

  lemma ActivateItKeeps(env: Env, s: Sys, pid: string, now: int)
    requires SysInv(env, s)
    ensures SysInv(env, AfterActivate(s, pid, now)) && Grows(s, AfterActivate(s, pid, now))
  {
    hide Inv, Derived, ApprovalsHold, AllVetted, AllPinned, SessionsHold, RevisionsApproved, RegistryGrows, Activate;
    var s' := AfterActivate(s, pid, now);
    if pid in s.publications && s.publications[pid].phase == Activating {
      var pub := s.publications[pid];
      if Activate(s.registry, pub.approval.workspaceId, pub.approval.digest, pub.note, now).Ok? {
        ActivateKeeps(env, s, pub.approval.workspaceId, pub.approval.digest, pub.note, now, s'.publications);
      } else {
        AbortKeeps(env, s, pid);
      }
    } else {
      QuietStep(env, s, s');
    }
  }

  lemma ReactivateKeeps(env: Env, s: Sys, w: string, digest: string, note: string, now: int)
    requires SysInv(env, s)
    ensures SysInv(env, AfterReactivate(s, w, digest, note, now)) && Grows(s, AfterReactivate(s, w, digest, note, now))
  {
    hide Inv, Derived, ApprovalsHold, AllVetted, AllPinned, SessionsHold, RevisionsApproved, RegistryGrows, Activate;
    if Activate(s.registry, w, digest, note, now).Ok? {
      ActivateKeeps(env, s, w, digest, note, now, s.publications);
    } else {
      QuietStep(env, s, s);
    }
  }

  lemma FinishKeeps(env: Env, s: Sys, pid: string)
    requires SysInv(env, s)
    ensures SysInv(env, AfterFinish(s, pid)) && Grows(s, AfterFinish(s, pid))
  {
    hide Inv, Derived, ApprovalsHold, AllPinned, SessionsHold, RevisionsApproved, RegistryGrows, Problems;
    QuietStep(env, s, AfterFinish(s, pid));
  }

  /** The active generation is found under its own number. */
  lemma ActiveIsFound(r: State, w: string)
    requires Inv(r) && ResolveActive(r, w).Ok?
    ensures var g := ResolveActive(r, w).value;
            g.workspaceId == w && GetGeneration(r, w, g.number) == Ok(g)
            && RevisionKey(w, g.contentDigest) in r.revisions
  {
    var gens := Generations(r, w);
    assert Numbered(r, w);
    GetGenerationIsPositional(r, w, gens[|gens| - 1].number);
  }

  ghost predicate IsOpened(env: Env, s: Sys, s': Sys, p: Principal, c: Conversation, x: Started) {
    && c.id !in s.conversations
    && s' == s.(conversations := s.conversations[c.id := c], sessions := s.sessions + [x])
    && x.conversation == c
    && PinHolds(s.registry, c)
    && (!x.catalog ==> Digest(env.platform.sha, x.files) == c.contentDigest && AllSeparatorFree(x.files))
  }

  lemma OpenedSessionsHold(env: Env, s: Sys, s': Sys, p: Principal, c: Conversation, x: Started)
    requires SessionsHold(env, s) && IsOpened(env, s, s', p, c, x)
    ensures SessionsHold(env, s')
  {
    hide PinHolds;
    forall i | 0 <= i < |s'.sessions| ensures SessionHolds(env, s', s'.sessions[i]) {
      assert i < |s.sessions| ==> SessionHolds(env, s, s.sessions[i]);
    }
  }

  lemma OpenedKeeps(env: Env, s: Sys, s': Sys, p: Principal, c: Conversation, x: Started)
    requires SysInv(env, s) && IsOpened(env, s, s', p, c, x)
    ensures SysInv(env, s') && Grows(s, s')
  {
    hide Inv, Derived, ApprovalsHold, AllVetted, PinHolds, SessionsHold, RevisionsApproved;
    StillApproved(s, s');
    OpenedSessionsHold(env, s, s', p, c, x);
  }

  ghost function Opened(env: Env, s: Sys, p: Principal, w: string, credential: Option<Credential>, place: Place,
                        now: int): Outcome
    requires StartAccess(s.registry, env.broker, p, w, credential, now).Ok?
  {
    var gen := StartAccess(s.registry, env.broker, p, w, credential, now).value.0;
    Materialized(env.platform.sha, place.disk, place.root, place.catalog, w, place.session, gen.contentDigest,
                 place.downloads, place.again)
  }

  /** A start either changes nothing or adds one session whose tree has the digest of its pin. */
  lemma OpenIsPinned(env: Env, s: Sys, p: Principal, credential: Option<Credential>, geSession: string, cid: string,
                     place: Place, now: int)
    requires Inv(s.registry) && cid !in s.conversations
    ensures var s' := AfterOpen(env, s, p, credential, geSession, cid, place, now);
            s' == s || exists c, x :: IsOpened(env, s, s', p, c, x)
  {
    hide Inv, Materialized, FilesBelow, Digest, GetGeneration;
    var w := HomeOf(s.registry, env.derive, p.key);
    if StartAccess(s.registry, env.broker, p, w, credential, now).Ok? {
      var gen := StartAccess(s.registry, env.broker, p, w, credential, now).value.0;
      ActiveIsFound(s.registry, w);
      var o := Opened(env, s, p, w, credential, place, now);
      if o.problem == None {
        if place.catalog == None {
          StartedTreeIsVerified(env.platform.sha, place.disk, place.root, w, place.session, gen.contentDigest,
                                place.downloads, place.again);
        }
        var c := Pinned(cid, p, gen, geSession, now);
        var x := Started(c, place.catalog.Some?, FilesBelow(o.tree, SkillsDir(place.root, w, place.session)));
        assert IsOpened(env, s, AfterOpen(env, s, p, credential, geSession, cid, place, now), p, c, x);
      }
    }
  }

  lemma OpenKeeps(env: Env, s: Sys, p: Principal, credential: Option<Credential>, geSession: string, cid: string,
                  place: Place, now: int)
    requires SysInv(env, s) && cid !in s.conversations
    ensures var s' := AfterOpen(env, s, p, credential, geSession, cid, place, now); SysInv(env, s') && Grows(s, s')
  {
    hide Inv, Derived, ApprovalsHold, AllVetted, AllPinned, SessionsHold, RevisionsApproved, PublicationsApproved,
      AfterOpen, IsOpened;
    OpenIsPinned(env, s, p, credential, geSession, cid, place, now);
    var s' := AfterOpen(env, s, p, credential, geSession, cid, place, now);
    if s' != s {
      var c, x :| IsOpened(env, s, s', p, c, x);
      OpenedKeeps(env, s, s', p, c, x);
    }
  }

  lemma StartKeeps(env: Env, s: Sys, p: Principal, placement: Placement, credential: Option<Credential>,
                   geSession: string, cid: string, place: Place, now: int)
    requires SysInv(env, s) && OwnId(env, s, p) && cid !in s.conversations
    ensures var s' := AfterOpen(env, AfterContact(env, s, p, placement, now), p, credential, geSession, cid, place,
                                now);
            SysInv(env, s') && Grows(s, s')
  {
    var met := AfterContact(env, s, p, placement, now);
    assert met.conversations == s.conversations;
    hide SysInv, AfterContact, AfterOpen, Grows;
    ContactKeeps(env, s, p, placement, now);
    OpenKeeps(env, met, p, credential, geSession, cid, place, now);
    GrowsTransitively(s, met, AfterOpen(env, met, p, credential, geSession, cid, place, now));
  }

  lemma TableStepKeeps(env: Env, s: Sys, step: Step)
    requires SysInv(env, s)
    requires step.CreateDraft? || step.PatchDraft? || step.ValidateDraft? || step.SubmitDraft?
    ensures SysInv(env, Next(env, s, step)) && Grows(s, Next(env, s, step))
  {
    hide Inv, Derived, ApprovalsHold, AllPinned, SessionsHold, RevisionsApproved, PublicationsApproved, RegistryGrows,
      Problems;
    DraftStepKeeps(env, s, s.drafts);
    var s' := Next(env, s, step);
    assert AllVetted(env.platform, s'.drafts);
    DraftStepKeeps(env, s, s'.drafts);
  }

  lemma StepKeeps(env: Env, s: Sys, step: Step)
    requires SysInv(env, s) && Possible(env, s, step)
    ensures SysInv(env, Next(env, s, step)) && Grows(s, Next(env, s, step))
  {
    hide SysInv, Grows, AfterContact, AfterOpen, AfterBegin, AfterPutFile, AfterPutManifest, AfterRecord,
      AfterActivate, AfterFinish, AfterTamper, AfterReactivate, Aborted, WithDrafts;
    match step
    case Contact(p, placement, now) => ContactKeeps(env, s, p, placement, now);
    case CreateDraft(_, _, _) => TableStepKeeps(env, s, step);
    case PatchDraft(_, _, _) => TableStepKeeps(env, s, step);
    case ValidateDraft(_) => TableStepKeeps(env, s, step);
    case SubmitDraft(_) => TableStepKeeps(env, s, step);
    case Begin(pid, id, w, scope, activate, note) => BeginKeeps(env, s, pid, id, w, scope, activate, note);
    case PutFile(pid, rel) => PutFileKeeps(env, s, pid, rel);
    case PutManifest(pid) => PutManifestKeeps(env, s, pid);
    case RecordIt(pid, now) => RecordKeeps(env, s, pid, now);
    case ActivateIt(pid, now) => ActivateItKeeps(env, s, pid, now);
    case Finish(pid) => FinishKeeps(env, s, pid);
    case Abort(pid) => AbortKeeps(env, s, pid);
    case Reactivate(w, digest, note, now) => ReactivateKeeps(env, s, w, digest, note, now);
    case Start(p, placement, credential, geSession, cid, place, now) =>
      StartKeeps(env, s, p, placement, credential, geSession, cid, place, now);
    case Tamper(key, content) => TamperKeeps(env, s, key, content);
  }

  lemma GrowsReflexively(s: Sys)
    ensures Grows(s, s)
  {
  }

  lemma {:induction false} RunKeeps(env: Env, s: Sys, steps: seq<Step>)
    requires SysInv(env, s) && PossibleRun(env, s, steps)
    ensures SysInv(env, Run(env, s, steps)) && Grows(s, Run(env, s, steps))
    decreases steps
  {
    hide SysInv, Grows, Next, Possible;
    if steps == [] {
      GrowsReflexively(s);
    } else {
      StepKeeps(env, s, steps[0]);
      RunKeeps(env, Next(env, s, steps[0]), steps[1..]);
      GrowsTransitively(s, Next(env, s, steps[0]), Run(env, s, steps));
    }
  }
}
