/** The steps of a publication, taken one after the other, do what the call `publish` does, and a
    successful `start` is a step; a patch between two steps of a publication can publish something else. */
module PublishSteps {
  import opened Text
  import opened Integrity
  import opened Disk
  import opened Layout
  import opened FlatStorage
  import opened Registry
  import opened Broker
  import opened Drafts
  import opened Materializer
  import opened Sessions
  import opened Pipeline
  import opened Immutability

  /** The loop over the files in the order of `rels`. */
  function PutAll(s: Sys, pid: string, rels: seq<string>): Sys
    decreases rels
  {
    if rels == [] then s else PutAll(AfterPutFile(s, pid, rels[0]), pid, rels[1..])
  }

  function Restricted(files: Files, names: set<string>): Files {
    map k | k in files && k in names :: files[k]
  }

  /** Publication `pid` is in its loop, undisturbed, and its keys pass the guard. */
  ghost predicate Looping(s: Sys, pid: string) {
    && pid in s.publications
    && var pub := s.publications[pid];
       && pub.phase == Writing
       && pub.draftId in s.drafts && s.drafts[pub.draftId].files == pub.approval.files
       && SkillsPass(pub.approval.workspaceId, pub.scope, pub.approval.digest, pub.approval.files)
  }

  ghost predicate OnlyLooped(s: Sys, s': Sys, pid: string, names: set<string>, objects: Objects)
    requires pid in s.publications
  {
    var pub := s.publications[pid];
    s' == s.(objects := objects, publications := s.publications[pid := pub.(done := pub.done + names)])
  }

  lemma PutOne(s: Sys, pid: string, rel: string)
    requires Looping(s, pid) && rel in s.publications[pid].approval.files
    ensures var a := s.publications[pid].approval;
            && OnlyLooped(s, AfterPutFile(s, pid, rel), pid, {rel}, s.objects[FileKey(a, rel) := a.files[rel]])
            && Looping(AfterPutFile(s, pid, rel), pid)
  {
    var a := s.publications[pid].approval;
    assert Guard(a.workspaceId, s.publications[pid].scope, SkillKey(a.workspaceId, a.digest, rel)).Ok?;
  }

  lemma WritesCompose(o: Objects, w: string, digest: string, files: Files, rel: string, names: set<string>)
    requires rel in files
    ensures o[SkillKey(w, digest, rel) := files[rel]] + SkillObjects(w, digest, Restricted(files, names))
            == o + SkillObjects(w, digest, Restricted(files, {rel} + names))
  {
    var one, some, more := Restricted(files, {rel}), Restricted(files, names), Restricted(files, {rel} + names);
    var key := SkillKey(w, digest, rel);
    forall k ensures k in SkillObjects(w, digest, more) <==> k == key || k in SkillObjects(w, digest, some) {
      KeyIn(w, digest, more, k);
      KeyIn(w, digest, some, k);
      SkillObject(w, digest, more, rel);
    }
    forall k | k in SkillObjects(w, digest, more)
      ensures SkillObjects(w, digest, more)[k]
              == if k in SkillObjects(w, digest, some) then SkillObjects(w, digest, some)[k] else files[rel]
    {
      var q :| q in more && k == SkillKey(w, digest, q);
      SkillObject(w, digest, more, q);
      SkillObject(w, digest, some, q);
    }
  }

  lemma KeyIn(w: string, digest: string, files: Files, k: string)
    ensures k in SkillObjects(w, digest, files) <==> exists rel :: rel in files && k == SkillKey(w, digest, rel)
  {
  }

  ghost function Names(rels: seq<string>): set<string> {
    if rels == [] then {} else {rels[0]} + Names(rels[1..])
  }

  lemma LoopedTwice(s: Sys, m: Sys, e: Sys, pid: string, some: set<string>, more: set<string>, o: Objects, o': Objects)
    requires pid in s.publications && OnlyLooped(s, m, pid, some, o) && OnlyLooped(m, e, pid, more, o')
    ensures OnlyLooped(s, e, pid, some + more, o')
    ensures m.objects == o && m.publications[pid].approval == s.publications[pid].approval
  {
    assert s.publications[pid].done + some + more == s.publications[pid].done + (some + more);
  }

  lemma LoopedOnce(s: Sys, m: Sys, pid: string, some: set<string>, o: Objects)
    requires pid in s.publications && OnlyLooped(s, m, pid, some, o)
    ensures pid in m.publications && m.objects == o && m.publications[pid].approval == s.publications[pid].approval
  {
  }

  lemma NothingLooped(s: Sys, pid: string)
    requires pid in s.publications
    ensures var a := s.publications[pid].approval;
            OnlyLooped(s, s, pid, {}, s.objects + SkillObjects(a.workspaceId, a.digest, Restricted(a.files, {})))
  {
    var pub := s.publications[pid];
    assert Restricted(pub.approval.files, {}) == map[];
    NoSkills(pub.approval.workspaceId, pub.approval.digest);
    assert pub.done + {} == pub.done;
    assert s.publications[pid := pub] == s.publications;
  }

  /** The loop writes the skill objects of the files it goes through. */
  lemma {:induction false} PutAllWrites(s: Sys, pid: string, rels: seq<string>)
    requires Looping(s, pid) && forall i :: 0 <= i < |rels| ==> rels[i] in s.publications[pid].approval.files
    ensures var a := s.publications[pid].approval;
            OnlyLooped(s, PutAll(s, pid, rels), pid, Names(rels),
                       s.objects + SkillObjects(a.workspaceId, a.digest, Restricted(a.files, Names(rels))))
    decreases rels
  {
    hide AfterPutFile, OnlyLooped, Restricted, SkillKey;
    if rels == [] {
      NothingLooped(s, pid);
    } else {
      var a, m := s.publications[pid].approval, AfterPutFile(s, pid, rels[0]);
      PutOne(s, pid, rels[0]);
      LoopedOnce(s, m, pid, {rels[0]}, s.objects[FileKey(a, rels[0]) := a.files[rels[0]]]);
      PutAllWrites(m, pid, rels[1..]);
      WritesCompose(s.objects, a.workspaceId, a.digest, a.files, rels[0], Names(rels[1..]));
      LoopedTwice(s, m, PutAll(s, pid, rels), pid, {rels[0]}, Names(rels[1..]),
                  m.objects, m.objects + SkillObjects(a.workspaceId, a.digest, Restricted(a.files, Names(rels[1..]))));
    }
  }

  function WorldAt(s: Sys): World {
    World(s.objects, s.registry, s.drafts)
  }

  /** What follows the loop: revision, activation, status. */
  function Concluded(s: Sys, pid: string, activate: bool, now: int): Sys {
    var recorded := AfterRecord(s, pid, now);
    AfterFinish(if activate then AfterActivate(recorded, pid, now) else recorded, pid)
  }

  ghost function PublishAlone(env: Env, s: Sys, pid: string, id: string, w: string, scope: Option<string>,
                              activate: bool, note: string, now: int,
                              rels: seq<string>): Sys
  {
    var begun := AfterBegin(env, s, pid, id, w, scope, activate, note);
    Concluded(AfterPutManifest(env, PutAll(begun, pid, rels), pid), pid, activate, now)
  }

  /** The publication of `d` as it stands after the loop. */
  ghost predicate IsPublicationOf(env: Env, pub: Publication, id: string, d: Draft, activate: bool, note: string) {
    && ManifestOf(env.platform, d.files).Some?
    && pub.draftId == id && pub.manifest == ManifestOf(env.platform, d.files).value
    && pub.approval == Approval(d.workspaceId, DigestOf(env.platform, d), d.baseDigest, d.files)
    && pub.activate == activate && pub.note == note && pub.phase == Recording
  }

  /** `e` is `s` with the objects written and the publication ready to be recorded. */
  ghost predicate Looped(env: Env, s: Sys, e: Sys, pid: string, objects: Objects)
    requires pid in s.publications
  {
    var pub := s.publications[pid];
    var a := pub.approval;
    e == s.(objects := objects[ManifestKey(a.workspaceId, a.digest) := env.platform.dumps(pub.manifest)],
            publications := s.publications[pid := pub.(done := pub.done + a.files.Keys, phase := Recording)])
  }

  lemma ManifestAfterLoop(env: Env, s: Sys, m: Sys, pid: string, objects: Objects)
    requires Looping(s, pid) && OnlyLooped(s, m, pid, s.publications[pid].approval.files.Keys, objects)
    requires var pub := s.publications[pid];
             Guard(pub.approval.workspaceId, pub.scope, ManifestKey(pub.approval.workspaceId, pub.approval.digest)).Ok?
    ensures Looped(env, s, AfterPutManifest(env, m, pid), pid, objects)
  {
    hide ManifestKey, Guard, SkillsPass;
    var pub := s.publications[pid];
    var looped := pub.(done := pub.done + pub.approval.files.Keys);
    assert m.publications[pid] == looped;
    assert LiveFiles(m, looped) == Some(pub.approval.files);
    UpdatedTwice(s.publications, pid, looped, looped.(phase := Recording));
  }

  lemma UpdatedTwice<V>(m: map<string, V>, k: string, a: V, b: V)
    ensures m[k := a][k := b] == m[k := b]
  {
  }

  lemma LoopAndManifest(env: Env, s: Sys, pid: string, rels: seq<string>)
    requires Looping(s, pid) && forall i :: 0 <= i < |rels| ==> rels[i] in s.publications[pid].approval.files
    requires Names(rels) == s.publications[pid].approval.files.Keys
    requires var pub := s.publications[pid];
             Guard(pub.approval.workspaceId, pub.scope, ManifestKey(pub.approval.workspaceId, pub.approval.digest)).Ok?
    ensures var a := s.publications[pid].approval;
            Looped(env, s, AfterPutManifest(env, PutAll(s, pid, rels), pid), pid,
                   s.objects + SkillObjects(a.workspaceId, a.digest, a.files))
  {
    var a := s.publications[pid].approval;
    hide PutAll, ManifestKey, Guard, Names, OnlyLooped, Looping, Looped, AfterPutManifest;
    PutAllWrites(s, pid, rels);
    AllRestricted(a.files);
    ManifestAfterLoop(env, s, PutAll(s, pid, rels), pid, s.objects + SkillObjects(a.workspaceId, a.digest, a.files));
  }

  lemma AllRestricted(files: Files)
    ensures Restricted(files, files.Keys) == files
  {
  }

  lemma RecordThenActivate(r: State, rev: Revision, note: string, now: int)
    requires RecordRevision(r, rev).Ok?
    ensures Activate(RecordRevision(r, rev).value, rev.workspaceId, rev.contentDigest, note, now).Ok?
  {
  }

  lemma ConcludedIsEntered(env: Env, s: Sys, pid: string, id: string, d: Draft, activate: bool, note: string, now: int)
    requires pid in s.publications && IsPublicationOf(env, s.publications[pid], id, d, activate, note)
    requires id in s.drafts && s.drafts[id] == d
    ensures var e := Concluded(s, pid, activate, now);
            && WorldAt(e) == Entered(env.platform, id, d, activate, note, now, WorldAt(s)).0
            && e.publications == s.publications - {pid}
  {
    hide RecordRevision, Activate, DigestOf, ManifestOf, EnteredGeneration;
    var pub := s.publications[pid];
    var rev := PublishedRevision(env.platform, d, now);
    if RecordRevision(s.registry, rev).Ok? {
      RecordThenActivate(s.registry, rev, note, now);
    }
  }

  lemma CheckedDraft(env: Env, drafts: Table, id: string, w: string)
    requires PublishCheck(env.platform, drafts, id, w).Ok?
    ensures var d := PublishCheck(env.platform, drafts, id, w).value;
            id in drafts && drafts[id] == d && d.workspaceId == w && ManifestOf(env.platform, d.files).Some?
  {
  }

  ghost predicate IsBegun(env: Env, s: Sys, s': Sys, pid: string, id: string, scope: Option<string>, activate: bool,
                          note: string, d: Draft) {
    && pid in s'.publications
    && s'.publications == s.publications[pid := s'.publications[pid]]
    && WorldAt(s') == WorldAt(s)
    && IsPublicationOf(env, s'.publications[pid].(phase := Recording), id, d, activate, note)
    && s'.publications[pid].phase == Writing && s'.publications[pid].scope == scope
  }

  ghost function Begun(env: Env, id: string, scope: Option<string>, activate: bool, note: string, d: Draft): Publication
    requires ManifestOf(env.platform, d.files).Some?
  {
    Publication(id, Approval(d.workspaceId, DigestOf(env.platform, d), d.baseDigest, d.files),
                ManifestOf(env.platform, d.files).value,
                scope, activate, note, {}, Writing)
  }

  lemma BeginsAs(env: Env, s: Sys, pid: string, id: string, w: string, scope: Option<string>, activate: bool,
                 note: string, d: Draft)
    requires PublishCheck(env.platform, s.drafts, id, w) == Ok(d) && d.workspaceId == w
    requires ManifestOf(env.platform, d.files).Some?
    ensures var pub := Begun(env, id, scope, activate, note, d);
            AfterBegin(env, s, pid, id, w, scope, activate, note)
            == Advanced(s, pid, pub).(approved := s.approved + {pub.approval})
  {
    hide DigestOf, PublishCheck, ManifestOf;
  }

  lemma BegunShape(env: Env, s: Sys, pid: string, id: string, w: string, scope: Option<string>, activate: bool,
                   note: string)
    requires PublishCheck(env.platform, s.drafts, id, w).Ok?
    ensures IsBegun(env, s, AfterBegin(env, s, pid, id, w, scope, activate, note), pid, id, scope, activate, note,
                    PublishCheck(env.platform, s.drafts, id, w).value)
  {
    CheckedDraft(env, s.drafts, id, w);
    hide DigestOf, PublishCheck, ManifestOf, AfterBegin, IsBegun;
    BeginsAs(env, s, pid, id, w, scope, activate, note, PublishCheck(env.platform, s.drafts, id, w).value);
    AdvancedIsBegun(env, s, pid, id, scope, activate, note, PublishCheck(env.platform, s.drafts, id, w).value);
  }

  lemma AdvancedIsBegun(env: Env, s: Sys, pid: string, id: string, scope: Option<string>, activate: bool,
                        note: string, d: Draft)
    requires ManifestOf(env.platform, d.files).Some?
    ensures var pub := Begun(env, id, scope, activate, note, d);
            IsBegun(env, s, Advanced(s, pid, pub).(approved := s.approved + {pub.approval}), pid, id, scope, activate,
                    note, d)
  {
    hide DigestOf, ManifestOf;
  }

  lemma BegunIsLooping(env: Env, s: Sys, begun: Sys, pid: string, id: string, scope: Option<string>, activate: bool,
                       note: string, d: Draft)
    requires pid !in s.publications && IsBegun(env, s, begun, pid, id, scope, activate, note, d)
    requires id in s.drafts && s.drafts[id] == d && GuardsPass(d.workspaceId, scope, DigestOf(env.platform, d), d.files)
    ensures Looping(begun, pid) && begun.publications - {pid} == s.publications
  {
    hide SkillsPass, DigestOf, Guard, ManifestOf;
  }

  /** After the loop, the world has the published objects and the publication waits to be recorded. */
  lemma WrittenWorld(env: Env, begun: Sys, e: Sys, pid: string, id: string, d: Draft, activate: bool, note: string)
    requires pid in begun.publications
    requires IsPublicationOf(env, begun.publications[pid].(phase := Recording), id, d, activate, note)
    requires Looped(env, begun, e, pid, begun.objects + SkillObjects(d.workspaceId, DigestOf(env.platform, d), d.files))
    ensures WorldAt(e) == WorldAt(begun).(objects := PublishedObjects(env.platform, begun.objects, d))
    ensures pid in e.publications && IsPublicationOf(env, e.publications[pid], id, d, activate, note)
    ensures e.publications - {pid} == begun.publications - {pid}
  {
    hide ManifestKey, Digest, ManifestOf;
  }

  /** The call's effect when the guard lets every key through. */
  ghost function EnteredAlone(env: Env, s: Sys, id: string, d: Draft, activate: bool, note: string, now: int): (World,
      Result<PublishResult>)
    requires ManifestOf(env.platform, d.files).Some?
  {
    Entered(env.platform, id, d, activate, note, now,
            WorldAt(s).(objects := PublishedObjects(env.platform, s.objects, d)))
  }

  /** A publication whose steps nothing interrupts has the effect of the call `publish`. */
  lemma StepsDoWhatPublishDoes(env: Env, s: Sys, pid: string, id: string, w: string, scope: Option<string>,
                               activate: bool, note: string, now: int,
                               rels: seq<string>)
    requires pid !in s.publications && PublishCheck(env.platform, s.drafts, id, w).Ok?
    requires var d := PublishCheck(env.platform, s.drafts, id, w).value;
             && GuardsPass(w, scope, DigestOf(env.platform, d), d.files)
             && Names(rels) == d.files.Keys && forall i :: 0 <= i < |rels| ==> rels[i] in d.files
    ensures var e := PublishAlone(env, s, pid, id, w, scope, activate, note, now, rels);
            && e.publications == s.publications
            && (exists r ::
                  (WorldAt(e), r) in PublishOutcomes(env.platform, w, scope, id, activate, note, now, WorldAt(s)))
            && var d := PublishCheck(env.platform, s.drafts, id, w).value;
               ManifestOf(env.platform, d.files).Some?
               && WorldAt(e) == EnteredAlone(env, s, id, d, activate, note, now).0
  {
    var d := PublishCheck(env.platform, s.drafts, id, w).value;
    CheckedDraft(env, s.drafts, id, w);
    BegunShape(env, s, pid, id, w, scope, activate, note);
    hide Concluded, AfterPutManifest, PutAll, Names, Entered, DigestOf, SkillsPass, Guard, AfterBegin, Looping, Looped,
      DraftCheck, PublishCheck;
    var begun := AfterBegin(env, s, pid, id, w, scope, activate, note);
    BegunIsLooping(env, s, begun, pid, id, scope, activate, note, d);
    LoopAndManifest(env, begun, pid, rels);
    var written := AfterPutManifest(env, PutAll(begun, pid, rels), pid);
    WrittenWorld(env, begun, written, pid, id, d, activate, note);
    ConcludedIsEntered(env, written, pid, id, d, activate, note, now);
    EnteredIsOutcome(env, s, id, w, scope, activate, note, now, d);
  }

  lemma EnteredIsOutcome(env: Env, s: Sys, id: string, w: string, scope: Option<string>, activate: bool, note: string,
                         now: int, d: Draft)
    requires PublishCheck(env.platform, s.drafts, id, w) == Ok(d)
    requires GuardsPass(w, scope, DigestOf(env.platform, d), d.files)
    ensures var x := Entered(env.platform, id, d, activate, note, now,
                             WorldAt(s).(objects := PublishedObjects(env.platform, s.objects, d)));
            (x.0, x.1) in PublishOutcomes(env.platform, w, scope, id, activate, note, now, WorldAt(s))
  {
    hide Entered, DigestOf, GuardsPass, PublishedObjects;
  }

  /** Recording and activating a revision of a known workspace makes it the active one. */
  lemma EntryActivates(r: State, rev: Revision, note: string, now: int)
    requires Inv(r) && rev.workspaceId in r.workspaces
    ensures Enter(r, rev, true, note, now).Ok?
    ensures var r', w := Enter(r, rev, true, note, now).value, rev.workspaceId;
            && r'.byPrincipal == r.byPrincipal
            && RevisionKey(w, rev.contentDigest) in r'.revisions
            && ResolveActive(r', w) == Ok(Generation(w, |Generations(r, w)| + 1, rev.contentDigest, now, note))
  {
    assert rev.workspaceId in r.generations ==> Numbered(r, rev.workspaceId);
  }

  lemma EnterKeepsPrincipals(r: State, rev: Revision, activate: bool, note: string, now: int)
    requires Enter(r, rev, activate, note, now).Ok?
    ensures Enter(r, rev, activate, note, now).value.byPrincipal == r.byPrincipal
  {
  }

  /** In every reachable state a submitted draft of a known workspace can be published: an uninterrupted
      publication through an adapter of the workspace ends with the draft published, its revision
      registered and its digest active under the next generation number. */
  lemma SubmittedDraftsGetPublished(env: Env, s: Sys, pid: string, id: string, scope: Option<string>, note: string,
                                    now: int, rels: seq<string>)
    requires SysInv(env, s) && pid !in s.publications && id in s.drafts && s.drafts[id].status == Submitted
    requires s.drafts[id].workspaceId in s.registry.workspaces && IsWorkspaceId(s.drafts[id].workspaceId)
    requires scope == None || scope == Some(Prefix(s.drafts[id].workspaceId))
    requires Names(rels) == s.drafts[id].files.Keys && forall i :: 0 <= i < |rels| ==> rels[i] in s.drafts[id].files
    ensures var d := s.drafts[id];
            var w, digest := d.workspaceId, DigestOf(env.platform, d);
            var e := PublishAlone(env, s, pid, id, w, scope, true, note, now, rels);
            && id in e.drafts && e.drafts[id] == d.(status := Published)
            && e.registry.byPrincipal == s.registry.byPrincipal
            && RevisionKey(w, digest) in e.registry.revisions
            && ResolveActive(e.registry, w) == Ok(Generation(w, |Generations(s.registry, w)| + 1, digest, now, note))
  {
    hide SysInv, PublishAlone, Names, PublishCheck, DigestOf, ManifestOf, GuardsPass, AllSafe, PublishedObjects,
      PublishOutcomes, Enter, Inv, IsWorkspaceId, Problems, IsDigestName, Vetted;
    var d := s.drafts[id];
    var w := d.workspaceId;
    InvariantOf(env, s, id);
    SubmittedPasses(env, s.drafts, id);
    DigestNames(env, d);
    BrokerScopeSuffices(w, scope, DigestOf(env.platform, d), d.files);
    StepsDoWhatPublishDoes(env, s, pid, id, w, scope, true, note, now, rels);
    EntryActivates(s.registry, PublishedRevision(env.platform, d, now), note, now);
  }

  lemma InvariantOf(env: Env, s: Sys, id: string)
    requires SysInv(env, s) && id in s.drafts
    ensures Inv(s.registry) && Vetted(env.platform, s.drafts[id])
  {
  }

  lemma SubmittedPasses(env: Env, drafts: Table, id: string)
    requires id in drafts && drafts[id].status == Submitted && Vetted(env.platform, drafts[id])
    ensures PublishCheck(env.platform, drafts, id, drafts[id].workspaceId) == Ok(drafts[id])
    ensures AllSafe(drafts[id].files) && ManifestOf(env.platform, drafts[id].files).Some?
  {
    VettedCanBePublished(env.platform, drafts[id]);
    hide Problems, ManifestOf, AllSafe;
  }

  lemma DigestNames(env: Env, d: Draft)
    ensures IsDigestName(DigestOf(env.platform, d))
  {
    assert DigestOf(env.platform, d)[..64] == DigestOf(env.platform, d);
  }

  // ---------------------------------------------------------------------------
  // A start
  // ---------------------------------------------------------------------------

  /** The place of a start whose adapter lists the revision in the order of `refs` and `again`. */
  ghost function Answering(s: Sys, place: Place, w: string, scope: Option<string>, prefix: string,
                           refs: seq<ObjectRef>, again: seq<ObjectRef>): Place {
    place.(downloads := Answers(s.objects, w, scope, prefix, refs),
           again := Answers(s.objects, w, scope, prefix, again))
  }

  /** What a start makes of the state when its materialization has outcome `o`. */
  ghost function StartedWith(s: Sys, c: Conversation, o: Outcome, place: Place): Sys {
    if o.problem.Some? then s
    else
      var files := FilesBelow(o.tree, SkillsDir(place.root, c.workspaceId, place.session));
      s.(conversations := s.conversations[c.id := c], sessions := s.sessions + [Started(c, place.catalog.Some?, files)])
  }

  /** What `start` does when the revision can be listed is a step in which the store answers what it
      holds: on success the same conversation, and a session with the files of the tree. */
  lemma StartIsAStep(env: Env, s: Sys, p: Principal, credential: Option<Credential>, geSession: string, cid: string,
                     place: Place, now: int, refs: seq<ObjectRef>, again: seq<ObjectRef>)
    requires StartAccess(s.registry, env.broker, p, HomeOf(s.registry, env.derive, p.key), credential, now).Ok?
    ensures var w := HomeOf(s.registry, env.derive, p.key);
            var (gen, scope) := StartAccess(s.registry, env.broker, p, w, credential, now).value;
            var o := Attempt(env.platform.sha, place.disk, place.root, place.catalog, Access(s.objects, w, scope),
                             place.session, gen.contentDigest, refs, again);
            var prefix := ListedPrefix(w, scope, gen.contentDigest);
            && (o.problem == None ==> prefix.Ok?)
            && (prefix.Ok? ==>
                  AfterOpen(env, s, p, credential, geSession, cid,
                            Answering(s, place, w, scope, prefix.value, refs, again), now)
                  == StartedWith(s, Pinned(cid, p, gen, geSession, now), o, place))
  {
    var w := HomeOf(s.registry, env.derive, p.key);
    AccessIsOwn(s.registry, env.broker, p, w, credential, now);
    hide StartAccess, Materialized, ListedPrefix, Answers, HomeOf, FilesBelow;
  }

  // ---------------------------------------------------------------------------
  // The other steps
  // ---------------------------------------------------------------------------

  /** A step that makes a call on the drafts leaves what the call leaves, or nothing if it is refused. */
  ghost predicate StepMakes(s: Sys, after: Sys, r: Result<Table>) {
    after == if r.Ok? then s.(drafts := r.value) else s
  }

  /** The draft steps are the draft calls; a contact is a first contact, a reactivation an activation of the
      registry, and tampering puts any content at any key. */
  lemma StepsAreCalls(env: Env, s: Sys, step: Step)
    ensures step.CreateDraft? ==>
              StepMakes(s, Next(env, s, step), Create(env.platform, s.registry, s.drafts, step.id, step.w, step.base))
    ensures step.PatchDraft? ==>
              StepMakes(s, Next(env, s, step), Patch(s.drafts, step.id, step.path, step.content))
    ensures step.ValidateDraft? ==> StepMakes(s, Next(env, s, step), Validate(env.platform, s.drafts, step.id))
    ensures step.SubmitDraft? ==> StepMakes(s, Next(env, s, step), Submit(s.drafts, step.id))
    ensures step.Contact? ==>
              Next(env, s, step) == s.(registry := Ensure(s.registry, env.derive, step.p, step.placement, step.now))
    ensures step.Reactivate? && RevisionKey(step.w, step.digest) in s.registry.revisions
            && step.w in s.registry.workspaces ==>
              var gens := Generations(s.registry, step.w);
              && Next(env, s, step).registry.generations
                 == s.registry.generations[step.w := gens + [Generation(step.w, NextNumber(gens), step.digest, step.now,
                                                                        step.note)]]
              && Next(env, s, step) == s.(registry := Next(env, s, step).registry)
    ensures step.Tamper? ==>
              && (forall k :: k != step.key ==>
                        (k in Next(env, s, step).objects <==> k in s.objects)
                        && (k in s.objects ==> Next(env, s, step).objects[k] == s.objects[k]))
              && (step.content.Some? ==>
                    step.key in Next(env, s, step).objects
                    && Next(env, s, step).objects[step.key] == step.content.value)
              && (step.content.None? ==> step.key !in Next(env, s, step).objects)
  {
    hide Create, Patch, Validate, Submit, Ensure, AfterOpen, AfterBegin, AfterPutFile, AfterPutManifest, AfterRecord,
      AfterActivate, AfterFinish, Aborted, NextNumber;
  }

  // ---------------------------------------------------------------------------
  // A patch in the middle
  // ---------------------------------------------------------------------------

  /** A publication of a bundle of one file is in its loop, and the draft now holds other content there. */
  ghost predicate Overtaken(s: Sys, pid: string, other: Bytes) {
    && pid in s.publications
    && var pub := s.publications[pid];
       && pub.phase == Writing && pub.scope == None
       && pub.approval.files.Keys == {MANIFEST} && pub.approval.files[MANIFEST] != other
       && pub.draftId in s.drafts && s.drafts[pub.draftId].files == map[MANIFEST := other]
       && IsWorkspaceId(pub.approval.workspaceId) && IsHex64(pub.approval.digest)
  }

  lemma FileKeyPasses(a: Approval, rel: string)
    requires IsWorkspaceId(a.workspaceId) && IsHex64(a.digest) && SafePath(rel)
    ensures Guard(a.workspaceId, None, FileKey(a, rel)).Ok?
  {
    hide Contains, IsWorkspaceId, SafePath;
    assert a.digest[..64] == a.digest;
    SkillKeyPassesTheGuard(a.workspaceId, a.digest, rel);
  }

  lemma PlainNameIsSafe(name: string)
    requires name != "" && name != "." && name != ".." && '/' !in name && '\\' !in name
    ensures SafePath(name)
  {
    SplitNoSep(name, '/');
  }

  lemma ManifestIsSafe()
    ensures SafePath(MANIFEST)
  {
    hide SafePath;
    PlainNameIsSafe(MANIFEST);
  }

  lemma OneFileLeft(s: Sys, pid: string, other: Bytes)
    requires Overtaken(s, pid, other)
    ensures LiveFiles(s, s.publications[pid]) == Some(map[MANIFEST := other])
  {
    var a := s.publications[pid].approval;
    assert |a.files| == |a.files.Keys| == 1;
    assert |map[MANIFEST := other]| == 1;
  }

  lemma OvertakenPut(s: Sys, pid: string, other: Bytes)
    requires Overtaken(s, pid, other)
    ensures var pub := s.publications[pid];
            AfterPutFile(s, pid, MANIFEST)
            == s.(objects := s.objects[FileKey(pub.approval, MANIFEST) := other],
                  publications := s.publications[pid := pub.(done := pub.done + {MANIFEST})])
  {
    OneFileLeft(s, pid, other);
    ManifestIsSafe();
    hide Guard, FileKey, LiveFiles, IsWorkspaceId, IsHex64;
    FileKeyPasses(s.publications[pid].approval, MANIFEST);
  }

  lemma OvertakenManifest(env: Env, s: Sys, pid: string, other: Bytes)
    requires Overtaken(s, pid, other) && MANIFEST in s.publications[pid].done
    ensures var pub := s.publications[pid];
            var key := ManifestKey(pub.approval.workspaceId, pub.approval.digest);
            AfterPutManifest(env, s, pid)
            == s.(objects := s.objects[key := env.platform.dumps(pub.manifest)],
                  publications := s.publications[pid := pub.(phase := Recording)])
  {
    hide Contains, ManifestKey;
    var a := s.publications[pid].approval;
    assert a.digest[..64] == a.digest;
    ManifestKeyPassesTheGuard(a.workspaceId, a.digest);
    assert |a.files| == |a.files.Keys| == 1;
    assert |map[MANIFEST := other]| == 1;
  }

  /** The rest of a publication whose draft was overtaken. */
  ghost function Overrun(env: Env, s: Sys, pid: string, now: int): Sys {
    AfterRecord(AfterPutManifest(env, AfterPutFile(s, pid, MANIFEST), pid), pid, now)
  }

  lemma ManifestKeyDiffers(a: Approval)
    requires IsWorkspaceId(a.workspaceId) && IsHex64(a.digest)
    ensures ManifestKey(a.workspaceId, a.digest) != FileKey(a, MANIFEST)
  {
    IdentifiersAreNames(a.workspaceId);
    UnderOwnPrefix(a, MANIFEST);
    assert '/' !in a.digest;
    assert IsManifest(ManifestKey(a.workspaceId, a.digest));
    ManifestIsNoSkill(a.workspaceId, a.digest, ManifestKey(a.workspaceId, a.digest));
  }

  /** A patch between the check and the write registers a revision that does not hold what was approved:
      without faithful iterations published revisions are not immutable, nor even right. */
  lemma OvertakenRevisionIsWrong(env: Env, s: Sys, pid: string, other: Bytes, now: int)
    requires Overtaken(s, pid, other) && s.publications[pid].approval.workspaceId in s.registry.workspaces
    ensures var a, s' := s.publications[pid].approval, Overrun(env, s, pid, now);
            && Registered(s', a)
            && FileKey(a, MANIFEST) in s'.objects && s'.objects[FileKey(a, MANIFEST)] == other != a.files[MANIFEST]
            && !HoldsExactly(s'.objects, a)
  {
    hide AfterPutFile, AfterPutManifest, FileKey, ManifestKey;
    var pub := s.publications[pid];
    OvertakenPut(s, pid, other);
    var put := AfterPutFile(s, pid, MANIFEST);
    assert put.publications[pid] == pub.(done := pub.done + {MANIFEST});
    OvertakenManifest(env, put, pid, other);
    ManifestKeyDiffers(pub.approval);
  }

  lemma BegunThenPatched(env: Env, s: Sys, pid: string, id: string, d: Draft, other: Bytes)
    requires id in s.drafts && s.drafts[id] == d && IsWorkspaceId(d.workspaceId)
    requires ManifestOf(env.platform, d.files).Some?
    requires d.status == Submitted && d.files.Keys == {MANIFEST} && d.files[MANIFEST] != other
    ensures var begun := Advanced(s, pid, Begun(env, id, None, false, "", d));
            forall s': Sys :: s' == begun.(approved := s'.approved) ==>
                                Overtaken(Next(env, s', PatchDraft(id, MANIFEST, Some(other))), pid, other)
  {
    hide Digest, ManifestOf, IsWorkspaceId;
    PatchedToOne(d, other);
  }

  /** Such a state arises from any submitted bundle of one file: begin to publish it, then patch it. */
  lemma AnyPublicationCanBeOvertaken(env: Env, s: Sys, pid: string, id: string, w: string, other: Bytes)
    requires IsWorkspaceId(w) && PublishCheck(env.platform, s.drafts, id, w).Ok?
    requires var d := PublishCheck(env.platform, s.drafts, id, w).value;
             d.files.Keys == {MANIFEST} && d.files[MANIFEST] != other
    ensures Overtaken(Run(env, s, [Begin(pid, id, w, None, false, ""), PatchDraft(id, MANIFEST, Some(other))]), pid,
                      other)
  {
    hide PublishCheck, AfterBegin, Digest, ManifestOf, Overtaken, Run, WithDrafts, Patch;
    var d := PublishCheck(env.platform, s.drafts, id, w).value;
    CheckedDraft(env, s.drafts, id, w);
    SubmittedDraft(env, s.drafts, id, w);
    BeginsAs(env, s, pid, id, w, None, false, "", d);
    BegunThenPatched(env, s, pid, id, d, other);
    RunTwo(env, s, Begin(pid, id, w, None, false, ""), PatchDraft(id, MANIFEST, Some(other)));
  }

  lemma SubmittedDraft(env: Env, drafts: Table, id: string, w: string)
    requires PublishCheck(env.platform, drafts, id, w).Ok?
    ensures PublishCheck(env.platform, drafts, id, w).value.status == Submitted
  {
  }

  lemma PatchedToOne(d: Draft, other: Bytes)
    requires d.files.Keys == {MANIFEST}
    ensures Patched(d, MANIFEST, Some(other)).files == map[MANIFEST := other]
  {
  }

  lemma RunTwo(env: Env, s: Sys, one: Step, two: Step)
    ensures Run(env, s, [one, two]) == Next(env, Next(env, s, one), two)
  {
    hide Next;
    assert [one, two][1..] == [two];
    assert Run(env, Next(env, s, one), [two]) == Next(env, Next(env, s, one), two);
  }
}
