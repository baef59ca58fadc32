/** Published revisions are immutable: under any interleaving of publications, a registered revision's
    skills prefix holds exactly its files, as long as nobody else writes to the store and each
    iteration of a publication finds the approved content in the draft. */
module Immutability {
  import opened Text
  import opened Integrity
  import opened Layout
  import opened FlatStorage
  import opened Registry
  import opened Drafts
  import opened Broker
  import opened Sessions
  import opened Pipeline

  // ---------------------------------------------------------------------------
  // Undisturbed runs
  // ---------------------------------------------------------------------------

  /** The loop of `publish` writes what the draft holds now. An iteration is faithful if that is what
      was approved. */
  ghost predicate Faithful(s: Sys, pid: string, rel: string) {
    pid in s.publications && LiveFiles(s, s.publications[pid]).Some?
    && rel in LiveFiles(s, s.publications[pid]).value ==>
      var approved := s.publications[pid].approval.files;
      rel in approved && LiveFiles(s, s.publications[pid]).value[rel] == approved[rel]
  }

  /** The control plane alone writes to the store, and it writes what was approved. */
  ghost predicate Undisturbed(s: Sys, step: Step) {
    match step
    case Tamper(_, _) => false
    case PutFile(pid, rel) => Faithful(s, pid, rel)
    case _ => true
  }

  ghost predicate UndisturbedRun(env: Env, s: Sys, steps: seq<Step>)
    decreases steps
  {
    steps == [] || (Undisturbed(s, steps[0]) && UndisturbedRun(env, Next(env, s, steps[0]), steps[1..]))
  }

  function KeyOf(a: Approval): RevisionKey {
    RevisionKey(a.workspaceId, a.digest)
  }

  /** The key stands for one bundle. */
  ghost predicate Unambiguous(approved: set<Approval>, rk: RevisionKey) {
    forall a, b :: a in approved && b in approved && KeyOf(a) == rk == KeyOf(b) ==> a.files == b.files
  }

  /** The skills prefix holds exactly the files: nothing missing, extra or changed. */
  ghost predicate HoldsExactly(o: Objects, a: Approval) {
    && (forall rel :: rel in a.files ==> FileKey(a, rel) in o && o[FileKey(a, rel)] == a.files[rel])
    && (forall k :: k in o && SkillsRoot(a.workspaceId, a.digest) <= k ==>
              exists rel :: rel in a.files && k == FileKey(a, rel))
  }

  // ---------------------------------------------------------------------------
  // Invariant
  // ---------------------------------------------------------------------------

  ghost predicate IsFileOf(o: Objects, k: string, a: Approval, rel: string)
    requires k in o
  {
    rel in a.files && k == FileKey(a, rel) && o[k] == a.files[rel]
  }

  ghost predicate IsSkill(s: Sys, k: string)
    requires k in s.objects
  {
    exists a, rel :: a in s.approved && IsFileOf(s.objects, k, a, rel)
  }

  ghost predicate IsManifest(k: string) {
    exists w: string, digest: string :: '/' !in w && '/' !in digest && k == ManifestKey(w, digest)
  }

  /** Every object is a file of an approved bundle or a manifest copy. */
  ghost predicate Accounted(s: Sys) {
    forall k :: k in s.objects ==> IsSkill(s, k) || IsManifest(k)
  }

  ghost predicate Complete(o: Objects, a: Approval) {
    forall rel :: rel in a.files ==> FileKey(a, rel) in o
  }

  /** What the loop has done was approved and is stored; after the loop that is everything. */
  ghost predicate OnTrack(s: Sys, pub: Publication) {
    && (forall rel :: rel in pub.done ==> rel in pub.approval.files && FileKey(pub.approval, rel) in s.objects)
    && (pub.phase != Writing ==> pub.approval.files.Keys <= pub.done)
  }

  ghost predicate AllOnTrack(s: Sys) {
    forall pid :: pid in s.publications ==> OnTrack(s, s.publications[pid])
  }

  ghost predicate Registered(s: Sys, a: Approval) {
    KeyOf(a) in s.registry.revisions
  }

  ghost predicate RegisteredComplete(s: Sys, rk: RevisionKey) {
    forall a :: a in s.approved && KeyOf(a) == rk && Registered(s, a) ==> Complete(s.objects, a)
  }

  /** The invariant, as far as the revision with key `rk` is concerned. */
  ghost predicate StoreInv(s: Sys, rk: RevisionKey) {
    Accounted(s) && AllOnTrack(s) && RegisteredComplete(s, rk)
  }

  // ---------------------------------------------------------------------------
  // What the invariant means
  // ---------------------------------------------------------------------------

  lemma ApprovedNames(env: Env, s: Sys, a: Approval)
    requires ApprovalsHold(env, s.approved) && a in s.approved
    ensures '/' !in a.workspaceId && '/' !in a.digest
  {
    IdentifiersAreNames(a.workspaceId);
    assert IsHex64(a.digest);
  }

  /** No manifest copy lies under a skills prefix. */
  lemma ManifestIsNoSkill(w: string, digest: string, k: string)
    requires '/' !in w && '/' !in digest && IsManifest(k)
    ensures !(SkillsRoot(w, digest) <= k)
  {
    var w', digest' :| '/' !in w' && '/' !in digest' && k == ManifestKey(w', digest');
    assert "skills/"[0] != "manifest.json"[0];
    if SkillsRoot(w, digest) <= k {
      SkillsPrefixUnique(w, digest, w', digest', "manifest.json");
    }
  }

  lemma FileKeyShape(a: Approval, rel: string)
    ensures FileKey(a, rel) == RevisionRoot(a.workspaceId, a.digest) + ("skills/" + rel)
  {
    ConcatAssoc(RevisionRoot(a.workspaceId, a.digest), "skills/", rel);
  }

  lemma SkillUnderPrefix(env: Env, s: Sys, a: Approval, k: string)
    requires ApprovalsHold(env, s.approved) && Unambiguous(s.approved, KeyOf(a)) && a in s.approved
    requires k in s.objects && IsSkill(s, k) && SkillsRoot(a.workspaceId, a.digest) <= k
    ensures exists rel :: IsFileOf(s.objects, k, a, rel)
  {
    var b, rel :| b in s.approved && IsFileOf(s.objects, k, b, rel);
    ApprovedNames(env, s, a);
    ApprovedNames(env, s, b);
    FileKeyShape(b, rel);
    SkillsPrefixUnique(a.workspaceId, a.digest, b.workspaceId, b.digest, "skills/" + rel);
    assert IsFileOf(s.objects, k, a, rel);
  }

  lemma FileKeysDiffer(a: Approval, p: string, q: string)
    requires FileKey(a, p) == FileKey(a, q)
    ensures p == q
  {
    SkillKeysDiffer(a.workspaceId, a.digest, p, q);
  }

  lemma UnderOwnPrefix(a: Approval, rel: string)
    ensures SkillsRoot(a.workspaceId, a.digest) <= FileKey(a, rel)
  {
  }

  lemma StoredFile(env: Env, s: Sys, a: Approval, k: string)
    requires ApprovalsHold(env, s.approved) && Unambiguous(s.approved, KeyOf(a)) && Accounted(s) && a in s.approved
    requires k in s.objects && SkillsRoot(a.workspaceId, a.digest) <= k
    ensures exists rel :: IsFileOf(s.objects, k, a, rel)
  {
    ApprovedNames(env, s, a);
    if IsManifest(k) {
      ManifestIsNoSkill(a.workspaceId, a.digest, k);
    }
    SkillUnderPrefix(env, s, a, k);
  }

  /** Whatever is stored under an approved bundle's prefix is one of its files. */
  lemma StoredContent(env: Env, s: Sys, a: Approval, rel: string)
    requires ApprovalsHold(env, s.approved) && Unambiguous(s.approved, KeyOf(a)) && Accounted(s) && a in s.approved
    requires FileKey(a, rel) in s.objects
    ensures rel in a.files && s.objects[FileKey(a, rel)] == a.files[rel]
  {
    UnderOwnPrefix(a, rel);
    StoredFile(env, s, a, FileKey(a, rel));
    var q :| IsFileOf(s.objects, FileKey(a, rel), a, q);
    FileKeysDiffer(a, rel, q);
  }

  lemma RegisteredExactly(env: Env, s: Sys, a: Approval)
    requires ApprovalsHold(env, s.approved) && Unambiguous(s.approved, KeyOf(a)) && StoreInv(s, KeyOf(a))
    requires a in s.approved && Registered(s, a)
    ensures HoldsExactly(s.objects, a)
  {
    hide ApprovalsHold, Unambiguous, AllOnTrack, SkillsRoot, SkillKey;
    forall rel | rel in a.files ensures FileKey(a, rel) in s.objects && s.objects[FileKey(a, rel)] == a.files[rel] {
      StoredContent(env, s, a, rel);
    }
    forall k | k in s.objects && SkillsRoot(a.workspaceId, a.digest) <= k
      ensures exists rel :: rel in a.files && k == FileKey(a, rel)
    {
      StoredFile(env, s, a, k);
      var rel :| IsFileOf(s.objects, k, a, rel);
    }
  }

  // ---------------------------------------------------------------------------
  // Undisturbed steps keep the invariant
  // ---------------------------------------------------------------------------

  lemma StillAccounted(s: Sys, s': Sys)
    requires Accounted(s) && s'.objects == s.objects && s.approved <= s'.approved
    ensures Accounted(s')
  {
    forall k | k in s'.objects ensures IsSkill(s', k) || IsManifest(k) {
      if IsSkill(s, k) {
        var a, rel :| a in s.approved && IsFileOf(s.objects, k, a, rel);
        assert a in s'.approved;
      }
    }
  }

  /** A step that leaves store, approvals and revisions alone. */
  lemma SameStore(s: Sys, s': Sys, rk: RevisionKey)
    requires StoreInv(s, rk) && AllOnTrack(s')
    requires s'.objects == s.objects && s'.approved == s.approved && s'.registry.revisions == s.registry.revisions
    ensures StoreInv(s', rk)
  {
    hide AllOnTrack, Complete;
    StillAccounted(s, s');
  }

  lemma DraftsStep(s: Sys, drafts: Table, rk: RevisionKey)
    requires StoreInv(s, rk)
    ensures StoreInv(s.(drafts := drafts), rk)
  {
    hide Complete, Accounted, RegisteredComplete, AllOnTrack;
    TrackAdvanced(s, s.(drafts := drafts));
    SameStore(s, s.(drafts := drafts), rk);
  }

  lemma TableStep(env: Env, s: Sys, step: Step, rk: RevisionKey)
    requires StoreInv(s, rk)
    requires step.CreateDraft? || step.PatchDraft? || step.ValidateDraft? || step.SubmitDraft?
    ensures StoreInv(Next(env, s, step), rk)
  {
    hide StoreInv, Problems, Create, Patch, Validate, Submit;
    var s' := Next(env, s, step);
    assert s' == s.(drafts := s'.drafts);
    DraftsStep(s, s'.drafts, rk);
  }

  lemma SameBundle(o: Objects, a: Approval, b: Approval)
    requires a.workspaceId == b.workspaceId && a.digest == b.digest && a.files == b.files
    ensures Complete(o, a) <==> Complete(o, b)
  {
    assert forall rel :: FileKey(a, rel) == FileKey(b, rel);
  }

  /** Approving a bundle that is registered already finds it complete. */
  lemma ApprovedAgain(s: Sys, approved: set<Approval>, a: Approval)
    requires RevisionsApproved(s) && RegisteredComplete(s, KeyOf(a)) && s.approved <= approved
    requires Unambiguous(approved, KeyOf(a)) && a in approved
    requires Registered(s, a)
    ensures Complete(s.objects, a)
  {
    hide Complete;
    assert IsApproved(s, a.workspaceId, a.digest);
    var b :| b in s.approved && b.workspaceId == a.workspaceId && b.digest == a.digest;
    assert Registered(s, b);
    SameBundle(s.objects, a, b);
  }

  lemma BeginStep(env: Env, s: Sys, pid: string, id: string, w: string, scope: Option<string>, activate: bool,
                  note: string, rk: RevisionKey)
    requires StoreInv(s, rk) && RevisionsApproved(s)
    requires Unambiguous(AfterBegin(env, s, pid, id, w, scope, activate, note).approved, rk)
    ensures StoreInv(AfterBegin(env, s, pid, id, w, scope, activate, note), rk)
  {
    hide Accounted, Unambiguous, RevisionsApproved, Publishable, Complete, Registered, FileKey, ManifestOf, DigestOf;
    var s' := AfterBegin(env, s, pid, id, w, scope, activate, note);
    StillAccounted(s, s');
    forall p | p in s'.publications ensures OnTrack(s', s'.publications[p]) {
      assert p in s.publications ==> OnTrack(s, s.publications[p]);
    }
    forall a | a in s'.approved && KeyOf(a) == rk && Registered(s', a) ensures Complete(s'.objects, a) {
      SameRevisions(s, s', a);
      ApprovedAgain(s, s'.approved, a);
    }
  }

  lemma SameRevisions(s: Sys, s': Sys, a: Approval)
    requires s'.registry.revisions == s.registry.revisions
    ensures Registered(s', a) <==> Registered(s, a)
  {
  }

  lemma StillTracked(s: Sys, s': Sys, pub: Publication)
    requires OnTrack(s, pub) && s.objects.Keys <= s'.objects.Keys
    ensures OnTrack(s', pub)
  {
    forall rel | rel in pub.done ensures FileKey(pub.approval, rel) in s'.objects {
      assert FileKey(pub.approval, rel) in s.objects;
    }
  }

  /** A write of `data` at `key` in the course of publication `pid`. */
  ghost predicate IsWrite(s: Sys, s': Sys, pid: string, key: string, data: Bytes) {
    && pid in s.publications && pid in s'.publications
    && s' == s.(objects := s.objects[key := data], publications := s.publications[pid := s'.publications[pid]])
    && OnTrack(s', s'.publications[pid])
  }

  lemma WriteKeepsRest(s: Sys, s': Sys, pid: string, key: string, data: Bytes, rk: RevisionKey)
    requires StoreInv(s, rk) && IsWrite(s, s', pid, key, data)
    ensures AllOnTrack(s') && RegisteredComplete(s', rk)
  {
    hide Accounted, OnTrack;
    assert s.objects.Keys <= s'.objects.Keys;
    forall p | p in s'.publications ensures OnTrack(s', s'.publications[p]) {
      if p != pid {
        StillTracked(s, s', s.publications[p]);
      }
    }
    forall a | a in s'.approved && KeyOf(a) == rk && Registered(s', a) ensures Complete(s'.objects, a) {
      SameRevisions(s, s', a);
      assert Complete(s.objects, a);
    }
  }

  lemma WriteAccounted(s: Sys, s': Sys, key: string, data: Bytes)
    requires Accounted(s) && s'.objects == s.objects[key := data] && s'.approved == s.approved
    requires IsManifest(key) || exists a, rel :: a in s.approved && IsFileOf(s'.objects, key, a, rel)
    ensures Accounted(s')
  {
    forall k | k in s'.objects ensures IsSkill(s', k) || IsManifest(k) {
      if k != key && IsSkill(s, k) {
        var a, rel :| a in s.approved && IsFileOf(s.objects, k, a, rel);
        assert IsFileOf(s'.objects, k, a, rel);
      }
    }
  }

  ghost predicate Skips(s: Sys, s': Sys, pid: string) {
    s' == s || s' == Aborted(s, pid)
  }

  lemma SkipKeeps(s: Sys, s': Sys, pid: string, rk: RevisionKey)
    requires StoreInv(s, rk) && Skips(s, s', pid)
    ensures StoreInv(s', rk)
  {
    hide Accounted, RegisteredComplete;
    forall p | p in s'.publications ensures OnTrack(s', s'.publications[p]) {
      assert OnTrack(s, s.publications[p]);
    }
    SameStore(s, s', rk);
  }

  lemma PutFileIsWrite(s: Sys, pid: string, rel: string)
    requires AllOnTrack(s) && Faithful(s, pid, rel)
    ensures var s' := AfterPutFile(s, pid, rel);
            Skips(s, s', pid)
            || (&& pid in s.publications && rel in s.publications[pid].approval.files
                && IsWrite(s, s', pid, FileKey(s.publications[pid].approval, rel),
                           s.publications[pid].approval.files[rel]))
  {
    var s' := AfterPutFile(s, pid, rel);
    if pid in s.publications && s.publications[pid].phase == Writing {
      var pub := s.publications[pid];
      assert OnTrack(s, pub);
      if s' != Aborted(s, pid) && rel in pub.approval.files {
        StillTracked(s, s', pub);
      }
    }
  }

  lemma PutFileStep(s: Sys, pid: string, rel: string, rk: RevisionKey)
    requires StoreInv(s, rk) && PublicationsApproved(s) && Faithful(s, pid, rel)
    ensures StoreInv(AfterPutFile(s, pid, rel), rk)
  {
    hide AfterPutFile, FileKey, Accounted, AllOnTrack, RegisteredComplete, OnTrack, Faithful;
    var s' := AfterPutFile(s, pid, rel);
    PutFileIsWrite(s, pid, rel);
    if Skips(s, s', pid) {
      SkipKeeps(s, s', pid, rk);
    } else {
      var a := s.publications[pid].approval;
      WriteKeepsRest(s, s', pid, FileKey(a, rel), a.files[rel], rk);
      assert IsFileOf(s'.objects, FileKey(a, rel), a, rel);
      WriteAccounted(s, s', FileKey(a, rel), a.files[rel]);
    }
  }

  lemma SameSizeSubset(a: set<string>, b: set<string>)
    requires a <= b && |a| == |b|
    ensures a == b
  {
    assert b == a + (b - a);
  }

  /** The loop is over when everything the draft holds is done; then that is everything approved. */
  lemma LoopIsOver(s: Sys, pub: Publication)
    requires OnTrack(s, pub) && LiveFiles(s, pub).Some? && LiveFiles(s, pub).value.Keys <= pub.done
    ensures pub.approval.files.Keys <= pub.done
  {
    var live := LiveFiles(s, pub).value;
    assert pub.done <= pub.approval.files.Keys;
    SameSizeSubset(live.Keys, pub.approval.files.Keys);
  }

  lemma PutManifestIsWrite(env: Env, s: Sys, pid: string)
    requires AllOnTrack(s)
    ensures var s' := AfterPutManifest(env, s, pid);
            Skips(s, s', pid)
            || (&& pid in s.publications
                && IsWrite(s, s', pid,
                           ManifestKey(s.publications[pid].approval.workspaceId, s.publications[pid].approval.digest),
                           env.platform.dumps(s.publications[pid].manifest)))
  {
    var s' := AfterPutManifest(env, s, pid);
    if pid in s.publications && s.publications[pid].phase == Writing {
      var pub := s.publications[pid];
      assert OnTrack(s, pub);
      if s' != Aborted(s, pid) && s' != s {
        LoopIsOver(s, pub);
        StillTracked(s, s', pub);
      }
    }
  }

  lemma PutManifestStep(env: Env, s: Sys, pid: string, rk: RevisionKey)
    requires StoreInv(s, rk) && PublicationsApproved(s) && ApprovalsHold(env, s.approved)
    ensures StoreInv(AfterPutManifest(env, s, pid), rk)
  {
    hide AfterPutManifest, Accounted, AllOnTrack, RegisteredComplete, OnTrack, ApprovalsHold, ManifestKey;
    var s' := AfterPutManifest(env, s, pid);
    PutManifestIsWrite(env, s, pid);
    if Skips(s, s', pid) {
      SkipKeeps(s, s', pid, rk);
    } else {
      var a := s.publications[pid].approval;
      var key, data := ManifestKey(a.workspaceId, a.digest), env.platform.dumps(s.publications[pid].manifest);
      WriteKeepsRest(s, s', pid, key, data, rk);
      ApprovedNames(env, s, a);
      assert IsManifest(key);
      WriteAccounted(s, s', key, data);
    }
  }

  lemma TrackAdvanced(s: Sys, s': Sys)
    requires AllOnTrack(s) && s'.objects == s.objects
    requires forall pid :: pid in s'.publications ==>
               && pid in s.publications
               && s'.publications[pid].(phase := s.publications[pid].phase) == s.publications[pid]
               && (s.publications[pid].phase == Writing ==> s'.publications[pid].phase == Writing)
    ensures AllOnTrack(s')
  {
    forall pid | pid in s'.publications ensures OnTrack(s', s'.publications[pid]) {
      assert OnTrack(s, s.publications[pid]);
    }
  }

  lemma RecordedComplete(s: Sys, s': Sys, pid: string, a: Approval)
    requires StoreInv(s, KeyOf(a)) && PublicationsApproved(s) && Unambiguous(s.approved, KeyOf(a))
    requires pid in s.publications && s.publications[pid].phase != Writing
    requires a in s.approved && a.workspaceId == s.publications[pid].approval.workspaceId
    requires a.digest == s.publications[pid].approval.digest
    ensures Complete(s.objects, a)
  {
    hide Accounted, RegisteredComplete, FileKey;
    var b := s.publications[pid].approval;
    assert OnTrack(s, s.publications[pid]);
    assert Complete(s.objects, b);
    SameBundle(s.objects, a, b);
  }

  lemma RecordTracked(s: Sys, pid: string, now: int)
    requires AllOnTrack(s)
    ensures AllOnTrack(AfterRecord(s, pid, now))
  {
    hide AllOnTrack, RecordRevision;
    TrackAdvanced(s, AfterRecord(s, pid, now));
  }

  lemma RecordStep(s: Sys, pid: string, now: int, rk: RevisionKey)
    requires StoreInv(s, rk) && PublicationsApproved(s) && Unambiguous(s.approved, rk)
    ensures StoreInv(AfterRecord(s, pid, now), rk)
  {
    hide Accounted, AllOnTrack, Complete, PublicationsApproved, Unambiguous, Generations, OnTrack, FileKey;
    var s' := AfterRecord(s, pid, now);
    StillAccounted(s, s');
    RecordTracked(s, pid, now);
    forall a | a in s'.approved && KeyOf(a) == rk && Registered(s', a) ensures Complete(s'.objects, a) {
      if !Registered(s, a) {
        RecordedComplete(s, s', pid, a);
      }
    }
  }

  lemma ActivateItStep(s: Sys, pid: string, now: int, rk: RevisionKey)
    requires StoreInv(s, rk)
    ensures StoreInv(AfterActivate(s, pid, now), rk)
  {
    hide Accounted, AllOnTrack, RegisteredComplete;
    TrackAdvanced(s, AfterActivate(s, pid, now));
    SameStore(s, AfterActivate(s, pid, now), rk);
  }

  lemma ReactivateStep(s: Sys, w: string, digest: string, note: string, now: int, rk: RevisionKey)
    requires StoreInv(s, rk)
    ensures StoreInv(AfterReactivate(s, w, digest, note, now), rk)
  {
    hide Accounted, AllOnTrack, RegisteredComplete;
    TrackAdvanced(s, AfterReactivate(s, w, digest, note, now));
    SameStore(s, AfterReactivate(s, w, digest, note, now), rk);
  }

  lemma ContactStep(env: Env, s: Sys, p: Principal, placement: Placement, now: int, rk: RevisionKey)
    requires StoreInv(s, rk)
    ensures StoreInv(AfterContact(env, s, p, placement, now), rk)
  {
    hide Accounted, AllOnTrack, RegisteredComplete;
    TrackAdvanced(s, AfterContact(env, s, p, placement, now));
    SameStore(s, AfterContact(env, s, p, placement, now), rk);
  }

  lemma OpenStep(env: Env, s: Sys, p: Principal, credential: Option<Credential>, geSession: string, cid: string,
                 place: Place, now: int, rk: RevisionKey)
    requires StoreInv(s, rk)
    ensures StoreInv(AfterOpen(env, s, p, credential, geSession, cid, place, now), rk)
  {
    hide Accounted, AllOnTrack, RegisteredComplete, StartAccess, Pinned;
    var s' := AfterOpen(env, s, p, credential, geSession, cid, place, now);
    TrackAdvanced(s, s');
    SameStore(s, s', rk);
  }

  lemma FinishStep(s: Sys, pid: string, rk: RevisionKey)
    requires StoreInv(s, rk)
    ensures StoreInv(AfterFinish(s, pid), rk)
  {
    hide Accounted, RegisteredComplete;
    var s' := AfterFinish(s, pid);
    forall p | p in s'.publications ensures OnTrack(s', s'.publications[p]) {
      assert OnTrack(s, s.publications[p]);
    }
    SameStore(s, s', rk);
  }

  lemma StepKeepsStore(env: Env, s: Sys, step: Step, rk: RevisionKey)
    requires SysInv(env, s) && StoreInv(s, rk) && Possible(env, s, step) && Undisturbed(s, step)
    requires Unambiguous(Next(env, s, step).approved, rk) && Unambiguous(s.approved, rk)
    ensures StoreInv(Next(env, s, step), rk)
  {
    hide StoreInv, Inv, Derived, AllVetted, ApprovalsHold, PublicationsApproved, RevisionsApproved, AllPinned,
      SessionsHold, Faithful;
    hide Unambiguous, AfterContact, AfterOpen, AfterBegin, AfterPutFile, AfterPutManifest, AfterRecord, AfterActivate,
      AfterFinish, AfterReactivate;
    match step
    case Contact(p, placement, now) => ContactStep(env, s, p, placement, now, rk);
    case CreateDraft(_, _, _) => TableStep(env, s, step, rk);
    case PatchDraft(_, _, _) => TableStep(env, s, step, rk);
    case ValidateDraft(_) => TableStep(env, s, step, rk);
    case SubmitDraft(_) => TableStep(env, s, step, rk);
    case Begin(pid, id, w, scope, activate, note) => BeginStep(env, s, pid, id, w, scope, activate, note, rk);
    case PutFile(pid, rel) => PutFileStep(s, pid, rel, rk);
    case PutManifest(pid) => PutManifestStep(env, s, pid, rk);
    case RecordIt(pid, now) => RecordStep(s, pid, now, rk);
    case ActivateIt(pid, now) => ActivateItStep(s, pid, now, rk);
    case Finish(pid) => FinishStep(s, pid, rk);
    case Abort(pid) => SkipKeeps(s, Aborted(s, pid), pid, rk);
    case Reactivate(w, digest, note, now) => ReactivateStep(s, w, digest, note, now, rk);
    case Start(p, placement, credential, geSession, cid, place, now) =>
      ContactStep(env, s, p, placement, now, rk);
      OpenStep(env, AfterContact(env, s, p, placement, now), p, credential, geSession, cid, place, now, rk);
  }

  lemma UnambiguousBelow(small: set<Approval>, big: set<Approval>, rk: RevisionKey)
    requires small <= big && Unambiguous(big, rk)
    ensures Unambiguous(small, rk)
  {
  }

  lemma {:induction false} RunKeepsStore(env: Env, s: Sys, steps: seq<Step>, rk: RevisionKey)
    requires SysInv(env, s) && StoreInv(s, rk) && PossibleRun(env, s, steps) && UndisturbedRun(env, s, steps)
    requires Unambiguous(Run(env, s, steps).approved, rk)
    ensures StoreInv(Run(env, s, steps), rk)
    decreases steps
  {
    hide SysInv, StoreInv, Next, Possible, Undisturbed, Unambiguous;
    RunKeeps(env, s, steps);
    if steps != [] {
      var next := Next(env, s, steps[0]);
      StepKeeps(env, s, steps[0]);
      RunKeeps(env, next, steps[1..]);
      UnambiguousBelow(next.approved, Run(env, s, steps).approved, rk);
      UnambiguousBelow(s.approved, Run(env, s, steps).approved, rk);
      StepKeepsStore(env, s, steps[0], rk);
      RunKeepsStore(env, next, steps[1..], rk);
    }
  }

  // ---------------------------------------------------------------------------
  // Immutability
  // ---------------------------------------------------------------------------

  /** No bundle approved under the key has a path that spells a line of the digest encoding, and
      SHA-256 collides on no two of them. */
  ghost predicate Distinguishable(env: Env, approved: set<Approval>, rk: RevisionKey) {
    && (forall a :: a in approved && KeyOf(a) == rk ==> AllSeparatorFree(a.files))
    && (forall a, b :: a in approved && b in approved && KeyOf(a) == rk == KeyOf(b) ==>
          !Collide(env.platform.sha, a.files, b.files))
  }

  lemma DistinguishableIsUnambiguous(env: Env, approved: set<Approval>, rk: RevisionKey)
    requires ApprovalsHold(env, approved) && Distinguishable(env, approved, rk)
    ensures Unambiguous(approved, rk)
  {
    hide Digest, AllSeparatorFree, Collide, Problems;
    forall a, b | a in approved && b in approved && KeyOf(a) == rk == KeyOf(b) ensures a.files == b.files {
      DigestInjective(env.platform.sha, a.files, b.files);
    }
  }

  /** After every undisturbed run, the skills prefix of a registered revision holds exactly its files,
      if the bundles approved under its key can be told apart. */
  lemma RegisteredRevisionsAreExact(env: Env, steps: seq<Step>, a: Approval)
    requires PossibleRun(env, INITIAL, steps) && UndisturbedRun(env, INITIAL, steps)
    requires a in Run(env, INITIAL, steps).approved && Registered(Run(env, INITIAL, steps), a)
    requires Distinguishable(env, Run(env, INITIAL, steps).approved, KeyOf(a))
    ensures HoldsExactly(Run(env, INITIAL, steps).objects, a)
  {
    hide Run, PossibleRun, UndisturbedRun, HoldsExactly, Unambiguous, Inv, Derived, AllVetted, AllPinned, SessionsHold,
      Distinguishable, ApprovalsHold, Registered;
    InitialInv(env);
    RunKeeps(env, INITIAL, steps);
    var s := Run(env, INITIAL, steps);
    DistinguishableIsUnambiguous(env, s.approved, KeyOf(a));
    RunKeepsStore(env, INITIAL, steps, KeyOf(a));
    RegisteredExactly(env, s, a);
  }

  lemma RewritingChangesNothing(o: Objects, a: Approval, rel: string)
    requires HoldsExactly(o, a) && rel in a.files
    ensures o[FileKey(a, rel) := a.files[rel]] == o
  {
  }

  /** Publishing content again that is registered already changes no stored byte of it. */
  lemma RepublishingChangesNoFile(env: Env, s: Sys, pid: string, rel: string)
    requires pid in s.publications && Registered(s, s.publications[pid].approval) && Faithful(s, pid, rel)
    requires SysInv(env, s) && StoreInv(s, KeyOf(s.publications[pid].approval))
    requires Distinguishable(env, s.approved, KeyOf(s.publications[pid].approval))
    ensures AfterPutFile(s, pid, rel).objects == s.objects
  {
    hide AfterPutFile, Inv, Derived, AllVetted, AllPinned, SessionsHold, Unambiguous, RevisionsApproved, IsWrite,
      HoldsExactly, FileKey, Faithful, Distinguishable, ApprovalsHold, Accounted, AllOnTrack, RegisteredComplete;
    DistinguishableIsUnambiguous(env, s.approved, KeyOf(s.publications[pid].approval));
    PutFileIsWrite(s, pid, rel);
    var s' := AfterPutFile(s, pid, rel);
    var a := s.publications[pid].approval;
    if !Skips(s, s', pid) {
      RegisteredExactly(env, s, a);
      WriteObjects(s, s', pid, FileKey(a, rel), a.files[rel]);
      RewritingChangesNothing(s.objects, a, rel);
    }
  }

  lemma WriteObjects(s: Sys, s': Sys, pid: string, key: string, data: Bytes)
    requires IsWrite(s, s', pid, key, data)
    ensures s'.objects == s.objects[key := data]
  {
  }

  // ---------------------------------------------------------------------------
  // When iterations are faithful
  // ---------------------------------------------------------------------------

  ghost predicate InFlight(s: Sys, id: string) {
    exists pid :: pid in s.publications && s.publications[pid].draftId == id
  }

  /** Every draft in flight still has the files that were approved. */
  ghost predicate Unpatched(s: Sys) {
    forall pid :: pid in s.publications ==>
      var pub := s.publications[pid];
      pub.draftId in s.drafts && s.drafts[pub.draftId].files == pub.approval.files
  }

  /** Nobody else writes to the store, and no draft is patched while it is published. */
  ghost predicate QuietRun(env: Env, s: Sys, steps: seq<Step>)
    decreases steps
  {
    steps != [] ==>
      && !steps[0].Tamper?
      && (steps[0].PatchDraft? ==> !InFlight(s, steps[0].id))
      && QuietRun(env, Next(env, s, steps[0]), steps[1..])
  }

  /** Publications in flight and their approvals stay, and the files of their drafts with them. */
  ghost predicate Preserves(s: Sys, s': Sys) {
    && (forall pid :: pid in s'.publications ==>
          && pid in s.publications && s'.publications[pid].draftId == s.publications[pid].draftId
          && s'.publications[pid].approval == s.publications[pid].approval)
    && (forall id :: id in s.drafts && InFlight(s, id) ==> id in s'.drafts && s'.drafts[id].files == s.drafts[id].files)
  }

  lemma PreservedUnpatched(s: Sys, s': Sys)
    requires Unpatched(s) && Preserves(s, s')
    ensures Unpatched(s')
  {
    forall pid | pid in s'.publications
      ensures s'.publications[pid].draftId in s'.drafts
      ensures s'.drafts[s'.publications[pid].draftId].files == s'.publications[pid].approval.files
    {
      assert InFlight(s, s.publications[pid].draftId);
    }
  }

  lemma BeginUnpatched(env: Env, s: Sys, pid: string, id: string, w: string, scope: Option<string>, activate: bool,
                       note: string)
    requires Unpatched(s)
    ensures Unpatched(AfterBegin(env, s, pid, id, w, scope, activate, note))
  {
    hide Publishable, ManifestOf, DigestOf;
  }

  lemma TablePreserves(env: Env, s: Sys, step: Step)
    requires Unpatched(s) && Possible(env, s, step) && (step.PatchDraft? ==> !InFlight(s, step.id))
    requires step.CreateDraft? || step.PatchDraft? || step.ValidateDraft? || step.SubmitDraft?
    ensures Preserves(s, Next(env, s, step))
  {
    hide Problems, OwnId, AfterBegin, AfterContact, AfterOpen, AfterPutFile, AfterPutManifest, AfterRecord,
      AfterActivate, AfterFinish, AfterReactivate, AfterTamper, Aborted, Unpatched, Seeded, InFlight;
  }

  /** The step leaves the drafts alone, and ends publication `pid` or moves it on. */
  ghost predicate MovesOn(s: Sys, s': Sys, pid: string) {
    && s'.drafts == s.drafts
    && (|| s'.publications == s.publications
        || s'.publications == s.publications - {pid}
        || (pid in s.publications && pid in s'.publications
            && s'.publications == s.publications[pid := s'.publications[pid]]
            && s'.publications[pid].draftId == s.publications[pid].draftId
            && s'.publications[pid].approval == s.publications[pid].approval))
  }

  lemma MovingOnPreserves(s: Sys, s': Sys, pid: string)
    requires MovesOn(s, s', pid)
    ensures Preserves(s, s')
  {
    hide InFlight;
  }

  lemma PutFilePreserves(s: Sys, pid: string, rel: string)
    ensures Preserves(s, AfterPutFile(s, pid, rel))
  {
    hide Preserves, SkillKey, Guard, FileKey, LiveFiles;
    MovingOnPreserves(s, AfterPutFile(s, pid, rel), pid);
  }

  lemma PutManifestMovesOn(env: Env, s: Sys, pid: string)
    ensures MovesOn(s, AfterPutManifest(env, s, pid), pid)
  {
    hide ManifestKey, Guard, LiveFiles;
    var s' := AfterPutManifest(env, s, pid);
    if s' != s && s' != Aborted(s, pid) {
      assert s'.publications == s.publications[pid := s.publications[pid].(phase := Recording)];
    }
  }

  lemma PutManifestPreserves(env: Env, s: Sys, pid: string)
    ensures Preserves(s, AfterPutManifest(env, s, pid))
  {
    hide Preserves, MovesOn, ManifestKey, Guard, LiveFiles;
    PutManifestMovesOn(env, s, pid);
    MovingOnPreserves(s, AfterPutManifest(env, s, pid), pid);
  }

  lemma EntryPreserves(s: Sys, pid: string, now: int)
    ensures Preserves(s, AfterRecord(s, pid, now)) && Preserves(s, AfterActivate(s, pid, now))
    ensures Preserves(s, Aborted(s, pid))
  {
    hide Preserves, RecordRevision, Activate;
    MovingOnPreserves(s, AfterRecord(s, pid, now), pid);
    MovingOnPreserves(s, AfterActivate(s, pid, now), pid);
    MovingOnPreserves(s, Aborted(s, pid), pid);
  }

  lemma FinishPreserves(s: Sys, pid: string)
    ensures Preserves(s, AfterFinish(s, pid))
  {
    hide InFlight;
  }

  lemma OtherPreserves(env: Env, s: Sys, step: Step)
    requires step.Start? || step.Contact? || step.Reactivate? || step.Tamper?
    ensures Preserves(s, Next(env, s, step))
  {
    hide InFlight, StartAccess, Ensure, Pinned, Activate, AfterBegin, AfterPutFile, AfterPutManifest, AfterRecord,
      AfterActivate, AfterFinish, Aborted, WithDrafts;
  }

  lemma UnpatchedStep(env: Env, s: Sys, step: Step)
    requires Unpatched(s) && Possible(env, s, step) && (step.PatchDraft? ==> !InFlight(s, step.id))
    ensures Unpatched(Next(env, s, step))
    ensures step.PutFile? ==> Faithful(s, step.pid, step.rel)
  {
    hide Possible, Preserves, Unpatched, AfterBegin, AfterPutFile, AfterPutManifest, AfterRecord, AfterActivate,
      AfterFinish, Aborted, WithDrafts, AfterContact, AfterOpen, AfterReactivate, AfterTamper, InFlight;
    match step {
      case Begin(pid, id, w, scope, activate, note) => BeginUnpatched(env, s, pid, id, w, scope, activate, note);
      case PutFile(pid, rel) => PutFilePreserves(s, pid, rel);
      case PutManifest(pid) => PutManifestPreserves(env, s, pid);
      case RecordIt(pid, now) => EntryPreserves(s, pid, now);
      case ActivateIt(pid, now) => EntryPreserves(s, pid, now);
      case Finish(pid) => FinishPreserves(s, pid);
      case Abort(pid) => EntryPreserves(s, pid, 0);
      case Start(_, _, _, _, _, _, _) => OtherPreserves(env, s, step);
      case Contact(_, _, _) => OtherPreserves(env, s, step);
      case Reactivate(_, _, _, _) => OtherPreserves(env, s, step);
      case Tamper(_, _) => OtherPreserves(env, s, step);
      case _ => TablePreserves(env, s, step);
    }
    if !step.Begin? {
      PreservedUnpatched(s, Next(env, s, step));
    }
    UnpatchedIsFaithful(s, step);
  }

  lemma UnpatchedIsFaithful(s: Sys, step: Step)
    requires Unpatched(s)
    ensures step.PutFile? ==> Faithful(s, step.pid, step.rel)
  {
  }

  /** Without patches in flight every iteration is faithful, so revisions are immutable. */
  lemma {:induction false} QuietRunsAreUndisturbed(env: Env, s: Sys, steps: seq<Step>)
    requires Unpatched(s) && PossibleRun(env, s, steps) && QuietRun(env, s, steps)
    ensures UndisturbedRun(env, s, steps)
    decreases steps
  {
    hide Unpatched, Next, Possible, InFlight, Faithful;
    if steps != [] {
      UnpatchedStep(env, s, steps[0]);
      QuietRunsAreUndisturbed(env, Next(env, s, steps[0]), steps[1..]);
    }
  }

  /** Exactly the faithful iterations keep the store accounted for: an iteration that writes anything
      else breaks it. */
  lemma OnlyFaithfulWritesKeepTheStore(env: Env, s: Sys, pid: string, rel: string)
    requires pid in s.publications && !Skips(s, AfterPutFile(s, pid, rel), pid)
    requires SysInv(env, s) && StoreInv(s, KeyOf(s.publications[pid].approval))
    requires Unambiguous(s.approved, KeyOf(s.publications[pid].approval))
    ensures StoreInv(AfterPutFile(s, pid, rel), KeyOf(s.publications[pid].approval)) <==> Faithful(s, pid, rel)
  {
    hide Inv, Derived, AllVetted, AllPinned, SessionsHold, RevisionsApproved, SkillKey, Guard, AllOnTrack,
      RegisteredComplete, Accounted;
    var s', a := AfterPutFile(s, pid, rel), s.publications[pid].approval;
    if Faithful(s, pid, rel) {
      PutFileStep(s, pid, rel, KeyOf(s.publications[pid].approval));
    }
    if Accounted(s') {
      StoredContent(env, s', a, rel);
    }
  }

  // ---------------------------------------------------------------------------
  // Which writes keep a revision exact
  // ---------------------------------------------------------------------------

  /** The iteration of publication `pid` for `rel` writes: the draft holds the path, and the guard lets
      its key through. */
  ghost predicate Writes(s: Sys, pid: string, rel: string) {
    && pid in s.publications
    && var pub := s.publications[pid];
       && pub.phase == Writing
       && LiveFiles(s, pub).Some? && rel in LiveFiles(s, pub).value
       && Guard(pub.approval.workspaceId, pub.scope, FileKey(pub.approval, rel)).Ok?
  }

  lemma WritesObject(s: Sys, pid: string, rel: string)
    requires Writes(s, pid, rel)
    ensures var pub := s.publications[pid];
            AfterPutFile(s, pid, rel).objects == s.objects[FileKey(pub.approval, rel) := LiveFiles(s, pub).value[rel]]
  {
    hide Guard, FileKey, LiveFiles;
  }

  /** A write under the revision's own prefix keeps it exact iff it writes what is there. */
  lemma OwnWriteKeeps(o: Objects, a: Approval, rel: string, data: Bytes)
    requires HoldsExactly(o, a)
    ensures HoldsExactly(o[FileKey(a, rel) := data], a) <==> rel in a.files && a.files[rel] == data
  {
    var o' := o[FileKey(a, rel) := data];
    if HoldsExactly(o', a) {
      UnderOwnPrefix(a, rel);
      assert FileKey(a, rel) in o';
      var q :| q in a.files && FileKey(a, rel) == FileKey(a, q);
      FileKeysDiffer(a, rel, q);
    } else if rel in a.files && a.files[rel] == data {
      RewritingChangesNothing(o, a, rel);
    }
  }

  lemma ForeignWriteKeeps(o: Objects, a: Approval, b: Approval, rel: string, data: Bytes)
    requires HoldsExactly(o, a) && KeyOf(a) != KeyOf(b)
    requires '/' !in a.workspaceId && '/' !in a.digest && '/' !in b.workspaceId && '/' !in b.digest
    ensures HoldsExactly(o[FileKey(b, rel) := data], a)
  {
    hide SkillsRoot, SkillKey;
    assert !(SkillsRoot(a.workspaceId, a.digest) <= FileKey(b, rel)) by {
      FileKeyShape(b, rel);
      if SkillsRoot(a.workspaceId, a.digest) <= FileKey(b, rel) {
        SkillsPrefixUnique(a.workspaceId, a.digest, b.workspaceId, b.digest, "skills/" + rel);
      }
    }
    forall q | q in a.files ensures FileKey(a, q) != FileKey(b, rel) {
      UnderOwnPrefix(a, q);
    }
  }

  /** An iteration that writes keeps an exactly stored revision exact iff it belongs to a revision under
      another key or writes what was approved. */
  lemma OnlyFaithfulWritesKeepRevisionsExact(env: Env, s: Sys, pid: string, rel: string, a: Approval)
    requires SysInv(env, s) && Writes(s, pid, rel)
    requires a in s.approved && HoldsExactly(s.objects, a) && Distinguishable(env, s.approved, KeyOf(a))
    ensures HoldsExactly(AfterPutFile(s, pid, rel).objects, a)
            <==> (KeyOf(s.publications[pid].approval) == KeyOf(a) ==> Faithful(s, pid, rel))
  {
    hide Inv, Derived, AllVetted, AllPinned, SessionsHold, RevisionsApproved, ApprovalsHold, HoldsExactly,
      AfterPutFile, SkillKey, Distinguishable, Unambiguous, Guard;
    var b := s.publications[pid].approval;
    WritesObject(s, pid, rel);
    if KeyOf(b) == KeyOf(a) {
      DistinguishableIsUnambiguous(env, s.approved, KeyOf(a));
      SameFiles(s.approved, a, b);
      OwnWriteKeeps(s.objects, a, rel, LiveFiles(s, s.publications[pid]).value[rel]);
    } else {
      ApprovedNames(env, s, a);
      ApprovedNames(env, s, b);
      ForeignWriteKeeps(s.objects, a, b, rel, LiveFiles(s, s.publications[pid]).value[rel]);
    }
  }

  lemma SameFiles(approved: set<Approval>, a: Approval, b: Approval)
    requires a in approved && b in approved && KeyOf(a) == KeyOf(b) && Unambiguous(approved, KeyOf(a))
    ensures a.files == b.files
  {
  }
}
