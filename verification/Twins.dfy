/** Two approved bundles with one digest share a revision key: publishing one of them overwrites the
    other, although every write is of approved content. */
module Twins {
  import opened Text
  import opened Integrity
  import opened Layout
  import opened FlatStorage
  import opened Registry
  import opened Drafts
  import opened Pipeline
  import opened Immutability
  import opened PublishSteps
  import opened RoundTrip

  // ---------------------------------------------------------------------------
  // A loop over a bundle with the same key
  // ---------------------------------------------------------------------------

  /** Each iteration of the loop, taken here, leaves the revision of `a` exact. */
  ghost predicate LoopKeeps(s: Sys, pid: string, a: Approval)
    requires pid in s.publications
  {
    forall rel :: rel in s.publications[pid].approval.files ==> HoldsExactly(AfterPutFile(s, pid, rel).objects, a)
  }

  lemma IterationKeeps(s: Sys, pid: string, a: Approval, rel: string)
    requires Looping(s, pid) && rel in s.publications[pid].approval.files
    requires HoldsExactly(s.objects, a) && KeyOf(s.publications[pid].approval) == KeyOf(a)
    ensures var b := s.publications[pid].approval;
            HoldsExactly(AfterPutFile(s, pid, rel).objects, a) <==> rel in a.files && a.files[rel] == b.files[rel]
  {
    var b := s.publications[pid].approval;
    hide HoldsExactly, AfterPutFile, SkillKey, Looping;
    PutOne(s, pid, rel);
    OwnWriteKeeps(s.objects, a, rel, b.files[rel]);
  }

  lemma {:induction false} PartIsSeparatorFree(part: Files, whole: Files)
    requires AllSeparatorFree(whole) && part.Keys <= whole.Keys
    ensures AllSeparatorFree(part)
  {
    hide SeparatorFree;
  }

  /** While a bundle with the digest of an exactly stored revision is published in the same workspace,
      the revision stays exact iff no path of the bundle spells a line of the digest encoding. */
  lemma LoopKeepsRevisionIffNoPathSpellsALine(env: Env, s: Sys, pid: string, a: Approval)
    requires Looping(s, pid) && HoldsExactly(s.objects, a) && KeyOf(s.publications[pid].approval) == KeyOf(a)
    requires var b := s.publications[pid].approval;
             && Digest(env.platform.sha, a.files) == Digest(env.platform.sha, b.files)
             && AllSeparatorFree(a.files) && !Collide(env.platform.sha, a.files, b.files)
    ensures LoopKeeps(s, pid, a) <==> AllSeparatorFree(s.publications[pid].approval.files)
  {
    var b := s.publications[pid].approval;
    hide HoldsExactly, AfterPutFile, Looping, AllSeparatorFree, Collide, Digest;
    forall rel | rel in b.files
      ensures HoldsExactly(AfterPutFile(s, pid, rel).objects, a) <==> rel in a.files && a.files[rel] == b.files[rel]
    {
      IterationKeeps(s, pid, a, rel);
    }
    SameDigestSameFiles(env.platform.sha, a.files, b.files);
    if LoopKeeps(s, pid, a) {
      PartIsSeparatorFree(b.files, a.files);
    }
  }

  // ---------------------------------------------------------------------------
  // A twin
  // ---------------------------------------------------------------------------

  /** A submitted draft of the workspace holds the twin of the revision in which `x` and `y` are merged. */
  ghost predicate TwinSubmitted(env: Env, s: Sys, id: string, a: Approval, x: string, y: string) {
    && Neighbours(a.files, x, y) && (forall p :: p in a.files ==> '\0' !in p)
    && id in s.drafts
    && s.drafts[id].status == Submitted && s.drafts[id].workspaceId == a.workspaceId
    && s.drafts[id].files == Merged(env.platform.sha, a.files, x, y)
  }

  lemma TwinIsNew(env: Env, s: Sys, id: string, a: Approval, x: string, y: string)
    requires TwinSubmitted(env, s, id, a, x, y) && AllSafe(a.files)
    ensures var p := MergedPath(env.platform.sha, a.files, x, y);
            && p in s.drafts[id].files && p !in a.files
            && DigestOf(env.platform, s.drafts[id]) == Digest(env.platform.sha, a.files)
  {
    hide Digest, AllSafe, Less;
    EveryBundleHasATwin(env.platform.sha, a.files, x, y);
    MergedPathOrder(env.platform.sha, a.files, x, y);
  }

  function Overwriting(pid: string, id: string, a: Approval, p: string): seq<Step> {
    [Begin(pid, id, a.workspaceId, None, false, ""), PutFile(pid, p)]
  }

  lemma BegunTwin(env: Env, s: Sys, pid: string, id: string, a: Approval, x: string, y: string)
    requires SysInv(env, s) && pid !in s.publications && a in s.approved
    requires TwinSubmitted(env, s, id, a, x, y)
    ensures var m := AfterBegin(env, s, pid, id, a.workspaceId, None, false, "");
            && m.objects == s.objects && m.registry == s.registry && Looping(m, pid)
            && m.publications[pid].approval
               == Approval(a.workspaceId, a.digest, s.drafts[id].baseDigest, s.drafts[id].files)
  {
    var d, m := s.drafts[id], AfterBegin(env, s, pid, id, a.workspaceId, None, false, "");
    hide AfterBegin, PublishCheck, DigestOf, Digest, ManifestOf, AllSafe, Problems, GuardsPass, TwinSubmitted, Inv,
      Derived, AllPinned, SessionsHold, PublicationsApproved, RevisionsApproved, IsWorkspaceId, IsDigestName, Looping;
    ApprovedCanBeTwinned(env, s, id, a, x, y);
    InvariantOf(env, s, id);
    SubmittedPasses(env, s.drafts, id);
    DigestNames(env, d);
    BrokerScopeSuffices(a.workspaceId, None, DigestOf(env.platform, d), d.files);
    BegunShape(env, s, pid, id, a.workspaceId, None, false, "");
    BegunIsLooping(env, s, m, pid, id, None, false, "", d);
  }

  lemma ApprovedCanBeTwinned(env: Env, s: Sys, id: string, a: Approval, x: string, y: string)
    requires SysInv(env, s) && a in s.approved && TwinSubmitted(env, s, id, a, x, y)
    ensures IsWorkspaceId(a.workspaceId) && AllSafe(a.files)
    ensures s.drafts[id].status == Submitted && s.drafts[id].workspaceId == a.workspaceId
    ensures DigestOf(env.platform, s.drafts[id]) == a.digest
  {
    hide Inv, Derived, AllPinned, SessionsHold, PublicationsApproved, RevisionsApproved, Problems, Digest, Merged;
    ApprovedIsSafe(env, s, a);
    TwinIsNew(env, s, id, a, x, y);
  }

  lemma TwinWrites(env: Env, m: Sys, pid: string, a: Approval, p: string)
    requires Looping(m, pid) && HoldsExactly(m.objects, a) && KeyOf(m.publications[pid].approval) == KeyOf(a)
    requires p in m.publications[pid].approval.files && p !in a.files
    ensures Faithful(m, pid, p)
    ensures !HoldsExactly(AfterPutFile(m, pid, p).objects, a)
    ensures AfterPutFile(m, pid, p).registry == m.registry
  {
    IterationKeeps(m, pid, a, p);
    hide HoldsExactly, SkillKey, Guard;
  }

  lemma BegunTwinWrites(env: Env, s: Sys, pid: string, id: string, a: Approval, x: string, y: string)
    requires SysInv(env, s) && pid !in s.publications && TwinSubmitted(env, s, id, a, x, y)
    requires a in s.approved && Registered(s, a) && HoldsExactly(s.objects, a)
    ensures var p := MergedPath(env.platform.sha, a.files, x, y);
            var m := AfterBegin(env, s, pid, id, a.workspaceId, None, false, "");
            && Faithful(m, pid, p) && Registered(AfterPutFile(m, pid, p), a)
            && !HoldsExactly(AfterPutFile(m, pid, p).objects, a)
  {
    var p := MergedPath(env.platform.sha, a.files, x, y);
    hide SysInv, HoldsExactly, AfterBegin, AfterPutFile, Looping, Faithful, AllSafe, Digest, Merged, MergedPath,
      TwinSubmitted;
    ApprovedCanBeTwinned(env, s, id, a, x, y);
    TwinIsNew(env, s, id, a, x, y);
    BegunTwin(env, s, pid, id, a, x, y);
    TwinWrites(env, AfterBegin(env, s, pid, id, a.workspaceId, None, false, ""), pid, a, p);
  }

  /** Publishing the twin of an exactly stored revision that holds no NUL puts a file under its prefix
      that it does not have, though every write is of approved content and nobody else writes. */
  lemma TwinsOverwrite(env: Env, s: Sys, pid: string, id: string, a: Approval, x: string, y: string)
    requires SysInv(env, s) && pid !in s.publications && TwinSubmitted(env, s, id, a, x, y)
    requires a in s.approved && Registered(s, a) && HoldsExactly(s.objects, a)
    ensures var steps := Overwriting(pid, id, a, MergedPath(env.platform.sha, a.files, x, y));
            && PossibleRun(env, s, steps) && UndisturbedRun(env, s, steps)
            && Registered(Run(env, s, steps), a) && !HoldsExactly(Run(env, s, steps).objects, a)
  {
    BegunTwinWrites(env, s, pid, id, a, x, y);
    ApprovedCanBeTwinned(env, s, id, a, x, y);
    var p := MergedPath(env.platform.sha, a.files, x, y);
    hide SysInv, HoldsExactly, AfterBegin, AfterPutFile, Faithful, MergedPath, Run, TwinSubmitted, IsWorkspaceId,
      Registered, PossibleRun, UndisturbedRun;
    OverwritingRuns(env, s, pid, id, a, p);
  }

  lemma OverwritingRuns(env: Env, s: Sys, pid: string, id: string, a: Approval, p: string)
    requires pid !in s.publications && IsWorkspaceId(a.workspaceId)
    requires Faithful(AfterBegin(env, s, pid, id, a.workspaceId, None, false, ""), pid, p)
    ensures PossibleRun(env, s, Overwriting(pid, id, a, p)) && UndisturbedRun(env, s, Overwriting(pid, id, a, p))
    ensures Run(env, s, Overwriting(pid, id, a, p))
            == AfterPutFile(AfterBegin(env, s, pid, id, a.workspaceId, None, false, ""), pid, p)
  {
    hide AfterBegin, AfterPutFile, Faithful, Run, IsWorkspaceId, PossibleRun, UndisturbedRun;
    RunTwo(env, s, Begin(pid, id, a.workspaceId, None, false, ""), PutFile(pid, p));
    TwoUndisturbed(env, s, Begin(pid, id, a.workspaceId, None, false, ""), PutFile(pid, p));
  }

  lemma TwoUndisturbed(env: Env, s: Sys, one: Step, two: Step)
    requires Possible(env, s, one) && Possible(env, Next(env, s, one), two)
    requires Undisturbed(s, one) && Undisturbed(Next(env, s, one), two)
    ensures PossibleRun(env, s, [one, two]) && UndisturbedRun(env, s, [one, two])
  {
    hide Next, Possible, Undisturbed;
    assert [one, two][1..] == [two] && [two][1..] == [];
    assert PossibleRun(env, Next(env, s, one), [two]) && UndisturbedRun(env, Next(env, s, one), [two]);
  }
}
