/** Safety of whole runs: what a session contains, what a conversation is pinned to, what a published
    draft and a submitted draft guarantee. Stored objects may be overwritten, deleted or added at any
    time, and a start may be answered with anything. */
module PipelineTheorems {
  import opened Text
  import opened Integrity
  import opened Disk
  import opened Layout
  import opened Registry
  import opened Drafts
  import opened Materializer
  import opened Sessions
  import opened Pipeline

  /** `a` was validated, submitted and published in the workspace under the digest. */
  ghost predicate Approves(env: Env, a: Approval, w: string, digest: string) {
    && a.workspaceId == w && a.digest == digest == Digest(env.platform.sha, a.files)
    && Passes(env.platform, w, a.base, a.files)
  }

  /** The session's files have an approval, and they are the files of every approval of the digest whose
      paths do not spell a line of the encoding, unless SHA-256 collides on the two file maps. */
  ghost predicate RunsApproved(env: Env, s: Sys, x: Started) {
    var w, digest := x.conversation.workspaceId, x.conversation.contentDigest;
    && (exists a :: a in s.approved && Approves(env, a, w, digest))
    && (forall a :: a in s.approved && Approves(env, a, w, digest) && !Collide(env.platform.sha, x.files, a.files) ==>
          (x.files == a.files <==> AllSeparatorFree(a.files)))
  }

  lemma PinnedIsApproved(env: Env, s: Sys, c: Conversation)
    requires SysInv(env, s) && PinHolds(s.registry, c)
    ensures exists a :: a in s.approved && Approves(env, a, c.workspaceId, c.contentDigest)
  {
    hide Derived, AllVetted, AllPinned, SessionsHold, PublicationsApproved, Problems, Digest, Passes;
    var r, w := s.registry, c.workspaceId;
    GetGenerationIsPositional(r, w, c.generation);
    assert w in r.generations;
    assert Numbered(r, w);
    var g := Generations(r, w)[c.generation - 1];
    assert RevisionKey(w, g.contentDigest) in r.revisions;
    assert IsApproved(s, w, c.contentDigest);
    var a :| a in s.approved && a.workspaceId == w && a.digest == c.contentDigest;
    NoProblemsIffPasses(env.platform, w, a.base, a.files);
    assert Approves(env, a, w, c.contentDigest);
  }

  lemma SessionRunsApproved(env: Env, s: Sys, x: Started)
    requires SysInv(env, s) && x in s.sessions && !x.catalog
    ensures RunsApproved(env, s, x)
  {
    hide Inv, Derived, AllVetted, PublicationsApproved, Problems, Digest, AllSeparatorFree, RevisionsApproved,
      ApprovalsHold, PinHolds, Collide;
    assert SessionHolds(env, s, x);
    PinnedIsApproved(env, s, x.conversation);
    forall a | a in s.approved && Approves(env, a, x.conversation.workspaceId, x.conversation.contentDigest)
               && !Collide(env.platform.sha, x.files, a.files)
      ensures x.files == a.files <==> AllSeparatorFree(a.files)
    {
      SameDigestSameFiles(env.platform.sha, x.files, a.files);
    }
  }

  /** In every run, whatever interleaves and whatever happens to stored bytes, a session that starts
      without a catalog has the files that were approved under its pinned generation: corrupted storage
      can only make the start fail. */
  lemma EverySessionRunsApprovedFiles(env: Env, steps: seq<Step>)
    requires PossibleRun(env, INITIAL, steps)
    ensures var s := Run(env, INITIAL, steps);
            forall x :: x in s.sessions && !x.catalog ==> RunsApproved(env, s, x)
  {
    InitialInv(env);
    RunKeeps(env, INITIAL, steps);
    hide SysInv, RunsApproved, Run, PossibleRun;
    var s := Run(env, INITIAL, steps);
    forall x | x in s.sessions && !x.catalog ensures RunsApproved(env, s, x) {
      SessionRunsApproved(env, s, x);
    }
  }

  /** A conversation is never pinned to anything else, however many activations follow: its principal,
      and nobody else, finds it as it was, and the digest it recorded stays the digest of its generation. */
  lemma PinnedForever(env: Env, s: Sys, steps: seq<Step>, cid: string)
    requires SysInv(env, s) && PossibleRun(env, s, steps) && cid in s.conversations
    ensures var s', c := Run(env, s, steps), s.conversations[cid];
            && GetConversation(s'.conversations, cid, c.principalKey) == Ok(c)
            && (forall key :: key != c.principalKey ==> GetConversation(s'.conversations, cid, key) == Err(Isolation))
            && PinHolds(s'.registry, c)
            && GetGeneration(s'.registry, c.workspaceId, c.generation)
               == GetGeneration(s.registry, c.workspaceId, c.generation)
  {
    RunKeeps(env, s, steps);
    hide Run, PossibleRun, Inv, PinHolds, SessionsHold, RegistryGrows, RevisionsApproved, Derived;
    PinStays(s.registry, Run(env, s, steps).registry, s.conversations[cid]);
  }

  /** The registry's promises hold after every run: generations are numbered 1, 2, ... in list order and
      name registered revisions, the active generation is the last, and the search by number is positional. */
  lemma GenerationsAreGapless(env: Env, steps: seq<Step>, w: string)
    requires PossibleRun(env, INITIAL, steps)
    ensures var r := Run(env, INITIAL, steps).registry;
            && Numbered(r, w)
            && (w in r.workspaces ==> ActiveIsLast(r, w))
            && forall n :: GetGeneration(r, w, n)
                           == if 1 <= n <= |Generations(r, w)| then Ok(Generations(r, w)[n - 1]) else Err(NotFound)
  {
    InitialInv(env);
    RunKeeps(env, INITIAL, steps);
    hide Run, PossibleRun, AllPinned, SessionsHold, RevisionsApproved, Derived, PublicationsApproved, ApprovalsHold,
      AllVetted;
    var r := Run(env, INITIAL, steps).registry;
    forall n
      ensures GetGeneration(r, w, n)
              == if 1 <= n <= |Generations(r, w)| then Ok(Generations(r, w)[n - 1]) else Err(NotFound)
    {
      GetGenerationIsPositional(r, w, n);
    }
    assert w in r.generations ==> Numbered(r, w);
  }

  // ---------------------------------------------------------------------------
  // Drafts over runs
  // ---------------------------------------------------------------------------

  /** No step changes a published draft. */
  lemma StepKeepsFrozen(env: Env, s: Sys, step: Step, id: string)
    requires Possible(env, s, step) && id in s.drafts && s.drafts[id].status == Published
    ensures id in Next(env, s, step).drafts && Next(env, s, step).drafts[id] == s.drafts[id]
  {
    hide Problems, Seeded, AfterContact, AfterOpen, AfterBegin, AfterPutFile, AfterPutManifest, AfterRecord,
      AfterActivate, AfterReactivate, OwnId;
    if !(step.CreateDraft? || step.PatchDraft? || step.ValidateDraft? || step.SubmitDraft? || step.Finish?) {
      OtherStepsKeepDrafts(env, s, step);
    }
  }

  lemma OtherStepsKeepDrafts(env: Env, s: Sys, step: Step)
    requires !(step.CreateDraft? || step.PatchDraft? || step.ValidateDraft? || step.SubmitDraft? || step.Finish?)
    ensures Next(env, s, step).drafts == s.drafts
  {
    hide PublishCheck, DigestOf, ManifestOf, Guard, RecordRevision, Activate, StartAccess, Ensure, Materialized,
      FilesBelow, LiveFiles, AfterFinish, WithDrafts, Create, Patch, Validate, Submit, Pinned, HomeOf, Enter;
  }

  lemma {:induction false} PublishedDraftsAreFrozen(env: Env, s: Sys, steps: seq<Step>, id: string)
    requires PossibleRun(env, s, steps) && id in s.drafts && s.drafts[id].status == Published
    ensures id in Run(env, s, steps).drafts && Run(env, s, steps).drafts[id] == s.drafts[id]
    decreases steps
  {
    hide Next, Possible;
    if steps != [] {
      StepKeepsFrozen(env, s, steps[0], id);
      PublishedDraftsAreFrozen(env, Next(env, s, steps[0]), steps[1..], id);
    }
  }

  /** After every run, what passed validation and was not touched since can be hashed and has a
      manifest, so publishing a submitted draft fails on neither. */
  lemma SubmittedDraftsPassTheChecks(env: Env, steps: seq<Step>, id: string)
    requires PossibleRun(env, INITIAL, steps)
    ensures var drafts := Run(env, INITIAL, steps).drafts;
            && (id in drafts ==> Vetted(env.platform, drafts[id]))
            && (id in drafts && (drafts[id].status == Validated || drafts[id].status == Submitted) ==>
                  Passes(env.platform, drafts[id].workspaceId, drafts[id].baseDigest, drafts[id].files))
            && (id in drafts && drafts[id].status == Submitted ==>
                  PublishCheck(env.platform, drafts, id, drafts[id].workspaceId) == Ok(drafts[id]))
  {
    InitialInv(env);
    RunKeeps(env, INITIAL, steps);
    hide Run, PossibleRun, AllPinned, SessionsHold, RevisionsApproved, Derived, PublicationsApproved, ApprovalsHold,
      Inv, Problems;
    hide Passes;
    var drafts := Run(env, INITIAL, steps).drafts;
    if id in drafts {
      NoProblemsIffPasses(env.platform, drafts[id].workspaceId, drafts[id].baseDigest, drafts[id].files);
    }
    if id in drafts && drafts[id].status == Submitted {
      assert Vetted(env.platform, drafts[id]);
      VettedCanBePublished(env.platform, drafts[id]);
    }
  }
}
