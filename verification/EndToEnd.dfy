/** From a submitted draft to a running session: a publication that activates, followed by a start of
    the workspace's owner, as one run of the machine. */
module EndToEnd {
  import opened Text
  import opened Integrity
  import opened Disk
  import opened Layout
  import opened FlatStorage
  import opened StorageRefinement
  import opened Registry
  import opened Broker
  import opened Drafts
  import opened Materializer
  import opened MaterializerTheorems
  import opened Sessions
  import opened Pipeline
  import opened Immutability
  import opened RoundTrip
  import opened PublishSteps

  // ---------------------------------------------------------------------------
  // Runs one after the other
  // ---------------------------------------------------------------------------

  lemma {:induction false} RunOnward(env: Env, s: Sys, one: seq<Step>, two: seq<Step>)
    ensures Run(env, s, one + two) == Run(env, Run(env, s, one), two)
    ensures PossibleRun(env, s, one + two) <==> PossibleRun(env, s, one) && PossibleRun(env, Run(env, s, one), two)
    ensures UndisturbedRun(env, s, one + two)
            <==> UndisturbedRun(env, s, one) && UndisturbedRun(env, Run(env, s, one), two)
    decreases one
  {
    hide Next, Possible, Undisturbed;
    if one == [] {
      assert one + two == two;
    } else {
      RunOnward(env, Next(env, s, one[0]), one[1..], two);
      assert (one + two)[0] == one[0] && (one + two)[1..] == one[1..] + two;
    }
  }

  /** The run can be made, every write in it is of approved content, and it leads to `e`. */
  ghost predicate Leads(env: Env, s: Sys, steps: seq<Step>, e: Sys) {
    PossibleRun(env, s, steps) && UndisturbedRun(env, s, steps) && Run(env, s, steps) == e
  }

  lemma LeadsOnward(env: Env, s: Sys, one: seq<Step>, m: Sys, two: seq<Step>, e: Sys)
    requires Leads(env, s, one, m) && Leads(env, m, two, e)
    ensures Leads(env, s, one + two, e)
  {
    hide Run, PossibleRun, UndisturbedRun;
    RunOnward(env, s, one, two);
  }

  lemma StaysPut(env: Env, s: Sys)
    ensures Leads(env, s, [], s)
  {
  }

  lemma SingleStep(env: Env, s: Sys, step: Step)
    requires Possible(env, s, step) && Undisturbed(s, step)
    ensures Leads(env, s, [step], Next(env, s, step))
  {
    hide Next, Possible, Undisturbed;
    StaysPut(env, Next(env, s, step));
    assert [step][1..] == [];
  }

  lemma BeginLeads(env: Env, s: Sys, pid: string, id: string, w: string, scope: Option<string>, activate: bool,
                   note: string)
    requires pid !in s.publications && IsWorkspaceId(w)
    ensures Leads(env, s, [Begin(pid, id, w, scope, activate, note)],
                  AfterBegin(env, s, pid, id, w, scope, activate, note))
  {
    hide AfterBegin, IsWorkspaceId, Leads;
    SingleStep(env, s, Begin(pid, id, w, scope, activate, note));
  }

  lemma PutLeads(env: Env, s: Sys, pid: string, rel: string)
    requires Faithful(s, pid, rel)
    ensures Leads(env, s, [PutFile(pid, rel)], AfterPutFile(s, pid, rel))
  {
    hide AfterPutFile, Faithful, Leads;
    SingleStep(env, s, PutFile(pid, rel));
  }

  lemma ManifestLeads(env: Env, s: Sys, pid: string)
    ensures Leads(env, s, [PutManifest(pid)], AfterPutManifest(env, s, pid))
  {
    hide AfterPutManifest, Leads;
    SingleStep(env, s, PutManifest(pid));
  }

  lemma EntryLeads(env: Env, s: Sys, pid: string, now: int)
    ensures Leads(env, s, [RecordIt(pid, now)], AfterRecord(s, pid, now))
    ensures Leads(env, s, [ActivateIt(pid, now)], AfterActivate(s, pid, now))
    ensures Leads(env, s, [Finish(pid)], AfterFinish(s, pid))
  {
    hide AfterRecord, AfterActivate, AfterFinish, Leads;
    SingleStep(env, s, RecordIt(pid, now));
    SingleStep(env, s, ActivateIt(pid, now));
    SingleStep(env, s, Finish(pid));
  }

  // ---------------------------------------------------------------------------
  // A publication as a run
  // ---------------------------------------------------------------------------

  /** A call of `publish` with activation; `rels` is the order of the draft's files. */
  datatype Publishing = Publishing(pid: string, id: string, scope: Option<string>, note: string, now: int,
                                   rels: seq<string>)

  function Puts(pid: string, rels: seq<string>): seq<Step> {
    if rels == [] then [] else [PutFile(pid, rels[0])] + Puts(pid, rels[1..])
  }

  function Ending(pid: string, now: int): seq<Step> {
    [PutManifest(pid)] + ([RecordIt(pid, now)] + ([ActivateIt(pid, now)] + [Finish(pid)]))
  }

  function StepsOf(c: Publishing, w: string): seq<Step> {
    [Begin(c.pid, c.id, w, c.scope, true, c.note)] + Remaining(c)
  }

  lemma LoopingIsFaithful(s: Sys, pid: string, rel: string)
    requires Looping(s, pid)
    ensures Faithful(s, pid, rel)
  {
    hide SkillsPass;
  }

  lemma PutKeepsLooping(s: Sys, pid: string, rel: string)
    requires Looping(s, pid) && rel in s.publications[pid].approval.files
    ensures Faithful(s, pid, rel) && Looping(AfterPutFile(s, pid, rel), pid)
    ensures AfterPutFile(s, pid, rel).publications[pid].approval == s.publications[pid].approval
  {
    hide AfterPutFile, Looping;
    LoopingIsFaithful(s, pid, rel);
    PutOne(s, pid, rel);
  }

  lemma {:induction false} PutsRun(env: Env, s: Sys, pid: string, rels: seq<string>)
    requires Looping(s, pid) && forall i :: 0 <= i < |rels| ==> rels[i] in s.publications[pid].approval.files
    ensures Leads(env, s, Puts(pid, rels), PutAll(s, pid, rels))
    decreases rels
  {
    hide AfterPutFile, Faithful, Leads;
    if rels == [] {
      StaysPut(env, s);
    } else {
      var m := AfterPutFile(s, pid, rels[0]);
      PutKeepsLooping(s, pid, rels[0]);
      PutLeads(env, s, pid, rels[0]);
      PutsRun(env, m, pid, rels[1..]);
      LeadsOnward(env, s, [PutFile(pid, rels[0])], m, Puts(pid, rels[1..]), PutAll(m, pid, rels[1..]));
    }
  }

  lemma EndingRun(env: Env, s: Sys, pid: string, now: int)
    ensures Leads(env, s, Ending(pid, now), Concluded(AfterPutManifest(env, s, pid), pid, true, now))
  {
    hide AfterPutManifest, AfterRecord, AfterActivate, AfterFinish, Leads;
    var m := AfterPutManifest(env, s, pid);
    var r := AfterRecord(m, pid, now);
    var a := AfterActivate(r, pid, now);
    var e := AfterFinish(a, pid);
    ManifestLeads(env, s, pid);
    EntryLeads(env, m, pid, now);
    EntryLeads(env, r, pid, now);
    EntryLeads(env, a, pid, now);
    LeadsOnward(env, r, [ActivateIt(pid, now)], a, [Finish(pid)], e);
    LeadsOnward(env, m, [RecordIt(pid, now)], r, [ActivateIt(pid, now)] + [Finish(pid)], e);
    LeadsOnward(env, s, [PutManifest(pid)], m, [RecordIt(pid, now)] + ([ActivateIt(pid, now)] + [Finish(pid)]), e);
  }

  /** The draft can be published by the call: it is submitted, the ids are in order, the adapter is of
      the workspace, and `rels` goes through its files. */
  ghost predicate Publishes(s: Sys, c: Publishing) {
    && c.pid !in s.publications && c.id in s.drafts
    && var d := s.drafts[c.id];
       && d.status == Submitted && d.workspaceId in s.registry.workspaces && IsWorkspaceId(d.workspaceId)
       && OwnScope(d.workspaceId, c.scope)
       && Names(c.rels) == d.files.Keys && forall i :: 0 <= i < |c.rels| ==> c.rels[i] in d.files
  }

  function HomeOfDraft(s: Sys, c: Publishing): string
    requires c.id in s.drafts
  {
    s.drafts[c.id].workspaceId
  }

  ghost function ApprovalOf(env: Env, s: Sys, c: Publishing): Approval
    requires c.id in s.drafts
  {
    var d := s.drafts[c.id];
    Approval(d.workspaceId, DigestOf(env.platform, d), d.baseDigest, d.files)
  }

  ghost function Begins(env: Env, s: Sys, c: Publishing): Sys
    requires c.id in s.drafts
  {
    AfterBegin(env, s, c.pid, c.id, s.drafts[c.id].workspaceId, c.scope, true, c.note)
  }

  lemma BegunLoop(env: Env, s: Sys, c: Publishing)
    requires SysInv(env, s) && Publishes(s, c)
    ensures var m := Begins(env, s, c);
            && Looping(m, c.pid) && m.publications[c.pid].approval == ApprovalOf(env, s, c)
            && m.approved == s.approved + {ApprovalOf(env, s, c)}
  {
    var d, w := s.drafts[c.id], s.drafts[c.id].workspaceId;
    hide SysInv, PublishCheck, DigestOf, ManifestOf, AllSafe, Vetted, Inv, GuardsPass, Looping, IsWorkspaceId,
      AfterBegin, IsDigestName, Names;
    InvariantOf(env, s, c.id);
    SubmittedPasses(env, s.drafts, c.id);
    DigestNames(env, d);
    BrokerScopeSuffices(w, c.scope, DigestOf(env.platform, d), d.files);
    BegunShape(env, s, c.pid, c.id, w, c.scope, true, c.note);
    BegunIsLooping(env, s, Begins(env, s, c), c.pid, c.id, c.scope, true, c.note, d);
    BeginsAs(env, s, c.pid, c.id, w, c.scope, true, c.note, d);
  }

  ghost function AfterPublishing(env: Env, s: Sys, c: Publishing): Sys
    requires c.id in s.drafts
  {
    PublishAlone(env, s, c.pid, c.id, HomeOfDraft(s, c), c.scope, true, c.note, c.now, c.rels)
  }

  /** What follows the check. */
  function Remaining(c: Publishing): seq<Step> {
    Puts(c.pid, c.rels) + Ending(c.pid, c.now)
  }

  lemma RemainingRun(env: Env, s: Sys, c: Publishing)
    requires SysInv(env, s) && Publishes(s, c)
    ensures Leads(env, Begins(env, s, c), Remaining(c), AfterPublishing(env, s, c))
    ensures ApprovalOf(env, s, c) in Begins(env, s, c).approved
  {
    var m := Begins(env, s, c);
    BegunLoop(env, s, c);
    hide SysInv, AfterBegin, AfterPutManifest, Concluded, PutAll, Leads, Looping, Names, DigestOf, IsWorkspaceId;
    var looped := PutAll(m, c.pid, c.rels);
    PutsRun(env, m, c.pid, c.rels);
    EndingRun(env, looped, c.pid, c.now);
    LeadsOnward(env, m, Puts(c.pid, c.rels), looped, Ending(c.pid, c.now), AfterPublishing(env, s, c));
  }

  lemma PublishingRun(env: Env, s: Sys, c: Publishing)
    requires SysInv(env, s) && Publishes(s, c)
    ensures Leads(env, s, StepsOf(c, HomeOfDraft(s, c)), AfterPublishing(env, s, c))
  {
    var w := HomeOfDraft(s, c);
    hide SysInv, AfterBegin, PublishAlone, Leads, Names, DigestOf, IsWorkspaceId, Remaining;
    RemainingRun(env, s, c);
    BeginLeads(env, s, c.pid, c.id, w, c.scope, true, c.note);
    LeadsOnward(env, s, [Begin(c.pid, c.id, w, c.scope, true, c.note)], Begins(env, s, c), Remaining(c),
                AfterPublishing(env, s, c));
  }

  // ---------------------------------------------------------------------------
  // The state after the publication
  // ---------------------------------------------------------------------------

  /** The principal is in contact and lives in the workspace. */
  predicate LivesIn(r: State, p: Principal, w: string) {
    p.key in r.byPrincipal && r.byPrincipal[p.key] == w
  }

  function NewestOf(env: Env, s: Sys, c: Publishing, digest: string): Generation
    requires c.id in s.drafts
  {
    var w := HomeOfDraft(s, c);
    Generation(w, |Generations(s.registry, w)| + 1, digest, c.now, c.note)
  }

  lemma PublishedRegistry(env: Env, s: Sys, c: Publishing)
    requires SysInv(env, s) && Publishes(s, c)
    ensures var e, a := AfterPublishing(env, s, c), ApprovalOf(env, s, c);
            && Registered(e, a) && e.registry.byPrincipal == s.registry.byPrincipal
            && ResolveActive(e.registry, a.workspaceId) == Ok(NewestOf(env, s, c, a.digest))
  {
    hide SysInv, PublishAlone, Names, DigestOf, IsWorkspaceId;
    SubmittedDraftsGetPublished(env, s, c.pid, c.id, c.scope, c.note, c.now, c.rels);
  }

  lemma LeadsKeeps(env: Env, s: Sys, steps: seq<Step>, e: Sys)
    requires SysInv(env, s) && Leads(env, s, steps, e)
    ensures SysInv(env, e) && s.approved <= e.approved
  {
    hide SysInv, Run, PossibleRun, UndisturbedRun, RegistryGrows;
    RunKeeps(env, s, steps);
  }

  lemma PublishedInv(env: Env, s: Sys, c: Publishing)
    requires SysInv(env, s) && Publishes(s, c)
    ensures SysInv(env, AfterPublishing(env, s, c)) && ApprovalOf(env, s, c) in AfterPublishing(env, s, c).approved
  {
    hide SysInv, PublishAlone, Names, DigestOf, IsWorkspaceId, AfterBegin, Grows, Leads;
    RemainingRun(env, s, c);
    BeginKeeps(env, s, c.pid, c.id, HomeOfDraft(s, c), c.scope, true, c.note);
    LeadsKeeps(env, Begins(env, s, c), Remaining(c), AfterPublishing(env, s, c));
  }

  // ---------------------------------------------------------------------------
  // The start
  // ---------------------------------------------------------------------------

  /** A call of `start`. */
  datatype Opening = Opening(p: Principal, placement: Placement, credential: Option<Credential>, geSession: string,
                             cid: string, place: Place, now: int)

  /** The scope of the credential that comes with the call, or of the one that the broker issues. */
  function OpeningScope(o: Opening, w: string): Option<string> {
    if o.credential.Some? then o.credential.value.scope else Some(Prefix(w))
  }

  lemma AccessIsGranted(env: Env, r: State, o: Opening, w: string, gen: Generation)
    requires Inv(r) && LivesIn(r, o.p, w) && IsWorkspaceId(w) && ResolveActive(r, w) == Ok(gen) && gen.workspaceId == w
    ensures HomeOf(r, env.derive, o.p.key) == w
    ensures StartAccess(r, env.broker, o.p, w, o.credential, o.now) == Ok((gen, OpeningScope(o, w)))
  {
    hide IsWorkspaceId, BuildBoundary, Prefix;
  }

  /** The start of `o` in a state whose store lists the revision in the order of `refs` and `again`. */
  ghost function StepOf(s: Sys, o: Opening, a: Approval, refs: seq<ObjectRef>, again: seq<ObjectRef>): Step {
    var scope := OpeningScope(o, a.workspaceId);
    Start(o.p, o.placement, o.credential, o.geSession, o.cid,
          Answering(s, o.place, a.workspaceId, scope, SkillsRoot(a.workspaceId, a.digest), refs, again), o.now)
  }

  ghost function AttemptOf(env: Env, s: Sys, o: Opening, a: Approval, refs: seq<ObjectRef>,
                           again: seq<ObjectRef>): Materializer.Outcome {
    StartOn(env, s, a, OpeningScope(o, a.workspaceId), o.place, refs, again)
  }

  lemma HomesAreOwn(env: Env, s: Sys, p: Principal, w: string)
    requires Inv(s.registry) && Derived(env, s.registry) && LivesIn(s.registry, p, w)
    ensures OwnId(env, s, p)
  {
    forall k | k in s.registry.byPrincipal && env.derive(k) == env.derive(p.key) ensures k == p.key {
      assert s.registry.workspaces[s.registry.byPrincipal[k]].principalKey == k;
      assert s.registry.workspaces[s.registry.byPrincipal[p.key]].principalKey == p.key;
    }
  }

  lemma StartWithoutContact(env: Env, s: Sys, o: Opening, place: Place)
    requires o.p.key in s.registry.byPrincipal
    ensures Next(env, s, Start(o.p, o.placement, o.credential, o.geSession, o.cid, place, o.now))
            == AfterOpen(env, s, o.p, o.credential, o.geSession, o.cid, place, o.now)
  {
    hide AfterOpen;
    assert AfterContact(env, s, o.p, o.placement, o.now) == s;
  }

  /** The start on the active revision, as a step: nothing, or a session with the files of the tree. */
  lemma StartOnActive(env: Env, s: Sys, o: Opening, a: Approval, gen: Generation, refs: seq<ObjectRef>,
                      again: seq<ObjectRef>)
    requires Inv(s.registry) && LivesIn(s.registry, o.p, a.workspaceId) && IsWorkspaceId(a.workspaceId)
    requires IsDigestName(a.digest) && OwnScope(a.workspaceId, OpeningScope(o, a.workspaceId))
    requires ResolveActive(s.registry, a.workspaceId) == Ok(gen) && gen.workspaceId == a.workspaceId
    requires gen.contentDigest == a.digest
    ensures Next(env, s, StepOf(s, o, a, refs, again))
            == StartedWith(s, Pinned(o.cid, o.p, gen, o.geSession, o.now), AttemptOf(env, s, o, a, refs, again),
                           o.place)
  {
    var w := a.workspaceId;
    hide Inv, IsWorkspaceId, IsDigestName, StartAccess, Attempt, AfterOpen, ListedPrefix, HomeOf, StartedWith,
      ResolveActive, SkillsRoot, Next, Answering, OpeningScope;
    StartWithoutContact(env, s, o, Answering(s, o.place, w, OpeningScope(o, w), SkillsRoot(w, a.digest), refs, again));
    AccessIsGranted(env, s.registry, o, w, gen);
    ListedPrefixIsRoot(a, OpeningScope(o, w));
    StartIsAStep(env, s, o.p, o.credential, o.geSession, o.cid, o.place, o.now, refs, again);
  }

  // ---------------------------------------------------------------------------
  // From draft to session
  // ---------------------------------------------------------------------------

  /** The owner of the draft's workspace can start once `c` has published: its adapter is of the workspace,
      ids are new, the store lists what it holds, and the bundles of the key can be told apart. */
  ghost predicate CanOpen(env: Env, s: Sys, c: Publishing, o: Opening, refs: seq<ObjectRef>, again: seq<ObjectRef>)
    requires c.id in s.drafts
  {
    var e, a := AfterPublishing(env, s, c), ApprovalOf(env, s, c);
    && LivesIn(s.registry, o.p, a.workspaceId) && OwnScope(a.workspaceId, OpeningScope(o, a.workspaceId))
    && o.cid !in e.conversations
    && Listings(e, a, OpeningScope(o, a.workspaceId), refs, again)
    && Fresh(o.place.disk, o.place.root, a.workspaceId, o.place.session)
    && Distinguishable(env, e.approved, KeyOf(a))
  }

  /** The conversation that pins the generation of the publication. */
  ghost function PinOf(env: Env, s: Sys, c: Publishing, o: Opening): Conversation
    requires c.id in s.drafts
  {
    Pinned(o.cid, o.p, NewestOf(env, s, c, ApprovalOf(env, s, c).digest), o.geSession, o.now)
  }

  /** `s` with one more session. */
  function Running(s: Sys, c: Conversation, catalog: bool, files: Files): Sys {
    s.(conversations := s.conversations[c.id := c], sessions := s.sessions + [Started(c, catalog, files)])
  }

  /** The whole run: what came before, the publication, the start. */
  ghost function Story(env: Env, steps: seq<Step>, s: Sys, c: Publishing, o: Opening, refs: seq<ObjectRef>,
                       again: seq<ObjectRef>): seq<Step>
    requires c.id in s.drafts
  {
    var start := StepOf(AfterPublishing(env, s, c), o, ApprovalOf(env, s, c), refs, again);
    (steps + StepsOf(c, HomeOfDraft(s, c))) + [start]
  }

  /** The state after the publication, with what the start needs. */
  lemma ReadyToStart(env: Env, s: Sys, c: Publishing, o: Opening)
    requires SysInv(env, s) && Publishes(s, c) && LivesIn(s.registry, o.p, HomeOfDraft(s, c))
    ensures var e, a := AfterPublishing(env, s, c), ApprovalOf(env, s, c);
            && SysInv(env, e) && a in e.approved && Registered(e, a) && LivesIn(e.registry, o.p, a.workspaceId)
            && ResolveActive(e.registry, a.workspaceId) == Ok(NewestOf(env, s, c, a.digest))
            && IsDigestName(a.digest) && IsWorkspaceId(a.workspaceId)
  {
    hide SysInv, PublishAlone, Names, DigestOf, IsWorkspaceId, IsDigestName, ResolveActive, NewestOf, Registered;
    PublishedInv(env, s, c);
    PublishedRegistry(env, s, c);
    DigestNames(env, s.drafts[c.id]);
  }

  /** Publication and start, as one run: nothing new, or a session with the files of the tree. */
  lemma StoryLeads(env: Env, steps: seq<Step>, s: Sys, c: Publishing, o: Opening, refs: seq<ObjectRef>,
                   again: seq<ObjectRef>)
    requires Leads(env, INITIAL, steps, s) && SysInv(env, s) && Publishes(s, c) && CanOpen(env, s, c, o, refs, again)
    ensures var e, a := AfterPublishing(env, s, c), ApprovalOf(env, s, c);
            && Leads(env, INITIAL, steps + StepsOf(c, HomeOfDraft(s, c)), e)
            && Leads(env, INITIAL, Story(env, steps, s, c, o, refs, again),
                     StartedWith(e, PinOf(env, s, c, o), AttemptOf(env, e, o, a, refs, again), o.place))
  {
    hide Leads, AfterPublishing, Names, DigestOf, IsWorkspaceId, IsDigestName, ResolveActive, NewestOf, Registered,
      Distinguishable, Listings, Fresh, AttemptOf, StepOf, StartedWith, Pinned, StepsOf, Prefix;
    var e, a := AfterPublishing(env, s, c), ApprovalOf(env, s, c);
    ReadyToStart(env, s, c, o);
    PublishingRun(env, s, c);
    LeadsOnward(env, INITIAL, steps, s, StepsOf(c, HomeOfDraft(s, c)), e);
    ActiveLeads(env, s, c, o, e, a, refs, again);
    LeadsOnward(env, INITIAL, steps + StepsOf(c, HomeOfDraft(s, c)), e, [StepOf(e, o, a, refs, again)],
                StartedWith(e, PinOf(env, s, c, o), AttemptOf(env, e, o, a, refs, again), o.place));
  }

  lemma OpeningIsPossible(env: Env, s: Sys, o: Opening, a: Approval, refs: seq<ObjectRef>, again: seq<ObjectRef>)
    requires SysInv(env, s) && LivesIn(s.registry, o.p, a.workspaceId) && o.cid !in s.conversations
    ensures Possible(env, s, StepOf(s, o, a, refs, again)) && Undisturbed(s, StepOf(s, o, a, refs, again))
  {
    HomesAreOwn(env, s, o.p, a.workspaceId);
    hide SysInv, OwnId, Answering;
  }

  lemma ActiveLeads(env: Env, s: Sys, c: Publishing, o: Opening, e: Sys, a: Approval, refs: seq<ObjectRef>,
                    again: seq<ObjectRef>)
    requires c.id in s.drafts && a == ApprovalOf(env, s, c) && SysInv(env, e) && o.cid !in e.conversations
    requires LivesIn(e.registry, o.p, a.workspaceId) && OwnScope(a.workspaceId, OpeningScope(o, a.workspaceId))
    requires ResolveActive(e.registry, a.workspaceId) == Ok(NewestOf(env, s, c, a.digest))
    requires IsDigestName(a.digest) && IsWorkspaceId(a.workspaceId)
    ensures Leads(env, e, [StepOf(e, o, a, refs, again)],
                  StartedWith(e, PinOf(env, s, c, o), AttemptOf(env, e, o, a, refs, again), o.place))
  {
    assert Inv(e.registry);
    hide Inv, SysInv, Leads, Next, DigestOf, IsWorkspaceId, IsDigestName, ResolveActive, AttemptOf, StartedWith,
      StepOf, Pinned, Possible, Undisturbed, LivesIn;
    OpeningIsPossible(env, e, o, a, refs, again);
    StartOnActive(env, e, o, a, NewestOf(env, s, c, a.digest), refs, again);
    SingleStep(env, e, StepOf(e, o, a, refs, again));
  }

  /** From draft to session: take any reachable state that undisturbed steps led to and any submitted
      draft in it. Publish the draft with activation and let the owner of its workspace start. This adds
      a session that has exactly the draft's files and is pinned to the new generation, if the draft's
      paths are canonical and none is a directory of another; otherwise it adds nothing. */
  lemma DraftBecomesSession(env: Env, steps: seq<Step>, s: Sys, c: Publishing, o: Opening, refs: seq<ObjectRef>,
                            again: seq<ObjectRef>)
    requires Leads(env, INITIAL, steps, s) && Publishes(s, c) && CanOpen(env, s, c, o, refs, again)
    requires var e, a := AfterPublishing(env, s, c), ApprovalOf(env, s, c);
             && o.place.catalog == None
             && !Collide(env.platform.sha, a.files,
                         FilesBelow(AttemptOf(env, e, o, a, refs, again).tree, SkillsOf(a, o.place)))
    ensures var e, files := AfterPublishing(env, s, c), s.drafts[c.id].files;
            Leads(env, INITIAL, Story(env, steps, s, c, o, refs, again),
                  if PrefixFree(files.Keys) then Running(e, PinOf(env, s, c, o), false, files) else e)
  {
    var e, a := AfterPublishing(env, s, c), ApprovalOf(env, s, c);
    InitialInv(env);
    hide Run, PossibleRun, UndisturbedRun, SysInv, AfterPublishing, Names, DigestOf, IsWorkspaceId, Collide,
      FilesBelow, PrefixFree, Distinguishable, Listings, Fresh, Story, StepsOf, Registered, Prefix, ResolveActive,
      NewestOf, Attempt, Generations;
    LeadsKeeps(env, INITIAL, steps, s);
    StoryLeads(env, steps, s, c, o, refs, again);
    ReadyToStart(env, s, c, o);
    PublishThenStart(env, steps + StepsOf(c, HomeOfDraft(s, c)), a, OpeningScope(o, a.workspaceId), o.place, refs,
                     again);
  }

  /** The same with a catalog: the session has the catalog overridden by the draft's files, and starts if
      and only if each of them can be written over the catalog. */
  lemma DraftBecomesSessionOverCatalog(env: Env, steps: seq<Step>, s: Sys, c: Publishing, o: Opening,
                                       refs: seq<ObjectRef>, again: seq<ObjectRef>)
    requires Leads(env, INITIAL, steps, s) && Publishes(s, c) && CanOpen(env, s, c, o, refs, again)
    requires forall k :: k in s.drafts[c.id].files ==> Canonical(k)
    requires o.place.catalog.Some?
    requires CatalogApart(o.place.disk, o.place.catalog.value, SkillsOf(ApprovalOf(env, s, c), o.place))
    ensures var e, files, base := AfterPublishing(env, s, c), s.drafts[c.id].files, o.place.catalog.value;
            Leads(env, INITIAL, Story(env, steps, s, c, o, refs, again),
                  if Fits(o.place.disk, base, files.Keys)
                  then Running(e, PinOf(env, s, c, o), true, FilesBelow(o.place.disk, base) + files)
                  else e)
  {
    var e, a := AfterPublishing(env, s, c), ApprovalOf(env, s, c);
    InitialInv(env);
    hide Run, PossibleRun, UndisturbedRun, SysInv, AfterPublishing, Names, DigestOf, IsWorkspaceId, FilesBelow, Fits,
      Canonical, Distinguishable, Listings, Fresh, Story, StepsOf, Registered, Prefix, ResolveActive, NewestOf,
      Attempt, Generations, CatalogApart;
    LeadsKeeps(env, INITIAL, steps, s);
    StoryLeads(env, steps, s, c, o, refs, again);
    ReadyToStart(env, s, c, o);
    PublishThenStartOverCatalog(env, steps + StepsOf(c, HomeOfDraft(s, c)), a, OpeningScope(o, a.workspaceId), o.place,
                                refs, again);
  }
}
