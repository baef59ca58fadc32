/** What the draft calls and a publication do, spelled out: which drafts are taken, which objects are written,
    what is entered in the registry, and with which error a call is refused. */
module Publications {
  import opened Text
  import opened Json
  import opened Integrity
  import opened PlainPaths
  import opened Layout
  import opened FlatStorage
  import opened Registry
  import opened Drafts

  // ---------------------------------------------------------------------------
  // The draft calls
  // ---------------------------------------------------------------------------

  /** A new draft is open and empty, or holds the printed manifest of the revision it is based on; a base
      that the registry does not know is not found. */
  lemma CreateMeans(platform: Platform, registry: State, drafts: Table, id: string, w: string, base: Option<string>)
    ensures var r := Create(platform, registry, drafts, id, w, base);
            match base
            case None => r == Ok(drafts[id := Draft(w, Open, None, map[], {})])
            case Some(digest) =>
              var key := RevisionKey(w, digest);
              if key !in registry.revisions then r == Err(NotFound)
              else
                var printed := platform.dumps(registry.revisions[key].manifest);
                r == Ok(drafts[id := Draft(w, Open, Some(digest), map["manifest.json" := printed], {})])
  {
  }

  /** The error with which a call on a draft that is gone or closed is refused. */
  ghost predicate IsClosed(drafts: Table, id: string, e: Error) {
    || (id !in drafts && e == NotFound)
    || (id in drafts && drafts[id].status in {Published, Abandoned} && e == Conflict)
  }

  ghost predicate StaysOpen(drafts: Table, id: string) {
    id in drafts && drafts[id].status in {Open, Validated, Submitted}
  }

  /** `after` is `before` but for the draft, which still has its workspace and its base. */
  ghost predicate OnlyDraftChanged(before: Table, after: Table, id: string)
    requires id in before
  {
    && after.Keys == before.Keys && (forall other :: other in before && other != id ==> after[other] == before[other])
    && after[id].workspaceId == before[id].workspaceId && after[id].baseDigest == before[id].baseDigest
  }

  /** A patch sets or removes the one path, and the draft must be validated anew. */
  lemma PatchMeans(drafts: Table, id: string, path: string, content: Option<Bytes>)
    ensures var r := Patch(drafts, id, path, content);
            && (r.Ok? <==> StaysOpen(drafts, id))
            && (r.Err? ==> IsClosed(drafts, id, r.error))
            && (r.Ok? ==>
                  && OnlyDraftChanged(drafts, r.value, id)
                  && r.value[id].status == Open && r.value[id].problems == {}
                  && (content.Some? ==> path in r.value[id].files && r.value[id].files[path] == content.value)
                  && (content.None? ==> path !in r.value[id].files)
                  && forall other :: other != path ==>
                                       && (other in r.value[id].files <==> other in drafts[id].files)
                                       && (other in drafts[id].files ==>
                                             r.value[id].files[other] == drafts[id].files[other]))
  {
  }

  /** Validation leaves the files alone and records the verdict on them. */
  lemma ValidateMeans(platform: Platform, drafts: Table, id: string)
    ensures var r := Validate(platform, drafts, id);
            && (r.Ok? <==> StaysOpen(drafts, id))
            && (r.Err? ==> IsClosed(drafts, id, r.error))
            && (r.Ok? ==>
                  OnlyDraftChanged(drafts, r.value, id) && r.value[id].files == drafts[id].files
                  && IsVerdict(platform, drafts[id], r.value[id]))
  {
    hide IsVerdict, Problems;
    if id in drafts {
      CheckedIsVerdict(platform, drafts[id]);
    }
  }

  /** Only a validated draft is submitted, and nothing else about it changes. */
  lemma SubmitMeans(drafts: Table, id: string)
    ensures var r := Submit(drafts, id);
            && (r.Ok? <==> id in drafts && drafts[id].status == Validated)
            && (r.Err? ==> if StaysOpen(drafts, id) then r.error == Validation else IsClosed(drafts, id, r.error))
            && (r.Ok? ==>
                  && OnlyDraftChanged(drafts, r.value, id) && r.value[id].status == Submitted
                  && r.value[id].files == drafts[id].files && r.value[id].problems == drafts[id].problems)
  {
  }

  // ---------------------------------------------------------------------------
  // Success
  // ---------------------------------------------------------------------------

  /** The start of every key of a revision. */
  function RevisionPrefixText(w: string, digest: string): string {
    "workspaces/" + w + "/revisions/sha256-" + digest + "/"
  }

  /** The key of each path of a revision. */
  function SkillNames(w: string, digest: string): string -> string {
    path => RevisionPrefixText(w, digest) + "skills/" + path
  }

  function ManifestName(w: string, digest: string): string {
    RevisionPrefixText(w, digest) + "manifest.json"
  }

  /** The draft is there, submitted and of the workspace; its paths are plain and its manifest parses. */
  ghost predicate CanPublish(platform: Platform, drafts: Table, id: string, w: string) {
    && id in drafts && drafts[id].status == Submitted && drafts[id].workspaceId == w
    && (forall path :: path in drafts[id].files ==> IsPlainPath(path))
    && "manifest.json" in drafts[id].files
    && platform.loads(drafts[id].files["manifest.json"]).Some?
  }

  /** `after` is `before` with the files written under their names and `data` at `key`. */
  ghost predicate WrittenOver(before: Objects, after: Objects, files: Files, name: string -> string, key: string,
                              data: Bytes) {
    && (forall path :: path in files ==> name(path) in after && after[name(path)] == files[path])
    && key in after && after[key] == data
    && (forall k :: k in before ==> k in after)
    && (forall k :: k in after ==>
          k == key || (exists path :: path in files && k == name(path)) || (k in before && after[k] == before[k]))
  }

  /** The objects are those from before with the files under the revision's skills prefix and a printed
      copy of the manifest. */
  ghost predicate HoldsRevision(platform: Platform, d: Draft, digest: string, before: Objects, after: Objects)
    requires "manifest.json" in d.files && platform.loads(d.files["manifest.json"]).Some?
  {
    WrittenOver(before, after, d.files, SkillNames(d.workspaceId, digest), ManifestName(d.workspaceId, digest),
                platform.dumps(platform.loads(d.files["manifest.json"]).value))
  }

  /** The registry knows the revision, which it keeps if it knew one with the key; nothing else is new but
      the generation that an activation appends. */
  ghost predicate EntersRevision(platform: Platform, d: Draft, digest: string, activate: bool, note: string, now: int,
                                 before: State, after: State)
    requires "manifest.json" in d.files && platform.loads(d.files["manifest.json"]).Some?
  {
    var w, key := d.workspaceId, RevisionKey(d.workspaceId, digest);
    var manifest := platform.loads(d.files["manifest.json"]).value;
    && after.byPrincipal == before.byPrincipal
    && after.revisions == (if key in before.revisions then before.revisions
                           else before.revisions[key := Revision(w, digest, manifest, now, d.baseDigest)])
    && (!activate ==> after.generations == before.generations && after.workspaces == before.workspaces)
    && (activate && w in before.workspaces ==>
          var number := |Generations(before, w)| + 1;
          && after.generations
             == before.generations[w := Generations(before, w) + [Generation(w, number, digest, now, note)]]
          && after.workspaces == before.workspaces[w := before.workspaces[w].(activeGeneration := Some(number))])
  }

  /** What a successful publication leaves and answers. */
  ghost predicate IsPublication(platform: Platform, w: string, id: string, activate: bool, note: string, now: int,
                                before: World, after: World, r: PublishResult)
    requires CanPublish(platform, before.drafts, id, w)
  {
    var d := before.drafts[id];
    var digest := Digest(platform.sha, d.files);
    && HoldsRevision(platform, d, digest, before.objects, after.objects)
    && EntersRevision(platform, d, digest, activate, note, now, before.registry, after.registry)
    && after.drafts == before.drafts[id := d.(status := Published)]
    && r.digest == digest
    && r.generation == if activate then Some(|Generations(before.registry, w)| + 1) else None
  }

  lemma KeysAre(w: string, digest: string, path: string)
    ensures SkillKey(w, digest, path) == SkillNames(w, digest)(path)
    ensures ManifestKey(w, digest) == ManifestName(w, digest)
  {
    assert RevisionRoot(w, digest) == RevisionPrefixText(w, digest);
  }

  lemma CheckedCanPublish(platform: Platform, drafts: Table, id: string, w: string)
    ensures PublishCheck(platform, drafts, id, w).Ok? <==> CanPublish(platform, drafts, id, w)
    ensures PublishCheck(platform, drafts, id, w).Ok? ==> PublishCheck(platform, drafts, id, w).value == drafts[id]
  {
    forall path ensures SafePath(path) <==> IsPlainPath(path) {
      SafeIsPlain(path);
    }
    hide SafePath, IsPlainPath;
  }

  lemma SkillsAreNamed(w: string, digest: string, files: Files)
    ensures var skills, name := SkillObjects(w, digest, files), SkillNames(w, digest);
            && (forall path :: path in files ==> name(path) in skills && skills[name(path)] == files[path])
            && (forall k :: k in skills ==> exists path :: path in files && k == name(path))
  {
    hide SkillKey, SkillNames;
    forall path ensures SkillKey(w, digest, path) == SkillNames(w, digest)(path) {
      KeysAre(w, digest, path);
    }
  }

  lemma NamedIsWritten(o: Objects, named: Objects, key: string, data: Bytes, files: Files, name: string -> string)
    requires forall path :: path in files ==> name(path) in named && named[name(path)] == files[path]
    requires forall k :: k in named ==> exists path :: path in files && k == name(path)
    requires forall path :: path in files ==> name(path) != key
    ensures WrittenOver(o, (o + named)[key := data], files, name, key, data)
  {
  }

  lemma ObjectsHoldRevision(platform: Platform, o: Objects, d: Draft)
    requires ManifestOf(platform, d.files).Some?
    ensures HoldsRevision(platform, d, Digest(platform.sha, d.files), o, PublishedObjects(platform, o, d))
  {
    hide Digest, SkillKey, ManifestKey, SkillNames, ManifestName, WrittenOver, AreSkills;
    var w, digest := d.workspaceId, Digest(platform.sha, d.files);
    SkillsAreNamed(w, digest, d.files);
    KeysAre(w, digest, "");
    forall path ensures SkillNames(w, digest)(path) != ManifestName(w, digest) {
      SkillIsNoManifest(w, digest, path);
    }
    NamedIsWritten(o, SkillObjects(w, digest, d.files), ManifestName(w, digest),
                   platform.dumps(ManifestOf(platform, d.files).value), d.files, SkillNames(w, digest));
  }

  lemma SkillIsNoManifest(w: string, digest: string, path: string)
    ensures SkillNames(w, digest)(path) != ManifestName(w, digest)
  {
    var root := RevisionPrefixText(w, digest);
    assert SkillNames(w, digest)(path)[|root|] == 's' && ManifestName(w, digest)[|root|] == 'm';
  }

  /** Recording keeps what is registered under the key. */
  lemma RecordMeans(before: State, rev: Revision)
    requires RecordRevision(before, rev).Ok?
    ensures var after, key := RecordRevision(before, rev).value, RevisionKey(rev.workspaceId, rev.contentDigest);
            && rev.workspaceId in before.workspaces && key in after.revisions
            && after == before.(revisions := if key in before.revisions then before.revisions
                                             else before.revisions[key := rev])
  {
  }

  /** Activating appends one generation and moves the pointer to it. */
  lemma ActivateMeans(before: State, w: string, digest: string, note: string, now: int)
    requires w in before.generations ==> Numbered(before, w)
    requires Activate(before, w, digest, note, now).Ok?
    ensures w in before.workspaces
    ensures var number := |Generations(before, w)| + 1;
            Activate(before, w, digest, note, now).value
            == before.(generations := before.generations[w := Generations(before, w)
                                                              + [Generation(w, number, digest, now, note)]],
                       workspaces := before.workspaces[w := before.workspaces[w].(activeGeneration := Some(number))])
    ensures NextNumber(Generations(before, w)) == |Generations(before, w)| + 1
  {
  }

  lemma EnterMeans(before: State, rev: Revision, activate: bool, note: string, now: int)
    requires Inv(before) && Enter(before, rev, activate, note, now).Ok?
    ensures rev.workspaceId in before.workspaces
    ensures var w, key, number := rev.workspaceId, RevisionKey(rev.workspaceId, rev.contentDigest),
                                  |Generations(before, rev.workspaceId)| + 1;
            Enter(before, rev, activate, note, now).value
            == State(
                 if !activate then before.workspaces
                 else before.workspaces[w := before.workspaces[w].(activeGeneration := Some(number))],
                 before.byPrincipal,
                 if key in before.revisions then before.revisions else before.revisions[key := rev],
                 if !activate then before.generations
                 else before.generations[w := Generations(before, w)
                                              + [Generation(w, number, rev.contentDigest, now, note)]])
    ensures activate ==> NextNumber(Generations(before, rev.workspaceId)) == |Generations(before, rev.workspaceId)| + 1
  {
    var w := rev.workspaceId;
    assert w in before.generations ==> Numbered(before, w);
    hide RecordRevision, Activate, Inv, Numbered, NextNumber;
    RecordMeans(before, rev);
    if activate {
      var recorded := RecordRevision(before, rev).value;
      StillNumbered(before, recorded, w);
      ActivateMeans(recorded, w, rev.contentDigest, note, now);
    }
  }

  lemma RegistryEntersRevision(platform: Platform, d: Draft, activate: bool, note: string, now: int, before: State)
    requires Inv(before) && ManifestOf(platform, d.files).Some?
    requires Enter(before, PublishedRevision(platform, d, now), activate, note, now).Ok?
    ensures d.workspaceId in before.workspaces
    ensures EntersRevision(platform, d, Digest(platform.sha, d.files), activate, note, now, before,
                           Enter(before, PublishedRevision(platform, d, now), activate, note, now).value)
    ensures activate ==> NextNumber(Generations(before, d.workspaceId)) == |Generations(before, d.workspaceId)| + 1
  {
    EnterMeans(before, PublishedRevision(platform, d, now), activate, note, now);
    hide Digest, Enter, Inv, NextNumber, Generations;
  }

  lemma StillNumbered(before: State, after: State, w: string)
    requires w in before.generations ==> Numbered(before, w)
    requires after == before.(revisions := after.revisions) && before.revisions.Keys <= after.revisions.Keys
    ensures w in after.generations ==> Numbered(after, w)
    ensures Generations(after, w) == Generations(before, w)
  {
  }

  /** A successful outcome is the one in which the guard let everything through. */
  lemma SuccessIsEntered(platform: Platform, w: string, scope: Option<string>, id: string, activate: bool,
                         note: string, now: int, before: World, after: World, r: Result<PublishResult>)
    requires (after, r) in PublishOutcomes(platform, w, scope, id, activate, note, now, before) && r.Ok?
    ensures CanPublish(platform, before.drafts, id, w) && ManifestOf(platform, before.drafts[id].files).Some?
    ensures before.drafts[id].workspaceId == w
    ensures (after, r) == Entered(platform, id, before.drafts[id], activate, note, now,
                                  before.(objects := PublishedObjects(platform, before.objects, before.drafts[id])))
  {
    CheckedCanPublish(platform, before.drafts, id, w);
    hide CanPublish, PublishCheck, Digest, Entered, PublishedObjects, GuardsPass, StoppedShort;
    DraftCanPublish(platform, before.drafts, id, w);
  }

  /** A publication that succeeds does all of this and nothing else. */
  lemma SuccessfulPublication(platform: Platform, w: string, scope: Option<string>, id: string, activate: bool,
                              note: string, now: int, before: World, after: World, r: Result<PublishResult>)
    requires (after, r) in PublishOutcomes(platform, w, scope, id, activate, note, now, before)
    requires Inv(before.registry) && r.Ok?
    ensures CanPublish(platform, before.drafts, id, w) && w in before.registry.workspaces
    ensures IsPublication(platform, w, id, activate, note, now, before, after, r.value)
  {
    hide PublishOutcomes, HoldsRevision, EntersRevision, Inv, Digest, Entered, PublishedObjects, NextNumber, CanPublish,
      ManifestOf, Generations;
    SuccessIsEntered(platform, w, scope, id, activate, note, now, before, after, r);
    DraftCanPublish(platform, before.drafts, id, w);
    var d := before.drafts[id];
    ObjectsHoldRevision(platform, before.objects, d);
    EnteredMeans(platform, id, d, activate, note, now,
                 before.(objects := PublishedObjects(platform, before.objects, d)));
  }

  lemma EnteredMeans(platform: Platform, id: string, d: Draft, activate: bool, note: string, now: int, before: World)
    requires Inv(before.registry) && ManifestOf(platform, d.files).Some?
    requires Entered(platform, id, d, activate, note, now, before).1.Ok?
    ensures d.workspaceId in before.registry.workspaces
    ensures var (after, r) := Entered(platform, id, d, activate, note, now, before);
            && after.objects == before.objects && after.drafts == before.drafts[id := d.(status := Published)]
            && EntersRevision(platform, d, Digest(platform.sha, d.files), activate, note, now, before.registry,
                              after.registry)
            && r.value == PublishResult(Digest(platform.sha, d.files),
                                        if activate then Some(|Generations(before.registry, d.workspaceId)| + 1)
                                        else None)
  {
    RegistryEntersRevision(platform, d, activate, note, now, before.registry);
    hide EntersRevision, Inv, Digest, Enter, PublishedRevision, NextNumber, Generations;
  }

  lemma DraftCanPublish(platform: Platform, drafts: Table, id: string, w: string)
    requires CanPublish(platform, drafts, id, w)
    ensures id in drafts && drafts[id].workspaceId == w && ManifestOf(platform, drafts[id].files).Some?
  {
  }

  // ---------------------------------------------------------------------------
  // Refusal
  // ---------------------------------------------------------------------------

  /** The error with which the first failing check refuses. */
  ghost function Refusal(platform: Platform, before: World, id: string, w: string): Error {
    if id !in before.drafts then NotFound
    else if before.drafts[id].status != Submitted then Validation
    else if before.drafts[id].workspaceId != w then Conflict
    else if !CanPublish(platform, before.drafts, id, w) then BadValue
    else NotFound
  }

  /** Through an adapter of the workspace, exactly the drafts that can be published and whose workspace is
      known are published. Everything else is refused with the error of the first failing check, and
      neither registry nor drafts change; objects change only if the workspace alone is unknown. */
  lemma RefusedPublication(platform: Platform, w: WorkspaceId, scope: Option<string>, id: string, activate: bool,
                           note: string, now: int, before: World, after: World, r: Result<PublishResult>)
    requires (after, r) in PublishOutcomes(platform, w, scope, id, activate, note, now, before)
    requires scope == None || scope == Some("workspaces/" + w + "/")
    ensures r.Ok? <==> CanPublish(platform, before.drafts, id, w) && w in before.registry.workspaces
    ensures r.Err? ==> r.error == Refusal(platform, before, id, w)
    ensures r.Err? ==> after.registry == before.registry && after.drafts == before.drafts
    ensures r.Err? && !CanPublish(platform, before.drafts, id, w) ==> after.objects == before.objects
  {
    CheckedCanPublish(platform, before.drafts, id, w);
    if CanPublish(platform, before.drafts, id, w) {
      var d := before.drafts[id];
      DraftPasses(platform, before.drafts, id, w, scope);
      hide CanPublish, PublishCheck, Digest, PublishedObjects, GuardsPass, StoppedShort, ManifestOf;
      EnterSucceeds(before.registry, PublishedRevision(platform, d, now), activate, note, now);
    } else {
      hide CanPublish, Publishable;
      RefusedByCheck(platform, before.drafts, id, w);
    }
  }

  lemma RefusedByCheck(platform: Platform, drafts: Table, id: string, w: string)
    requires !CanPublish(platform, drafts, id, w)
    ensures PublishCheck(platform, drafts, id, w)
            == Err(if id !in drafts then NotFound
                   else if drafts[id].status != Submitted then Validation
                   else if drafts[id].workspaceId != w then Conflict
                   else BadValue)
  {
    CheckedCanPublish(platform, drafts, id, w);
    hide CanPublish, Publishable;
  }

  lemma EnterSucceeds(before: State, rev: Revision, activate: bool, note: string, now: int)
    ensures Enter(before, rev, activate, note, now).Ok? <==> rev.workspaceId in before.workspaces
    ensures Enter(before, rev, activate, note, now).Err? ==> Enter(before, rev, activate, note, now) == Err(NotFound)
  {
  }

  lemma DraftPasses(platform: Platform, drafts: Table, id: string, w: WorkspaceId, scope: Option<string>)
    requires CanPublish(platform, drafts, id, w)
    requires scope == None || scope == Some("workspaces/" + w + "/")
    ensures drafts[id].workspaceId == w && ManifestOf(platform, drafts[id].files).Some?
    ensures GuardsPass(w, scope, DigestOf(platform, drafts[id]), drafts[id].files)
  {
    forall path | path in drafts[id].files ensures SafePath(path) {
      SafeIsPlain(path);
    }
    hide SafePath, IsPlainPath;
    assert DigestOf(platform, drafts[id])[..64] == DigestOf(platform, drafts[id]);
    BrokerScopeSuffices(w, scope, DigestOf(platform, drafts[id]), drafts[id].files);
  }
}
