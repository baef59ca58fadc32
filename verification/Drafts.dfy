/** Drafts and their publication: the only way skills get written. */
module Drafts {
  import opened Text
  import opened Json
  import opened Integrity
  import opened PlainPaths
  import opened Layout
  import opened FlatStorage
  import opened Registry

  // ---------------------------------------------------------------------------
  // Draft values
  // ---------------------------------------------------------------------------

  datatype DraftStatus = Open | Validated | Submitted | Published | Abandoned

  datatype Problem =
    | UnsafePath(path: string)
    | ManifestMissing
    | ManifestNotJson
    | ManifestNotObject
    | ManifestUnnamed
    | PolicyViolation(message: string)

  datatype Draft = Draft(
    workspaceId: string,
    status: DraftStatus,
    baseDigest: Option<string>,
    files: Files,
    problems: set<Problem>)

  /** The code the service depends on: hashing, JSON and the organisation's extra validators, which
      look at a draft's workspace, base and files. */
  datatype Platform = Platform(
    sha: Sha256,
    loads: Bytes -> Option<Json>,
    dumps: Json -> Bytes,
    policy: (string, Option<string>, Files) -> set<string>)

  const MANIFEST := "manifest.json"

  function PathProblems(files: Files): set<Problem> {
    set p | p in files && !SafePath(p) :: UnsafePath(p)
  }

  function ManifestProblems(platform: Platform, files: Files): set<Problem> {
    if MANIFEST !in files then {ManifestMissing}
    else
      match platform.loads(files[MANIFEST])
      case None => {ManifestNotJson}
      case Some(Object(fields)) => if "name" in fields then {} else {ManifestUnnamed}
      case Some(_) => {ManifestNotObject}
  }

  function PolicyProblems(platform: Platform, w: string, base: Option<string>, files: Files): set<Problem> {
    set m | m in platform.policy(w, base, files) :: PolicyViolation(m)
  }

  /** All validators in turn. */
  function Problems(platform: Platform, w: string, base: Option<string>, files: Files): set<Problem> {
    PathProblems(files) + ManifestProblems(platform, files) + PolicyProblems(platform, w, base, files)
  }

  // ---------------------------------------------------------------------------
  // What validation asks for
  // ---------------------------------------------------------------------------

  /** `manifest.json` is there and parses to an object that has a name. */
  ghost predicate HasNamedManifest(platform: Platform, files: Files) {
    && "manifest.json" in files
    && match platform.loads(files["manifest.json"])
       case Some(Object(fields)) => "name" in fields
       case _ => false
  }

  /** Every path is plain, there is a manifest with a name, and the organisation has no objection. */
  ghost predicate Passes(platform: Platform, w: string, base: Option<string>, files: Files) {
    && (forall path :: path in files ==> IsPlainPath(path))
    && HasNamedManifest(platform, files)
    && platform.policy(w, base, files) == {}
  }

  /** The problems say what is wrong: each unsafe path, each objection of the organisation, and what the
      manifest lacks. */
  ghost predicate Explains(platform: Platform, w: string, base: Option<string>, files: Files, problems: set<Problem>) {
    && (forall path :: UnsafePath(path) in problems <==> path in files && !IsPlainPath(path))
    && (forall message :: PolicyViolation(message) in problems <==> message in platform.policy(w, base, files))
    && ExplainsManifest(platform, files, problems)
  }

  ghost predicate ExplainsManifest(platform: Platform, files: Files, problems: set<Problem>) {
    && (ManifestMissing in problems <==> "manifest.json" !in files)
    && (ManifestNotJson in problems <==> "manifest.json" in files && platform.loads(files["manifest.json"]) == None)
    && (ManifestNotObject in problems <==>
          && "manifest.json" in files && platform.loads(files["manifest.json"]).Some?
          && !platform.loads(files["manifest.json"]).value.Object?)
    && (ManifestUnnamed in problems <==>
          && "manifest.json" in files && platform.loads(files["manifest.json"]).Some?
          && platform.loads(files["manifest.json"]).value.Object?
          && "name" !in platform.loads(files["manifest.json"]).value.fields)
  }

  lemma ProblemsExplain(platform: Platform, w: string, base: Option<string>, files: Files)
    ensures Explains(platform, w, base, files, Problems(platform, w, base, files))
  {
    hide SafePath, IsPlainPath, ExplainsManifest, ManifestProblems;
    ManifestExplained(platform, w, base, files);
    forall path
      ensures UnsafePath(path) in Problems(platform, w, base, files) <==> path in files && !IsPlainPath(path)
    {
      SafeIsPlain(path);
      NoManifestProblem(platform, files, UnsafePath(path));
    }
    forall message
      ensures PolicyViolation(message) in Problems(platform, w, base, files)
              <==> message in platform.policy(w, base, files)
    {
      NoManifestProblem(platform, files, PolicyViolation(message));
    }
  }

  lemma NoManifestProblem(platform: Platform, files: Files, x: Problem)
    requires x.UnsafePath? || x.PolicyViolation?
    ensures x !in ManifestProblems(platform, files)
  {
  }

  lemma ManifestExplained(platform: Platform, w: string, base: Option<string>, files: Files)
    ensures ExplainsManifest(platform, files, Problems(platform, w, base, files))
  {
    ManifestProblemsExplain(platform, files);
    OnlyManifestProblems(platform, w, base, files, ManifestMissing);
    OnlyManifestProblems(platform, w, base, files, ManifestNotJson);
    OnlyManifestProblems(platform, w, base, files, ManifestNotObject);
    OnlyManifestProblems(platform, w, base, files, ManifestUnnamed);
    hide Problems, ManifestProblems;
  }

  lemma OnlyManifestProblems(platform: Platform, w: string, base: Option<string>, files: Files, x: Problem)
    requires !x.UnsafePath? && !x.PolicyViolation?
    ensures x in Problems(platform, w, base, files) <==> x in ManifestProblems(platform, files)
  {
    hide ManifestProblems, SafePath;
  }

  lemma ManifestProblemsExplain(platform: Platform, files: Files)
    ensures ExplainsManifest(platform, files, ManifestProblems(platform, files))
  {
    if "manifest.json" in files {
      match platform.loads(files["manifest.json"])
      case None =>
      case Some(Object(fields)) =>
      case Some(_) =>
    }
  }

  /** A draft passes exactly when no problem is found. */
  lemma NoProblemsIffPasses(platform: Platform, w: string, base: Option<string>, files: Files)
    ensures Problems(platform, w, base, files) == {} <==> Passes(platform, w, base, files)
  {
    ProblemsExplain(platform, w, base, files);
    var problems := Problems(platform, w, base, files);
    hide Problems, IsPlainPath;
    if Passes(platform, w, base, files) {
      forall x ensures x !in problems {
        match x
        case UnsafePath(_) =>
        case PolicyViolation(_) =>
        case _ =>
      }
    }
    if problems == {} {
      PolicyIsSilent(platform, w, base, files, problems);
    }
  }

  lemma PolicyIsSilent(platform: Platform, w: string, base: Option<string>, files: Files, problems: set<Problem>)
    requires Explains(platform, w, base, files, problems) && problems == {}
    ensures platform.policy(w, base, files) == {}
  {
    forall message ensures message !in platform.policy(w, base, files) {
      assert PolicyViolation(message) !in problems;
    }
  }

  /** What `validate` leaves: the same draft with the verdict of all validators. */
  ghost predicate IsVerdict(platform: Platform, before: Draft, after: Draft) {
    && after.workspaceId == before.workspaceId && after.baseDigest == before.baseDigest && after.files == before.files
    && Explains(platform, before.workspaceId, before.baseDigest, before.files, after.problems)
    && (after.status == Validated <==> Passes(platform, before.workspaceId, before.baseDigest, before.files))
    && (after.status == Validated || after.status == Open)
  }

  lemma CheckedIsVerdict(platform: Platform, d: Draft)
    ensures IsVerdict(platform, d, Checked(platform, d))
  {
    ProblemsExplain(platform, d.workspaceId, d.baseDigest, d.files);
    NoProblemsIffPasses(platform, d.workspaceId, d.baseDigest, d.files);
    hide Problems, Explains, Passes;
  }

  /** The manifest that `publish` reads back from the draft's files. */
  function ManifestOf(platform: Platform, files: Files): Option<Json> {
    if MANIFEST in files then platform.loads(files[MANIFEST]) else None
  }

  function IsFrozen(d: Draft): bool {
    d.status == Published || d.status == Abandoned
  }

  function Patched(d: Draft, path: string, content: Option<Bytes>): Draft {
    var files := match content case None => d.files - {path} case Some(data) => d.files[path := data];
    d.(files := files, status := Open, problems := {})
  }

  function Checked(platform: Platform, d: Draft): Draft {
    var problems := Problems(platform, d.workspaceId, d.baseDigest, d.files);
    d.(problems := problems, status := if problems == {} then Validated else Open)
  }

  // ---------------------------------------------------------------------------
  // The draft table
  // ---------------------------------------------------------------------------

  type Table = map<string, Draft>

  function OpenDraft(drafts: Table, id: string): Result<Draft> {
    if id !in drafts then Err(NotFound)
    else if IsFrozen(drafts[id]) then Err(Conflict)
    else Ok(drafts[id])
  }

  /** A new draft, seeded with the manifest of its base revision. */
  function Seeded(platform: Platform, registry: State, w: string, base: Option<string>): Result<Draft> {
    match base
    case None => Ok(Draft(w, Open, None, map[], {}))
    case Some(digest) =>
      match GetRevision(registry, w, digest)
      case Err(e) => Err(e)
      case Ok(r) => Ok(Draft(w, Open, base, map[MANIFEST := platform.dumps(r.manifest)], {}))
  }

  function Create(platform: Platform, registry: State, drafts: Table, id: string, w: string,
                  base: Option<string>): Result<Table> {
    var d :- Seeded(platform, registry, w, base);
    Ok(drafts[id := d])
  }

  function Patch(drafts: Table, id: string, path: string, content: Option<Bytes>): Result<Table> {
    var d :- OpenDraft(drafts, id);
    Ok(drafts[id := Patched(d, path, content)])
  }

  function Validate(platform: Platform, drafts: Table, id: string): Result<Table> {
    var d :- OpenDraft(drafts, id);
    Ok(drafts[id := Checked(platform, d)])
  }

  function Submit(drafts: Table, id: string): Result<Table> {
    var d :- OpenDraft(drafts, id);
    if d.status != Validated then Err(Validation) else Ok(drafts[id := d.(status := Submitted)])
  }

  /** A draft that passed validation and was not touched since. */
  ghost predicate Vetted(platform: Platform, d: Draft) {
    d.status == Validated || d.status == Submitted ==> Problems(platform, d.workspaceId, d.baseDigest, d.files) == {}
  }

  ghost predicate AllVetted(platform: Platform, drafts: Table) {
    forall id :: id in drafts ==> Vetted(platform, drafts[id])
  }

  lemma DraftStepsKeepVetting(platform: Platform, registry: State, drafts: Table, id: string, w: string,
                              base: Option<string>,
                              path: string, content: Option<Bytes>)
    requires AllVetted(platform, drafts)
    ensures Create(platform, registry, drafts, id, w, base).Ok? ==>
              AllVetted(platform, Create(platform, registry, drafts, id, w, base).value)
    ensures Patch(drafts, id, path, content).Ok? ==> AllVetted(platform, Patch(drafts, id, path, content).value)
    ensures Validate(platform, drafts, id).Ok? ==> AllVetted(platform, Validate(platform, drafts, id).value)
    ensures Submit(drafts, id).Ok? ==> AllVetted(platform, Submit(drafts, id).value)
  {
  }

  /** What passes validation can be hashed and has a manifest object with a name. */
  lemma VettedCanBePublished(platform: Platform, d: Draft)
    requires Problems(platform, d.workspaceId, d.baseDigest, d.files) == {}
    ensures AllSafe(d.files)
    ensures MANIFEST in d.files && ManifestOf(platform, d.files).Some?
    ensures ManifestOf(platform, d.files).value.Object? && "name" in ManifestOf(platform, d.files).value.fields
  {
    assert PathProblems(d.files) == {} && ManifestProblems(platform, d.files) == {};
    forall p | p in d.files ensures SafePath(p) {
      assert !SafePath(p) ==> UnsafePath(p) in PathProblems(d.files);
    }
  }

  // ---------------------------------------------------------------------------
  // Publication
  // ---------------------------------------------------------------------------

  datatype PublishResult = PublishResult(digest: string, generation: Option<int>)

  function SkillKey(w: string, digest: string, rel: string): string {
    SkillsRoot(w, digest) + rel
  }

  /** `o` holds the files under their skill keys, and nothing else. */
  ghost predicate AreSkills(o: Objects, w: string, digest: string, files: Files) {
    && (forall rel :: rel in files ==> SkillKey(w, digest, rel) in o && o[SkillKey(w, digest, rel)] == files[rel])
    && (forall k :: k in o ==> exists rel :: rel in files && k == SkillKey(w, digest, rel))
  }

  lemma SkillsExist(w: string, digest: string, files: Files)
    ensures exists o :: AreSkills(o, w, digest, files)
  {
    var root := SkillsRoot(w, digest);
    var keys := set rel | rel in files :: root + rel;
    var o := map k | k in keys && |root| <= |k| && k[|root|..] in files :: files[k[|root|..]];
    forall rel | rel in files ensures SkillKey(w, digest, rel) in o && o[SkillKey(w, digest, rel)] == files[rel] {
      assert (root + rel)[|root|..] == rel;
    }
    assert AreSkills(o, w, digest, files);
  }

  /** The skill objects of a revision. */
  ghost function SkillObjects(w: string, digest: string, files: Files): (o: Objects)
    ensures AreSkills(o, w, digest, files)
  {
    SkillsExist(w, digest, files);
    var o :| AreSkills(o, w, digest, files);
    o
  }

  lemma SkillKeysDiffer(w: string, digest: string, p: string, q: string)
    requires SkillKey(w, digest, p) == SkillKey(w, digest, q)
    ensures p == q
  {
    DropPrefix(SkillsRoot(w, digest), p, q);
  }

  lemma SkillObject(w: string, digest: string, files: Files, rel: string)
    ensures SkillKey(w, digest, rel) in SkillObjects(w, digest, files) <==> rel in files
    ensures rel in files ==> SkillObjects(w, digest, files)[SkillKey(w, digest, rel)] == files[rel]
  {
    var o := SkillObjects(w, digest, files);
    if SkillKey(w, digest, rel) in o {
      var q :| q in files && SkillKey(w, digest, rel) == SkillKey(w, digest, q);
      SkillKeysDiffer(w, digest, rel, q);
    }
  }

  /** The files can be hashed and their manifest parses. */
  ghost predicate Publishable(platform: Platform, files: Files) {
    AllSafe(files) && ManifestOf(platform, files).Some?
  }

  ghost function DraftCheck(platform: Platform, d: Draft, w: string): Result<Draft> {
    if d.status != Submitted then Err(Validation)
    else if w != d.workspaceId then Err(Conflict)
    else if !Publishable(platform, d.files) then Err(BadValue)
    else Ok(d)
  }

  /** Everything `publish` checks before it writes. */
  ghost function PublishCheck(platform: Platform, drafts: Table, id: string, w: string): Result<Draft> {
    if id !in drafts then Err(NotFound) else DraftCheck(platform, drafts[id], w)
  }

  ghost function DigestOf(platform: Platform, d: Draft): string {
    Digest(platform.sha, d.files)
  }

  ghost function PublishedObjects(platform: Platform, o: Objects, d: Draft): Objects
    requires ManifestOf(platform, d.files).Some?
  {
    var digest := DigestOf(platform, d);
    (o + SkillObjects(d.workspaceId, digest, d.files))
      [ManifestKey(d.workspaceId, digest) := platform.dumps(ManifestOf(platform, d.files).value)]
  }

  ghost function PublishedRevision(platform: Platform, d: Draft, now: int): Revision
    requires ManifestOf(platform, d.files).Some?
  {
    Revision(d.workspaceId, DigestOf(platform, d), ManifestOf(platform, d.files).value, now, d.baseDigest)
  }

  /** Record the revision and, if asked to, activate it. */
  function Enter(registry: State, r: Revision, activate: bool, note: string, now: int): Result<State> {
    var recorded :- RecordRevision(registry, r);
    if activate then Activate(recorded, r.workspaceId, r.contentDigest, note, now) else Ok(recorded)
  }

  function EnteredGeneration(registry: State, w: string, activate: bool): Option<int> {
    if activate then Some(NextNumber(Generations(registry, w))) else None
  }

  /** Every key of the publication passes the adapter's guard. */
  ghost predicate GuardsPass(w: string, scope: Option<string>, digest: string, files: Files) {
    && SkillsPass(w, scope, digest, files)
    && Guard(w, scope, ManifestKey(w, digest)).Ok?
  }

  ghost predicate SkillsPass(w: string, scope: Option<string>, digest: string, files: Files) {
    forall rel :: rel in files ==> Guard(w, scope, SkillKey(w, digest, rel)).Ok?
  }

  /** With the broker's scope, or none, every key of a safe bundle passes. */
  lemma BrokerScopeSuffices(w: WorkspaceId, scope: Option<string>, digest: string, files: Files)
    requires scope == None || scope == Some(Prefix(w))
    requires IsDigestName(digest) && AllSafe(files)
    ensures GuardsPass(w, scope, digest, files)
  {
    ManifestKeyPassesTheGuard(w, digest);
    forall rel | rel in files ensures Guard(w, scope, SkillKey(w, digest, rel)).Ok? {
      SkillKeyPassesTheGuard(w, digest, rel);
    }
  }

  /** `o'` is `o` with some of the objects of `more` written over it. */
  ghost predicate PartiallyWritten(o: Objects, o': Objects, more: Objects) {
    && (forall k :: k in o ==> k in o')
    && (forall k :: k in o' ==> (k in o && o'[k] == o[k]) || (k in more && o'[k] == more[k]))
  }

  // ---------------------------------------------------------------------------
  // The service
  // ---------------------------------------------------------------------------

  /** A draft that its service edits in place. */
  class DraftRecord {
    const workspaceId: string
    const baseDigest: Option<string>
    var status: DraftStatus
    var files: Files
    var problems: set<Problem>

    constructor (workspaceId: string, baseDigest: Option<string>)
      ensures View() == Draft(workspaceId, Open, baseDigest, map[], {})
    {
      this.workspaceId := workspaceId;
      this.baseDigest := baseDigest;
      this.status := Open;
      this.files := map[];
      this.problems := {};
    }

    function View(): Draft
      reads this
    {
      Draft(workspaceId, status, baseDigest, files, problems)
    }
  }

  method ValidatePaths(files: Files) returns (problems: set<Problem>)
    ensures problems == PathProblems(files)
  {
    problems := {};
    var rest := files.Keys;
    while rest != {}
      invariant rest <= files.Keys
      invariant problems == set p | p in files && p !in rest && !SafePath(p) :: UnsafePath(p)
      decreases |rest|
    {
      var path :| path in rest;
      if !SafePath(path) {
        problems := problems + {UnsafePath(path)};
      }
      rest := rest - {path};
    }
  }

  /** Run the validators on a draft and record their verdict. */
  method Judge(platform: Platform, draft: DraftRecord)
    modifies draft
    ensures draft.View() == Checked(platform, old(draft.View()))
    ensures IsVerdict(platform, old(draft.View()), draft.View())
  {
    CheckedIsVerdict(platform, draft.View());
    hide IsVerdict;
    var problems := ValidatePaths(draft.files);
    problems := problems + ManifestProblems(platform, draft.files);
    problems := problems + PolicyProblems(platform, draft.workspaceId, draft.baseDigest, draft.files);
    draft.problems := problems;
    draft.status := if problems == {} then Validated else Open;
  }

  ghost predicate IsPart(written: Files, files: Files) {
    forall rel :: rel in written ==> rel in files && written[rel] == files[rel]
  }

  /** One iteration: `files - rest` is written, and `rel` is next. */
  method WriteSkill(storage: FlatStorage.Storage, digest: string, files: Files, rel: string, ghost rest: set<string>,
                    ghost before: Objects)
    returns (ok: bool)
    requires rel in files && rel in rest
    requires storage.bucket.objects == before + SkillObjects(storage.id, digest, files - rest)
    modifies storage.bucket
    ensures ok <==> Guard(storage.id, storage.scope, SkillKey(storage.id, digest, rel)).Ok?
    ensures storage.bucket.objects
            == before + SkillObjects(storage.id, digest, if ok then files - (rest - {rel}) else files - rest)
  {
    var put := storage.PutObject(SkillKey(storage.id, digest, rel), files[rel]);
    WriteOneMore(before, storage.id, digest, files - rest, rel, files[rel]);
    assert (files - rest)[rel := files[rel]] == files - (rest - {rel});
    ok := put.Ok?;
  }

  /** The loop of `publish` over the draft's files, in any order. */
  method WriteSkills(storage: FlatStorage.Storage, digest: string, files: Files) returns (ok: bool)
    modifies storage.bucket
    ensures ok <==> SkillsPass(storage.id, storage.scope, digest, files)
    ensures ok ==> storage.bucket.objects == old(storage.bucket.objects) + SkillObjects(storage.id, digest, files)
    ensures !ok ==>
              PartiallyWritten(old(storage.bucket.objects), storage.bucket.objects,
                               SkillObjects(storage.id, digest, files))
  {
    ghost var before := storage.bucket.objects;
    var rest := files.Keys;
    NothingWritten(before, storage.id, digest, files);
    while rest != {}
      invariant rest <= files.Keys
      invariant SkillsPass(storage.id, storage.scope, digest, files - rest)
      invariant storage.bucket.objects == before + SkillObjects(storage.id, digest, files - rest)
      decreases |rest|
    {
      var rel :| rel in rest;
      var wrote := WriteSkill(storage, digest, files, rel, rest, before);
      if !wrote {
        WrittenPart(before, storage.id, digest, files - rest, files);
        return false;
      }
      rest := rest - {rel};
    }
    assert files - {} == files;
    return true;
  }

  lemma NothingWritten(o: Objects, w: string, digest: string, files: Files)
    ensures o + SkillObjects(w, digest, files - files.Keys) == o
  {
    assert files - files.Keys == map[];
    NoSkills(w, digest);
  }

  lemma NoSkills(w: string, digest: string)
    ensures SkillObjects(w, digest, map[]) == map[]
  {
    assert forall k :: k !in SkillObjects(w, digest, map[]);
  }

  lemma WriteOneMore(o: Objects, w: string, digest: string, written: Files, rel: string, data: Bytes)
    ensures (o + SkillObjects(w, digest, written))[SkillKey(w, digest, rel) := data]
            == o + SkillObjects(w, digest, written[rel := data])
  {
    var a, b := SkillObjects(w, digest, written), SkillObjects(w, digest, written[rel := data]);
    forall k ensures k in b <==> k in a || k == SkillKey(w, digest, rel) {
      if k in b {
        var q :| q in written[rel := data] && k == SkillKey(w, digest, q);
        SkillObject(w, digest, written, q);
      }
      if k in a {
        var q :| q in written && k == SkillKey(w, digest, q);
        SkillObject(w, digest, written[rel := data], q);
      }
      SkillObject(w, digest, written[rel := data], rel);
    }
    forall k | k in b ensures b[k] == if k == SkillKey(w, digest, rel) then data else a[k] {
      var q :| q in written[rel := data] && k == SkillKey(w, digest, q);
      SkillObject(w, digest, written[rel := data], q);
      SkillObject(w, digest, written, q);
    }
  }

  lemma WrittenPart(o: Objects, w: string, digest: string, written: Files, files: Files)
    requires IsPart(written, files)
    ensures PartiallyWritten(o, o + SkillObjects(w, digest, written), SkillObjects(w, digest, files))
  {
    var a := SkillObjects(w, digest, written);
    forall k | k in a ensures k in SkillObjects(w, digest, files) && SkillObjects(w, digest, files)[k] == a[k] {
      var q :| q in written && k == SkillKey(w, digest, q);
      SkillObject(w, digest, written, q);
      SkillObject(w, digest, files, q);
    }
  }

  /** All the state that a publication can change. */
  datatype World = World(objects: Objects, registry: State, drafts: Table)

  /** What follows the writes: the revision is entered and the draft marked, or nothing changes. */
  ghost function Entered(platform: Platform, id: string, d: Draft, activate: bool, note: string, now: int,
                         before: World): (World, Result<PublishResult>)
    requires ManifestOf(platform, d.files).Some?
  {
    match Enter(before.registry, PublishedRevision(platform, d, now), activate, note, now)
    case Err(e) => (before, Err(e))
    case Ok(registry) => (
      World(before.objects, registry, before.drafts[id := d.(status := Published)]),
      Ok(PublishResult(DigestOf(platform, d), EnteredGeneration(before.registry, d.workspaceId, activate))))
  }

  lemma EnteringSucceeds(platform: Platform, id: string, d: Draft, activate: bool, note: string, now: int,
                         before: World)
    requires ManifestOf(platform, d.files).Some?
    ensures Entered(platform, id, d, activate, note, now, before)
            == match Enter(before.registry, PublishedRevision(platform, d, now), activate, note, now)
               case Err(e) => (before, Err(e))
               case Ok(registry) => (
                 World(before.objects, registry, before.drafts[id := d.(status := Published)]),
                 Ok(PublishResult(Digest(platform.sha, d.files),
                                  EnteredGeneration(before.registry, d.workspaceId, activate))))
  {
    hide Enter, EnteredGeneration, Digest, PublishedRevision;
  }

  /** A refused key stops the publication after some of its writes. */
  ghost predicate StoppedShort(platform: Platform, d: Draft, before: World, after: World) {
    && PartiallyWritten(before.objects, after.objects, SkillObjects(d.workspaceId, DigestOf(platform, d), d.files))
    && after.registry == before.registry && after.drafts == before.drafts
  }

  /** The possible outcomes of a publication that passed its checks. */
  ghost function WriteOutcomes(platform: Platform, scope: Option<string>, id: string, d: Draft, activate: bool,
                               note: string, now: int,
                               before: World): iset<(World, Result<PublishResult>)>
    requires ManifestOf(platform, d.files).Some?
  {
    if GuardsPass(d.workspaceId, scope, DigestOf(platform, d), d.files) then
      iset{Entered(platform, id, d, activate, note, now,
                   before.(objects := PublishedObjects(platform, before.objects, d)))}
    else
      iset x: (World, Result<PublishResult>) | StoppedShort(platform, d, before, x.0) && x.1 == Err(Isolation)
  }

  /** The possible outcomes of a publication. */
  ghost function PublishOutcomes(platform: Platform, w: string, scope: Option<string>, id: string, activate: bool,
                                 note: string, now: int,
                                 before: World): iset<(World, Result<PublishResult>)>
  {
    match PublishCheck(platform, before.drafts, id, w)
    case Err(e) => iset{(before, Err(e))}
    case Ok(d) => WriteOutcomes(platform, scope, id, d, activate, note, now, before)
  }

  /** The writes of `publish`: every skill file, then the manifest copy. */
  method WriteRevision(platform: Platform, storage: FlatStorage.Storage, files: Files) returns (digest: string,
      ok: bool)
    requires AllSafe(files) && ManifestOf(platform, files).Some?
    modifies storage.bucket
    ensures digest == Digest(platform.sha, files)
    ensures ok <==> GuardsPass(storage.id, storage.scope, digest, files)
    ensures ok ==> storage.bucket.objects ==
                   (old(storage.bucket.objects) + SkillObjects(storage.id, digest, files))
                     [ManifestKey(storage.id, digest) := platform.dumps(ManifestOf(platform, files).value)]
    ensures !ok ==>
              PartiallyWritten(old(storage.bucket.objects), storage.bucket.objects,
                               SkillObjects(storage.id, digest, files))
  {
    var hashed := DigestFiles(platform.sha, files);
    digest := hashed.value;
    ok := WriteSkills(storage, digest, files);
    if ok {
      var put := storage.PutObject(ManifestKey(storage.id, digest),
                                   platform.dumps(platform.loads(files[MANIFEST]).value));
      ok := put.Ok?;
    }
  }

  method EnterRevision(registry: InMemoryRegistry, r: Revision, activate: bool, note: string,
                       now: int) returns (result: Result<Option<int>>)
    requires registry.Valid()
    modifies registry, registry.workspaces.Values
    ensures registry.Valid() && registry.workspaces == old(registry.workspaces)
    ensures match Enter(old(registry.View()), r, activate, note, now)
            case Ok(entered) =>
              && registry.View() == entered
              && result == Ok(EnteredGeneration(old(registry.View()), r.workspaceId, activate))
            case Err(e) => result == Err(e) && registry.View() == old(registry.View())
  {
    var recorded := registry.AddRevision(r);
    if recorded.Err? {
      return Err(NotFound);
    }
    if !activate {
      return Ok(None);
    }
    var gen := registry.ActivateRevision(r.workspaceId, r.contentDigest, note, now);
    return Ok(Some(gen.value.number));
  }

  method CheckDraft(platform: Platform, draft: DraftRecord, w: string) returns (problem: Option<Error>)
    ensures problem == match DraftCheck(platform, draft.View(), w) case Ok(_) => None case Err(e) => Some(e)
  {
    if draft.status != Submitted {
      return Some(Validation);
    }
    if w != draft.workspaceId {
      return Some(Conflict);
    }
    var digest := DigestFiles(platform.sha, draft.files);
    var parsed := ManifestOf(platform, draft.files);
    return if digest.Err? || parsed.None? then Some(BadValue) else None;
  }

  class DraftService {
    const platform: Platform
    const registry: InMemoryRegistry
    var drafts: map<string, DraftRecord>

    constructor (platform: Platform, registry: InMemoryRegistry)
      ensures Valid() && View() == map[] && fresh(Repr())
      ensures this.platform == platform && this.registry == registry
    {
      this.platform := platform;
      this.registry := registry;
      drafts := map[];
    }

    ghost function Repr(): set<object>
      reads this
    {
      {this} + drafts.Values
    }

    /** No two ids share a draft. */
    ghost predicate Valid()
      reads this
    {
      forall a, b :: a in drafts && b in drafts && a != b ==> drafts[a] != drafts[b]
    }

    ghost function View(): Table
      reads this, drafts.Values
    {
      map id | id in drafts :: drafts[id].View()
    }

    method SeedDraft(w: string, base: Option<string>) returns (r: Result<DraftRecord>)
      requires registry.Valid()
      ensures match Seeded(platform, registry.View(), w, base)
              case Ok(d) => r.Ok? && fresh(r.value) && r.value.View() == d
              case Err(e) => r == Err(e)
    {
      var draft := new DraftRecord(w, base);
      if base.Some? {
        var rev := registry.FindRevision(w, base.value);
        if rev.Err? {
          return Err(rev.error);
        }
        draft.files := map[MANIFEST := platform.dumps(rev.value.manifest)];
      }
      return Ok(draft);
    }

    method InstallDraft(id: string, draft: DraftRecord)
      requires Valid() && draft !in drafts.Values
      modifies this
      ensures Valid() && drafts == old(drafts)[id := draft]
      ensures View() == old(View())[id := draft.View()]
    {
      drafts := drafts[id := draft];
    }

    /** `id` is the random id of the new draft. */
    method CreateDraft(id: string, w: string, base: Option<string>) returns (r: Result<DraftRecord>)
      requires Valid() && registry.Valid() && id !in drafts
      modifies this
      ensures Valid() && fresh(Repr() - old(Repr()))
      ensures match Seeded(platform, registry.View(), w, base)
              case Ok(d) => View() == old(View())[id := d] && id in drafts && r == Ok(drafts[id])
              case Err(e) => r == Err(e) && drafts == old(drafts) && View() == old(View())
    {
      r := SeedDraft(w, base);
      if r.Ok? {
        InstallDraft(id, r.value);
      }
    }

    method GetOpenDraft(id: string) returns (r: Result<DraftRecord>)
      ensures OpenDraft(View(), id).Err? ==> r == Err(OpenDraft(View(), id).error)
      ensures OpenDraft(View(), id).Ok? ==> id in drafts && r == Ok(drafts[id])
    {
      if id !in drafts {
        return Err(NotFound);
      }
      if drafts[id].status == Published || drafts[id].status == Abandoned {
        return Err(Conflict);
      }
      return Ok(drafts[id]);
    }

    method ApplyPatch(id: string, path: string, content: Option<Bytes>) returns (r: Result<DraftRecord>)
      requires Valid()
      modifies drafts.Values
      ensures match Patch(old(View()), id, path, content)
              case Ok(table) =>
                && View() == table && r == Ok(drafts[id])
                && (forall other :: other in drafts && other != id ==>
                          drafts[other].View() == old(drafts[other].View()))
                && drafts[id].status == Open && drafts[id].problems == {}
                && drafts[id].files == if content.Some? then old(drafts[id].files)[path := content.value]
                                       else old(drafts[id].files) - {path}
              case Err(e) => r == Err(e) && View() == old(View())
    {
      var draft :- GetOpenDraft(id);
      match content {
        case None => draft.files := draft.files - {path};
        case Some(data) => draft.files := draft.files[path := data];
      }
      draft.status := Open;
      draft.problems := {};
      return Ok(draft);
    }

    method ValidateDraft(id: string) returns (r: Result<DraftRecord>)
      requires Valid()
      modifies drafts.Values
      ensures match OpenDraft(old(View()), id)
              case Ok(d) =>
                && View() == old(View())[id := Checked(platform, d)] && r == Ok(drafts[id])
                && IsVerdict(platform, d, drafts[id].View())
              case Err(e) => r == Err(e) && View() == old(View())
    {
      hide Checked, IsVerdict;
      var draft :- GetOpenDraft(id);
      Judge(platform, draft);
      return Ok(draft);
    }

    method SubmitDraft(id: string) returns (r: Result<DraftRecord>)
      requires Valid()
      modifies drafts.Values
      ensures match Submit(old(View()), id)
              case Ok(table) => View() == table && r == Ok(drafts[id])
              case Err(e) => r == Err(e) && View() == old(View())
    {
      var draft :- GetOpenDraft(id);
      if draft.status != Validated {
        return Err(Validation);
      }
      draft.status := Submitted;
      return Ok(draft);
    }

    /** The checks at the head of `publish`. */
    method CheckPublish(id: string, w: string) returns (r: Result<DraftRecord>)
      ensures PublishCheck(platform, View(), id, w).Err? ==> r == Err(PublishCheck(platform, View(), id, w).error)
      ensures PublishCheck(platform, View(), id, w).Ok? ==> id in drafts && r == Ok(drafts[id])
    {
      if id !in drafts {
        return Err(NotFound);
      }
      var problem := CheckDraft(platform, drafts[id], w);
      if problem.Some? {
        return Err(problem.value);
      }
      return Ok(drafts[id]);
    }

    ghost function WorldOf(storage: FlatStorage.Storage): World
      reads this, drafts.Values, registry, registry.workspaces.Values, storage.bucket
    {
      World(storage.bucket.objects, registry.View(), View())
    }

    /** `publish`: write the submitted draft as an immutable revision, record it and activate it. */
    method Publish(id: string, storage: FlatStorage.Storage, activate: bool, note: string,
                   now: int) returns (r: Result<PublishResult>)
      requires Valid() && registry.Valid()
      modifies drafts.Values, registry, registry.workspaces.Values, storage.bucket
      ensures Valid() && registry.Valid() && registry.workspaces == old(registry.workspaces)
      ensures (WorldOf(storage), r)
              in PublishOutcomes(platform, storage.id, storage.scope, id, activate, note, now, old(WorldOf(storage)))
    {
      hide WriteOutcomes, AllSafe, ManifestOf;
      var draft :- CheckPublish(id, storage.id);
      r := PublishChecked(id, draft, storage, activate, note, now);
    }

    method PublishChecked(id: string, draft: DraftRecord, storage: FlatStorage.Storage, activate: bool, note: string,
                          now: int)
      returns (r: Result<PublishResult>)
      requires Valid() && registry.Valid() && id in drafts && drafts[id] == draft
      requires draft.workspaceId == storage.id && Publishable(platform, draft.files)
      modifies draft, registry, registry.workspaces.Values, storage.bucket
      ensures registry.Valid() && registry.workspaces == old(registry.workspaces)
      ensures (WorldOf(storage), r)
              in WriteOutcomes(platform, storage.scope, id, old(draft.View()), activate, note, now,
                               old(WorldOf(storage)))
    {
      hide Entered, GuardsPass, PartiallyWritten, AllSafe, Digest, AreSkills;
      var digest, wrote := WriteRevision(platform, storage, draft.files);
      if wrote {
        assert WorldOf(storage)
               == old(WorldOf(storage)).(objects := PublishedObjects(platform, old(storage.bucket.objects),
                                                                     draft.View()));
        r := EnterDraft(id, draft, storage, digest, activate, note, now);
      } else {
        r := Err(Isolation);
      }
    }

    method EnterDraft(id: string, draft: DraftRecord, ghost storage: FlatStorage.Storage, digest: string,
                      activate: bool, note: string, now: int)
      returns (r: Result<PublishResult>)
      requires Valid() && registry.Valid() && id in drafts && drafts[id] == draft
      requires ManifestOf(platform, draft.files).Some? && digest == Digest(platform.sha, draft.files)
      modifies draft, registry, registry.workspaces.Values
      ensures registry.Valid() && registry.workspaces == old(registry.workspaces)
      ensures (WorldOf(storage), r)
              == Entered(platform, id, old(draft.View()), activate, note, now, old(WorldOf(storage)))
    {
      var manifest := platform.loads(draft.files[MANIFEST]).value;
      var revision := Revision(draft.workspaceId, digest, manifest, now, draft.baseDigest);
      assert revision == PublishedRevision(platform, draft.View(), now);
      EnteringSucceeds(platform, id, draft.View(), activate, note, now, WorldOf(storage));
      hide Enter, EnteredGeneration, Digest, AllSafe, Entered, PublishedRevision, ManifestOf, View,
        InMemoryRegistry.Valid, InMemoryRegistry.View;
      var entered := EnterInWorld(revision, activate, note, now, storage);
      if entered.Err? {
        return Err(entered.error);
      }
      MarkPublished(id, storage);
      return Ok(PublishResult(digest, entered.value));
    }

    method EnterInWorld(revision: Revision, activate: bool, note: string, now: int, ghost storage: FlatStorage.Storage)
      returns (entered: Result<Option<int>>)
      requires registry.Valid()
      modifies registry, registry.workspaces.Values
      ensures registry.Valid() && registry.workspaces == old(registry.workspaces)
      ensures match Enter(old(registry.View()), revision, activate, note, now)
              case Ok(next) =>
                && WorldOf(storage) == old(WorldOf(storage)).(registry := next)
                && entered == Ok(EnteredGeneration(old(registry.View()), revision.workspaceId, activate))
              case Err(e) => entered == Err(e) && WorldOf(storage) == old(WorldOf(storage))
    {
      hide Enter, EnteredGeneration, View, InMemoryRegistry.Valid, InMemoryRegistry.View;
      entered := EnterRevision(registry, revision, activate, note, now);
    }

    method MarkPublished(id: string, ghost storage: FlatStorage.Storage)
      requires Valid() && registry.Valid() && id in drafts
      modifies drafts[id]
      ensures registry.Valid()
      ensures WorldOf(storage)
              == old(WorldOf(storage)).(drafts := old(View())[id := old(drafts[id].View()).(status := Published)])
    {
      hide InMemoryRegistry.Valid, InMemoryRegistry.View;
      drafts[id].status := Published;
    }
  }
}
