/** The Firestore-backed registry: the same operations over documents and a generation counter. */
module Firestore {
  import opened Text
  import opened Json
  import opened Registry

  // ---------------------------------------------------------------------------
  // Documents
  // ---------------------------------------------------------------------------

  datatype Field = TextField(s: string) | NumberField(n: int) | JsonField(j: Json) | NullField

  type Document = map<string, Field>

  function TextOf(d: Document, name: string): string {
    if name in d && d[name].TextField? then d[name].s else ""
  }

  function NumberOf(d: Document, name: string): int {
    if name in d && d[name].NumberField? then d[name].n else 0
  }

  function OptionalText(d: Document, name: string): Option<string> {
    if name in d && d[name].TextField? then Some(d[name].s) else None
  }

  function OptionalNumber(d: Document, name: string): Option<int> {
    if name in d && d[name].NumberField? then Some(d[name].n) else None
  }

  function TextOrNull(o: Option<string>): Field {
    match o
    case Some(s) => TextField(s)
    case None => NullField
  }

  function NumberOrNull(o: Option<int>): Field {
    match o
    case Some(n) => NumberField(n)
    case None => NullField
  }

  function WorkspaceToDocument(w: Workspace): Document {
    map[
      "workspace_id" := TextField(w.workspaceId),
      "principal_key" := TextField(w.principalKey),
      "organization" := TextField(w.placement.organization),
      "environment" := TextField(w.placement.environment),
      "region" := TextField(w.placement.region),
      "created_at_epoch" := NumberField(w.createdAt),
      "display_email" := TextOrNull(w.displayEmail),
      "active_generation" := NumberOrNull(w.activeGeneration)]
  }

  function DocumentToWorkspace(d: Document): Workspace {
    Workspace(
      TextOf(d, "workspace_id"),
      TextOf(d, "principal_key"),
      Placement(TextOf(d, "organization"), TextOf(d, "environment"), TextOf(d, "region")),
      NumberOf(d, "created_at_epoch"),
      OptionalText(d, "display_email"),
      OptionalNumber(d, "active_generation"))
  }

  function RevisionToDocument(r: Revision): Document {
    map[
      "workspace_id" := TextField(r.workspaceId),
      "content_digest" := TextField(r.contentDigest),
      "manifest" := JsonField(r.manifest),
      "created_at_epoch" := NumberField(r.createdAt),
      "parent_digest" := TextOrNull(r.parentDigest)]
  }

  function DocumentToRevision(d: Document): Revision {
    Revision(
      TextOf(d, "workspace_id"),
      TextOf(d, "content_digest"),
      if "manifest" in d && d["manifest"].JsonField? then d["manifest"].j else Null,
      NumberOf(d, "created_at_epoch"),
      OptionalText(d, "parent_digest"))
  }

  function GenerationToDocument(g: Generation): Document {
    map[
      "workspace_id" := TextField(g.workspaceId),
      "number" := NumberField(g.number),
      "content_digest" := TextField(g.contentDigest),
      "activated_at_epoch" := NumberField(g.activatedAt),
      "note" := TextField(g.note)]
  }

  function DocumentToGeneration(d: Document): Generation {
    Generation(
      TextOf(d, "workspace_id"),
      NumberOf(d, "number"),
      TextOf(d, "content_digest"),
      NumberOf(d, "activated_at_epoch"),
      TextOf(d, "note"))
  }

  lemma WorkspaceRoundTrip(w: Workspace)
    ensures DocumentToWorkspace(WorkspaceToDocument(w)) == w
    ensures WorkspaceToDocument(w).Keys
            == {"workspace_id", "principal_key", "organization", "environment", "region", "created_at_epoch",
                "display_email", "active_generation"}
    ensures WorkspaceToDocument(w)["workspace_id"] == TextField(w.workspaceId)
    ensures WorkspaceToDocument(w)["principal_key"] == TextField(w.principalKey)
    ensures WorkspaceToDocument(w)["organization"] == TextField(w.placement.organization)
    ensures WorkspaceToDocument(w)["environment"] == TextField(w.placement.environment)
    ensures WorkspaceToDocument(w)["region"] == TextField(w.placement.region)
    ensures WorkspaceToDocument(w)["active_generation"]
            == if w.activeGeneration.Some? then NumberField(w.activeGeneration.value) else NullField
  {
  }

  lemma RevisionRoundTrip(r: Revision)
    ensures DocumentToRevision(RevisionToDocument(r)) == r
    ensures RevisionToDocument(r).Keys
            == {"workspace_id", "content_digest", "manifest", "created_at_epoch", "parent_digest"}
    ensures RevisionToDocument(r)["workspace_id"] == TextField(r.workspaceId)
    ensures RevisionToDocument(r)["content_digest"] == TextField(r.contentDigest)
    ensures RevisionToDocument(r)["manifest"] == JsonField(r.manifest)
  {
  }

  lemma GenerationRoundTrip(g: Generation)
    ensures DocumentToGeneration(GenerationToDocument(g)) == g
    ensures GenerationToDocument(g).Keys
            == {"workspace_id", "number", "content_digest", "activated_at_epoch", "note"}
    ensures GenerationToDocument(g)["number"] == NumberField(g.number)
    ensures GenerationToDocument(g)["content_digest"] == TextField(g.contentDigest)
  {
  }

  /** Document names of generations: `str(number)`. */
  function Decimal(n: int): string
    decreases if n < 0 then -n + 1 else n
  {
    if n < 0 then "-" + Decimal(-n)
    else if n < 10 then [Digit(n)]
    else Decimal(n / 10) + [Digit(n % 10)]
  }

  function Digit(n: int): char
    requires 0 <= n < 10
  {
    "0123456789"[n]
  }

  function DigitValue(c: char): int {
    c as int - '0' as int
  }

  function DecimalValue(s: string): int {
    if s == "" then 0 else DecimalValue(s[..|s| - 1]) * 10 + DigitValue(s[|s| - 1])
  }

  lemma DigitRoundTrip(n: int)
    requires 0 <= n < 10
    ensures DigitValue(Digit(n)) == n && Digit(n) != '-'
  {
  }

  lemma {:induction false} DecimalRoundTrip(n: nat)
    ensures DecimalValue(Decimal(n)) == n && Decimal(n) != "" && Decimal(n)[0] != '-'
  {
    DigitRoundTrip(n % 10);
    if n >= 10 {
      DecimalRoundTrip(n / 10);
      var s := Decimal(n);
      assert s[..|s| - 1] == Decimal(n / 10);
    } else {
      DigitRoundTrip(n);
      assert Decimal(n)[..0] == "";
    }
  }

  lemma DecimalInjective(m: int, n: nat)
    requires Decimal(m) == Decimal(n)
    ensures m == n
  {
    assert m < 0 ==> Decimal(m)[0] == '-';
    DecimalRoundTrip(n);
    if m >= 0 {
      DecimalRoundTrip(m);
    }
  }

  // ---------------------------------------------------------------------------
  // Specification of the operations
  // ---------------------------------------------------------------------------

  datatype GenerationKey = GenerationKey(workspaceId: string, name: string)

  datatype Docs = Docs(
    workspaces: map<string, Document>,
    index: map<string, Document>,
    revisions: map<RevisionKey, Document>,
    generations: map<GenerationKey, Document>)

  function FsEnsure(d: Docs, derive: Derivation, p: Principal, placement: Placement, now: int): Docs {
    if p.key in d.index then d
    else
      var w := NewWorkspace(derive, p, placement, now);
      d.(workspaces := d.workspaces[w.workspaceId := WorkspaceToDocument(w)],
         index := d.index[p.key := map["workspace_id" := TextField(w.workspaceId)]])
  }

  function FsGetWorkspace(d: Docs, w: string): Result<Workspace> {
    if w in d.workspaces then Ok(DocumentToWorkspace(d.workspaces[w])) else Err(NotFound)
  }

  function FsOwner(d: Docs, w: string): Option<string> {
    if w in d.workspaces then OptionalText(d.workspaces[w], "principal_key") else None
  }

  /** Sets the document unless it exists; no check of the workspace. */
  function FsAddRevision(d: Docs, r: Revision): Docs {
    var key := RevisionKey(r.workspaceId, r.contentDigest);
    if key in d.revisions then d else d.(revisions := d.revisions[key := RevisionToDocument(r)])
  }

  function FsGetRevision(d: Docs, w: string, digest: string): Result<Revision> {
    var key := RevisionKey(w, digest);
    if key in d.revisions then Ok(DocumentToRevision(d.revisions[key])) else Err(NotFound)
  }

  /** `ws_snap.get("active_generation") or 0`, plus one. */
  function FsNext(d: Docs, w: string): int
    requires w in d.workspaces
  {
    NumberOf(d.workspaces[w], "active_generation") + 1
  }

  function FsNewGeneration(d: Docs, w: string, digest: string, note: string, now: int): Generation
    requires w in d.workspaces
  {
    Generation(w, FsNext(d, w), digest, now, note)
  }

  /** The transaction body: write the generation document and advance the counter. */
  function FsBump(d: Docs, gen: Generation): Docs
    requires gen.workspaceId in d.workspaces
  {
    var w := gen.workspaceId;
    d.(generations := d.generations[GenerationKey(w, Decimal(gen.number)) := GenerationToDocument(gen)],
       workspaces := d.workspaces[w := d.workspaces[w]["active_generation" := NumberField(gen.number)]])
  }

  function FsActivate(d: Docs, w: string, digest: string, note: string, now: int): Result<Docs> {
    if RevisionKey(w, digest) !in d.revisions then Err(NotFound)
    else if w !in d.workspaces then Err(BadValue)
    else Ok(FsBump(d, FsNewGeneration(d, w, digest, note, now)))
  }

  function FsGetGeneration(d: Docs, w: string, number: int): Result<Generation> {
    var key := GenerationKey(w, Decimal(number));
    if key in d.generations then Ok(DocumentToGeneration(d.generations[key])) else Err(NotFound)
  }

  function FsResolveActive(d: Docs, w: string): Result<Generation> {
    match FsGetWorkspace(d, w)
    case Err(e) => Err(e)
    case Ok(ws) =>
      match ws.activeGeneration
      case None => Err(NotFound)
      case Some(n) => FsGetGeneration(d, w, n)
  }

  // ---------------------------------------------------------------------------
  // Simulation of the in-memory registry
  // ---------------------------------------------------------------------------

  ghost predicate SameWorkspaces(records: map<string, Workspace>, docs: map<string, Document>) {
    records.Keys == docs.Keys && forall w :: w in records ==> docs[w] == WorkspaceToDocument(records[w])
  }

  ghost predicate SameIndex(ids: map<string, string>, docs: map<string, Document>) {
    ids.Keys == docs.Keys && forall k :: k in ids ==> docs[k] == map["workspace_id" := TextField(ids[k])]
  }

  ghost predicate SameRevisions(revisions: map<RevisionKey, Revision>, docs: map<RevisionKey, Document>) {
    revisions.Keys == docs.Keys && forall key :: key in revisions ==> docs[key] == RevisionToDocument(revisions[key])
  }

  /** The generation documents of a workspace are those of its list, named by their numbers. */
  ghost predicate SameGenerations(gens: seq<Generation>, docs: map<GenerationKey, Document>, w: string) {
    && (forall n: int :: GenerationKey(w, Decimal(n)) in docs <==> 1 <= n <= |gens|)
    && (forall n: int :: 1 <= n <= |gens| ==> docs[GenerationKey(w, Decimal(n))] == GenerationToDocument(gens[n - 1]))
  }

  /** The counter and documents say what the lists and records say. */
  ghost predicate Simulates(s: State, d: Docs) {
    && SameWorkspaces(s.workspaces, d.workspaces)
    && SameIndex(s.byPrincipal, d.index)
    && SameRevisions(s.revisions, d.revisions)
    && forall w :: SameGenerations(Generations(s, w), d.generations, w)
  }

  lemma WorkspaceSet(records: map<string, Workspace>, docs: map<string, Document>, w: string, r: Workspace,
                     doc: Document)
    requires SameWorkspaces(records, docs) && doc == WorkspaceToDocument(r)
    ensures SameWorkspaces(records[w := r], docs[w := doc])
  {
  }

  lemma IndexSet(ids: map<string, string>, docs: map<string, Document>, k: string, w: string)
    requires SameIndex(ids, docs)
    ensures SameIndex(ids[k := w], docs[k := map["workspace_id" := TextField(w)]])
  {
  }

  lemma RevisionSet(revisions: map<RevisionKey, Revision>, docs: map<RevisionKey, Document>, key: RevisionKey,
                    r: Revision, doc: Document)
    requires SameRevisions(revisions, docs) && doc == RevisionToDocument(r)
    ensures SameRevisions(revisions[key := r], docs[key := doc])
  {
  }

  /** Advancing the counter field is advancing the record. */
  lemma CounterSet(r: Workspace, n: int)
    ensures WorkspaceToDocument(r)["active_generation" := NumberField(n)]
            == WorkspaceToDocument(r.(activeGeneration := Some(n)))
  {
    var doc, doc' := WorkspaceToDocument(r), WorkspaceToDocument(r.(activeGeneration := Some(n)));
    assert doc["active_generation" := NumberField(n)].Keys == doc'.Keys;
  }

  lemma CounterOf(r: Workspace)
    ensures NumberOf(WorkspaceToDocument(r), "active_generation")
            == if r.activeGeneration.Some? then r.activeGeneration.value else 0
    ensures OptionalText(WorkspaceToDocument(r), "principal_key") == Some(r.principalKey)
  {
  }

  lemma EnsureSimulates(s: State, d: Docs, derive: Derivation, p: Principal, placement: Placement, now: int)
    requires Simulates(s, d)
    ensures Simulates(Ensure(s, derive, p, placement, now), FsEnsure(d, derive, p, placement, now))
  {
    EnsureKeepsGenerations(s, derive, p, placement, now);
    SameGenerationsEverywhere(s, Ensure(s, derive, p, placement, now), d.generations);
    if p.key !in s.byPrincipal {
      EnsureSetsDocuments(s, d, p.key, NewWorkspace(derive, p, placement, now));
    }
  }

  lemma EnsureSetsDocuments(s: State, d: Docs, key: string, w: Workspace)
    requires SameWorkspaces(s.workspaces, d.workspaces) && SameIndex(s.byPrincipal, d.index)
    ensures SameWorkspaces(s.workspaces[w.workspaceId := w], d.workspaces[w.workspaceId := WorkspaceToDocument(w)])
    ensures SameIndex(s.byPrincipal[key := w.workspaceId],
                      d.index[key := map["workspace_id" := TextField(w.workspaceId)]])
  {
    WorkspaceSet(s.workspaces, d.workspaces, w.workspaceId, w, WorkspaceToDocument(w));
    IndexSet(s.byPrincipal, d.index, key, w.workspaceId);
  }

  lemma SameGenerationsEverywhere(s: State, s': State, docs: map<GenerationKey, Document>)
    requires forall w :: SameGenerations(Generations(s, w), docs, w)
    requires forall w :: Generations(s', w) == Generations(s, w)
    ensures forall w :: SameGenerations(Generations(s', w), docs, w)
  {
    forall w ensures SameGenerations(Generations(s', w), docs, w) {
      assert SameGenerations(Generations(s, w), docs, w);
    }
  }

  lemma RecordSimulates(s: State, d: Docs, r: Revision)
    requires Simulates(s, d) && r.workspaceId in s.workspaces
    ensures RecordRevision(s, r).Ok? && Simulates(RecordRevision(s, r).value, FsAddRevision(d, r))
  {
    RevisionSet(s.revisions, d.revisions, RevisionKey(r.workspaceId, r.contentDigest), r, RevisionToDocument(r));
    SameGenerationsEverywhere(s, RecordRevision(s, r).value, d.generations);
  }

  lemma CounterSimulates(s: State, d: Docs, w: string)
    requires Inv(s) && SameWorkspaces(s.workspaces, d.workspaces) && w in s.workspaces
    ensures w in d.workspaces && FsNext(d, w) == NextNumber(Generations(s, w)) == |Generations(s, w)| + 1
  {
    assert ActiveIsLast(s, w);
    assert w in s.generations ==> Numbered(s, w);
    CounterOf(s.workspaces[w]);
  }

  lemma GenerationAdded(gens: seq<Generation>, docs: map<GenerationKey, Document>, w: string, gen: Generation,
                        doc: Document)
    requires SameGenerations(gens, docs, w) && gen.number == |gens| + 1 && doc == GenerationToDocument(gen)
    ensures SameGenerations(gens + [gen], docs[GenerationKey(w, Decimal(gen.number)) := doc], w)
  {
    var docs' := docs[GenerationKey(w, Decimal(gen.number)) := doc];
    forall n: int ensures GenerationKey(w, Decimal(n)) in docs' <==> 1 <= n <= |gens| + 1 {
      if Decimal(n) == Decimal(gen.number) {
        DecimalInjective(n, gen.number);
      }
    }
    forall n: int | 1 <= n <= |gens| + 1
      ensures docs'[GenerationKey(w, Decimal(n))] == GenerationToDocument((gens + [gen])[n - 1])
    {
      if Decimal(n) == Decimal(gen.number) {
        DecimalInjective(n, gen.number);
      }
    }
  }

  lemma GenerationElsewhere(gens: seq<Generation>, docs: map<GenerationKey, Document>, w: string, key: GenerationKey,
                            doc: Document)
    requires SameGenerations(gens, docs, w) && key.workspaceId != w
    ensures SameGenerations(gens, docs[key := doc], w)
  {
  }

  lemma BumpSimulates(s: State, d: Docs, w: string, gen: Generation, s': State)
    requires forall v :: SameGenerations(Generations(s, v), d.generations, v)
    requires gen.number == |Generations(s, w)| + 1
    requires s'.generations == s.generations[w := Generations(s, w) + [gen]]
    ensures var generations := d.generations[GenerationKey(w, Decimal(gen.number)) := GenerationToDocument(gen)];
            forall v :: SameGenerations(Generations(s', v), generations, v)
  {
    var key, doc := GenerationKey(w, Decimal(gen.number)), GenerationToDocument(gen);
    forall v ensures SameGenerations(Generations(s', v), d.generations[key := doc], v) {
      assert SameGenerations(Generations(s, v), d.generations, v);
      if v == w {
        GenerationAdded(Generations(s, w), d.generations, w, gen, doc);
      } else {
        GenerationElsewhere(Generations(s, v), d.generations, v, key, doc);
      }
    }
  }

  lemma ActivateSimulates(s: State, d: Docs, w: string, digest: string, note: string, now: int)
    requires Inv(s) && Simulates(s, d)
    ensures Activate(s, w, digest, note, now).Ok? <==> FsActivate(d, w, digest, note, now).Ok?
    ensures Activate(s, w, digest, note, now).Ok? ==>
              && FsNewGeneration(d, w, digest, note, now) == NewGeneration(s, w, digest, note, now)
              && Simulates(Activate(s, w, digest, note, now).value, FsActivate(d, w, digest, note, now).value)
  {
    if Activate(s, w, digest, note, now).Ok? {
      CounterSimulates(s, d, w);
      var gen, s' := NewGeneration(s, w, digest, note, now), Activate(s, w, digest, note, now).value;
      BumpSimulates(s, d, w, gen, s');
      CounterSet(s.workspaces[w], gen.number);
      var doc := d.workspaces[w]["active_generation" := NumberField(gen.number)];
      WorkspaceSet(s.workspaces, d.workspaces, w, s'.workspaces[w], doc);
    }
  }

  lemma OwnersAgree(s: State, d: Docs, w: string)
    requires Simulates(s, d)
    ensures FsOwner(d, w) == Owner(s, w)
  {
    if w in s.workspaces {
      CounterOf(s.workspaces[w]);
    }
  }

  lemma RevisionsAgree(s: State, d: Docs, w: string, digest: string)
    requires Simulates(s, d)
    ensures FsGetRevision(d, w, digest) == GetRevision(s, w, digest)
  {
    if RevisionKey(w, digest) in s.revisions {
      RevisionRoundTrip(s.revisions[RevisionKey(w, digest)]);
    }
  }

  lemma GenerationsAgree(s: State, d: Docs, w: string, number: int)
    requires Inv(s) && Simulates(s, d)
    ensures FsGetGeneration(d, w, number) == GetGeneration(s, w, number)
  {
    GetGenerationIsPositional(s, w, number);
    var gens := Generations(s, w);
    assert SameGenerations(gens, d.generations, w);
    if 1 <= number <= |gens| {
      GenerationRoundTrip(gens[number - 1]);
    }
  }

  lemma ResolveAgrees(s: State, d: Docs, w: string)
    requires Inv(s) && Simulates(s, d)
    ensures FsResolveActive(d, w) == ResolveActive(s, w)
  {
    if w in s.workspaces {
      WorkspaceRoundTrip(s.workspaces[w]);
      assert ActiveIsLast(s, w);
      var n := |Generations(s, w)|;
      GenerationsAgree(s, d, w, n);
      GetGenerationIsPositional(s, w, n);
    }
  }

  // ---------------------------------------------------------------------------
  // Whole traces
  // ---------------------------------------------------------------------------

  datatype Call =
    | EnsureCall(p: Principal, placement: Placement, now: int)
    | AddCall(r: Revision)
    | ActivateCall(w: string, digest: string, note: string, now: int)
    | ResolveCall(w: string)
    | GenerationCall(w: string, number: int)
    | RevisionCall(w: string, digest: string)
    | OwnerCall(w: string)

  datatype Reply =
    | WorkspaceReply(workspace: Workspace)
    | Added(revision: Revision)
    | Failed(error: Error)
    | GenerationReply(g: Generation)
    | RevisionReply(r: Revision)
    | OwnerReply(owner: Option<string>)

  function GenerationOutcome(r: Result<Generation>): Reply {
    match r
    case Ok(g) => GenerationReply(g)
    case Err(e) => Failed(e)
  }

  function RevisionOutcome(r: Result<Revision>): Reply {
    match r
    case Ok(v) => RevisionReply(v)
    case Err(e) => Failed(e)
  }

  function WorkspaceOutcome(r: Result<Workspace>): Reply {
    match r
    case Ok(w) => WorkspaceReply(w)
    case Err(e) => Failed(e)
  }

  /** The workspace record that `ensure_workspace` returns. */
  function EnsuredWorkspace(s: State, derive: Derivation, p: Principal, placement: Placement,
                            now: int): Result<Workspace> {
    var home, met := HomeOf(s, derive, p.key), Ensure(s, derive, p, placement, now);
    if home in met.workspaces then Ok(met.workspaces[home]) else Err(NotFound)
  }

  function FsEnsuredWorkspace(d: Docs, derive: Derivation, p: Principal, placement: Placement,
                              now: int): Result<Workspace> {
    if p.key in d.index then FsGetWorkspace(d, TextOf(d.index[p.key], "workspace_id"))
    else Ok(NewWorkspace(derive, p, placement, now))
  }

  /** The in-memory registry returns the revision that it holds after the call. */
  function RecordedRevision(s: State, r: Revision): Reply {
    match RecordRevision(s, r)
    case Err(e) => Failed(e)
    case Ok(s') =>
      match GetRevision(s', r.workspaceId, r.contentDigest)
      case Err(e) => Failed(e)
      case Ok(held) => Added(held)
  }

  function MemoryState(s: State, derive: Derivation, c: Call): State {
    match c
    case EnsureCall(p, placement, now) => Ensure(s, derive, p, placement, now)
    case AddCall(r) => if RecordRevision(s, r).Ok? then RecordRevision(s, r).value else s
    case ActivateCall(w, digest, note, now) =>
      if Activate(s, w, digest, note, now).Ok? then Activate(s, w, digest, note, now).value else s
    case _ => s
  }

  function MemoryReply(s: State, derive: Derivation, c: Call): Reply {
    match c
    case EnsureCall(p, placement, now) => WorkspaceOutcome(EnsuredWorkspace(s, derive, p, placement, now))
    case AddCall(r) => RecordedRevision(s, r)
    case ActivateCall(w, digest, note, now) =>
      if Activate(s, w, digest, note, now).Ok? then GenerationReply(NewGeneration(s, w, digest, note, now))
      else Failed(NotFound)
    case ResolveCall(w) => GenerationOutcome(ResolveActive(s, w))
    case GenerationCall(w, number) => GenerationOutcome(GetGeneration(s, w, number))
    case RevisionCall(w, digest) => RevisionOutcome(GetRevision(s, w, digest))
    case OwnerCall(w) => OwnerReply(Owner(s, w))
  }

  function FirestoreState(d: Docs, derive: Derivation, c: Call): Docs {
    match c
    case EnsureCall(p, placement, now) => FsEnsure(d, derive, p, placement, now)
    case AddCall(r) => FsAddRevision(d, r)
    case ActivateCall(w, digest, note, now) =>
      if FsActivate(d, w, digest, note, now).Ok? then FsActivate(d, w, digest, note, now).value else d
    case _ => d
  }

  function FirestoreReply(d: Docs, derive: Derivation, c: Call): Reply {
    match c
    case EnsureCall(p, placement, now) => WorkspaceOutcome(FsEnsuredWorkspace(d, derive, p, placement, now))
    case AddCall(r) => Added(r)
    case ActivateCall(w, digest, note, now) =>
      if FsActivate(d, w, digest, note, now).Ok? then GenerationReply(FsNewGeneration(d, w, digest, note, now))
      else Failed(NotFound)
    case ResolveCall(w) => GenerationOutcome(FsResolveActive(d, w))
    case GenerationCall(w, number) => GenerationOutcome(FsGetGeneration(d, w, number))
    case RevisionCall(w, digest) => RevisionOutcome(FsGetRevision(d, w, digest))
    case OwnerCall(w) => OwnerReply(FsOwner(d, w))
  }

  /** What the in-memory registry answers, spelled out: the record of the workspace, the revision that is held,
      the generation that an activation appends, the newest and the numbered one, a revision, an owner. */
  lemma MemoryRepliesAre(s: State, derive: Derivation, c: Call)
    requires Inv(s)
    ensures c.EnsureCall? ==>
              var w := if c.p.key in s.byPrincipal then s.byPrincipal[c.p.key] else derive(c.p.key);
              MemoryReply(s, derive, c)
              == WorkspaceReply(if c.p.key in s.byPrincipal then s.workspaces[w]
                                else Workspace(w, c.p.key, c.placement, c.now, c.p.email, None))
    ensures c.AddCall? ==>
              var key := RevisionKey(c.r.workspaceId, c.r.contentDigest);
              MemoryReply(s, derive, c)
              == if c.r.workspaceId !in s.workspaces then Failed(NotFound)
                 else Added(if key in s.revisions then s.revisions[key] else c.r)
    ensures c.ActivateCall? ==>
              MemoryReply(s, derive, c)
              == if RevisionKey(c.w, c.digest) !in s.revisions then Failed(NotFound)
                 else GenerationReply(Generation(c.w, |Generations(s, c.w)| + 1, c.digest, c.now, c.note))
    ensures c.ResolveCall? ==>
              var gens := Generations(s, c.w);
              MemoryReply(s, derive, c) == if gens == [] then Failed(NotFound) else GenerationReply(gens[|gens| - 1])
    ensures c.GenerationCall? ==>
              var gens := Generations(s, c.w);
              MemoryReply(s, derive, c)
              == if 1 <= c.number <= |gens| then GenerationReply(gens[c.number - 1]) else Failed(NotFound)
    ensures c.RevisionCall? ==>
              var key := RevisionKey(c.w, c.digest);
              MemoryReply(s, derive, c) == if key in s.revisions then RevisionReply(s.revisions[key])
                                           else Failed(NotFound)
    ensures c.OwnerCall? ==>
              MemoryReply(s, derive, c)
              == OwnerReply(if c.w in s.workspaces then Some(s.workspaces[c.w].principalKey) else None)
  {
    match c
    case EnsureCall(p, placement, now) =>
    case ActivateCall(w, digest, note, now) =>
      NextIsCount(s, w);
    case GenerationCall(w, number) =>
      GetGenerationIsPositional(s, w, number);
    case _ =>
  }

  lemma NextIsCount(s: State, w: string)
    requires Inv(s)
    ensures NextNumber(Generations(s, w)) == |Generations(s, w)| + 1
  {
    assert w in s.generations ==> Numbered(s, w);
  }

  /** Only first contacts, new revisions and activations change the registry, each as its operation does. */
  lemma MemoryStatesAre(s: State, derive: Derivation, c: Call)
    requires Inv(s)
    ensures c.EnsureCall? ==> MemoryState(s, derive, c) == Ensure(s, derive, c.p, c.placement, c.now)
    ensures c.AddCall? ==>
              var key := RevisionKey(c.r.workspaceId, c.r.contentDigest);
              MemoryState(s, derive, c)
              == if c.r.workspaceId in s.workspaces && key !in s.revisions
                 then s.(revisions := s.revisions[key := c.r]) else s
    ensures c.ActivateCall? && RevisionKey(c.w, c.digest) in s.revisions ==>
              var gens := Generations(s, c.w);
              var gen := Generation(c.w, |gens| + 1, c.digest, c.now, c.note);
              c.w in s.workspaces
              && MemoryState(s, derive, c)
                 == s.(generations := s.generations[c.w := gens + [gen]],
                       workspaces := s.workspaces[c.w := s.workspaces[c.w].(activeGeneration := Some(gen.number))])
    ensures c.ActivateCall? && RevisionKey(c.w, c.digest) !in s.revisions ==> MemoryState(s, derive, c) == s
    ensures !c.EnsureCall? && !c.AddCall? && !c.ActivateCall? ==> MemoryState(s, derive, c) == s
  {
    if c.ActivateCall? {
      NextIsCount(s, c.w);
    }
  }

  /** First contacts derive an id that is not taken. */
  ghost predicate FreshId(s: State, derive: Derivation, c: Call) {
    c.EnsureCall? ==> c.p.key in s.byPrincipal || derive(c.p.key) !in s.workspaces
  }

  /** Revisions are added to workspaces that exist. */
  ghost predicate Ensured(s: State, c: Call) {
    c.AddCall? ==> c.r.workspaceId in s.workspaces
  }

  lemma MemoryInv(s: State, derive: Derivation, c: Call)
    requires Inv(s) && FreshId(s, derive, c)
    ensures Inv(MemoryState(s, derive, c))
  {
    match c
    case EnsureCall(p, placement, now) => EnsureKeepsInv(s, derive, p, placement, now);
    case AddCall(r) =>
      if RecordRevision(s, r).Ok? {
        RecordRevisionKeepsInv(s, r);
      }
    case ActivateCall(w, digest, note, now) =>
      if Activate(s, w, digest, note, now).Ok? {
        ActivateKeepsInv(s, w, digest, note, now);
      }
    case _ =>
  }

  lemma StatesSimulate(s: State, d: Docs, derive: Derivation, c: Call)
    requires Inv(s) && Simulates(s, d) && FreshId(s, derive, c) && Ensured(s, c)
    ensures Simulates(MemoryState(s, derive, c), FirestoreState(d, derive, c))
  {
    match c
    case EnsureCall(p, placement, now) => EnsureSimulates(s, d, derive, p, placement, now);
    case AddCall(r) => RecordSimulates(s, d, r);
    case ActivateCall(w, digest, note, now) => ActivateSimulates(s, d, w, digest, note, now);
    case _ =>
  }

  lemma WorkspaceFound(s: State, d: Docs, w: string)
    requires SameWorkspaces(s.workspaces, d.workspaces) && w in s.workspaces
    ensures FsGetWorkspace(d, w) == Ok(s.workspaces[w])
  {
    hide WorkspaceToDocument, DocumentToWorkspace;
    WorkspaceRoundTrip(s.workspaces[w]);
  }

  lemma EnsureReplies(s: State, d: Docs, derive: Derivation, c: Call)
    requires Inv(s) && Simulates(s, d) && c.EnsureCall?
    ensures FirestoreReply(d, derive, c) == MemoryReply(s, derive, c)
  {
    hide WorkspaceToDocument, DocumentToWorkspace, SameGenerations, SameRevisions, ActiveIsLast, Numbered,
      FsGetWorkspace;
    if c.p.key in s.byPrincipal {
      WorkspaceFound(s, d, s.byPrincipal[c.p.key]);
    }
  }

  lemma ActivateReplies(s: State, d: Docs, derive: Derivation, c: Call)
    requires Inv(s) && Simulates(s, d) && c.ActivateCall?
    ensures FirestoreReply(d, derive, c) == MemoryReply(s, derive, c)
  {
    ActivateSimulates(s, d, c.w, c.digest, c.note, c.now);
  }

  lemma LookupReplies(s: State, d: Docs, derive: Derivation, c: Call)
    requires Inv(s) && Simulates(s, d) && (c.RevisionCall? || c.OwnerCall?)
    ensures FirestoreReply(d, derive, c) == MemoryReply(s, derive, c)
  {
    if c.RevisionCall? {
      RevisionsAgree(s, d, c.w, c.digest);
    } else {
      OwnersAgree(s, d, c.w);
    }
  }

  lemma GenerationReplies(s: State, d: Docs, derive: Derivation, c: Call)
    requires Inv(s) && Simulates(s, d) && (c.GenerationCall? || c.ResolveCall?)
    ensures FirestoreReply(d, derive, c) == MemoryReply(s, derive, c)
  {
    if c.GenerationCall? {
      GenerationsAgree(s, d, c.w, c.number);
    } else {
      ResolveAgrees(s, d, c.w);
    }
  }

  /** An added revision goes to a workspace that exists, and nothing else is registered under its key. */
  ghost predicate AddsWhatIsHeld(s: State, c: Call) {
    c.AddCall? ==> Ensured(s, c) && NothingElseHeld(s, c)
  }

  /** No other revision is registered under the key of the one that is added. */
  ghost predicate NothingElseHeld(s: State, c: Call) {
    c.AddCall? ==>
      var key := RevisionKey(c.r.workspaceId, c.r.contentDigest);
      key in s.revisions ==> s.revisions[key] == c.r
  }

  lemma AddReplies(s: State, d: Docs, derive: Derivation, c: Call)
    requires c.AddCall?
    ensures FirestoreReply(d, derive, c) == MemoryReply(s, derive, c) <==> AddsWhatIsHeld(s, c)
  {
  }

  /** One call answers alike on both registries exactly when it does not add a revision to a workspace
      that was never ensured, which the in-memory registry alone refuses, nor a revision that differs
      from the one registered under its key, which the document registry alone echoes. */
  lemma CallAgrees(s: State, d: Docs, derive: Derivation, c: Call)
    requires Inv(s) && Simulates(s, d)
    ensures FirestoreReply(d, derive, c) == MemoryReply(s, derive, c) <==> AddsWhatIsHeld(s, c)
  {
    match c
    case EnsureCall(_, _, _) => EnsureReplies(s, d, derive, c);
    case AddCall(_) => AddReplies(s, d, derive, c);
    case ActivateCall(_, _, _, _) => ActivateReplies(s, d, derive, c);
    case ResolveCall(_) => GenerationReplies(s, d, derive, c);
    case GenerationCall(_, _) => GenerationReplies(s, d, derive, c);
    case RevisionCall(_, _) => LookupReplies(s, d, derive, c);
    case OwnerCall(_) => LookupReplies(s, d, derive, c);
  }

  /** Publishing content again is enough to tell the registries apart: the second revision differs in
      its time. */
  lemma ReplacedRevisionIsEchoed(s: State, d: Docs, derive: Derivation, r: Revision, later: Revision)
    requires Inv(s) && Simulates(s, d) && r.workspaceId in s.workspaces
    requires RevisionKey(r.workspaceId, r.contentDigest) in s.revisions
    requires s.revisions[RevisionKey(r.workspaceId, r.contentDigest)] == r
    requires later == r.(createdAt := r.createdAt + 1)
    ensures MemoryReply(s, derive, AddCall(later)) == Added(r)
    ensures FirestoreReply(d, derive, AddCall(later)) == Added(later) != Added(r)
  {
  }

  ghost predicate LegalTrace(s: State, derive: Derivation, calls: seq<Call>)
    decreases calls
  {
    calls != [] ==>
      && FreshId(s, derive, calls[0]) && Ensured(s, calls[0])
      && LegalTrace(MemoryState(s, derive, calls[0]), derive, calls[1..])
  }

  function MemoryTrace(s: State, derive: Derivation, calls: seq<Call>): seq<Reply>
    decreases calls
  {
    if calls == [] then []
    else [MemoryReply(s, derive, calls[0])] + MemoryTrace(MemoryState(s, derive, calls[0]), derive, calls[1..])
  }

  function FirestoreTrace(d: Docs, derive: Derivation, calls: seq<Call>): seq<Reply>
    decreases calls
  {
    if calls == [] then []
    else [FirestoreReply(d, derive, calls[0])] + FirestoreTrace(FirestoreState(d, derive, calls[0]), derive, calls[1..])
  }

  /** The replies with every added revision echoed. */
  function Echoed(calls: seq<Call>, replies: seq<Reply>): seq<Reply>
    requires |calls| == |replies|
  {
    if calls == [] then []
    else [if calls[0].AddCall? then Added(calls[0].r) else replies[0]] + Echoed(calls[1..], replies[1..])
  }

  /** No call of the trace adds a revision that differs from the one registered under its key. */
  ghost predicate AlwaysAddsWhatIsHeld(s: State, derive: Derivation, calls: seq<Call>)
    decreases calls
  {
    calls != [] ==>
      AddsWhatIsHeld(s, calls[0]) && AlwaysAddsWhatIsHeld(MemoryState(s, derive, calls[0]), derive, calls[1..])
  }

  lemma {:induction false} TraceLengths(s: State, d: Docs, derive: Derivation, calls: seq<Call>)
    ensures |MemoryTrace(s, derive, calls)| == |FirestoreTrace(d, derive, calls)| == |calls|
    decreases calls
  {
    if calls != [] {
      TraceLengths(MemoryState(s, derive, calls[0]), FirestoreState(d, derive, calls[0]), derive, calls[1..]);
    }
  }

  lemma CallEchoes(s: State, d: Docs, derive: Derivation, c: Call)
    requires Inv(s) && Simulates(s, d)
    ensures FirestoreReply(d, derive, c) == if c.AddCall? then Added(c.r) else MemoryReply(s, derive, c)
  {
    CallAgrees(s, d, derive, c);
  }

  /** On ensured workspaces the registries stay related whatever is called, and their replies differ in
      the revisions that the document registry echoes, and in nothing else; so whole traces agree exactly
      when no other revision is ever registered under the key of one that is added. */
  lemma {:induction false} TracesAgree(s: State, d: Docs, derive: Derivation, calls: seq<Call>)
    requires Inv(s) && Simulates(s, d) && LegalTrace(s, derive, calls)
    ensures |MemoryTrace(s, derive, calls)| == |calls|
    ensures FirestoreTrace(d, derive, calls) == Echoed(calls, MemoryTrace(s, derive, calls))
    ensures FirestoreTrace(d, derive, calls) == MemoryTrace(s, derive, calls)
            <==> AlwaysAddsWhatIsHeld(s, derive, calls)
    decreases calls
  {
    hide FirestoreReply, MemoryReply, Inv, Simulates, AddsWhatIsHeld, MemoryState, FirestoreState;
    TraceLengths(s, d, derive, calls);
    if calls != [] {
      CallEchoes(s, d, derive, calls[0]);
      var xs, ys := FirestoreTrace(d, derive, calls), MemoryTrace(s, derive, calls);
      FirstAndRest(xs, ys);
      CallAgrees(s, d, derive, calls[0]);
      MemoryInv(s, derive, calls[0]);
      StatesSimulate(s, d, derive, calls[0]);
      TracesAgree(MemoryState(s, derive, calls[0]), FirestoreState(d, derive, calls[0]), derive, calls[1..]);
    }
  }

  lemma FirstAndRest<T>(xs: seq<T>, ys: seq<T>)
    requires xs != [] && ys != []
    ensures xs == ys <==> xs[0] == ys[0] && xs[1..] == ys[1..]
  {
    assert xs == [xs[0]] + xs[1..] && ys == [ys[0]] + ys[1..];
  }

  // ---------------------------------------------------------------------------
  // The implementation
  // ---------------------------------------------------------------------------

  /** The registry methods over the four document collections. */
  class FirestoreRegistry {
    const derive: Derivation
    var workspaces: map<string, Document>
    var index: map<string, Document>
    var revisions: map<RevisionKey, Document>
    var generations: map<GenerationKey, Document>

    constructor (derive: Derivation)
      ensures View() == Docs(map[], map[], map[], map[]) && this.derive == derive
    {
      this.derive := derive;
      workspaces, index, revisions, generations := map[], map[], map[], map[];
    }

    function View(): Docs
      reads this
    {
      Docs(workspaces, index, revisions, generations)
    }

    method EnsureWorkspace(p: Principal, placement: Placement, now: int) returns (r: Result<Workspace>)
      modifies this
      ensures View() == FsEnsure(old(View()), derive, p, placement, now)
      ensures r == FsEnsuredWorkspace(old(View()), derive, p, placement, now)
    {
      if p.key in index {
        return FsGetWorkspace(View(), TextOf(index[p.key], "workspace_id"));
      }
      var w := NewWorkspace(derive, p, placement, now);
      workspaces := workspaces[w.workspaceId := WorkspaceToDocument(w)];
      index := index[p.key := map["workspace_id" := TextField(w.workspaceId)]];
      return Ok(w);
    }

    method AddRevision(r: Revision) returns (result: Revision)
      modifies this
      ensures View() == FsAddRevision(old(View()), r) && result == r
    {
      var key := RevisionKey(r.workspaceId, r.contentDigest);
      if key !in revisions {
        revisions := revisions[key := RevisionToDocument(r)];
      }
      return r;
    }

    method ActivateRevision(w: string, digest: string, note: string, now: int) returns (result: Result<Generation>)
      requires RevisionKey(w, digest) in revisions ==> w in workspaces
      modifies this
      ensures FsActivate(old(View()), w, digest, note, now).Err? ==> result == Err(NotFound) && View() == old(View())
      ensures FsActivate(old(View()), w, digest, note, now).Ok? ==>
                && View() == FsActivate(old(View()), w, digest, note, now).value
                && result == Ok(FsNewGeneration(old(View()), w, digest, note, now))
    {
      if RevisionKey(w, digest) !in revisions {
        return Err(NotFound);
      }
      var current := NumberOf(workspaces[w], "active_generation");
      var gen := Generation(w, current + 1, digest, now, note);
      generations := generations[GenerationKey(w, Decimal(gen.number)) := GenerationToDocument(gen)];
      workspaces := workspaces[w := workspaces[w]["active_generation" := NumberField(gen.number)]];
      return Ok(gen);
    }

    method ResolveActiveGeneration(w: string) returns (result: Result<Generation>)
      ensures result == FsResolveActive(View(), w)
    {
      if w !in workspaces {
        return Err(NotFound);
      }
      var active := DocumentToWorkspace(workspaces[w]).activeGeneration;
      if active.None? {
        return Err(NotFound);
      }
      return FsGetGeneration(View(), w, active.value);
    }
  }
}
