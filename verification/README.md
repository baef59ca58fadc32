# Workspace control plane: model and proofs

This project models the control plane of a per-user agent workspace and proves what it promises.

Users write skills through *drafts*. A draft is patched, validated and submitted; a publisher then
writes its files to object storage under a key that contains their content digest, records the
*revision* in the registry and activates it as a numbered *generation*. A *session* resolves the
active generation, downloads the revision into a fresh directory, recomputes the digest and refuses
to start on a mismatch; the *conversation* that is created stays pinned to that generation. Around
this pipeline stand the key guard of the storage adapters, the credential broker, two storage
backends, two registries, secret redaction, session tokens, the provisioner of managed agents, and
the exchange of skill bundles as ZIP archives.

## Layout

| file | what it models |
|---|---|
| `Text.dfy`, `Paths.dfy`, `Json.dfy` | strings, bytes, splitting and sorting as the control plane uses them; path resolution; JSON values |
| `Integrity.dfy`, `Addressing.dfy` | the content digest and its encoding; its bytes, order and text spelled out |
| `PlainPaths.dfy`, `Keys.dfy` | paths, ids and keys read character by character |
| `Layout.dfy`, `Broker.dfy` | object keys, the guard, the access boundary |
| `FlatStorage.dfy`, `Disk.dfy`, `LocalStorage.dfy`, `StorageRefinement.dfy` | the bucket, a directory tree, the local backend, and their agreement |
| `Registry.dfy`, `Firestore.dfy`, `ActivationRace.dfy` | the in-memory registry, the document registry, concurrent activations |
| `Drafts.dfy`, `Publications.dfy` | drafts, validation, publication; draft calls and publication spelled out in keys and fields |
| `Materializer.dfy`, `MaterializerTheorems.dfy`, `Sessions.dfy` | materialization, when it succeeds and what it leaves; conversations and session start |
| `Pipeline.dfy`, `PipelineTheorems.dfy` | everything as one state machine; safety and pinning over whole runs |
| `Immutability.dfy`, `Twins.dfy` | what published revisions keep, and what a bundle with the same digest breaks |
| `PublishSteps.dfy`, `RoundTrip.dfy`, `Starts.dfy`, `EndToEnd.dfy` | steps and calls; starts on published revisions and what they hand over; from draft to session in one run |
| `Isolation.dfy` | non-interference between principals |
| `Redaction.dfy`, `RedactionTheorems.dfy`, `Secrets.dfy` | the four redaction rules as regular expressions with an engine; the secrets they stand for, in characters |
| `Tokens.dfy`, `TokenTexts.dfy` | base64url and session tokens; their text, bit by bit |
| `AgentModels.dfy`, `Provisioner.dfy` | wire shapes of agents, the per-user provisioner |
| `Interchange.dfy` | ZIP export and import, re-publication of an exported revision |

Operations that change state are classes whose methods are specified by functions on values; the
theorems are about these functions and about runs of them. What the functions themselves mean, in
characters, keys and fields, is stated without them (`Secrets.RedactionIsFourPasses`,
`Publications.SuccessfulPublication`, `Starts.StartHandsOverPublishedFiles`,
`Provisioner.AgentsAreAsAsked`, `TokenTexts.VerifyIs`, `Keys.GuardIs`,
`Addressing.DigestIsHashOfLines`, and the contracts of `ValidateDraft`, `ExportSkillZip` and
`ImportSkillZip`).

## Assumptions

- SHA-256 is a parameter of which only the output format is known. It is never assumed injective:
  a result that needs this names the two file maps and says "unless SHA-256 collides on them".
- The signing function, JSON printing and parsing, the derivation of workspace and agent ids, the
  token minter and the validators of an organization are parameters. Where a law is needed (parsing
  undoes printing, ids of different principals differ) it is a precondition about the values at hand.
- Random ids are parameters that are new when they are used. Time is a parameter.
- The order in which a bucket lists its objects, and in which a dictionary is gone through, is
  arbitrary; for non-interference the listing order is an arbitrary function of the set of keys listed.
- A server of managed agents honours the mask of a patch: it takes the fields that the mask names
  from the body and leaves the others (`Provisioner.ApplyPatch`).
- A call is one step, except `publish`, whose check, writes, registration, activation and final mark
  are separate steps. As in Python, a change of the number of the draft's files stops the loop.
  The calls on drafts are among the one-step calls, although threads could interleave inside them too
  (`PipelineTheorems.PublishedDraftsAreFrozen` and `SubmittedDraftsPassTheChecks` depend on this, see
  below).

## Where the promises meet their limits

The code is followed where its documentation says more than it does.

- The digest is documented as identifying a bundle. The path check admits NUL and line feed, so a
  path can spell the end of one line of the encoding and the start of the next
  (`Integrity.EveryBundleHasATwin`). It does identify bundles whose paths spell no line
  (`Integrity.SameDigestSameFiles`); the files of a directory tree never do.
- Publication is documented as never overwriting a revision. Two things break this. The loop writes
  what the draft holds at that moment, so a patch between check and write stores something else
  (`PublishSteps.OvertakenRevisionIsWrong`). And two bundles with one digest share a prefix: publishing
  the twin of a revision puts a file there that the revision does not have, although every write is of
  approved content (`Twins.TwinsOverwrite`); it does so exactly when a path spells a line
  (`Twins.LoopKeepsRevisionIffNoPathSpellsALine`). When the bundles approved under a key can be told
  apart, which means that no path of theirs spells a line and SHA-256 collides on no two of them, a
  write keeps the revision exact iff it is of approved content
  (`Immutability.OnlyFaithfulWritesKeepRevisionsExact`), and revisions are immutable in every run of
  such writes (`Immutability.RegisteredRevisionsAreExact`). In any case a session without a catalog on
  a wrong revision does not start, or its files are the approved ones
  (`PipelineTheorems.EverySessionRunsApprovedFiles`).
- Draft calls are atomic here. In the code `apply_patch` and `submit` read the draft's status first and
  assign afterwards without a lock, so a thread that publishes between the two can see its frozen draft
  changed, and one that patches there can see unvalidated files submitted. The results on frozen and
  submitted drafts hold for threads that do not interleave inside these calls.
- The materializer is documented as refusing a session on digest mismatch. With a catalog it compares
  the files with the store instead and recomputes no digest, so a start on tampered bytes succeeds
  (`MaterializerTheorems.TamperedStartOverCatalog`), which it does not without one
  (`MaterializerTheorems.TamperedStartIsRefused`). Such a session has the approved files iff the store
  holds them (`MaterializerTheorems.CatalogSessionsRunWhatIsStored`); the end-to-end digest theorem is
  about starts without a catalog.
- A revision can be published whose paths cannot be laid down (`a` next to `a/b`, an empty path
  segment); it starts exactly when that is not so (`RoundTrip.PublishThenStart`,
  `EndToEnd.DraftBecomesSession`).
- The two registries differ in two replies, both of adding a revision: the document registry records one
  for a workspace that was never ensured, and it returns the revision it was given where the in-memory
  registry returns the one that is registered, which has another time when content is published again
  (`Firestore.CallAgrees`, `Firestore.ReplacedRevisionIsEchoed`).
- Export followed by import changes bundles whose skill file is spelled `skill.md` and drops
  directory-like names (`Interchange.ExportThenImport`); an agent id with a slash is cut
  (`AgentModels.SpecRoundTrip`).
- The patterns for workspace ids and digests end in `$`, so they admit one trailing line feed; the
  model does too.

## Model

| member | source | states |
|---|---|---|
| `PipelineTheorems.EverySessionRunsApprovedFiles` | src/a2a_workspace/materializer/materializer.py:99-129 | In every run that interleaves drafts, publications write by write, activations, starts and arbitrary changes of stored objects, every session without a catalog has an approval (validated, submitted, published) under its pinned digest, and its files are exactly those of the approval iff no approved path spells a line of the digest encoding, unless SHA-256 collides on the two file maps |
| `PipelineTheorems.SessionRunsApproved` | src/a2a_workspace/session/lifecycle.py:69-115 | The same for one started session in any state that satisfies the run invariant, whatever the store answered |
| `PipelineTheorems.PinnedForever` | src/a2a_workspace/session/conversations.py:40-75 | After any further run a conversation is found unchanged by its principal, refused to everybody else, and its recorded digest is still that of its generation |
| `PipelineTheorems.GenerationsAreGapless` | src/a2a_workspace/registry/memory.py:78-110 | After every run generation numbers are list positions plus one, each names a registered revision, the active generation is the last one, and the search by number is positional |
| `PipelineTheorems.PublishedDraftsAreFrozen` | src/a2a_workspace/registry/drafts.py:176-180 | Over any run of atomic draft calls a published draft keeps its files, status and everything else |
| `PipelineTheorems.SubmittedDraftsPassTheChecks` | src/a2a_workspace/registry/drafts.py:81-133 | After every run of atomic draft calls a validated or submitted draft passes all validators as it stands, so publishing a submitted one in its own workspace fails on neither manifest nor paths |
| `Pipeline.RunKeeps` | src/a2a_workspace/registry/drafts.py:110-166 | Every run keeps the invariant (registry numbering, vetted drafts, approvals behind publications and revisions, pins, session digests) and only extends revisions, generation lists, approvals, conversations and sessions |
| `Pipeline.StepKeeps` | src/a2a_workspace/registry/drafts.py:66-166 | Each of the fifteen kinds of step keeps that invariant |
| `Pipeline.PinStays` | src/a2a_workspace/registry/memory.py:105-110 | A pinned generation is found unchanged in every registry that grew from this one |
| `Pipeline.ActiveIsFound` | src/a2a_workspace/registry/memory.py:96-110 | The active generation is found under its own number and names a registered revision |
| `Pipeline.OpenIsPinned` | src/a2a_workspace/session/lifecycle.py:69-115 | A start changes nothing or adds one session and one conversation, pinned to a generation whose digest the verified tree has |
| `Immutability.RegisteredRevisionsAreExact` | src/a2a_workspace/registry/drafts.py:132-163 | Under any interleaving of publications over any drafts and workspaces, as long as nobody else writes to the store, every iteration finds the approved content, and the bundles approved under the revision's key can be told apart (no path spells a line of the digest encoding, SHA-256 collides on no two of them), the revision's skills prefix holds exactly its files: nothing missing, extra or changed |
| `Immutability.RepublishingChangesNoFile` | src/a2a_workspace/registry/drafts.py:139-141 | In an undisturbed run, writing content again that is registered already leaves every stored object as it is, if the bundles approved under its key can be told apart |
| `Immutability.OnlyFaithfulWritesKeepRevisionsExact` | src/a2a_workspace/registry/drafts.py:139-141 | In every reachable state, a write of the publish loop keeps an exactly stored revision exact iff it is for another key or the draft still holds the approved content at that path, if the bundles approved under the revision's key can be told apart |
| `Immutability.DistinguishableIsUnambiguous` | src/a2a_workspace/materializer/integrity.py:24-31 | Approved bundles with one key whose paths spell no line are the same bundle, unless SHA-256 collides on two of them |
| `Twins.LoopKeepsRevisionIffNoPathSpellsALine` | src/a2a_workspace/registry/drafts.py:132-141 | While a bundle with the digest of an exactly stored revision is published, the iterations of its loop keep the revision, whose own paths spell no line, exact iff no path of the bundle spells one, unless SHA-256 collides on the two |
| `Twins.TwinsOverwrite` | src/a2a_workspace/registry/drafts.py:132-141 | Beginning to publish a submitted twin of an exactly stored revision without NUL, and one write of its approved content, leaves the revision registered and no longer exact, though the run is undisturbed |
| `Immutability.QuietRunsAreUndisturbed` | src/a2a_workspace/registry/drafts.py:81-90 | If no draft is patched while it is being published, every iteration is faithful |
| `Immutability.RegisteredExactly` | src/a2a_workspace/registry/drafts.py:132-156 | The invariant of the store means exact contents of a registered revision whose key stands for one bundle |
| `Immutability.RunKeepsStore` | src/a2a_workspace/registry/drafts.py:126-163 | Undisturbed runs keep the invariant for every key that stands for one bundle at the end of the run: every object is an approved file or a manifest copy, loops are on track, the bundle registered under the key is complete |
| `Immutability.SkillUnderPrefix` | src/a2a_workspace/storage/layout.py:51-63 | A skill object under the prefix of an approved bundle is a file of that bundle, when the bundle's key stands for it alone |
| `PublishSteps.OvertakenRevisionIsWrong` | src/a2a_workspace/registry/drafts.py:139-156 | A patch between the check and the write registers a revision that holds other bytes than were approved |
| `PublishSteps.AnyPublicationCanBeOvertaken` | src/a2a_workspace/registry/drafts.py:81-90 | Every submitted bundle of one file can be brought into that situation by beginning to publish it and patching it |
| `PublishSteps.StepsDoWhatPublishDoes` | src/a2a_workspace/registry/drafts.py:110-166 | Taken one after the other without interruption, the steps of a publication have an outcome of the call |
| `PublishSteps.SubmittedDraftsGetPublished` | src/a2a_workspace/registry/drafts.py:110-166 | In every reachable state a submitted draft of a known workspace can be published: uninterrupted, it ends published, its revision registered, its digest active under the next number |
| `PublishSteps.StartIsAStep` | src/a2a_workspace/session/lifecycle.py:69-115 | A start on a revision that can be listed, successful or not, is a step of the machine in which the store answers what it holds |
| `PublishSteps.StepsAreCalls` | src/a2a_workspace/registry/drafts.py:66-106 | The steps on drafts are the draft calls, a contact is a first contact, a reactivation appends a generation, and tampering puts or removes any content at one key |
| `PublishSteps.PutAllWrites` | src/a2a_workspace/registry/drafts.py:139-141 | The loop writes exactly the skill objects of the files it goes through, in any order |
| `RoundTrip.PublishThenStart` | src/a2a_workspace/materializer/materializer.py:99-129 | After every undisturbed run, with any listing order, an attempt to materialize a registered revision whose key's bundles can be told apart succeeds iff the paths are canonical and none is a directory of another, and reproduces the published files, unless SHA-256 collides on published and materialized files |
| `RoundTrip.PublishThenStartOverCatalog` | src/a2a_workspace/materializer/materializer.py:94-114 | With a catalog and canonical paths, under the same conditions on run and key, the session holds the catalog overridden by the published files, and starts iff each file can be written over the catalog |
| `RoundTrip.ExactStoreIsHonest` | src/a2a_workspace/materializer/materializer.py:104-114 | A store that holds exactly an approved bundle answers every listed key with its file, in whatever order it lists |
| `EndToEnd.DraftBecomesSession` | src/a2a_workspace/registry/drafts.py:110-166 | As one run of the machine: from any state that an undisturbed run reached, publishing any submitted draft with activation and then a start of the workspace's owner, with the store's own listings, adds a session that has exactly the draft's files and a conversation pinned to the new generation number if the paths are canonical and none is a directory of another, and nothing otherwise; the bundles approved under the key can be told apart, and SHA-256 does not collide on draft and session files |
| `EndToEnd.DraftBecomesSessionOverCatalog` | src/a2a_workspace/session/lifecycle.py:69-115 | The same with a catalog and canonical paths: the session holds the catalog overridden by the draft's files if each of them can be written over the catalog, and nothing is added otherwise |
| `EndToEnd.PublishingRun` | src/a2a_workspace/registry/drafts.py:110-166 | An uninterrupted publication is a possible, undisturbed run of the machine's steps that ends in the state of the call |
| `Integrity.SameDigestSameFiles` | src/a2a_workspace/materializer/integrity.py:24-31 | Against a map whose paths do not spell a line, a map with the same digest is the same map iff its paths do not either, unless SHA-256 collides on these contents |
| `Integrity.DigestInjective` | src/a2a_workspace/materializer/integrity.py:24-31 | Equal digests of such maps mean equal maps, unless SHA-256 collides on these contents |
| `Integrity.WithoutNulOrLineFeed` | src/a2a_workspace/materializer/integrity.py:24-31 | Paths without NUL, or without line feed, do not spell a line |
| `Integrity.LinesInjective` | src/a2a_workspace/materializer/integrity.py:26-30 | Equal blobs are blobs of the same paths with the same hashes |
| `Integrity.EveryBundleHasATwin` | src/a2a_workspace/materializer/integrity.py:57-64 | The path check alone does not make the digest identify a bundle: every bundle with two neighbouring files has a twin that passes the check and has the same digest |
| `Integrity.DigestFiles` | src/a2a_workspace/materializer/integrity.py:24-31 | The loop computes the digest of the sorted listing, and fails exactly on an unsafe path |
| `Addressing.DigestIsHashOfLines` | src/a2a_workspace/materializer/integrity.py:24-31 | The digest is the hash of the UTF-8 form of one line per path, in the order of the paths: path, NUL, hash of the content, and line feeds between the lines |
| `Addressing.TextIsUtf8` | src/a2a_workspace/materializer/integrity.py:30 | Encoding gives each character the one to four bytes of RFC 3629, section 3, in order |
| `Addressing.LessIsBefore` | src/a2a_workspace/materializer/integrity.py:27 | Paths are ordered by their first different character, a prefix first |
| `Integrity.ListedPaths` | src/a2a_workspace/materializer/integrity.py:27 | There is one sorted listing, so the digest does not depend on insertion order |
| `Integrity.Utf8Injective` | src/a2a_workspace/materializer/integrity.py:30 | Encoding text as UTF-8 loses nothing |
| `Text.ListingUnique` | src/a2a_workspace/materializer/integrity.py:27 | Any two ascending listings of a set are equal |
| `Text.Sort` | src/a2a_workspace/materializer/integrity.py:27 | Sorting yields that listing |
| `Layout.ContainsIffResolvesInside` | src/a2a_workspace/storage/layout.py:65-76 | `contains` holds iff resolving the rooted key, component by component and clamped at the root, leads into the workspace's directory |
| `Layout.NormalizedKey` | src/a2a_workspace/storage/layout.py:65-76 | `normpath` of the rooted key is the joined path that component-wise resolution reaches |
| `Keys.GuardIs` | src/a2a_workspace/storage/adapter.py:65-75 | A key passes the guard iff the walk along its components, from the root, leads into the workspace's directory, and it begins with the scope if there is one; otherwise the isolation error |
| `Keys.WalkIs` | src/a2a_workspace/storage/layout.py:65-76 | The laws of that walk: empty components and dots stay, two dots go up and stop at the root, names go down |
| `Keys.WorkspaceIdIs` | src/a2a_workspace/storage/layout.py:27-40 | Workspace ids are 36 hexadecimal digits in either case or hyphens, with at most a line feed behind |
| `Keys.DigestNameIs` | src/a2a_workspace/storage/layout.py:27-54 | Digests are 64 lower-case hexadecimal digits, with at most a line feed behind |
| `Keys.RevisionPrefixIs` | src/a2a_workspace/storage/layout.py:51-63 | A revision prefix is given out for exactly the digests, with its text |
| `Layout.ContainedInOneWorkspace` | src/a2a_workspace/storage/layout.py:65-76 | No key is contained in two workspaces |
| `Layout.RevisionPrefixIsDefined` | src/a2a_workspace/storage/layout.py:51-84 | The revision prefix is defined for exactly the digests that match the pattern |
| `Layout.SkillKeyPassesTheGuard` | src/a2a_workspace/storage/adapter.py:65-75 | Every skills key of a validated path passes both checks of the guard, with the broker's scope or none |
| `Layout.ManifestKeyPassesTheGuard` | src/a2a_workspace/storage/adapter.py:65-75 | So does the manifest key |
| `Layout.RevisionKeyUnique` | src/a2a_workspace/storage/layout.py:51-60 | Workspace, digest and remainder can be read back from a key below a revision |
| `Layout.SkillsPrefixUnique` | src/a2a_workspace/storage/layout.py:51-60 | A key of one revision lies under the skills prefix of another only if they are the same revision |
| `Broker.IssuedToOwnerOnly` | src/a2a_workspace/broker/broker.py:107-126 | A credential is issued iff the registry names the principal as owner of a valid workspace, and its scope is that workspace's prefix |
| `Broker.IssuedCredential` | src/a2a_workspace/broker/broker.py:107-126 | A credential is issued iff the workspace is known, is the principal's and has a valid id, with the error of the first check that fails otherwise; it is minted for the bucket and the names below the workspace's prefix, for viewing iff every permission ends in `.get` or `.list`, has that prefix as scope, and expires after the time to live |
| `Broker.GuardAgreesWithBoundary` | src/a2a_workspace/broker/broker.py:128-159 | The guard lets through exactly the keys that resolve into the workspace and that the access boundary admits |
| `Broker.BoundariesAreDisjoint` | src/a2a_workspace/broker/broker.py:147-154 | No object is admitted by the boundaries of two workspaces |
| `StorageRefinement.RunRefines` | src/a2a_workspace/storage/local.py:33-73 | After any sequence of puts and prefix deletes on prefix-free canonical keys the directory tree holds what the flat store holds, and every operation reported the same |
| `StorageRefinement.ObservationsRefine` | src/a2a_workspace/storage/gcs.py:85-100 | After such a run every get and every listing of the tree is one of the flat store |
| `StorageRefinement.GetRefines` | src/a2a_workspace/storage/local.py:33-39 | A get finds the stored object, or nothing, as the flat map does |
| `StorageRefinement.PutRefines` | src/a2a_workspace/storage/local.py:41-45 | A put on a tidy tree succeeds and updates exactly that key |
| `StorageRefinement.ListRefines` | src/a2a_workspace/storage/local.py:47-57 | A listing has exactly the objects under the prefix, each once and with its size |
| `StorageRefinement.DeleteRefines` | src/a2a_workspace/storage/local.py:59-73 | A prefix delete removes exactly the objects under the prefix and keeps all others |
| `StorageRefinement.CountRefines` | src/a2a_workspace/storage/local.py:59-73 | The count it returns is the number of objects it removes |
| `LocalStorage.Storage.DeletePrefix` | src/a2a_workspace/storage/local.py:59-73 | On any tree: everything below the prefix and the directory itself are gone, the rest is unchanged, the count is the number of files, and no directory is removed before it is empty |
| `LocalStorage.RemoveDescendants` | src/a2a_workspace/storage/local.py:63-69 | Going through the sorted listing backwards, each `rmdir` meets an empty directory |
| `LocalStorage.NothingLeftBelow` | src/a2a_workspace/storage/local.py:63-69 | When the turn of a directory comes, all its descendants are gone |
| `LocalStorage.Storage.GetObject` | src/a2a_workspace/storage/local.py:33-39 | Behind the guard, reading a canonical key of a directory tree answers the content of the file below the root at that relative path if there is one, and not found otherwise; other keys are resolved as the operating system does |
| `LocalStorage.Storage.PutObject` | src/a2a_workspace/storage/local.py:41-45 | A guarded write that creates parent directories, or fails without effect on the file |
| `LocalStorage.Storage.ListObjects` | src/a2a_workspace/storage/local.py:47-57 | The guarded listing of the files below the prefix in path order |
| `FlatStorage.Storage.ListObjects` | src/a2a_workspace/storage/gcs.py:85-92 | A guarded listing of exactly the keys with the string prefix, each once |
| `FlatStorage.Storage.DeletePrefix` | src/a2a_workspace/storage/gcs.py:94-100 | A guarded delete of exactly the keys with the string prefix, and their number |
| `FlatStorage.Storage.GetObject` | src/a2a_workspace/storage/gcs.py:73-78 | A guarded read: isolation error, not found, or the bytes |
| `FlatStorage.Storage.PutObject` | src/a2a_workspace/storage/gcs.py:80-83 | A guarded write of exactly one key |
| `Disk.WriteIsUpdate` | src/a2a_workspace/storage/local.py:41-45 | Writing a canonical key adds or replaces exactly that file and keeps the tree well formed |
| `Disk.MakeDirsExact` | src/a2a_workspace/storage/local.py:43 | Directories can be made iff no file is on the way, and then exactly these are added |
| `Disk.LookupExact` | src/a2a_workspace/storage/local.py:33-39 | Walking along proper names finds what the tree has at the joined path |
| `Registry.ActivateKeepsInv` | src/a2a_workspace/registry/memory.py:78-94 | An activation keeps the numbering, the registered revisions behind generations, and the active pointer |
| `Registry.EnsureKeepsInv` | src/a2a_workspace/registry/memory.py:27-46 | A first contact keeps the invariant when the derived id is not taken |
| `Registry.RecordRevisionKeepsInv` | src/a2a_workspace/registry/memory.py:60-67 | Recording a revision keeps the invariant |
| `Firestore.MemoryRepliesAre` | src/a2a_workspace/registry/memory.py:27-110 | What every call on the in-memory registry answers: the record of the workspace, the revision that is held, the appended, newest or numbered generation, a revision, an owner, or not found |
| `Firestore.MemoryStatesAre` | src/a2a_workspace/registry/memory.py:27-110 | Only first contacts, new revisions and activations change it, each in exactly its entries |
| `Registry.GetGenerationIsPositional` | src/a2a_workspace/registry/memory.py:105-110 | The linear search for number k finds entry k-1, or nothing outside 1..n |
| `Registry.ActivationSucceeds` | src/a2a_workspace/registry/memory.py:78-94 | Under the invariant an activation succeeds iff the revision is registered |
| `Registry.InMemoryRegistry.EnsureWorkspace` | src/a2a_workspace/registry/memory.py:27-46 | The maps after the call are those of the specification, and the workspace returned is the principal's |
| `Registry.InMemoryRegistry.AddRevision` | src/a2a_workspace/registry/memory.py:60-67 | The first revision of a key is kept; an unknown workspace is refused |
| `Registry.InMemoryRegistry.ActivateRevision` | src/a2a_workspace/registry/memory.py:78-94 | The new generation is appended and the pointer moved in place; an unknown revision is refused without effect |
| `Registry.InMemoryRegistry.LookupGeneration` | src/a2a_workspace/registry/memory.py:105-110 | The loop finds the first generation with the number |
| `Registry.InMemoryRegistry.ResolveActiveGeneration` | src/a2a_workspace/registry/memory.py:96-103 | The newest generation or not found; under the registry's invariant it is there iff the workspace's pointer is set, has the number in the pointer, which is the length of the list, and names a registered revision of the workspace |
| `Firestore.TracesAgree` | src/a2a_workspace/registry/firestore.py:39-132 | On every trace of calls on ensured workspaces the document registry gives the in-memory registry's replies with every added revision echoed; the replies are equal iff no call adds a revision that differs from the one registered under its key |
| `Firestore.CallAgrees` | src/a2a_workspace/registry/firestore.py:71-81 | One call gets the same reply, returned revision included, from both iff it does not add a revision to a workspace that was never ensured, nor one that differs from the revision registered under its key |
| `Firestore.ReplacedRevisionIsEchoed` | src/a2a_workspace/registry/firestore.py:71-81 | Adding a registered revision again with a later time returns the first one from memory and the second from the document registry |
| `Firestore.StatesSimulate` | src/a2a_workspace/registry/firestore.py:39-132 | Counter and documents stay related to generation list and maps by every call |
| `Firestore.ActivateSimulates` | src/a2a_workspace/registry/firestore.py:95-114 | The transactional bump writes the generation document and counter that the list append stands for |
| `Firestore.DecimalInjective` | src/a2a_workspace/registry/firestore.py:110 | Generation numbers and their document names determine each other |
| `Firestore.WorkspaceRoundTrip` | src/a2a_workspace/registry/firestore.py:138-152 | A workspace comes back from its document, whose fields have their names |
| `Firestore.RevisionRoundTrip` | src/a2a_workspace/registry/firestore.py:155-166 | A revision comes back from its document, whose fields have their names |
| `Firestore.GenerationRoundTrip` | src/a2a_workspace/registry/firestore.py:169-180 | A generation comes back from its document, whose fields have their names |
| `ActivationRace.RacesAreSequential` | src/a2a_workspace/registry/firestore.py:95-114 | Under every schedule of read, commit-if-unchanged and retry, documents and replies are those of the in-memory registry that makes the committed calls one at a time, in commit order, with added revisions echoed |
| `ActivationRace.CommittedNumbersAreGapless` | src/a2a_workspace/registry/firestore.py:103-114 | Under every schedule a workspace hands out exactly 1, 2, ..., n, with no gap and no duplicate, and its counter ends at n |
| `ActivationRace.RunIsLinear` | src/a2a_workspace/registry/firestore.py:103-114 | The commit points order any concurrent run into a sequential trace with the same documents and replies |
| `Drafts.DraftStepsKeepVetting` | src/a2a_workspace/registry/drafts.py:66-106 | Create, patch, validate and submit keep every validated or submitted draft free of problems |
| `Drafts.VettedCanBePublished` | src/a2a_workspace/registry/drafts.py:186-212 | What passes validation can be hashed and has a manifest object with a name |
| `Drafts.BrokerScopeSuffices` | src/a2a_workspace/registry/drafts.py:138-149 | With the broker's scope, or none, every key of a safe bundle passes the guard |
| `Drafts.DraftService.CreateDraft` | src/a2a_workspace/registry/drafts.py:66-79 | A new open draft, seeded with the base revision's manifest; an unknown base adds nothing |
| `Drafts.DraftService.ApplyPatch` | src/a2a_workspace/registry/drafts.py:81-90 | One path is set or removed, the draft is open again, a frozen or missing draft is refused |
| `Drafts.DraftService.ValidateDraft` | src/a2a_workspace/registry/drafts.py:92-99 | Afterwards the draft is validated iff every path is plain (not empty, not absolute, no backslash, no `.` or `..` between its slashes), `manifest.json` parses to an object with a `name`, and the organization's validators report nothing on its workspace, base and files; otherwise it is open, and its problems are exactly the unsafe paths, what is wrong with the manifest, and every message of the validators |
| `Drafts.DraftService.SubmitDraft` | src/a2a_workspace/registry/drafts.py:101-106 | Only a validated draft is submitted |
| `Drafts.DraftService.Publish` | src/a2a_workspace/registry/drafts.py:110-166 | Store, registry, drafts and reply are one of the outcomes of publication: refused without effect, stopped by the guard with some skill files written, or everything written, recorded, activated and marked |
| `Drafts.WriteSkills` | src/a2a_workspace/registry/drafts.py:138-141 | In any order, the loop adds exactly the bundle's skill objects, or stops at the first refused key |
| `Drafts.WriteRevision` | src/a2a_workspace/registry/drafts.py:132-149 | Skill files and manifest copy are stored under the digest of the files |
| `Drafts.EnterRevision` | src/a2a_workspace/registry/drafts.py:150-163 | The revision is recorded and, if asked, activated; the number returned is the new generation's |
| `Drafts.ValidatePaths` | src/a2a_workspace/registry/drafts.py:186-196 | The path validator reports exactly the unsafe paths |
| `Drafts.Judge` | src/a2a_workspace/registry/drafts.py:92-99 | The validators run in turn on one draft, the organization's among them, and leave that verdict |
| `Drafts.NoProblemsIffPasses` | src/a2a_workspace/registry/drafts.py:186-212 | The validators report nothing iff the files pass: plain paths, a named manifest object, and no message of the organization's validators |
| `Drafts.ProblemsExplain` | src/a2a_workspace/registry/drafts.py:186-212 | What they report: each unsafe path of the bundle, the one thing that is wrong with its manifest, each message of the organization's validators, and nothing else |
| `PlainPaths.SafeIsPlain` | src/a2a_workspace/materializer/integrity.py:57-64 | The path check on the split path lets exactly the paths through that, read character by character, are not empty or absolute and have no backslash, `.` or `..` component |
| `PlainPaths.SplitGivesSegments` | src/a2a_workspace/materializer/integrity.py:57-64 | Splitting at slashes gives exactly the stretches between them |
| `Publications.SuccessfulPublication` | src/a2a_workspace/registry/drafts.py:110-166 | Whatever a publication writes, enters and answers when it succeeds, in keys and fields: each file under `workspaces/<id>/revisions/sha256-<digest>/skills/`, the printed manifest beside them, every other object as it was; the revision with manifest, time and parent unless its key is registered; if asked, one generation with the next number, the digest, the time and the note, which becomes the active one; the draft published; digest and number in the reply |
| `Publications.RefusedPublication` | src/a2a_workspace/registry/drafts.py:125-133 | A publication succeeds iff the draft is there, submitted and of the workspace, its paths are plain and its manifest parses, and the workspace is known; otherwise it is refused with the error of the first check that fails, and registry and drafts stay as they are |
| `Publications.ValidateMeans` | src/a2a_workspace/registry/drafts.py:92-99 | A validation touches one draft, none of its files, and records the verdict; missing and closed drafts are refused |
| `Materializer.LayDownExact` | src/a2a_workspace/materializer/materializer.py:104-114 | The download loop goes through iff every file can be written and none is a directory of another |
| `Materializer.LayDownUpdates` | src/a2a_workspace/materializer/materializer.py:104-114 | Afterwards the directory holds what was there, overridden by what was downloaded |
| `Materializer.LayDownWellFormed` | src/a2a_workspace/materializer/materializer.py:104-114 | Whatever is listed and answered, `..` and absolute paths included, the disk stays a tree |
| `Materializer.SessionMade` | src/a2a_workspace/materializer/materializer.py:84-92 | Creating a session adds its empty subdirectories and touches no file |
| `Materializer.TreesAreSeparatorFree` | src/a2a_workspace/materializer/integrity.py:34-42 | The relative paths of a tree never spell a line of the digest encoding |
| `Materializer.TreesArePrefixFree` | src/a2a_workspace/materializer/integrity.py:34-42 | They are canonical and none is a directory of another |
| `Materializer.FetchAll` | src/a2a_workspace/materializer/materializer.py:104-114 | The loop does what the specification says of the answers of the store, and stops at the first failure |
| `Materializer.ReadTree` | src/a2a_workspace/materializer/integrity.py:34-42 | The files collected from disk are exactly the files below the directory |
| `Materializer.CheckTree` | src/a2a_workspace/materializer/integrity.py:45-54 | The tree is accepted iff its paths are safe and its digest is the expected one |
| `Materializer.CheckEach` | src/a2a_workspace/materializer/materializer.py:143-159 | With a catalog, each listed file is compared with what the store answers |
| `MaterializerTheorems.LaidIsAnswered` | src/a2a_workspace/materializer/materializer.py:104-114 | The download loop goes through only if every listed object was answered |
| `MaterializerTheorems.VerifiedEach` | src/a2a_workspace/materializer/materializer.py:143-159 | The comparison passes iff every listed object is a file on disk with the hash of what the store answers |
| `MaterializerTheorems.AbsoluteNamesStartAtTheRoot` | src/a2a_workspace/materializer/materializer.py:106-114 | An object whose relative name starts with a slash is written from the root of the disk |
| `MaterializerTheorems.MissingCatalogIsLeftOut` | src/a2a_workspace/materializer/materializer.py:94-97 | A configured catalog that is no directory is left out, and the files are compared one by one all the same |
| `MaterializerTheorems.SessionHasDirectories` | src/a2a_workspace/materializer/materializer.py:84-92 | Whatever comes after, the four directories of a session are there |
| `MaterializerTheorems.HonestStart` | src/a2a_workspace/materializer/materializer.py:99-129 | With an honest store a materialization succeeds iff the bundle's paths are canonical and none is a directory of another, and then reproduces the bundle |
| `MaterializerTheorems.CatalogIsOverridden` | src/a2a_workspace/materializer/materializer.py:94-114 | With an honest store and canonical paths a start with a catalog succeeds iff each file can be written over the catalog, and leaves the catalog overridden by the revision on every collision |
| `MaterializerTheorems.CatalogSessionsRunWhatIsStored` | src/a2a_workspace/materializer/materializer.py:131-159 | With a catalog the approved digest plays no part: whatever files with canonical paths the store holds under it, the session starts iff they can be written over the catalog, and it has the approved files over the catalog iff the store holds those, up to paths where the catalog itself has the content |
| `MaterializerTheorems.TamperedStartOverCatalog` | src/a2a_workspace/materializer/materializer.py:131-159 | Concretely: over an empty catalog, a start on tampered bytes under the digest of the approved ones succeeds and runs the tampered bytes |
| `MaterializerTheorems.TamperedStartIsRefused` | src/a2a_workspace/materializer/integrity.py:45-54 | Without a catalog the same start is refused with the integrity error, unless SHA-256 collides on the two bundles |
| `MaterializerTheorems.VerifiedTreeIsApproved` | src/a2a_workspace/materializer/materializer.py:131-141 | Whatever the store answered, a verified tree is the approved bundle iff the bundle's paths do not spell a line, unless SHA-256 collides |
| `MaterializerTheorems.StartedTreeIsVerified` | src/a2a_workspace/materializer/integrity.py:45-54 | Without a catalog what starts has the generation's digest and safe paths |
| `MaterializerTheorems.CopiedBelow` | src/a2a_workspace/materializer/materializer.py:96-97 | Copying the catalog into the fresh directory reproduces its files there |
| `Sessions.SessionMaterializer.Materialize` | src/a2a_workspace/materializer/materializer.py:75-129 | Disk and result are those of the specified attempt on the store's contents, listed in some order; on success the session has the workspace, number and digest of the generation, and its directories below the root by their names, and without a catalog the files below its skills directory have safe paths and that digest |
| `Sessions.SessionMaterializer.MakeSession` | src/a2a_workspace/materializer/materializer.py:84-92 | The four directories of a session are made, or none counts |
| `Sessions.SessionLifecycle.Start` | src/a2a_workspace/session/lifecycle.py:69-115 | The workspace is ensured, the active generation resolved, the credential checked; on success conversation and session agree on the workspace, number and digest of that generation, the agent is connected to the session's skills directory and to nothing with a credential, and without a catalog the files below that directory have the pinned digest; on failure no conversation is added |
| `Starts.StartHandsOverPublishedFiles` | src/a2a_workspace/session/lifecycle.py:69-115 | When the store holds files under the skills prefix of the newest generation, and these have its digest and spell no line, a start without a catalog succeeds iff no path is a directory of another and all are canonical, and the directory it hands over holds exactly these files, unless SHA-256 collides on them and what was laid down |
| `Starts.StartHandsOverCatalogAndFiles` | src/a2a_workspace/materializer/materializer.py:94-114 | With a catalog and canonical paths it succeeds iff the files can be written over the catalog, and the directory it hands over holds the catalog overridden by them |
| `Starts.RecordedSessionIsHandedOver` | src/a2a_workspace/session/lifecycle.py:69-115 | The session and conversation that the machine of runs records for a start are the conversation the call answers and the files below the directory it hands over |
| `Sessions.StartAccessIs` | src/a2a_workspace/session/lifecycle.py:72-94 | Who may start: without a generation it is not found, without a credential the workspace must be the principal's, the id must be valid; the scope is the credential's or the workspace's prefix |
| `Sessions.SessionCredentialViews` | src/a2a_workspace/session/lifecycle.py:83-87 | The credential that a start asks for is minted for viewing, on the objects of the workspace alone, and for the configured time |
| `Sessions.SessionLifecycle.Prepare` | src/a2a_workspace/session/lifecycle.py:72-94 | The checks before the materialization, in their order, with their errors |
| `Sessions.ConversationStore.Create` | src/a2a_workspace/session/conversations.py:40-59 | The conversation is stored with its pin |
| `Sessions.ConversationStore.Get` | src/a2a_workspace/session/conversations.py:61-75 | A conversation is returned iff it exists and was started by the principal that asks; a missing one is reported as such, a foreign one as an isolation error |
| `Isolation.OthersMakeNoDifference` | src/a2a_workspace/gateway/registry_api.py:86-103 | Over any run of requests a principal gets the replies, and ends up seeing the drafts, revisions, generations, conversations and objects, by name or by prefix listing, that it would have got and seen had nobody else made a request; a start lists and reads the shared store as it is at that moment |
| `Isolation.NobodyCanTell` | src/a2a_workspace/gateway/registry_api.py:86-103 | The same from an empty system |
| `Isolation.RequestsAreInvisibleToOthers` | src/a2a_workspace/registry/drafts.py:129-130 | One request leaves everything another principal can observe as it is, keys included that merely have its prefix as a string and resolve elsewhere |
| `Isolation.RepliesDependOnOwnState` | src/a2a_workspace/gateway/registry_api.py:86-91 | Reply and effect depend only on what the principal can observe, the listing of the store by string prefix included; somebody else's draft is answered like a missing one |
| `Isolation.IssueIsPublish` | src/a2a_workspace/registry/drafts.py:110-166 | Publication as a request has an outcome of the service's publication |
| `Isolation.PerformWithin` | src/a2a_workspace/storage/adapter.py:65-75 | A request writes only keys that resolve into its own workspace and have its prefix, and only its own drafts, revisions, generations and conversations |
| `Isolation.OwnKeysAreInvisible` | src/a2a_workspace/storage/gcs.py:85-92 | A key that resolves into a workspace and has its prefix can be neither named nor listed from any other workspace |
| `Isolation.OpenListsTheStore` | src/a2a_workspace/storage/gcs.py:85-92 | What a start requests from the store is a listing of exactly the keys it holds under the revision's prefix, whatever the order |
| `Isolation.OpenIsStart` | src/a2a_workspace/session/lifecycle.py:69-115 | A request to start is a start: it answers and stores its conversation, with the files below the directory it hands over, or its error |
| `Isolation.IssueRequestIsPublication` | src/a2a_workspace/gateway/registry_api.py:236-266 | A request to publish finds no draft of another, needs a credential or the principal's own workspace, and is otherwise the service's publication with the scope of the credential |
| `Isolation.PublishersMayWrite` | src/a2a_workspace/gateway/registry_api.py:246-252 | The credential that a publication asks for is minted for administering objects |
| `Secrets.RedactionIsFourPasses` | src/a2a_workspace/antigravity/hooks.py:18-47 | Redaction is exactly this: four passes in order, over bearer tokens, `ya29.` tokens, API keys and private key blocks, each described in characters; each pass replaces the leftmost matches, the longest for the tokens and up to the first footer for key blocks, by the text of its rule, and keeps the rest |
| `Secrets.RedactedHasNoSecret` | src/a2a_workspace/antigravity/hooks.py:18-47 | The output contains no bearer token, no `ya29.` token, no `AIza` with ten or more token characters, and no private key block |
| `Secrets.RedactionChangesExactlySecrets` | src/a2a_workspace/antigravity/hooks.py:36-47 | Redaction leaves a text as it is iff it contains none of these |
| `Secrets.BearerMatches` | src/a2a_workspace/antigravity/hooks.py:20 | The first rule matches `bearer` in any case, white space, and one or more token characters, with the characters that case folding adds |
| `Secrets.AccessTokenMatches` | src/a2a_workspace/antigravity/hooks.py:22 | The second rule matches `ya29.` and one or more letters, digits, `.`, `_` or `-` |
| `Secrets.ApiKeyMatches` | src/a2a_workspace/antigravity/hooks.py:24 | The third rule matches `AIza` and ten or more of these characters |
| `Secrets.KeyBlockMatches` | src/a2a_workspace/antigravity/hooks.py:26-33 | The fourth rule matches a header, anything, and a footer, whose labels are capitals and spaces |
| `RedactionTheorems.RedactedIsSecretFree` | src/a2a_workspace/antigravity/hooks.py:18-47 | The output contains no match of any of the four rules of the table: not inside, not across a replacement, not through a later rule |
| `RedactionTheorems.RedactFixesExactlySecretFree` | src/a2a_workspace/antigravity/hooks.py:36-47 | Redaction leaves a text as it is iff the text contains no match of the table |
| `RedactionTheorems.RedactIdempotent` | src/a2a_workspace/antigravity/hooks.py:36-47 | Redacting twice is redacting once |
| `RedactionTheorems.PassReplacesOnlyWords` | src/a2a_workspace/antigravity/hooks.py:44-46 | A pass replaces matches, leftmost first and none overlapping another, and keeps every other character in its place |
| `RedactionTheorems.TokensAreConsumedWhole` | src/a2a_workspace/antigravity/hooks.py:18-25 | A token is consumed whole: the first three rules take the longest match |
| `RedactionTheorems.KeyBlockEndsAtFirstFooter` | src/a2a_workspace/antigravity/hooks.py:26-33 | A key block ends at the first footer behind its header |
| `RedactionTheorems.PassKeepsClean` | src/a2a_workspace/antigravity/hooks.py:44-46 | A later pass does not bring back a pattern that was absent |
| `RedactionTheorems.TableExact` | src/a2a_workspace/antigravity/hooks.py:18-33 | The engine finds a match at a position iff a word of the pattern begins there |
| `Redaction.EndsExact` | src/a2a_workspace/antigravity/hooks.py:18-33 | The matching engine lists exactly the spans in the pattern's language |
| `TokenTexts.VerifyIs` | src/a2a_workspace/identity/session_token.py:66-83 | The exact verdict on every presented token with a dot: a signature that is not ASCII fails; one that is not the base64url form of the signature of what stands before the dot is refused; a signed payload that does not decode, parse or carry its claims fails; expired claims are refused; everything else is accepted with these claims |
| `TokenTexts.CredentialsArePresented` | src/a2a_workspace/identity/session_token.py:66-69 | White space at the ends and one `bearer ` in any case are taken off a header value, and nothing else |
| `TokenTexts.MintIs` | src/a2a_workspace/identity/session_token.py:56-64 | A minted token is the printed claims, expiring after the time to live, and their signature, both in base64url, with a dot between |
| `TokenTexts.EncodingIsBase64` | src/a2a_workspace/identity/session_token.py:32-33 | The encoding is that of section 5 of RFC 4648 without padding: one character of the URL-safe alphabet for each six bits of each three bytes |
| `TokenTexts.Base64Unique` | src/a2a_workspace/identity/session_token.py:32-33 | There is one such text for given bytes |
| `TokenTexts.DecoderOverlooks` | src/a2a_workspace/identity/session_token.py:36-38 | The decoder skips every character outside the alphabets and reads `+` and `/` like `-` and `_` |
| `TokenTexts.DecodingEndsWithPadding` | src/a2a_workspace/identity/session_token.py:36-38 | Complete padding ends the input, whatever follows |
| `TokenTexts.PaddingIsNeeded` | src/a2a_workspace/identity/session_token.py:36-38 | Without its padding a begun group is refused |
| `Tokens.DecodeEncode` | src/a2a_workspace/identity/session_token.py:32-38 | Every byte string comes back from its unpadded base64url form through the `-len % 4` padding and the lenient decoder |
| `Tokens.MintedTokensVerify` | src/a2a_workspace/identity/session_token.py:56-83 | A minted token, bare or behind the scheme in any case and with surrounding space, verifies iff it has not expired, and gives back principal and conversation |
| `Tokens.OnlySignedTokensVerify` | src/a2a_workspace/identity/session_token.py:66-83 | A text is accepted iff what stands before its first dot is followed by exactly its own signature and decodes to unexpired claims |
| `Tokens.PaddedIsBarePlusPadding` | src/a2a_workspace/identity/session_token.py:32-38 | Stripping the padding loses only what the length determines |
| `Tokens.EncodedIsPlain` | src/a2a_workspace/identity/session_token.py:61-64 | An encoding has no dot, no space and nothing outside ASCII |
| `Provisioner.AgentsAreAsAsked` | src/a2a_workspace/provisioning/agent_provisioner.py:174-250 | Over any history, field by field, whether `get_agent` shows the sources or not: every principal of the history has one agent, created once, under its id; its first source is its own storage prefix, followed by the skill source it last asked for if it asked for one; its network allows exactly the configured domains; its three tools carry the proxy's address and the headers of its first call, its instruction is that of its first call; and nobody else has an agent |
| `Provisioner.PatchesFollowTheHistory` | src/a2a_workspace/provisioning/agent_provisioner.py:196-208 | When the sources are shown, exactly the calls send a patch that ask for another skill source than their principal asked for before |
| `Provisioner.PatchesForAnotherSkill` | src/a2a_workspace/provisioning/agent_provisioner.py:196-208 | A call for an agent patches iff it asks for another skill source, or, when the sources are not shown, for any |
| `Provisioner.AgentsFollowTheHistory` | src/a2a_workspace/provisioning/agent_provisioner.py:174-208 | Over any history the agents are those of the specification, one for each principal, whatever `get_agent` shows, and the two platforms end up with the same agents |
| `Provisioner.HistoryIsTracked` | src/a2a_workspace/provisioning/agent_provisioner.py:174-208 | For every view of agents that shows no skill source that is not mounted, the platform after a history has the specification of each first call with the last skill source, and created each agent once |
| `Provisioner.RepeatingChangesNothing` | src/a2a_workspace/provisioning/agent_provisioner.py:196-208 | Repeating a call creates nothing and leaves every agent as it is |
| `Provisioner.RepointsOnly` | src/a2a_workspace/provisioning/agent_provisioner.py:199-206 | A call for an existing agent changes at most its skill source |
| `Provisioner.WireFormIsTrustworthy` | src/a2a_workspace/provisioning/agent_provisioner.py:284-291 | The wire form of an agent, with or without its environment, is such a view |
| `Provisioner.PatchSetsWhatIsGiven` | src/a2a_workspace/gemini_enterprise/agent_platform.py:71-101 | A patch sets the fields it was given and blanks no other |
| `Provisioner.AgentPlatform.PatchAgent` | src/a2a_workspace/gemini_enterprise/agent_platform.py:86-97 | Body and mask are built from the given fields and applied |
| `Provisioner.PerUserAgentProvisioner.EnsureAgent` | src/a2a_workspace/provisioning/agent_provisioner.py:174-208 | One call creates, re-points or leaves the agent as specified, and says which; a created agent mounts the principal's own prefix and the skill source asked for, reaches the configured domains, and has the three tools, headers and instruction of the call |
| `AgentModels.SpecRoundTrip` | src/a2a_workspace/gemini_enterprise/agent_models.py:198-223 | A specification comes back from its wire form iff its id has no slash |
| `AgentModels.SpecIsSent` | src/a2a_workspace/gemini_enterprise/agent_models.py:198-210 | Every field of a specification is sent under its wire name, down to sources, tools and allowed domains, unset fields are not sent, and nothing else is |
| `AgentModels.QualifiedNamesAreCut` | src/a2a_workspace/gemini_enterprise/agent_models.py:212-223 | Of a qualified name the part behind the last slash is the id |
| `AgentModels.EnvironmentRoundTrip` | src/a2a_workspace/gemini_enterprise/agent_models.py:104-119 | Every environment comes back from its wire form |
| `AgentModels.ToolRoundTrip` | src/a2a_workspace/gemini_enterprise/agent_models.py:138-179 | Every tool comes back from its wire form |
| `AgentModels.SourceRoundTrip` | src/a2a_workspace/gemini_enterprise/agent_models.py:44-62 | Every source comes back from its wire form |
| `AgentModels.NetworkRoundTrip` | src/a2a_workspace/gemini_enterprise/agent_models.py:76-89 | Every network policy comes back from its wire form |
| `Interchange.ExportThenImport` | src/a2a_workspace/gemini_enterprise/skill_io.py:22-54 | A bundle that can be exported comes back from import iff it has `SKILL.md` in this spelling and every path is a plain member name |
| `Interchange.ExportedRevisionComesBack` | src/a2a_workspace/gateway/registry_api.py:106-150 | A revision with such paths can be read, exported, imported and published again: the same files, the same digest, no new revision, exactly one new generation |
| `Interchange.PublishingAgainOnlyActivates` | src/a2a_workspace/gateway/registry_api.py:124-136 | Publishing a registered revision's files again changes no stored skill byte and no revision |
| `Interchange.ExactRevisionIsRead` | src/a2a_workspace/gateway/registry_api.py:106-121 | Reading a revision from a store that holds it exactly gives its files, in any listing order |
| `Interchange.ExportSkillZip` | src/a2a_workspace/gemini_enterprise/skill_io.py:22-31 | A bundle is exported iff it has a root `SKILL.md` or `skill.md` and no path starts with a slash, has a backslash or a `..` between its slashes; then there is one member for each path in sorted order, its name cut at a NUL, with the content of the file |
| `Interchange.ImportSkillZip` | src/a2a_workspace/gemini_enterprise/skill_io.py:34-54 | An archive is imported iff no member but a directory has a name that starts with a slash, has a backslash or a `..` between its slashes, and a root `SKILL.md` or `skill.md` is there; then the files are those of its members, with the content of the last of each name, and a lone `skill.md` comes back as `SKILL.md` |
| `Interchange.RejectedMeans` | src/a2a_workspace/gemini_enterprise/skill_io.py:57-62 | The check of a member name refuses exactly these names |
| `Interchange.MissingRevisionIsNotFound` | src/a2a_workspace/gateway/registry_api.py:106-121 | A digest that is none, and one under which nothing is listed, are not found |
| `Interchange.GatherNeedsAnswers` | src/a2a_workspace/gateway/registry_api.py:112-119 | Reading a revision fails iff a listed object is not answered |
| `Interchange.ReadRevisionFiles` | src/a2a_workspace/gateway/registry_api.py:106-121 | The loop collects the listed files, with the errors of digest, guard and missing revision |
| `Interchange.PublishFiles` | src/a2a_workspace/gateway/registry_api.py:124-136 | A draft with exactly these files is validated and published, or stands rejected |
| `Interchange.EnsuredManifestIsValid` | src/a2a_workspace/gateway/registry_api.py:139-150 | A synthesized manifest is the printed object with the name found in the skill file, or the default, beside the files as they are, and passes the manifest check |

## Left out

- HTTP routes, status codes, JWT verification, the STS exchange, IAM bindings, SDK hooks, streaming
  and the thin clients of remote services: they would add only easy members.
- `SessionCredentialStore` and `DelegatedOAuthBroker`: two dictionaries, and a token provider that is
  not part of this model.
- File modes, symbolic links, clean-up of session directories, and the sandbox around the agent.
- Additional skills paths and environment variables of a connection, and its guard against names that look
  like credentials: a start passes none.
- Directories that a failing `mkdir` or write has already made, and objects that an interrupted bucket
  call has changed, are not recorded; the failure itself is.
- What a later start does to the directories of earlier sessions: a started session is recorded with
  the files it had when it started.
- Catalog directories that contain the sessions directory.
- Storage keys with NUL or with line feeds in places where Cloud Storage refuses them: the bucket is a
  map from all strings.
- `ensure_workspace` of the document registry makes two writes outside a transaction; it is modelled as
  one step.
- The extra validators see a draft's workspace, base digest and files, not its status or earlier
  errors; the errors of a draft are a set, without wording and order.
- Wire fields of an unexpected JSON type read as missing.
- How `_ensure_manifest` finds the `name:` line of a skill file; the finder is a parameter.
- The compressed form of archives: a ZIP is the list of its members.
- PipelineTheorems.EverySessionRunsApprovedFiles: for starts without a catalog; with one the code
  recomputes no digest.
- PipelineTheorems.PublishedDraftsAreFrozen: for draft calls that are atomic; the code does not lock
  between the check of a draft's status and the assignments that follow.
- PipelineTheorems.SubmittedDraftsPassTheChecks: for atomic draft calls, for the same reason.
- Immutability.RegisteredRevisionsAreExact: needs that nobody else writes to the store, which no
  code of the control plane could prevent, and that the bundles approved under the key can be told apart,
  without which it is false (`Twins.TwinsOverwrite`).
- Isolation.OthersMakeNoDifference: a request is one step here; the interleaving of a publication's writes
  with other requests is the subject of the pipeline model. The local disk of a start comes with the request,
  so what other sessions leave on a shared disk is not observed. Looking up a conversation by a guessed id is
  not among the requests, because the reply tells a foreign conversation from a missing one.
- Tokens.MintedTokensVerify: expiry is a real number, without the rounding of floating-point clocks.
- Interchange.ExportedRevisionComesBack: needs that the validators accept the files without a base
  revision, because the imported draft has none.
