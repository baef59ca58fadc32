/** Skill bundles as ZIP archives, and the way of an exported revision back into the workspace. */
module Interchange {
  import opened Text
  import opened Json
  import opened Integrity
  import opened PlainPaths
  import opened Disk
  import opened Layout
  import opened FlatStorage
  import opened Registry
  import opened Drafts
  import opened Materializer
  import opened MaterializerTheorems
  import opened Pipeline
  import opened Immutability
  import opened RoundTrip

  // ---------------------------------------------------------------------------
  // Archives
  // ---------------------------------------------------------------------------

  /** A ZIP archive is the list of its members. */
  datatype Entry = Entry(name: string, data: Bytes)

  const SKILL_FILE := "SKILL.md"
  const LOWER_SKILL_FILE := "skill.md"

  /** `_reject_unsafe`: empty components and `.` are not components of a path. */
  predicate Rejected(rel: string) {
    "/" <= rel || '\\' in rel || ".." in Parts(rel)
  }

  /** A member name ends at the first NUL. */
  function MemberName(rel: string): string {
    if rel == "" || rel[0] == '\0' then "" else [rel[0]] + MemberName(rel[1..])
  }

  predicate IsDirectoryName(name: string) {
    name != "" && name[|name| - 1] == '/'
  }

  function Pack(files: Files, paths: seq<string>): Result<seq<Entry>> {
    if paths == [] then Ok([])
    else if Rejected(paths[0]) then Err(BadValue)
    else
      var rest :- Pack(files, paths[1..]);
      Ok([Entry(MemberName(paths[0]), Content(files, paths[0]))] + rest)
  }

  ghost function Export(files: Files): Result<seq<Entry>> {
    if SKILL_FILE !in files && LOWER_SKILL_FILE !in files then Err(BadValue) else Pack(files, SortedPaths(files))
  }

  /** The files of an archive, a later member of the same name counting. */
  function Unpack(entries: seq<Entry>): Result<Files> {
    if entries == [] then Ok(map[])
    else
      var last := entries[|entries| - 1];
      var front :- Unpack(entries[..|entries| - 1]);
      if IsDirectoryName(last.name) then Ok(front)
      else if Rejected(last.name) then Err(BadValue)
      else Ok(front[last.name := last.data])
  }

  function Normalized(files: Files): Files {
    if SKILL_FILE !in files && LOWER_SKILL_FILE in files then
      (files - {LOWER_SKILL_FILE})[SKILL_FILE := files[LOWER_SKILL_FILE]]
    else files
  }

  function Import(entries: seq<Entry>): Result<Files> {
    var files :- Unpack(entries);
    if SKILL_FILE in Normalized(files) then Ok(Normalized(files)) else Err(BadValue)
  }

  // ---------------------------------------------------------------------------
  // What an archive brings, spelled out
  // ---------------------------------------------------------------------------

  /** A name that an archive may hold: not absolute, no backslash, and no `..` among its components. */
  ghost predicate IsArchiveName(name: string) {
    && (name != "" ==> name[0] != '/')
    && (forall k :: 0 <= k < |name| ==> name[k] != '\\')
    && !HasSegment(name, '/', "..")
  }

  lemma {:induction false} DotsAreKept(components: seq<string>)
    ensures ".." in DropTrivial(components) <==> ".." in components
  {
    if components != [] {
      DotsAreKept(components[1..]);
      assert components == [components[0]] + components[1..];
    }
  }

  /** `_reject_unsafe` lets exactly these names through. */
  lemma RejectedMeans(name: string)
    ensures Rejected(name) <==> !IsArchiveName(name)
  {
    hide DropTrivial, Split, HasSegment;
    DotsAreKept(Split(name, '/'));
    SplitGivesSegments(name, '/', "..");
  }

  /** A member of the archive that is a file: its name does not end in a slash. */
  ghost predicate IsFile(e: Entry) {
    e.name == "" || e.name[|e.name| - 1] != '/'
  }

  ghost predicate HasFile(entries: seq<Entry>, name: string) {
    exists i :: 0 <= i < |entries| && entries[i].name == name && IsFile(entries[i])
  }

  /** The last file of that name in the archive holds the data. */
  ghost predicate LastHolds(entries: seq<Entry>, name: string, data: Bytes) {
    exists i :: 0 <= i < |entries| && entries[i] == Entry(name, data) && IsFile(entries[i])
                && forall j :: i < j < |entries| ==> entries[j].name != name
  }

  ghost predicate AllArchiveNames(entries: seq<Entry>) {
    forall i :: 0 <= i < |entries| && IsFile(entries[i]) ==> IsArchiveName(entries[i].name)
  }

  /** The files are those of the archive, each with the content of the last member of its name. */
  ghost predicate AreFilesOf(entries: seq<Entry>, files: Files) {
    forall name :: (name in files <==> HasFile(entries, name))
                   && (name in files ==> LastHolds(entries, name, files[name]))
  }

  lemma OneMoreEntry(entries: seq<Entry>, last: Entry, name: string, data: Bytes)
    ensures HasFile(entries + [last], name) <==> HasFile(entries, name) || (last.name == name && IsFile(last))
    ensures LastHolds(entries, name, data) && last.name != name ==> LastHolds(entries + [last], name, data)
    ensures IsFile(last) ==> LastHolds(entries + [last], last.name, last.data)
    ensures AllArchiveNames(entries + [last])
            <==> AllArchiveNames(entries) && (IsFile(last) ==> IsArchiveName(last.name))
  {
    hide IsArchiveName, IsFile;
    var all := entries + [last];
    assert forall i :: 0 <= i < |entries| ==> all[i] == entries[i];
    assert all[|entries|] == last;
    if last.name == name && IsFile(last) {
      assert all[|entries|].name == name;
    }
    if HasFile(entries, name) {
      var i :| 0 <= i < |entries| && entries[i].name == name && IsFile(entries[i]);
      assert all[i].name == name;
    }
    if LastHolds(entries, name, data) && last.name != name {
      var i :| 0 <= i < |entries| && entries[i] == Entry(name, data) && IsFile(entries[i])
               && forall j :: i < j < |entries| ==> entries[j].name != name;
      assert all[i] == Entry(name, data);
    }
    if IsFile(last) {
      assert all[|entries|] == Entry(last.name, last.data);
    }
  }

  lemma NameOfFile(entries: seq<Entry>, name: string)
    requires HasFile(entries, name)
    ensures !IsDirectoryName(name)
  {
  }

  /** An archive is read if and only if every file in it has such a name. */
  lemma {:induction false} UnpackMeans(entries: seq<Entry>)
    ensures Unpack(entries).Ok? <==> AllArchiveNames(entries)
    ensures Unpack(entries).Ok? ==> AreFilesOf(entries, Unpack(entries).value)
  {
    if entries != [] {
      var n := |entries| - 1;
      var front, last := entries[..n], entries[n];
      assert entries == front + [last];
      UnpackMeans(front);
      RejectedMeans(last.name);
      assert IsFile(last) <==> !IsDirectoryName(last.name);
      OneMoreEntry(front, last, last.name, last.data);
      if Unpack(entries).Ok? {
        hide HasFile, LastHolds, IsArchiveName, Rejected, AllArchiveNames, IsFile, IsDirectoryName;
        var files, before := Unpack(entries).value, Unpack(front).value;
        forall name
          ensures name in files <==> HasFile(entries, name)
          ensures name in files ==> LastHolds(entries, name, files[name])
        {
          OneMoreEntry(front, last, name, if name in before then before[name] else last.data);
          if HasFile(front, name) {
            NameOfFile(front, name);
          }
        }
      }
    }
  }

  /** An archive can be imported: every file in it has such a name, and a skill file is at its root. */
  ghost predicate CanImport(entries: seq<Entry>) {
    AllArchiveNames(entries) && (HasFile(entries, "SKILL.md") || HasFile(entries, "skill.md"))
  }

  /** The name under which a file of the bundle is in the archive: a lone `skill.md` is the skill file. */
  ghost function NameIn(entries: seq<Entry>, path: string): string {
    if path == "SKILL.md" && !HasFile(entries, "SKILL.md") then "skill.md" else path
  }

  /** The bundle that an archive brings: its files under their names, with the last content of each, and a
      lone `skill.md` under the canonical name. */
  ghost predicate IsBundleOf(entries: seq<Entry>, files: Files) {
    && (forall path :: path in files <==>
                         && HasFile(entries, NameIn(entries, path))
                         && (path == "skill.md" ==> HasFile(entries, "SKILL.md")))
    && (forall path :: path in files ==>
              LastHolds(entries, NameIn(entries, path), files[path]) && IsArchiveName(NameIn(entries, path)))
  }

  lemma FileNamesAreArchiveNames(entries: seq<Entry>, name: string)
    requires AllArchiveNames(entries) && HasFile(entries, name)
    ensures IsArchiveName(name)
  {
  }

  lemma NormalizedIsBundle(entries: seq<Entry>, files: Files)
    requires AllArchiveNames(entries) && AreFilesOf(entries, files)
    ensures SKILL_FILE in Normalized(files) <==> CanImport(entries)
    ensures SKILL_FILE in Normalized(files) ==> IsBundleOf(entries, Normalized(files))
  {
    assert "SKILL.md" in files <==> HasFile(entries, "SKILL.md");
    assert "skill.md" in files <==> HasFile(entries, "skill.md");
    hide HasFile, LastHolds, IsArchiveName, AllArchiveNames;
    forall path | path in files ensures IsArchiveName(path) {
      FileNamesAreArchiveNames(entries, path);
    }
  }

  /** An archive is imported if and only if it can be, and then as the bundle that it brings. */
  lemma ImportMeans(entries: seq<Entry>)
    ensures Import(entries) == Err(BadValue) || Import(entries).Ok?
    ensures Import(entries).Ok? <==> CanImport(entries)
    ensures Import(entries).Ok? ==> IsBundleOf(entries, Import(entries).value)
  {
    hide Normalized, IsBundleOf, AllArchiveNames, AreFilesOf;
    UnpackMeans(entries);
    UnpackError(entries);
    if Unpack(entries).Ok? {
      NormalizedIsBundle(entries, Unpack(entries).value);
    }
  }

  /** A bundle can be exported: it has a skill file at its root, and every path is such a name. */
  ghost predicate CanExport(files: Files) {
    && ("SKILL.md" in files || "skill.md" in files)
    && forall path :: path in files ==> IsArchiveName(path)
  }

  /** What is in front of the first NUL, or the whole name. */
  ghost predicate IsCutAtNul(name: string, path: string) {
    && name <= path && (forall k :: 0 <= k < |name| ==> name[k] != '\0')
    && (|name| < |path| ==> path[|name|] == '\0')
  }

  lemma {:induction false} MemberNameIsCut(path: string)
    ensures IsCutAtNul(MemberName(path), path)
  {
    if path != "" && path[0] != '\0' {
      MemberNameIsCut(path[1..]);
      assert path == [path[0]] + path[1..];
    }
  }

  /** One member for each of the paths, in their order, with the content of the file. */
  ghost predicate ArePacked(files: Files, paths: seq<string>, entries: seq<Entry>)
    requires forall path :: path in paths ==> path in files
  {
    && |entries| == |paths|
    && forall i :: 0 <= i < |paths| ==> IsCutAtNul(entries[i].name, paths[i]) && entries[i].data == files[paths[i]]
  }

  lemma {:induction false} PackMeans(files: Files, paths: seq<string>)
    requires forall path :: path in paths ==> path in files
    ensures Pack(files, paths).Ok? || Pack(files, paths) == Err(BadValue)
    ensures Pack(files, paths).Ok? <==> forall path :: path in paths ==> IsArchiveName(path)
    ensures Pack(files, paths).Ok? ==> ArePacked(files, paths, Pack(files, paths).value)
  {
    if paths != [] {
      var rest := paths[1..];
      assert paths == [paths[0]] + rest;
      PackMeans(files, rest);
      RejectedMeans(paths[0]);
      MemberNameIsCut(paths[0]);
      hide IsArchiveName, Rejected, IsCutAtNul, MemberName;
      assert forall i :: 0 < i < |paths| ==> paths[i] == rest[i - 1];
    }
  }

  /** A bundle is exported if and only if it can be, with its paths in their sorted order. */
  lemma ExportMeans(files: Files)
    ensures Export(files).Ok? || Export(files) == Err(BadValue)
    ensures Export(files).Ok? <==> CanExport(files)
    ensures forall path :: path in SortedPaths(files) <==> path in files
    ensures Export(files).Ok? ==> ArePacked(files, SortedPaths(files), Export(files).value)
  {
    hide IsArchiveName, ArePacked;
    SortedDistinct(files);
    PackMeans(files, SortedPaths(files));
  }

  // ---------------------------------------------------------------------------
  // The two loops
  // ---------------------------------------------------------------------------

  function Behind(entries: seq<Entry>, r: Result<seq<Entry>>): Result<seq<Entry>> {
    match r case Ok(rest) => Ok(entries + rest) case Err(e) => Err(e)
  }

  lemma PackStep(files: Files, paths: seq<string>, i: nat, entries: seq<Entry>)
    requires i < |paths| && !Rejected(paths[i])
    ensures Behind(entries, Pack(files, paths[i..]))
            == Behind(entries + [Entry(MemberName(paths[i]), Content(files, paths[i]))], Pack(files, paths[i + 1..]))
  {
    assert paths[i..][1..] == paths[i + 1..];
    if Pack(files, paths[i + 1..]).Ok? {
      ConcatAssoc(entries, [Entry(MemberName(paths[i]), Content(files, paths[i]))], Pack(files, paths[i + 1..]).value);
    }
  }

  method PackAll(files: Files, paths: seq<string>) returns (r: Result<seq<Entry>>)
    ensures r == Pack(files, paths)
  {
    var entries: seq<Entry> := [];
    BehindNothing(Pack(files, paths));
    for i := 0 to |paths|
      invariant Pack(files, paths) == Behind(entries, Pack(files, paths[i..]))
    {
      if Rejected(paths[i]) {
        return Err(BadValue);
      }
      PackStep(files, paths, i, entries);
      entries := entries + [Entry(MemberName(paths[i]), Content(files, paths[i]))];
    }
    assert entries + [] == entries;
    return Ok(entries);
  }

  lemma BehindNothing(r: Result<seq<Entry>>)
    ensures Behind([], r) == r
  {
    if r.Ok? {
      assert [] + r.value == r.value;
    }
  }

  method ExportSkillZip(files: Files) returns (r: Result<seq<Entry>>)
    ensures r == Export(files)
    ensures r.Ok? <==> CanExport(files)
    ensures r.Err? ==> r == Err(BadValue)
    ensures forall path :: path in SortedPaths(files) <==> path in files
    ensures r.Ok? ==> ArePacked(files, SortedPaths(files), r.value)
  {
    ExportMeans(files);
    hide IsArchiveName, ArePacked, Pack;
    if SKILL_FILE !in files && LOWER_SKILL_FILE !in files {
      return Err(BadValue);
    }
    var paths := ListPaths(files);
    r := PackAll(files, paths);
  }

  lemma {:induction false} UnpackFailsEarly(entries: seq<Entry>, i: nat)
    requires i <= |entries| && Unpack(entries[..i]).Err?
    ensures Unpack(entries) == Err(BadValue)
    decreases |entries|
  {
    if i == |entries| {
      assert entries[..i] == entries;
      UnpackError(entries);
    } else {
      var front := entries[..|entries| - 1];
      assert front[..i] == entries[..i];
      UnpackFailsEarly(front, i);
    }
  }

  lemma {:induction false} UnpackError(entries: seq<Entry>)
    ensures Unpack(entries).Err? ==> Unpack(entries) == Err(BadValue)
  {
    if entries != [] {
      UnpackError(entries[..|entries| - 1]);
    }
  }

  method ImportSkillZip(entries: seq<Entry>) returns (r: Result<Files>)
    ensures r == Import(entries)
    ensures r.Ok? <==> CanImport(entries)
    ensures r.Err? ==> r == Err(BadValue)
    ensures r.Ok? ==> IsBundleOf(entries, r.value)
  {
    ImportMeans(entries);
    hide CanImport, IsBundleOf, Rejected, IsDirectoryName;
    var files: Files := map[];
    for i := 0 to |entries|
      invariant Unpack(entries[..i]) == Ok(files)
    {
      assert entries[..i + 1][..i] == entries[..i];
      var info := entries[i];
      if !IsDirectoryName(info.name) {
        if Rejected(info.name) {
          UnpackFailsEarly(entries, i + 1);
          return Err(BadValue);
        }
        files := files[info.name := info.data];
      }
    }
    assert entries[..|entries|] == entries;
    if SKILL_FILE !in files && LOWER_SKILL_FILE in files {
      var data := files[LOWER_SKILL_FILE];
      files := files - {LOWER_SKILL_FILE};
      files := files[SKILL_FILE := data];
    }
    if SKILL_FILE !in files {
      return Err(BadValue);
    }
    return Ok(files);
  }

  // ---------------------------------------------------------------------------
  // Export and import
  // ---------------------------------------------------------------------------

  /** Paths that a ZIP member name spells in full and that are not directory names. */
  predicate Archivable(rel: string) {
    '\0' !in rel && !IsDirectoryName(rel)
  }

  lemma {:induction false} MemberNameExact(rel: string)
    ensures '\0' !in MemberName(rel)
    ensures '\0' !in rel ==> MemberName(rel) == rel
  {
    if rel != "" && rel[0] != '\0' {
      MemberNameExact(rel[1..]);
      assert rel == [rel[0]] + rel[1..];
    }
  }

  /** Every imported path is a member name of the archive, or the normalised skill file. */
  lemma {:induction false} UnpackedNames(entries: seq<Entry>, k: string)
    requires Unpack(entries).Ok? && k in Unpack(entries).value
    ensures !IsDirectoryName(k) && exists i :: 0 <= i < |entries| && entries[i].name == k
  {
    if entries != [] {
      var n := |entries| - 1;
      if entries[n].name != k {
        UnpackedNames(entries[..n], k);
        var i :| 0 <= i < n && entries[..n][i].name == k;
        assert entries[i].name == k;
      } else if IsDirectoryName(k) {
        UnpackedNames(entries[..n], k);
      }
    }
  }

  lemma {:induction false} PackedNames(files: Files, paths: seq<string>, i: nat)
    requires Pack(files, paths).Ok? && i < |Pack(files, paths).value|
    ensures '\0' !in Pack(files, paths).value[i].name
  {
    if paths != [] {
      MemberNameExact(paths[0]);
      if i > 0 {
        PackedNames(files, paths[1..], i - 1);
      }
    }
  }

  ghost function Among(files: Files, paths: seq<string>): Files {
    map k | k in files && k in paths :: files[k]
  }

  lemma {:induction false} UnpackAppend(first: Entry, rest: seq<Entry>)
    requires Unpack(rest).Ok? && !IsDirectoryName(first.name) && !Rejected(first.name)
    requires first.name !in Unpack(rest).value
    ensures Unpack([first] + rest) == Ok(Unpack(rest).value[first.name := first.data])
  {
    var all := [first] + rest;
    if rest == [] {
      assert all[..0] == [];
    } else {
      var n := |rest| - 1;
      assert all[..|all| - 1] == [first] + rest[..n];
      UnpackAppend(first, rest[..n]);
      var m := Unpack(rest[..n]).value;
      if !IsDirectoryName(rest[n].name) {
        assert m[first.name := first.data][rest[n].name := rest[n].data]
               == m[rest[n].name := rest[n].data][first.name := first.data];
      }
    }
  }

  lemma {:induction false} PackThenUnpack(files: Files, paths: seq<string>)
    requires forall p :: p in paths ==> p in files && Archivable(p)
    requires forall i, j :: 0 <= i < j < |paths| ==> paths[i] != paths[j]
    requires Pack(files, paths).Ok?
    ensures Unpack(Pack(files, paths).value) == Ok(Among(files, paths))
  {
    if paths == [] {
      assert Among(files, []) == map[];
    } else {
      var p, rest := paths[0], paths[1..];
      assert paths == [p] + rest;
      assert Archivable(p);
      PackThenUnpack(files, rest);
      MemberNameExact(p);
      NotAmongRest(files, paths);
      UnpackAppend(Entry(p, files[p]), Pack(files, rest).value);
      assert Among(files, rest)[p := files[p]] == Among(files, paths);
    }
  }

  lemma NotAmongRest(files: Files, paths: seq<string>)
    requires paths != [] && forall i, j :: 0 <= i < j < |paths| ==> paths[i] != paths[j]
    ensures paths[0] !in Among(files, paths[1..])
  {
    forall j | 0 <= j < |paths[1..]| ensures paths[1..][j] != paths[0] {
      assert paths[1..][j] == paths[j + 1];
    }
  }

  lemma SortedDistinct(files: Files)
    ensures forall i, j :: 0 <= i < j < |SortedPaths(files)| ==> SortedPaths(files)[i] != SortedPaths(files)[j]
    ensures forall p :: p in SortedPaths(files) <==> p in files
  {
    var paths := SortedPaths(files);
    forall i, j | 0 <= i < j < |paths| ensures paths[i] != paths[j] {
      assert Less(paths[i], paths[j]);
      LessIrreflexive(paths[i]);
    }
  }

  lemma ArchivableComesBack(files: Files)
    requires Export(files).Ok? && SKILL_FILE in files && forall k :: k in files ==> Archivable(k)
    ensures Import(Export(files).value) == Ok(files)
  {
    var paths := SortedPaths(files);
    SortedDistinct(files);
    PackThenUnpack(files, paths);
    assert Among(files, paths) == files;
  }

  lemma ComesBackOnlyIfArchivable(files: Files)
    requires Export(files).Ok? && Import(Export(files).value) == Ok(files)
    ensures SKILL_FILE in files && forall k :: k in files ==> Archivable(k)
  {
    var entries := Export(files).value;
    var unpacked := Unpack(entries).value;
    forall k | k in files ensures Archivable(k) {
      if k in unpacked {
        UnpackedNames(entries, k);
        var i :| 0 <= i < |entries| && entries[i].name == k;
        PackedNames(files, SortedPaths(files), i);
      } else {
        assert k == SKILL_FILE;
      }
    }
  }

  /** A bundle that can be exported comes back from import exactly when it has its skill file in the
      canonical spelling and every path is a plain member name. */
  lemma ExportThenImport(files: Files)
    requires Export(files).Ok?
    ensures Import(Export(files).value) == Ok(files)
            <==> SKILL_FILE in files && forall k :: k in files ==> Archivable(k)
  {
    if SKILL_FILE in files && forall k :: k in files ==> Archivable(k) {
      ArchivableComesBack(files);
    }
    if Import(Export(files).value) == Ok(files) {
      ComesBackOnlyIfArchivable(files);
    }
  }

  // ---------------------------------------------------------------------------
  // Reading a revision back
  // ---------------------------------------------------------------------------

  /** The loop over the listed objects; an object at the prefix itself is left out. */
  function Gather(downloads: seq<Download>, files: Files): Result<Files>
    decreases downloads
  {
    if downloads == [] then Ok(files)
    else if downloads[0].rel == "" then Gather(downloads[1..], files)
    else
      var data :- downloads[0].reply;
      Gather(downloads[1..], files[downloads[0].rel := data])
  }

  function Found(r: Result<Files>): Result<Files> {
    if r.Ok? && r.value == map[] then Err(NotFound) else r
  }

  /** `_read_revision_files`, when the store lists in the order of `refs`. */
  function RevisionFiles(o: Objects, w: string, scope: Option<string>, digest: string,
                         refs: seq<ObjectRef>): Result<Files> {
    if RevisionPrefix(w, digest).Err? then Err(NotFound)
    else
      var prefix :- ListedPrefix(w, scope, digest);
      Found(Gather(Answers(o, w, scope, prefix, refs), map[]))
  }

  method ReadRevisionFiles(storage: FlatStorage.Storage, digest: string) returns (r: Result<Files>,
      ghost refs: seq<ObjectRef>)
    ensures r == RevisionFiles(storage.bucket.objects, storage.id, storage.scope, digest, refs)
    ensures ListedPrefix(storage.id, storage.scope, digest).Ok? ==>
              IsListingOf(refs, storage.bucket.objects, ListedPrefix(storage.id, storage.scope, digest).value)
  {
    hide IsListingOf, Contains, RevisionPrefix;
    refs := [];
    var revision := RevisionPrefix(storage.id, digest);
    if revision.Err? {
      return Err(NotFound), [];
    }
    var prefix := revision.value + "skills/";
    var listed := storage.ListObjects(prefix);
    if listed.Err? {
      return Err(listed.error), [];
    }
    r := GatherAll(storage, prefix, listed.value);
    refs := listed.value;
    if r.Ok? && r.value == map[] {
      r := Err(NotFound);
    }
  }

  method GatherAll(storage: FlatStorage.Storage, prefix: string, refs: seq<ObjectRef>) returns (r: Result<Files>)
    ensures r == Gather(Answers(storage.bucket.objects, storage.id, storage.scope, prefix, refs), map[])
  {
    ghost var o := storage.bucket.objects;
    var files: Files := map[];
    for i := 0 to |refs|
      invariant Gather(Answers(o, storage.id, storage.scope, prefix, refs), map[])
                == Gather(Answers(o, storage.id, storage.scope, prefix, refs[i..]), files)
    {
      hide AnswerOf;
      assert refs[i..][1..] == refs[i + 1..];
      var rel := Relative(refs[i].key, prefix);
      if rel != "" {
        var data := FetchObject(storage, refs[i].key);
        if data.Err? {
          return Err(data.error);
        }
        files := files[rel := data.value];
      }
    }
    return Ok(files);
  }

  method FetchObject(storage: FlatStorage.Storage, key: string) returns (r: Result<Bytes>)
    ensures r == AnswerOf(storage.bucket.objects, storage.id, storage.scope, key)
  {
    r := storage.GetObject(key);
  }

  lemma {:induction false} GatherHonest(downloads: seq<Download>, done: Files, files: Files)
    requires "" !in files && MaterializerTheorems.Among(downloads, files)
    requires forall k :: k in done ==> k in files && done[k] == files[k]
    requires forall k :: k in files ==> k in done || k in Rels(downloads)
    ensures Gather(downloads, done) == Ok(files)
    decreases downloads
  {
    if downloads == [] {
      assert done == files;
    } else {
      var d := downloads[0];
      assert d.rel in files && d.reply == Ok(files[d.rel]);
      GatherHonest(downloads[1..], done[d.rel := files[d.rel]], files);
    }
  }

  /** An object that is not answered makes the reading fail. */
  lemma {:induction false} GatherNeedsAnswers(downloads: seq<Download>, files: Files)
    ensures Gather(downloads, files).Ok?
            <==> forall i :: 0 <= i < |downloads| && downloads[i].rel != "" ==> downloads[i].reply.Ok?
    decreases downloads
  {
    if downloads != [] {
      var d := downloads[0];
      GatherNeedsAnswers(downloads[1..], if d.reply.Ok? && d.rel != "" then files[d.rel := d.reply.value] else files);
      assert downloads == [d] + downloads[1..];
    }
  }

  /** A digest that is none, and one below which the store holds nothing, are not found. */
  lemma MissingRevisionIsNotFound(o: Objects, w: string, scope: Option<string>, digest: string, refs: seq<ObjectRef>)
    ensures !IsDigestName(digest) ==> RevisionFiles(o, w, scope, digest, refs) == Err(NotFound)
    ensures IsWorkspaceId(w) && IsDigestName(digest) && OwnScope(w, scope) && refs == [] ==>
              RevisionFiles(o, w, scope, digest, refs) == Err(NotFound)
  {
    if IsWorkspaceId(w) && IsDigestName(digest) && OwnScope(w, scope) {
      ListedPrefixIsRoot(Approval(w, digest, None, map[]), scope);
      RevisionPrefixIsDefined(w, digest);
    }
  }

  /** In a store that holds exactly an approved bundle, reading the revision gives the bundle. */
  lemma ExactRevisionIsRead(o: Objects, a: Approval, scope: Option<string>, refs: seq<ObjectRef>)
    requires HoldsExactly(o, a) && AllSafe(a.files) && a.files != map[]
    requires IsWorkspaceId(a.workspaceId) && IsDigestName(a.digest) && OwnScope(a.workspaceId, scope)
    requires IsListingOf(refs, o, SkillsRoot(a.workspaceId, a.digest))
    ensures RevisionFiles(o, a.workspaceId, scope, a.digest, refs) == Ok(a.files)
  {
    hide IsListingOf, Guard, RevisionPrefix, SkillsRoot, HoldsExactly, IsDigestName, IsWorkspaceId, SkillKey;
    ListedPrefixIsRoot(a, scope);
    RevisionPrefixIsDefined(a.workspaceId, a.digest);
    ExactStoreIsHonest(o, a, scope, refs);
    assert !SafePath("");
    GatherHonest(Answers(o, a.workspaceId, scope, SkillsRoot(a.workspaceId, a.digest), refs), map[], a.files);
  }

  // ---------------------------------------------------------------------------
  // Publishing imported files
  // ---------------------------------------------------------------------------

  /** `_ensure_manifest`: `nameIn` finds the name line of a skill file. */
  function EnsureManifest(files: Files, defaultName: string, nameIn: Bytes -> Option<string>,
                          dumps: Json -> Bytes): Files {
    if MANIFEST in files then files
    else
      var found := nameIn(Content(files, SKILL_FILE));
      var name := if found.Some? then found.value else defaultName;
      files[MANIFEST := dumps(Object(map["name" := Str(name)]))]
  }

  lemma NamedManifestPasses(platform: Platform, files: Files, name: string, dumps: Json -> Bytes)
    requires forall j :: platform.loads(dumps(j)) == Some(j)
    ensures ManifestProblems(platform, files[MANIFEST := dumps(Object(map["name" := Str(name)]))]) == {}
  {
    var fields: map<string, Json> := map["name" := Str(name)];
    assert platform.loads(dumps(Object(fields))) == Some(Object(fields));
  }

  /** A synthesized manifest passes the manifest check when printing can be undone. */
  lemma EnsuredManifestIsValid(platform: Platform, files: Files, defaultName: string, nameIn: Bytes -> Option<string>,
                               dumps: Json -> Bytes)
    requires MANIFEST !in files && forall j :: platform.loads(dumps(j)) == Some(j)
    ensures var found := if "SKILL.md" in files then nameIn(files["SKILL.md"]) else nameIn([]);
            var name := if found.Some? then found.value else defaultName;
            EnsureManifest(files, defaultName, nameIn, dumps)
            == files["manifest.json" := dumps(Object(map["name" := Str(name)]))]
    ensures ManifestProblems(platform, EnsureManifest(files, defaultName, nameIn, dumps)) == {}
  {
    var found := nameIn(Content(files, SKILL_FILE));
    NamedManifestPasses(platform, files, if found.Some? then found.value else defaultName, dumps);
    hide ManifestProblems;
  }

  function FreshDraft(w: string, files: Files): Draft {
    Draft(w, Open, None, files, {})
  }

  /** The drafts when the imported files are submitted, or stand rejected. */
  function ReadyDraft(platform: Platform, w: string, files: Files): Draft {
    var d := Checked(platform, FreshDraft(w, files));
    if d.status == Validated then d.(status := Submitted) else d
  }

  /** One iteration of the patches: `path` is added to the files without `rest`. */
  method PatchOne(service: DraftService, id: string, ghost w: string, files: Files, ghost rest: set<string>,
                  path: string)
    requires service.Valid() && id in service.drafts && path in files && path in rest
    requires service.View()[id] == FreshDraft(w, files - rest)
    modifies service.drafts.Values
    ensures service.View() == old(service.View())[id := FreshDraft(w, files - (rest - {path}))]
  {
    assert (files - rest)[path := files[path]] == files - (rest - {path});
    assert Patched(FreshDraft(w, files - rest), path, Some(files[path])) == FreshDraft(w, files - (rest - {path}));
    var patched := service.ApplyPatch(id, path, Some(files[path]));
  }

  method PatchEach(service: DraftService, id: string, ghost w: string, files: Files)
    requires service.Valid() && id in service.drafts && service.View()[id] == FreshDraft(w, map[])
    modifies service.drafts.Values
    ensures service.View() == old(service.View())[id := FreshDraft(w, files)]
  {
    hide Patched, FreshDraft;
    ghost var before := service.View();
    var rest := files.Keys;
    assert files - rest == map[];
    assert before[id := FreshDraft(w, map[])] == before;
    while rest != {}
      invariant rest <= files.Keys
      invariant service.View() == before[id := FreshDraft(w, files - rest)]
      decreases |rest|
    {
      var path :| path in rest;
      Overwritten(before, id, FreshDraft(w, files - rest), FreshDraft(w, files - (rest - {path})));
      PatchOne(service, id, w, files, rest, path);
      rest := rest - {path};
    }
    assert files - {} == files;
  }

  lemma Overwritten(drafts: Table, id: string, a: Draft, b: Draft)
    ensures drafts[id := a][id := b] == drafts[id := b] && drafts[id := a][id] == a
  {
  }

  method DraftFiles(service: DraftService, id: string, w: string, files: Files)
    requires service.Valid() && service.registry.Valid() && id !in service.drafts
    modifies service, service.drafts.Values
    ensures service.Valid() && fresh(service.Repr() - old(service.Repr())) && id in service.drafts
    ensures service.View() == old(service.View())[id := FreshDraft(w, files)]
  {
    ghost var before := service.View();
    var created := service.CreateDraft(id, w, None);
    assert service.View() == before[id := FreshDraft(w, map[])];
    PatchEach(service, id, w, files);
    Overwritten(before, id, FreshDraft(w, map[]), FreshDraft(w, files));
  }

  method JudgeAndSubmit(service: DraftService, id: string, ghost w: string, files: Files) returns (ok: bool)
    requires service.Valid() && id in service.drafts && service.View()[id] == FreshDraft(w, files)
    modifies service.drafts.Values
    ensures service.View() == old(service.View())[id := ReadyDraft(service.platform, w, files)]
    ensures ok <==> ReadyDraft(service.platform, w, files).status == Submitted
  {
    hide Problems;
    ghost var before := service.View();
    var validated := service.ValidateDraft(id);
    assert service.View() == before[id := Checked(service.platform, FreshDraft(w, files))];
    ok := validated.value.status == Validated;
    assert ok <==> service.View()[id].status == Validated;
    if ok {
      var submitted := service.SubmitDraft(id);
      Overwritten(before, id, Checked(service.platform, FreshDraft(w, files)), ReadyDraft(service.platform, w, files));
    }
  }

  method SubmitFiles(service: DraftService, id: string, w: string, files: Files) returns (ok: bool)
    requires service.Valid() && service.registry.Valid() && id !in service.drafts
    modifies service, service.drafts.Values
    ensures service.Valid() && fresh(service.Repr() - old(service.Repr()))
    ensures service.View() == old(service.View())[id := ReadyDraft(service.platform, w, files)]
    ensures ok <==> ReadyDraft(service.platform, w, files).status == Submitted
  {
    hide ReadyDraft, FreshDraft;
    ghost var before := service.View();
    DraftFiles(service, id, w, files);
    Overwritten(before, id, FreshDraft(w, files), ReadyDraft(service.platform, w, files));
    ok := JudgeAndSubmit(service, id, w, files);
  }

  /** `_publish_files`; `id` is the random id of the draft. */
  method PublishFiles(service: DraftService, id: string, w: string, files: Files, storage: FlatStorage.Storage,
                      activate: bool, note: string, now: int)
    returns (r: Result<PublishResult>)
    requires service.Valid() && service.registry.Valid() && id !in service.drafts
    modifies service, service.drafts.Values, service.registry, service.registry.workspaces.Values, storage.bucket
    ensures service.Valid() && service.registry.Valid()
    ensures var d := ReadyDraft(service.platform, w, files);
            var ready := World(old(storage.bucket.objects), old(service.registry.View()), old(service.View())[id := d]);
            if d.status == Submitted then
              (service.WorldOf(storage), r)
              in PublishOutcomes(service.platform, storage.id, storage.scope, id, activate, note, now, ready)
            else service.WorldOf(storage) == ready && r == Err(Validation)
  {
    hide ReadyDraft, PublishOutcomes, AllSafe, Digest, ManifestOf, Problems, Guard;
    var ok := SubmitFiles(service, id, w, files);
    if !ok {
      return Err(Validation);
    }
    r := service.Publish(id, storage, activate, note, now);
  }

  // ---------------------------------------------------------------------------
  // Re-importing an exported revision
  // ---------------------------------------------------------------------------

  lemma SafeIsNotRejected(rel: string)
    requires SafePath(rel)
    ensures !Rejected(rel)
  {
    NontrivialOnly(Split(rel, '/'));
  }

  lemma {:induction false} SafePathsPack(files: Files, paths: seq<string>)
    requires forall p :: p in paths ==> SafePath(p)
    ensures Pack(files, paths).Ok?
  {
    if paths != [] {
      assert paths[0] in paths;
      SafeIsNotRejected(paths[0]);
      SafePathsPack(files, paths[1..]);
    }
  }

  /** The revision that a registered bundle's content is published as again. */
  lemma RecordedAgain(r: State, rev: Revision, note: string, now: int)
    requires Inv(r) && RevisionKey(rev.workspaceId, rev.contentDigest) in r.revisions
    ensures Enter(r, rev, true, note, now).Ok?
    ensures var r', w := Enter(r, rev, true, note, now).value, rev.workspaceId;
            && r'.revisions == r.revisions
            && Generations(r', w)
               == Generations(r, w) + [Generation(w, |Generations(r, w)| + 1, rev.contentDigest, now, note)]
            && EnteredGeneration(r, w, true) == Some(|Generations(r, w)| + 1)
  {
    assert rev.workspaceId in r.generations ==> Numbered(r, rev.workspaceId);
  }

  /** Skill objects that are stored already are written over with the same bytes. */
  lemma SkillsStayTheSame(o: Objects, a: Approval, k: string)
    requires HoldsExactly(o, a) && k in SkillObjects(a.workspaceId, a.digest, a.files)
    ensures k in o && o[k] == SkillObjects(a.workspaceId, a.digest, a.files)[k]
  {
    var rel :| rel in a.files && k == SkillKey(a.workspaceId, a.digest, rel);
    SkillObject(a.workspaceId, a.digest, a.files, rel);
    assert k == FileKey(a, rel);
  }

  ghost predicate SameApartFrom(o: Objects, o': Objects, key: string) {
    forall k :: k != key ==> (k in o' <==> k in o) && (k in o ==> o'[k] == o[k])
  }

  lemma PublishedObjectsAgain(platform: Platform, o: Objects, a: Approval, d: Draft)
    requires HoldsExactly(o, a) && d.workspaceId == a.workspaceId && d.files == a.files
    requires ManifestOf(platform, d.files).Some?
    requires a.digest == DigestOf(platform, d)
    ensures SameApartFrom(o, PublishedObjects(platform, o, d), ManifestKey(a.workspaceId, a.digest))
  {
    hide HoldsExactly, Digest, ManifestOf, AreSkills;
    forall k | k in SkillObjects(a.workspaceId, a.digest, a.files)
      ensures k in o && o[k] == SkillObjects(a.workspaceId, a.digest, a.files)[k]
    {
      SkillsStayTheSame(o, a, k);
    }
  }

  /** `a` is registered, stored exactly and passes the validators without a base revision. */
  ghost predicate Reimportable(platform: Platform, before: World, a: Approval, scope: Option<string>) {
    && Inv(before.registry) && RevisionKey(a.workspaceId, a.digest) in before.registry.revisions
    && a.digest == Digest(platform.sha, a.files) && HoldsExactly(before.objects, a)
    && Problems(platform, a.workspaceId, None, a.files) == {}
    && IsWorkspaceId(a.workspaceId) && OwnScope(a.workspaceId, scope)
  }

  lemma ReadyForPublication(platform: Platform, before: World, id: string, a: Approval, scope: Option<string>)
    requires Reimportable(platform, before, a, scope)
    ensures var d := ReadyDraft(platform, a.workspaceId, a.files);
            && d == Draft(a.workspaceId, Submitted, None, a.files, {})
            && PublishCheck(platform, before.drafts[id := d], id, a.workspaceId) == Ok(d)
            && ManifestOf(platform, a.files).Some? && AllSafe(a.files) && IsDigestName(a.digest)
            && GuardsPass(a.workspaceId, scope, a.digest, a.files)
  {
    hide Problems, HoldsExactly, Inv, AllSafe, GuardsPass, ManifestOf, Digest, Publishable, IsWorkspaceId;
    CleanFiles(platform, a.workspaceId, a.files);
    DigestIsName(a);
    BrokerScopeSuffices(a.workspaceId, scope, a.digest, a.files);
  }

  lemma DigestIsName(a: Approval)
    requires IsHex64(a.digest)
    ensures IsDigestName(a.digest)
  {
    assert a.digest[..64] == a.digest;
  }

  /** Files without problems are submitted, and what is submitted can be published. */
  lemma CleanFiles(platform: Platform, w: string, files: Files)
    requires Problems(platform, w, None, files) == {}
    ensures ReadyDraft(platform, w, files) == Draft(w, Submitted, None, files, {})
    ensures Publishable(platform, files) && ManifestOf(platform, files).Some? && AllSafe(files)
  {
    VettedCanBePublished(platform, FreshDraft(w, files));
    hide Problems, AllSafe, ManifestOf;
  }

  ghost function Republished(platform: Platform, before: World, id: string, a: Approval): World {
    before.(drafts := before.drafts[id := ReadyDraft(platform, a.workspaceId, a.files)])
  }

  /** What publishing the content of `a` again comes to. */
  ghost predicate OnlyActivated(before: World, x: World, r: Result<PublishResult>, a: Approval, note: string,
                                now: int) {
    var n := |Generations(before.registry, a.workspaceId)| + 1;
    && r == Ok(PublishResult(a.digest, Some(n)))
    && x.registry.revisions == before.registry.revisions
    && Generations(x.registry, a.workspaceId)
       == Generations(before.registry, a.workspaceId) + [Generation(a.workspaceId, n, a.digest, now, note)]
    && SameApartFrom(before.objects, x.objects, ManifestKey(a.workspaceId, a.digest))
  }

  lemma PublishedAgain(platform: Platform, before: World, id: string, a: Approval, scope: Option<string>,
                       note: string, now: int)
    requires Reimportable(platform, before, a, scope) && ManifestOf(platform, a.files).Some?
    ensures var d := Draft(a.workspaceId, Submitted, None, a.files, {});
            var ready := Republished(platform, before, id, a);
            var (x, r) := Entered(platform, id, d, true, note, now,
                                  ready.(objects := PublishedObjects(platform, before.objects, d)));
            OnlyActivated(before, x, r, a, note, now)
  {
    hide Inv, HoldsExactly, Problems, Enter, EnteredGeneration, PublishedObjects, SameApartFrom, Digest, ManifestOf,
      ReadyDraft, IsWorkspaceId;
    var d := Draft(a.workspaceId, Submitted, None, a.files, {});
    PublishedObjectsAgain(platform, before.objects, a, d);
    RecordedAgain(before.registry, PublishedRevision(platform, d, now), note, now);
  }

  /** Publishing the files of a registered revision again adds no revision and changes no stored skill
      byte; it gives the same digest and exactly one new generation. */
  lemma PublishingAgainOnlyActivates(platform: Platform, before: World, id: string, a: Approval,
                                     scope: Option<string>, note: string, now: int,
                                     x: World, r: Result<PublishResult>)
    requires Reimportable(platform, before, a, scope)
    requires (x, r)
            in PublishOutcomes(platform, a.workspaceId, scope, id, true, note, now,
                               Republished(platform, before, id, a))
    ensures OnlyActivated(before, x, r, a, note, now)
  {
    ReadyForPublication(platform, before, id, a, scope);
    PublishedAgain(platform, before, id, a, scope, note, now);
    hide Reimportable, ReadyDraft, Entered, PublishedObjects, GuardsPass, PublishCheck, OnlyActivated, AllSafe,
      ManifestOf, Digest;
  }

  /** A revision with a root skill file whose paths are plain member names can be exported, imported and
      published again: the same files, the same digest, no new revision, one new generation. */
  lemma ExportedRevisionComesBack(platform: Platform, before: World, id: string, a: Approval, scope: Option<string>,
                                  note: string, now: int,
                                  refs: seq<ObjectRef>, defaultName: string, nameIn: Bytes -> Option<string>, x: World,
                                  r: Result<PublishResult>)
    requires Reimportable(platform, before, a, scope)
    requires SKILL_FILE in a.files && forall k :: k in a.files ==> Archivable(k)
    requires IsListingOf(refs, before.objects, SkillsRoot(a.workspaceId, a.digest))
    requires (x, r)
            in PublishOutcomes(platform, a.workspaceId, scope, id, true, note, now,
                               Republished(platform, before, id, a))
    ensures RevisionFiles(before.objects, a.workspaceId, scope, a.digest, refs) == Ok(a.files)
    ensures Export(a.files).Ok? && Import(Export(a.files).value) == Ok(a.files)
    ensures EnsureManifest(a.files, defaultName, nameIn, platform.dumps) == a.files
    ensures OnlyActivated(before, x, r, a, note, now)
  {
    ReadyForPublication(platform, before, id, a, scope);
    VettedCanBePublished(platform, FreshDraft(a.workspaceId, a.files));
    PublishingAgainOnlyActivates(platform, before, id, a, scope, note, now, x, r);
    hide Problems, PublishOutcomes, Republished, OnlyActivated, Digest, IsListingOf, GuardsPass, ManifestOf, Inv,
      PublishCheck, ReadyDraft;
    assert a.files != map[];
    ExactRevisionIsRead(before.objects, a, scope, refs);
    SortedDistinct(a.files);
    SafePathsPack(a.files, SortedPaths(a.files));
    ExportThenImport(a.files);
  }
}
