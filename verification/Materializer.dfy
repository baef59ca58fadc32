/** Session materialization: a revision becomes a verified directory tree. */
module Materializer {
  import opened Text
  import opened Integrity
  import opened Paths
  import opened Disk
  import opened Layout
  import opened FlatStorage
  import opened LocalStorage
  import opened StorageRefinement
  import opened Registry

  // ---------------------------------------------------------------------------
  // What materialization does to the disk
  // ---------------------------------------------------------------------------

  /** One listed object, relative to the skills prefix, and what the store answered for it. */
  datatype Download = Download(rel: string, reply: Result<Bytes>)

  /** The disk afterwards, and what went wrong. */
  datatype Outcome = Outcome(tree: Tree, problem: Option<Error>)

  const SUBDIRS := ["skills", "antigravity-data", "inputs", "work"]

  function SessionDir(root: Path, w: string, session: string): Path {
    root + [w, session]
  }

  function SkillsDir(root: Path, w: string, session: string): Path {
    SessionDir(root, w, session) + ["skills"]
  }

  function MakeAll(t: Tree, base: Path, names: seq<string>): Result<Tree>
    decreases names
  {
    if names == [] then Ok(t)
    else
      var made :- MakeDirs(t, [], base + [names[0]]);
      MakeAll(made, base, names[1..])
  }

  /** The paths that a copy of the directory `c` to `to` creates or replaces. */
  function Copied(t: Tree, c: Path, to: Path): set<Path> {
    set p | p in t && c <= p :: to + p[|c|..]
  }

  function Original(c: Path, to: Path, p: Path): Path {
    if to <= p then c + p[|to|..] else p
  }

  /** `shutil.copytree(c, to, dirs_exist_ok=True)` into an empty directory. */
  function CopyTree(t: Tree, c: Path, to: Path): Tree {
    map p | p in t.Keys + Copied(t, c, to) ::
      if Original(c, to, p) in t then t[Original(c, to, p)] else if p in t then t[p] else Dir
  }

  function WithCatalog(t: Tree, catalog: Option<Path>, skills: Path): Tree {
    if catalog.Some? && IsDir(t, catalog.value) then CopyTree(t, catalog.value, skills) else t
  }

  /** `target.parent.mkdir(parents=True, exist_ok=True)`. */
  function MakeParents(t: Tree, at: Path, parts: seq<string>): Result<Tree> {
    if parts == [] then Ok(t)
    else if exists k :: 0 <= k < |parts| - 1 && '\0' in parts[k] then Err(BadValue)
    else MakeDirs(t, at, parts[..|parts| - 1])
  }

  function LayOne(t: Tree, skills: Path, d: Download): Result<Tree> {
    var at, parts := Start(skills, d.rel), Parts(d.rel);
    var made :- MakeParents(t, at, parts);
    var data :- d.reply;
    WriteFile(t, at, parts, data)
  }

  /** The download loop. */
  function LayDown(t: Tree, skills: Path, downloads: seq<Download>): Outcome
    decreases downloads
  {
    if downloads == [] then Outcome(t, None)
    else if downloads[0].rel == "" then LayDown(t, skills, downloads[1..])
    else
      match LayOne(t, skills, downloads[0])
      case Err(e) => Outcome(t, Some(e))
      case Ok(w) => LayDown(w, skills, downloads[1..])
  }

  /** `verify_tree`. */
  ghost function VerifyTree(sha: Sha256, t: Tree, skills: Path, digest: string): Option<Error> {
    var files := FilesBelow(t, skills);
    if !AllSafe(files) then Some(BadValue)
    else if Digest(sha, files) != digest then Some(Integrity)
    else None
  }

  function VerifyOne(sha: Sha256, t: Tree, skills: Path, d: Download): Option<Error> {
    if d.rel == "" then None
    else
      match Lookup(t, Start(skills, d.rel), Parts(d.rel))
      case Some(File(data)) =>
        (match d.reply
         case Err(e) => Some(e)
         case Ok(stored) => if sha(data) == sha(stored) then None else Some(Integrity))
      case _ => Some(FileSystem)
  }

  /** The comparison that replaces the digest check when a catalog is configured. */
  function VerifyEach(sha: Sha256, t: Tree, skills: Path, downloads: seq<Download>): Option<Error> {
    if downloads == [] then None
    else
      var problem := VerifyOne(sha, t, skills, downloads[0]);
      if problem.Some? then problem else VerifyEach(sha, t, skills, downloads[1..])
  }

  ghost function Verify(sha: Sha256, t: Tree, skills: Path, catalog: Option<Path>, digest: string,
                        again: seq<Download>): Option<Error> {
    if catalog == None then VerifyTree(sha, t, skills, digest) else VerifyEach(sha, t, skills, again)
  }

  /** Catalog, download and verification in a prepared session directory. The objects are listed and
      fetched `again` to compare them when there is a catalog. */
  ghost function Fill(sha: Sha256, t: Tree, skills: Path, catalog: Option<Path>, digest: string,
                      downloads: seq<Download>, again: seq<Download>): Outcome
  {
    var laid := LayDown(WithCatalog(t, catalog, skills), skills, downloads);
    if laid.problem.Some? then laid else Outcome(laid.tree, Verify(sha, laid.tree, skills, catalog, digest, again))
  }

  /** Materialization of a revision whose objects were answered as `downloads` and `again`. */
  ghost function Materialized(sha: Sha256, t: Tree, root: Path, catalog: Option<Path>, w: string, session: string,
                              digest: string,
                              downloads: seq<Download>, again: seq<Download>): Outcome
  {
    match MakeAll(t, SessionDir(root, w, session), SUBDIRS)
    case Err(e) => Outcome(t, Some(e))
    case Ok(made) => Fill(sha, made, SkillsDir(root, w, session), catalog, digest, downloads, again)
  }

  // ---------------------------------------------------------------------------
  // A fresh session directory
  // ---------------------------------------------------------------------------

  /** A disk on which the session can be created: its directory is new and no file is in the way. */
  ghost predicate Fresh(t: Tree, root: Path, w: string, session: string) {
    && WellFormed(t)
    && FilePath(SessionDir(root, w, session))
    && SessionDir(root, w, session) !in t
    && !FileOnTheWay(t, [], root + [w])
  }

  /** `base` with its ancestors and children. */
  ghost predicate Around(p: Path, base: Path) {
    p <= base || (base < p && |p| == |base| + 1)
  }

  /** `t` is `before` with directories added, all of them around `base`. */
  ghost predicate Grown(before: Tree, t: Tree, base: Path) {
    && WellFormed(t)
    && (forall p :: IsFile(t, p) <==> IsFile(before, p))
    && (forall p :: IsFile(t, p) ==> t[p] == before[p])
    && (forall p :: p in before ==> p in t)
    && (forall p :: p in t && p !in before ==> Around(p, base))
  }

  ghost predicate NewBelow(t: Tree, base: Path) {
    && WellFormed(t) && FilePath(base) && base !in t && base != []
    && !FileOnTheWay(t, [], Parent(base))
  }

  lemma NothingThere(before: Tree, base: Path, p: Path)
    requires WellFormed(before) && base !in before && base <= p
    ensures p !in before
  {
    if p in before && p != base {
      AncestorsAreDirs(before, p, base);
    }
  }

  lemma OnTheWayToChild(base: Path, name: string, p: Path)
    requires base != [] && OnTheWay(p, [], base + [name]) && !(base <= p)
    ensures OnTheWay(p, [], Parent(base))
  {
    assert p <= base + [name];
    assert |p| < |base|;
    assert p == (base + [name])[..|p|] == Parent(base)[..|p|];
  }

  /** A file on the way to a new directory's child would lie on the way to the directory. */
  lemma NothingInTheWay(before: Tree, t: Tree, base: Path, name: string)
    requires NewBelow(before, base) && Grown(before, t, base)
    ensures !FileOnTheWay(t, [], base + [name])
  {
    forall p | OnTheWay(p, [], base + [name]) ensures !IsFile(t, p) {
      if base <= p {
        NothingThere(before, base, p);
      } else {
        OnTheWayToChild(base, name, p);
      }
    }
  }

  lemma MadeOne(before: Tree, t: Tree, base: Path, name: string)
    requires NewBelow(before, base) && Grown(before, t, base) && FileName(name)
    ensures var made := MakeDirs(t, [], base + [name]);
            && made.Ok? && Grown(before, made.value, base) && IsDir(made.value, base + [name])
            && forall p :: IsDir(t, p) ==> IsDir(made.value, p)
  {
    var front := base + [name];
    NothingInTheWay(before, t, base, name);
    MakeDirsExact(t, [], front);
    var made := MakeDirs(t, [], front).value;
    WithDirsWellFormed(t, made, [], front);
    assert [] + front == front;
    forall p | p in made && p !in before ensures Around(p, base) {
      if p !in t {
        PrefixOfChild(base, name, p);
      }
    }
  }

  lemma PrefixOfChild(base: Path, name: string, p: Path)
    requires p <= base + [name]
    ensures Around(p, base)
  {
    if |p| <= |base| {
      assert p == (base + [name])[..|p|] == base[..|p|];
    }
  }

  lemma {:induction false} MadeAll(before: Tree, t: Tree, base: Path, names: seq<string>)
    requires NewBelow(before, base) && Grown(before, t, base) && FilePath(names)
    ensures var made := MakeAll(t, base, names);
            && made.Ok? && Grown(before, made.value, base)
            && (forall p :: IsDir(t, p) ==> IsDir(made.value, p))
            && (forall n :: n in names ==> IsDir(made.value, base + [n]))
    decreases names
  {
    if names != [] {
      MadeOne(before, t, base, names[0]);
      MadeAll(before, MakeDirs(t, [], base + [names[0]]).value, base, names[1..]);
      assert names == [names[0]] + names[1..];
    }
  }

  /** Creating a session adds its empty subdirectories and touches no file. */
  lemma SessionMade(t: Tree, root: Path, w: string, session: string)
    requires Fresh(t, root, w, session)
    ensures var made := MakeAll(t, SessionDir(root, w, session), SUBDIRS);
            && made.Ok? && WellFormed(made.value)
            && IsDir(made.value, SkillsDir(root, w, session))
            && (forall p :: p in made.value ==> !(SkillsDir(root, w, session) < p))
            && Grown(t, made.value, SessionDir(root, w, session))
  {
    hide MakeAll;
    var base := SessionDir(root, w, session);
    assert Parent(base) == root + [w];
    MadeAll(t, t, base, SUBDIRS);
    assert "skills" in SUBDIRS;
    var made := MakeAll(t, base, SUBDIRS).value;
    forall p | p in made ensures !(SkillsDir(root, w, session) < p) {
      if base < p && p in t {
        AncestorsAreDirs(t, p, base);
      }
    }
  }

  // ---------------------------------------------------------------------------
  // Laying down canonical files
  // ---------------------------------------------------------------------------

  ghost predicate Answered(d: Download) {
    Canonical(d.rel) && d.reply.Ok?
  }

  ghost predicate AllAnswered(downloads: seq<Download>) {
    forall i :: 0 <= i < |downloads| ==> Answered(downloads[i])
  }

  /** The files that the answers describe; a later answer for the same path counts. */
  ghost function Received(downloads: seq<Download>): Files
    requires AllAnswered(downloads)
  {
    if downloads == [] then map[] else map[downloads[0].rel := downloads[0].reply.value] + Received(downloads[1..])
  }

  lemma LayOneExact(t: Tree, skills: Path, d: Download)
    requires WellFormed(t) && IsDir(t, skills) && Answered(d)
    ensures LayOne(t, skills, d).Ok? <==> Writable(t, skills, Split(d.rel, '/'))
    ensures LayOne(t, skills, d).Ok? ==>
              && WellFormed(LayOne(t, skills, d).value) && IsDir(LayOne(t, skills, d).value, skills)
              && LayOne(t, skills, d) == WriteFile(t, skills, Split(d.rel, '/'), d.reply.value)
              && FilesBelow(LayOne(t, skills, d).value, skills) == FilesBelow(t, skills)[d.rel := d.reply.value]
  {
    var parts, data := Split(d.rel, '/'), d.reply.value;
    CanonicalParts(d.rel);
    WriteFileExact(t, skills, parts, data);
    MakeDirsExact(t, skills, Parent(parts));
    if Writable(t, skills, parts) {
      WriteIsUpdate(t, skills, d.rel, data);
    }
  }

  lemma UpdateThenMerge(m: Files, k: string, data: Bytes, rest: Files)
    ensures m[k := data] + rest == m + (map[k := data] + rest)
  {
  }

  /** What was there, overridden by what was downloaded. */
  lemma {:induction false} LayDownUpdates(t: Tree, skills: Path, downloads: seq<Download>)
    requires WellFormed(t) && IsDir(t, skills) && AllAnswered(downloads)
    requires LayDown(t, skills, downloads).problem == None
    ensures var laid := LayDown(t, skills, downloads).tree;
            && WellFormed(laid) && IsDir(laid, skills)
            && FilesBelow(laid, skills) == FilesBelow(t, skills) + Received(downloads)
    decreases downloads
  {
    hide WellFormed, LayOne, FileAt;
    if downloads == [] {
      assert FilesBelow(t, skills) + map[] == FilesBelow(t, skills);
    } else {
      var d := downloads[0];
      assert Answered(d);
      NamedRel(d);
      LayOneExact(t, skills, d);
      LayDownUpdates(LayOne(t, skills, d).value, skills, downloads[1..]);
      UpdateThenMerge(FilesBelow(t, skills), d.rel, d.reply.value, Received(downloads[1..]));
    }
  }

  lemma NamedRel(d: Download)
    requires Answered(d)
    ensures d.rel != ""
  {
    assert Split("", '/')[0] == "";
    assert !Canonical("");
  }

  /** After `k` is written, `j` can be written if it could be before and neither is below the other. */
  lemma WritableAfter(t: Tree, base: Path, k: Path, data: Bytes, j: Path)
    requires FilePath(k) && k != [] && j != [] && Writable(t, base, k)
    ensures WriteFile(t, base, k, data).Ok?
    ensures Writable(WriteFile(t, base, k, data).value, base, j) <==> Writable(t, base, j) && !(k < j) && !(j < k)
  {
    WriteFileExact(t, base, k, data);
    var w := WriteFile(t, base, k, data).value;
    var made :| WithDirs(t, made, base, Parent(k)) && w == made[base + k := File(data)];
    FilesAfter(t, made, base, k, data, j);
    DirsAfter(t, made, base, k, data, j);
  }

  lemma OnTheWayBelow(base: Path, k: Path, j: Path)
    requires j != []
    ensures OnTheWay(base + k, base, Parent(j)) <==> k < j
  {
    if k < j {
      assert base + k <= base + Parent(j);
    }
    if base + k <= base + Parent(j) {
      assert k == (base + k)[|base|..] == (base + Parent(j))[..|base + k|][|base|..];
      assert k <= Parent(j);
    }
  }

  lemma FilesAfter(t: Tree, made: Tree, base: Path, k: Path, data: Bytes, j: Path)
    requires k != [] && j != [] && WithDirs(t, made, base, Parent(k)) && Writable(t, base, k)
    ensures FileOnTheWay(made[base + k := File(data)], base, Parent(j)) <==> FileOnTheWay(t, base, Parent(j)) || k < j
  {
    var w := made[base + k := File(data)];
    OnTheWayBelow(base, k, j);
    forall p ensures IsFile(w, p) <==> p == base + k || IsFile(t, p) {
    }
    if k < j {
      assert IsFile(w, base + k);
    }
  }

  lemma DirsAfter(t: Tree, made: Tree, base: Path, k: Path, data: Bytes, j: Path)
    requires k != [] && j != [] && WithDirs(t, made, base, Parent(k)) && Writable(t, base, k)
    ensures IsDir(made[base + k := File(data)], base + j) <==> IsDir(t, base + j) || j < k
  {
    OnTheWayBelow(base, j, k);
    if base + j == base + k {
      assert j == (base + j)[|base|..] == (base + k)[|base|..] == k;
    }
    if j < k && base + j in t {
      assert !IsFile(t, base + j);
    }
  }

  /** Every file can be written into `base` as it is, and none is a directory of another. */
  ghost predicate Fits(t: Tree, base: Path, rels: set<string>) {
    PrefixFree(rels) && forall k :: k in rels ==> Writable(t, base, Split(k, '/'))
  }

  ghost predicate Comparable(j: string, k: string) {
    Split(j, '/') < Split(k, '/') || Split(k, '/') < Split(j, '/')
  }

  lemma PrefixFreeWith(rest: set<string>, k: string)
    ensures PrefixFree(rest + {k}) <==> PrefixFree(rest) && Canonical(k) && forall j :: j in rest ==> !Comparable(j, k)
  {
    if PrefixFree(rest) && Canonical(k) && forall j :: j in rest ==> !Comparable(j, k) {
      forall i, j | i in rest + {k} && j in rest + {k} ensures !(Split(i, '/') < Split(j, '/')) {
        assert i in rest ==> !Comparable(i, k);
        assert j in rest ==> !Comparable(j, k);
      }
    }
    if PrefixFree(rest + {k}) {
      forall j | j in rest ensures !Comparable(j, k) {
        assert j in rest + {k} && k in rest + {k};
      }
      assert rest <= rest + {k};
    }
  }

  /** Writing one file leaves exactly the remaining fit to be decided. */
  lemma FitsStep(t: Tree, base: Path, k: string, data: Bytes, rest: set<string>)
    requires Canonical(k) && Writable(t, base, Split(k, '/'))
    ensures WriteFile(t, base, Split(k, '/'), data).Ok?
    ensures Fits(WriteFile(t, base, Split(k, '/'), data).value, base, rest) <==> Fits(t, base, rest + {k})
  {
    hide WriteFile, Writable;
    forall j ensures WriteFile(t, base, Split(k, '/'), data).Ok?
      ensures Writable(WriteFile(t, base, Split(k, '/'), data).value, base, Split(j, '/'))
              <==> Writable(t, base, Split(j, '/')) && !Comparable(j, k)
    {
      WritableAfter(t, base, Split(k, '/'), data, Split(j, '/'));
    }
    PrefixFreeWith(rest, k);
  }

  ghost function Rels(downloads: seq<Download>): set<string> {
    if downloads == [] then {} else Rels(downloads[1..]) + {downloads[0].rel}
  }

  /** The download loop goes through exactly when the files fit. */
  lemma {:induction false} LayDownExact(t: Tree, skills: Path, downloads: seq<Download>)
    requires WellFormed(t) && IsDir(t, skills) && AllAnswered(downloads)
    ensures LayDown(t, skills, downloads).problem == None <==> Fits(t, skills, Rels(downloads))
    decreases downloads
  {
    hide WellFormed, LayOne, Writable;
    if downloads != [] {
      var d := downloads[0];
      assert Answered(d);
      NamedRel(d);
      LayOneExact(t, skills, d);
      if LayOne(t, skills, d).Ok? {
        LayDownExact(LayOne(t, skills, d).value, skills, downloads[1..]);
        FitsStep(t, skills, d.rel, d.reply.value, Rels(downloads[1..]));
      }
      assert d.rel in Rels(downloads);
    }
  }

  // ---------------------------------------------------------------------------
  // Trees stay well formed, whatever is downloaded
  // ---------------------------------------------------------------------------

  ghost predicate Steps(parts: seq<string>) {
    forall k :: 0 <= k < |parts| ==> parts[k] == ".." || FileName(parts[k])
  }

  lemma {:induction false} NontrivialOnly(components: seq<string>)
    ensures forall c :: c in DropTrivial(components) ==> c in components && c != "" && c != "."
  {
    if components != [] {
      NontrivialOnly(components[1..]);
    }
  }

  lemma PartsAreSteps(rel: string)
    requires forall k :: 0 <= k < |Parts(rel)| ==> '\0' !in Parts(rel)[k]
    ensures Steps(Parts(rel))
  {
    NontrivialOnly(Split(rel, '/'));
    forall k | 0 <= k < |Parts(rel)| ensures Parts(rel)[k] == ".." || FileName(Parts(rel)[k]) {
      assert Parts(rel)[k] in Split(rel, '/');
    }
  }

  lemma DirAdded(t: Tree, at: Path)
    requires WellFormed(t) && FilePath(at) && (at == [] || IsDir(t, Parent(at))) && !IsFile(t, at)
    ensures WellFormed(t[at := Dir])
  {
  }

  lemma StepBelow(t: Tree, at: Path, c: string)
    requires WellFormed(t) && IsDir(t, at) && (c == ".." || FileName(c))
    ensures var next := Step(at, c); FilePath(next) && (next == [] || IsDir(t, Parent(next)))
  {
    if c == ".." && at != [] {
      assert Step(at, c) == Parent(at);
    } else if c != ".." {
      assert Step(at, c) == at + [c] && Parent(at + [c]) == at;
    }
  }

  lemma {:induction false} MakeDirsWellFormed(t: Tree, at: Path, parts: seq<string>)
    requires WellFormed(t) && FilePath(at) && (at == [] || IsDir(t, Parent(at))) && Steps(parts)
    ensures MakeDirs(t, at, parts).Ok? ==>
              WellFormed(MakeDirs(t, at, parts).value) && IsDir(MakeDirs(t, at, parts).value, Walk(at, parts))
    decreases parts
  {
    if !IsFile(t, at) {
      DirAdded(t, at);
      if parts != [] {
        StepBelow(t[at := Dir], at, parts[0]);
        MakeDirsWellFormed(t[at := Dir], Step(at, parts[0]), parts[1..]);
      }
    }
  }

  lemma WriteFileWellFormed(t: Tree, at: Path, parts: seq<string>, data: Bytes)
    requires WellFormed(t) && IsDir(t, at) && WriteFile(t, at, parts, data).Ok?
    requires Steps(parts)
    ensures WellFormed(WriteFile(t, at, parts, data).value)
  {
    var front, last := parts[..|parts| - 1], parts[|parts| - 1];
    assert at != [] ==> IsDir(t, Parent(at));
    MakeDirsWellFormed(t, at, front);
    var made := MakeDirs(t, at, front).value;
    StepBelow(made, Walk(at, front), last);
  }

  lemma LayOneWellFormed(t: Tree, skills: Path, d: Download)
    requires WellFormed(t) && IsDir(t, skills) && LayOne(t, skills, d).Ok?
    ensures WellFormed(LayOne(t, skills, d).value)
  {
    PartsAreSteps(d.rel);
    WriteFileWellFormed(t, Start(skills, d.rel), Parts(d.rel), d.reply.value);
  }

  /** No directory disappears while files are written. */
  lemma {:induction false} MakeDirsKeeps(t: Tree, at: Path, parts: seq<string>, d: Path)
    requires IsDir(t, d) && MakeDirs(t, at, parts).Ok?
    ensures IsDir(MakeDirs(t, at, parts).value, d)
    decreases parts
  {
    if parts != [] {
      MakeDirsKeeps(t[at := Dir], Step(at, parts[0]), parts[1..], d);
    }
  }

  lemma LayOneKeeps(t: Tree, skills: Path, d: Download, dir: Path)
    requires IsDir(t, dir) && LayOne(t, skills, d).Ok?
    ensures IsDir(LayOne(t, skills, d).value, dir)
  {
    var at, parts := Start(skills, d.rel), Parts(d.rel);
    MakeDirsKeeps(t, at, parts[..|parts| - 1], dir);
  }

  lemma {:induction false} LayDownWellFormed(t: Tree, skills: Path, downloads: seq<Download>)
    requires WellFormed(t) && IsDir(t, skills)
    ensures WellFormed(LayDown(t, skills, downloads).tree) && IsDir(LayDown(t, skills, downloads).tree, skills)
    decreases downloads
  {
    hide WellFormed, LayOne;
    if downloads != [] {
      var d := downloads[0];
      if d.rel == "" {
        LayDownWellFormed(t, skills, downloads[1..]);
      } else if LayOne(t, skills, d).Ok? {
        LayOneWellFormed(t, skills, d);
        LayOneKeeps(t, skills, d, skills);
        LayDownWellFormed(LayOne(t, skills, d).value, skills, downloads[1..]);
      }
    }
  }

  lemma {:induction false} LayDownKeeps(t: Tree, skills: Path, downloads: seq<Download>, dir: Path)
    requires IsDir(t, dir)
    ensures IsDir(LayDown(t, skills, downloads).tree, dir)
    decreases downloads
  {
    hide LayOne;
    if downloads != [] {
      var d := downloads[0];
      if d.rel == "" {
        LayDownKeeps(t, skills, downloads[1..], dir);
      } else if LayOne(t, skills, d).Ok? {
        LayOneKeeps(t, skills, d, dir);
        LayDownKeeps(LayOne(t, skills, d).value, skills, downloads[1..], dir);
      }
    }
  }

  // ---------------------------------------------------------------------------
  // What a tree can hold
  // ---------------------------------------------------------------------------

  lemma {:induction false} JoinedNames(p: Path)
    requires FilePath(p)
    ensures '\0' !in Join(p, '/')
  {
    if |p| > 1 {
      JoinedNames(p[1..]);
    }
  }

  /** File names have no NUL, so a tree's paths never spell a line of the digest encoding. */
  lemma TreesAreSeparatorFree(t: Tree, base: Path)
    ensures AllSeparatorFree(FilesBelow(t, base))
  {
    var files := FilesBelow(t, base);
    forall k | k in files ensures SeparatorFree(k) {
      assert FileAt(t, base, k).Some?;
      JoinedNames(Split(k, '/'));
      JoinSplit(k, '/');
      WithoutNulOrLineFeed(k);
    }
  }

  lemma TreesArePrefixFree(t: Tree, base: Path)
    requires WellFormed(t)
    ensures PrefixFree(FilesBelow(t, base).Keys)
  {
    var files := FilesBelow(t, base);
    forall j, k | j in files && k in files ensures !(Split(j, '/') < Split(k, '/')) {
      assert FileAt(t, base, j).Some? && FileAt(t, base, k).Some?;
      BelowShift(base, Split(j, '/'), Split(k, '/'));
      if base + Split(j, '/') < base + Split(k, '/') {
        AncestorsAreDirs(t, base + Split(k, '/'), base + Split(j, '/'));
      }
    }
    forall k | k in files ensures Canonical(k) {
      assert FileAt(t, base, k).Some?;
    }
  }

  // ---------------------------------------------------------------------------
  // The materializer
  // ---------------------------------------------------------------------------

  function Relative(key: string, prefix: string): string {
    if |prefix| <= |key| then key[|prefix|..] else ""
  }

  function AnswerOf(o: Objects, w: string, scope: Option<string>, key: string): Result<Bytes> {
    var k :- Guard(w, scope, key);
    if k in o then Ok(o[k]) else Err(NotFound)
  }

  /** What the store answers for the listed objects. */
  function Answers(o: Objects, w: string, scope: Option<string>, prefix: string, refs: seq<ObjectRef>): seq<Download> {
    if refs == [] then []
    else
      var first := Download(Relative(refs[0].key, prefix), AnswerOf(o, w, scope, refs[0].key));
      [first] + Answers(o, w, scope, prefix, refs[1..])
  }

  /** The skills prefix of a revision, if it can be listed. */
  function ListedPrefix(w: string, scope: Option<string>, digest: string): Result<string> {
    var revision :- RevisionPrefix(w, digest);
    Guard(w, scope, revision + "skills/")
  }

  method FetchOne(volume: Volume, storage: FlatStorage.Storage, skills: Path, key: string,
                  rel: string) returns (problem: Option<Error>)
    modifies volume
    ensures match LayOne(old(volume.tree), skills,
                         Download(rel, AnswerOf(storage.bucket.objects, storage.id, storage.scope, key)))
            case Ok(w) => problem == None && volume.tree == w
            case Err(e) => problem == Some(e) && volume.tree == old(volume.tree)
  {
    var at, parts := Start(skills, rel), Parts(rel);
    var made := MakeParents(volume.tree, at, parts);
    if made.Err? {
      return Some(made.error);
    }
    var data := storage.GetObject(key);
    if data.Err? {
      return Some(data.error);
    }
    var written := WriteFile(volume.tree, at, parts, data.value);
    if written.Err? {
      return Some(written.error);
    }
    volume.tree := written.value;
    return None;
  }

  /** The download loop over the listed objects. */
  method FetchAll(volume: Volume, storage: FlatStorage.Storage, skills: Path, prefix: string,
                  refs: seq<ObjectRef>) returns (problem: Option<Error>)
    modifies volume
    ensures Outcome(volume.tree, problem)
            == LayDown(old(volume.tree), skills,
                       Answers(storage.bucket.objects, storage.id, storage.scope, prefix, refs))
  {
    ghost var o := storage.bucket.objects;
    for i := 0 to |refs|
      invariant storage.bucket.objects == o
      invariant LayDown(old(volume.tree), skills, Answers(o, storage.id, storage.scope, prefix, refs))
                == LayDown(volume.tree, skills, Answers(o, storage.id, storage.scope, prefix, refs[i..]))
    {
      hide LayOne, AnswerOf;
      var rel := Relative(refs[i].key, prefix);
      assert refs[i..][1..] == refs[i + 1..];
      if rel != "" {
        problem := FetchOne(volume, storage, skills, refs[i].key, rel);
        if problem.Some? {
          return;
        }
      }
    }
    return None;
  }

  /** The part of the tree's files that was visited. */
  ghost predicate ReadSoFar(files: Files, t: Tree, base: Path, rest: set<Path>) {
    && (forall k :: k in files <==> FileAt(t, base, k).Some? && base + Split(k, '/') !in rest)
    && (forall k :: k in files ==> FileAt(t, base, k) == Some(files[k]))
  }

  lemma KeyOfFile(t: Tree, base: Path, p: Path)
    requires WellFormed(t) && IsFile(t, p) && base < p
    ensures FileAt(t, base, Join(p[|base|..], '/')) == Some(t[p].data)
    ensures forall k :: base + Split(k, '/') == p <==> k == Join(p[|base|..], '/')
  {
    var q := p[|base|..];
    assert p == base + q;
    FilesAreCanonical(t, base, q);
    assert forall i :: 0 <= i < |q| ==> q[i] == p[|base| + i];
    JoinedPathSplits(q);
    forall k ensures base + Split(k, '/') == p <==> k == Join(q, '/') {
      SameKeySamePath(base, k, Join(q, '/'));
    }
  }

  lemma ReadOneMore(files: Files, t: Tree, base: Path, rest: set<Path>, p: Path)
    requires WellFormed(t) && ReadSoFar(files, t, base, rest) && p in rest && p in t && base < p
    ensures IsFile(t, p) ==> ReadSoFar(files[Join(p[|base|..], '/') := t[p].data], t, base, rest - {p})
    ensures !IsFile(t, p) ==> ReadSoFar(files, t, base, rest - {p})
  {
    if IsFile(t, p) {
      hide FileAt, WellFormed;
      KeyOfFile(t, base, p);
    } else {
      forall k | FileAt(t, base, k).Some? ensures base + Split(k, '/') != p {
      }
    }
  }

  /** The files that `content_digest_for_tree` collects. */
  method ReadTree(t: Tree, base: Path) returns (files: Files)
    requires WellFormed(t)
    ensures files == FilesBelow(t, base)
  {
    files := map[];
    var rest := set p | p in t && base < p;
    forall k ensures FileAt(t, base, k).Some? ==> base + Split(k, '/') in rest {
      assert base < base + Split(k, '/');
    }
    while rest != {}
      invariant forall p :: p in rest ==> p in t && base < p
      invariant ReadSoFar(files, t, base, rest)
      decreases |rest|
    {
      var p :| p in rest;
      ReadOneMore(files, t, base, rest, p);
      if t[p].File? {
        files := files[Join(p[|base|..], '/') := t[p].data];
      }
      rest := rest - {p};
    }
    FileMapUnique(t, base, files);
  }

  method CheckTree(sha: Sha256, t: Tree, skills: Path, digest: string) returns (problem: Option<Error>)
    requires WellFormed(t)
    ensures problem == VerifyTree(sha, t, skills, digest)
  {
    var files := ReadTree(t, skills);
    var actual := DigestFiles(sha, files);
    if actual.Err? {
      return Some(BadValue);
    }
    return if actual.value != digest then Some(Integrity) else None;
  }

  /** `_verify_revision_subset` with a catalog. */
  method CheckEach(sha: Sha256, t: Tree, storage: FlatStorage.Storage, skills: Path, prefix: string,
                   refs: seq<ObjectRef>)
    returns (problem: Option<Error>)
    ensures problem
            == VerifyEach(sha, t, skills, Answers(storage.bucket.objects, storage.id, storage.scope, prefix, refs))
  {
    ghost var o := storage.bucket.objects;
    for i := 0 to |refs|
      invariant VerifyEach(sha, t, skills, Answers(o, storage.id, storage.scope, prefix, refs))
                == VerifyEach(sha, t, skills, Answers(o, storage.id, storage.scope, prefix, refs[i..]))
    {
      hide AnswerOf, Lookup, Parts;
      var key := refs[i].key;
      assert refs[i..][1..] == refs[i + 1..];
      problem := VerifyOne(sha, t, skills,
                           Download(Relative(key, prefix),
                                    AnswerOf(storage.bucket.objects, storage.id, storage.scope, key)));
      if problem.Some? {
        return;
      }
    }
    return None;
  }
}
