/** A directory tree and the file operations that the local backend and the materializer use. */
module Disk {
  import opened Text
  import opened Integrity
  import opened Paths

  datatype Node = Dir | File(data: Bytes)

  /** Every existing path with what is there. */
  type Tree = map<Path, Node>

  predicate FileName(c: string) {
    ProperName(c) && '\0' !in c
  }

  predicate FilePath(p: Path) {
    forall k :: 0 <= k < |p| ==> FileName(p[k])
  }

  function Parent(p: Path): Path
    requires p != []
  {
    p[..|p| - 1]
  }

  predicate IsDir(t: Tree, p: Path) {
    p in t && t[p].Dir?
  }

  predicate IsFile(t: Tree, p: Path) {
    p in t && t[p].File?
  }

  /** The root exists and every other path lies in an existing directory. */
  ghost predicate WellFormed(t: Tree) {
    && IsDir(t, [])
    && forall p :: p in t ==> FilePath(p) && (p != [] ==> IsDir(t, Parent(p)))
  }

  lemma {:induction false} AncestorsAreDirs(t: Tree, p: Path, d: Path)
    requires WellFormed(t) && p in t && d < p
    ensures IsDir(t, d)
    decreases |p|
  {
    if |d| == |p| - 1 {
      assert d == Parent(p);
    } else {
      assert d < Parent(p);
      AncestorsAreDirs(t, Parent(p), d);
    }
  }

  // ---------------------------------------------------------------------------
  // Locating
  // ---------------------------------------------------------------------------

  /** `PurePosixPath(rel)` drops empty components and `.`. */
  function DropTrivial(components: seq<string>): seq<string> {
    if components == [] then []
    else if components[0] == "" || components[0] == "." then DropTrivial(components[1..])
    else [components[0]] + DropTrivial(components[1..])
  }

  function Parts(rel: string): seq<string> {
    DropTrivial(Split(rel, '/'))
  }

  /** `base / rel`: an absolute right operand starts over at the root. */
  function Start(base: Path, rel: string): Path {
    if "/" <= rel then [] else base
  }

  /** What the operating system finds when it walks from `at` along `parts`. */
  function Lookup(t: Tree, at: Path, parts: seq<string>): Option<Node>
    decreases parts
  {
    if at !in t then None
    else if parts == [] then Some(t[at])
    else if t[at].File? then None
    else Lookup(t, Step(at, parts[0]), parts[1..])
  }

  // ---------------------------------------------------------------------------
  // Creating
  // ---------------------------------------------------------------------------

  /** `mkdir(parents=True, exist_ok=True)` along `parts`, starting with `at` itself. */
  function MakeDirs(t: Tree, at: Path, parts: seq<string>): Result<Tree>
    decreases parts
  {
    if IsFile(t, at) then Err(FileSystem)
    else if parts == [] then Ok(t[at := Dir])
    else MakeDirs(t[at := Dir], Step(at, parts[0]), parts[1..])
  }

  /** Create the parent directories of `at / parts` and write the file. */
  function WriteFile(t: Tree, at: Path, parts: seq<string>, data: Bytes): Result<Tree> {
    if exists k :: 0 <= k < |parts| && '\0' in parts[k] then Err(BadValue)
    else if parts == [] then Err(FileSystem)
    else
      var front, last := parts[..|parts| - 1], parts[|parts| - 1];
      var made :- MakeDirs(t, at, front);
      var target := Step(Walk(at, front), last);
      if IsDir(made, target) then Err(FileSystem) else Ok(made[target := File(data)])
  }

  /** The components that `Split` and `Parts` agree on: names that can be created as they stand. */
  predicate Canonical(rel: string) {
    FilePath(Split(rel, '/'))
  }

  lemma {:induction false} DropTrivialNames(p: Path)
    requires FilePath(p)
    ensures DropTrivial(p) == p
  {
    if p != [] {
      DropTrivialNames(p[1..]);
      assert p == [p[0]] + p[1..];
    }
  }

  lemma CanonicalParts(rel: string)
    requires Canonical(rel)
    ensures Parts(rel) == Split(rel, '/') && Parts(rel) != [] && FilePath(Parts(rel))
    ensures Join(Parts(rel), '/') == rel
    ensures !("/" <= rel)
  {
    DropTrivialNames(Split(rel, '/'));
    JoinSplit(rel, '/');
    assert Resolved(Split(rel, '/'));
    JoinedPathNonempty(Split(rel, '/'));
  }

  /** `p` is one of the directories from `at` to `at + front`. */
  ghost predicate OnTheWay(p: Path, at: Path, front: Path) {
    at <= p && p <= at + front
  }

  ghost predicate FileOnTheWay(t: Tree, at: Path, front: Path) {
    exists p :: OnTheWay(p, at, front) && IsFile(t, p)
  }

  /** `made` is `t` with the directories from `at` to `at + front`. */
  ghost predicate WithDirs(t: Tree, made: Tree, at: Path, front: Path) {
    && (forall p :: p in made <==> p in t || OnTheWay(p, at, front))
    && (forall p :: p in made ==> made[p] == if p in t then t[p] else Dir)
  }

  lemma WayStep(p: Path, at: Path, front: Path)
    requires front != []
    ensures OnTheWay(p, at, front) <==> p == at || OnTheWay(p, at + [front[0]], front[1..])
  {
    var next := at + [front[0]];
    assert next + front[1..] == at + front;
    if OnTheWay(p, at, front) && p != at {
      assert p[|at|] == (at + front)[|at|];
      assert p[..|at|] == at;
      assert p[..|at| + 1] == next;
    }
  }

  /** Along proper names, directories are made exactly when no file is on the way. */
  lemma {:induction false} MakeDirsExact(t: Tree, at: Path, front: Path)
    requires Resolved(front)
    ensures MakeDirs(t, at, front).Ok? <==> !FileOnTheWay(t, at, front)
    ensures MakeDirs(t, at, front).Ok? ==> WithDirs(t, MakeDirs(t, at, front).value, at, front)
    decreases front
  {
    if IsFile(t, at) {
      assert OnTheWay(at, at, front);
    } else if front == [] {
      assert forall p :: OnTheWay(p, at, front) <==> p == at;
    } else {
      var next, rest, t' := at + [front[0]], front[1..], t[at := Dir];
      MakeDirsExact(t', next, rest);
      forall p ensures OnTheWay(p, at, front) <==> p == at || OnTheWay(p, next, rest) {
        WayStep(p, at, front);
      }
      if p :| OnTheWay(p, at, front) && IsFile(t, p) {
        assert IsFile(t', p);
      }
    }
  }

  /** Where a canonical path can be written, and what is there afterwards. */
  ghost predicate Writable(t: Tree, at: Path, parts: Path)
    requires parts != []
  {
    !FileOnTheWay(t, at, Parent(parts)) && !IsDir(t, at + parts)
  }

  lemma WriteFileExact(t: Tree, at: Path, parts: Path, data: Bytes)
    requires FilePath(parts) && parts != []
    ensures WriteFile(t, at, parts, data).Ok? <==> Writable(t, at, parts)
    ensures WriteFile(t, at, parts, data).Ok? ==>
              exists made :: WithDirs(t, made, at, Parent(parts))
                             && WriteFile(t, at, parts, data).value == made[at + parts := File(data)]
  {
    var front, last := Parent(parts), parts[|parts| - 1];
    MakeDirsExact(t, at, front);
    WalkProper(at, front);
    assert at + front + [last] == at + parts;
    assert !OnTheWay(at + parts, at, front);
  }

  lemma WithDirsWellFormed(t: Tree, made: Tree, at: Path, front: Path)
    requires WellFormed(t) && IsDir(t, at) && FilePath(front)
    requires WithDirs(t, made, at, front) && !FileOnTheWay(t, at, front)
    ensures WellFormed(made) && IsDir(made, at + front)
  {
    assert OnTheWay(at + front, at, front);
    forall p | p in made ensures FilePath(p) && (p != [] ==> IsDir(made, Parent(p))) {
      if p !in t {
        assert p != at && |p| > |at|;
        assert FilePath(at + front);
        assert p == (at + front)[..|p|];
        assert OnTheWay(Parent(p), at, front);
      }
    }
    if at + front in t {
      assert !IsFile(t, at + front);
    }
  }

  // ---------------------------------------------------------------------------
  // Files below a directory
  // ---------------------------------------------------------------------------

  /** The content of the file with relative POSIX path `k`. */
  function FileAt(t: Tree, base: Path, k: string): Option<Bytes> {
    var p := base + Split(k, '/');
    if Canonical(k) && IsFile(t, p) then Some(t[p].data) else None
  }

  /** `m` holds the relative POSIX paths and contents of the files below `base`. */
  ghost predicate IsFileMap(t: Tree, base: Path, m: Files) {
    && (forall k :: k in m <==> FileAt(t, base, k).Some?)
    && (forall k :: k in m ==> FileAt(t, base, k) == Some(m[k]))
  }

  lemma FileMapExists(t: Tree, base: Path)
    ensures exists m :: IsFileMap(t, base, m)
  {
    var keys := set p | p in t && base <= p :: Join(p[|base|..], '/');
    var m := map k | k in keys && FileAt(t, base, k).Some? :: FileAt(t, base, k).value;
    forall k | FileAt(t, base, k).Some? ensures k in keys {
      var q := Split(k, '/');
      assert (base + q)[|base|..] == q;
      JoinSplit(k, '/');
    }
    assert IsFileMap(t, base, m);
  }

  /** The tree below `base` as a map from relative paths to contents. */
  ghost function FilesBelow(t: Tree, base: Path): (m: Files)
    ensures IsFileMap(t, base, m)
  {
    FileMapExists(t, base);
    var m :| IsFileMap(t, base, m);
    m
  }

  /** Every file of a well-formed tree has a canonical relative path. */
  lemma FilesAreCanonical(t: Tree, base: Path, q: Path)
    requires WellFormed(t) && IsFile(t, base + q) && q != []
    ensures Canonical(Join(q, '/')) && Join(q, '/') in FilesBelow(t, base)
    ensures FilesBelow(t, base)[Join(q, '/')] == t[base + q].data
  {
    assert FilePath(base + q);
    assert forall i :: 0 <= i < |q| ==> q[i] == (base + q)[|base| + i];
    JoinedPathSplits(q);
    assert FileAt(t, base, Join(q, '/')).Some?;
  }

  ghost predicate SameFiles(t: Tree, made: Tree) {
    && (forall p :: IsFile(made, p) <==> IsFile(t, p))
    && (forall p :: p in t && p in made && t[p].File? ==> made[p] == t[p])
  }

  lemma FileAfterWrite(t: Tree, made: Tree, base: Path, k: string, data: Bytes, j: string)
    requires Canonical(k)
    requires SameFiles(t, made)
    ensures FileAt(made[base + Split(k, '/') := File(data)], base, j)
            == if j == k then Some(data) else FileAt(t, base, j)
  {
    SameKeySamePath(base, j, k);
  }

  /** Writing a canonical key adds or replaces exactly that file. */
  lemma WriteIsUpdate(t: Tree, base: Path, k: string, data: Bytes)
    requires WellFormed(t) && IsDir(t, base) && Canonical(k) && Writable(t, base, Split(k, '/'))
    ensures var w := WriteFile(t, base, Split(k, '/'), data);
            && w.Ok? && WellFormed(w.value) && IsDir(w.value, base)
            && FilesBelow(w.value, base) == FilesBelow(t, base)[k := data]
  {
    var parts := Split(k, '/');
    WriteFileExact(t, base, parts, data);
    var w := WriteFile(t, base, parts, data).value;
    var made :| WithDirs(t, made, base, Parent(parts)) && w == made[base + parts := File(data)];
    WithDirsWellFormed(t, made, base, Parent(parts));
    WriteWellFormed(made, base, parts, data);
    var updated := FilesBelow(t, base)[k := data];
    forall j ensures j in updated <==> FileAt(w, base, j).Some? {
      FileAfterWrite(t, made, base, k, data, j);
    }
    forall j | j in updated ensures FileAt(w, base, j) == Some(updated[j]) {
      FileAfterWrite(t, made, base, k, data, j);
    }
    FileMapUnique(w, base, updated);
  }

  lemma FileMapUnique(t: Tree, base: Path, m: Files)
    requires IsFileMap(t, base, m)
    ensures m == FilesBelow(t, base)
  {
    var f := FilesBelow(t, base);
    assert m.Keys == f.Keys;
  }

  lemma SameKeySamePath(base: Path, j: string, k: string)
    ensures base + Split(j, '/') == base + Split(k, '/') <==> j == k
  {
    if base + Split(j, '/') == base + Split(k, '/') {
      assert Split(j, '/') == (base + Split(j, '/'))[|base|..];
      assert Split(k, '/') == (base + Split(k, '/'))[|base|..];
      JoinSplit(j, '/');
      JoinSplit(k, '/');
    }
  }

  lemma WriteWellFormed(made: Tree, base: Path, parts: Path, data: Bytes)
    requires WellFormed(made) && FilePath(base) && FilePath(parts) && parts != []
    requires IsDir(made, base) && IsDir(made, base + Parent(parts)) && !IsDir(made, base + parts)
    ensures WellFormed(made[base + parts := File(data)]) && IsDir(made[base + parts := File(data)], base)
  {
    var target, w := base + parts, made[base + parts := File(data)];
    assert Parent(target) == base + Parent(parts);
    assert FilePath(target);
    forall p | p in w && p != [] ensures IsDir(w, Parent(p)) {
      assert p != target ==> IsDir(made, Parent(p));
    }
  }

  // ---------------------------------------------------------------------------
  // Looking up and removing
  // ---------------------------------------------------------------------------

  /** Along proper names the walk finds what the tree has at the joined path. */
  lemma {:induction false} LookupExact(t: Tree, at: Path, parts: Path)
    requires WellFormed(t) && FilePath(parts)
    ensures Lookup(t, at, parts) == if at + parts in t then Some(t[at + parts]) else None
    decreases parts
  {
    if parts == [] {
      assert at + parts == at;
    } else {
      var next := at + [parts[0]];
      assert next + parts[1..] == at + parts;
      if at + parts in t {
        assert at < at + parts;
        AncestorsAreDirs(t, at + parts, at);
      }
      if IsDir(t, at) {
        LookupExact(t, next, parts[1..]);
      }
    }
  }

  ghost function Descendants(t: Tree, d: Path): set<Path> {
    set p | p in t && d < p
  }

  /** The tree without everything below `d`, and without `d` itself if it is a directory. */
  ghost function Pruned(t: Tree, d: Path): Tree {
    map p | p in t && !(d < p) && !(p == d && t[p].Dir?) :: t[p]
  }

  lemma PrunedWellFormed(t: Tree, d: Path)
    requires WellFormed(t) && d != []
    ensures WellFormed(Pruned(t, d))
  {
    var w := Pruned(t, d);
    assert !([] == d || d < []);
    forall p | p in w && p != [] ensures IsDir(w, Parent(p)) {
      assert IsDir(t, Parent(p));
      assert Parent(p) == d || d < Parent(p) ==> d < p;
    }
  }
}
