/** The local backend: every object is a file in a directory tree. */
module LocalStorage {
  import opened Text
  import opened Integrity
  import opened Layout
  import opened Paths
  import opened Disk
  import opened FlatStorage

  class Volume {
    var tree: Tree

    /** `os.unlink`. */
    method Unlink(p: Path)
      requires IsFile(tree, p)
      modifies this
      ensures tree == old(tree) - {p}
    {
      tree := tree - {p};
    }

    /** `os.rmdir`: refuses a directory that is not empty. */
    method Rmdir(p: Path) returns (ok: bool)
      requires IsDir(tree, p)
      modifies this
      ensures ok <==> old(Descendants(tree, p)) == {}
      ensures tree == if ok then old(tree) - {p} else old(tree)
    {
      ok := !exists q :: q in tree.Keys && p < q;
      assert ok <==> Descendants(tree, p) == {} by {
        assert forall q :: q in Descendants(tree, p) <==> q in tree.Keys && p < q;
      }
      if ok {
        tree := tree - {p};
      }
    }
  }

  /** `sorted(base.rglob("*"))`. */
  ghost function Glob(t: Tree, d: Path): seq<Path> {
    PathLessIsStrictTotalOrder();
    Listing(Descendants(t, d), PathLess)
  }

  method SortedGlob(t: Tree, d: Path) returns (found: seq<Path>)
    ensures found == Glob(t, d)
  {
    PathLessIsStrictTotalOrder();
    found := Sort((set p | p in t && d < p), PathLess);
  }

  lemma GlobMembers(t: Tree, d: Path)
    ensures forall p :: p in Glob(t, d) <==> p in t && d < p
    ensures forall i :: 0 <= i < |Glob(t, d)| ==> Glob(t, d)[i] in t && d < Glob(t, d)[i]
  {
    assert forall i :: 0 <= i < |Glob(t, d)| ==> Glob(t, d)[i] in Glob(t, d);
  }

  /** In the sorted listing a descendant comes after its ancestor, and nothing comes twice. */
  lemma GlobOrder(t: Tree, d: Path, i: nat, j: nat)
    requires i < |Glob(t, d)| && j < |Glob(t, d)|
    ensures Glob(t, d)[i] < Glob(t, d)[j] ==> i < j
    ensures Glob(t, d)[i] == Glob(t, d)[j] ==> i == j
  {
    var g := Glob(t, d);
    PathLessLaws(g[i], g[j], g[j]);
    PathLessLaws(g[j], g[i], g[i]);
    if g[i] < g[j] {
      AncestorSortsFirst(g[i], g[j]);
    }
  }

  /** Files among the last `n` listed paths. */
  ghost function FilesAmong(t: Tree, paths: seq<Path>): nat {
    if paths == [] then 0 else (if IsFile(t, paths[0]) then 1 else 0) + FilesAmong(t, paths[1..])
  }

  /** `now` is `before` without the paths in `gone`. */
  ghost predicate Removed(now: Tree, before: Tree, gone: seq<Path>) {
    && (forall p :: p in now <==> p in before && p !in gone)
    && (forall p :: p in now ==> now[p] == before[p])
  }

  lemma RemovedOne(now: Tree, next: Tree, before: Tree, p: Path, rest: seq<Path>)
    requires Removed(now, before, rest) && next == now - {p}
    ensures Removed(next, before, [p] + rest)
  {
  }

  /** A listed path is still there when its turn comes. */
  lemma StillThere(now: Tree, before: Tree, d: Path, i: nat)
    requires i < |Glob(before, d)| && Removed(now, before, Glob(before, d)[i + 1..])
    ensures Glob(before, d)[i] in now && now[Glob(before, d)[i]] == before[Glob(before, d)[i]]
  {
    GlobMembers(before, d);
    assert Glob(before, d)[i] in Glob(before, d);
    NotRepeated(before, d, i);
  }

  /** One step of the removal: unlink a file, or remove a directory that is empty by now. */
  method Remove(volume: Volume, p: Path, ghost before: Tree, ghost d: Path, ghost i: nat) returns (wasFile: bool)
    requires i < |Glob(before, d)| && p == Glob(before, d)[i]
    requires Removed(volume.tree, before, Glob(before, d)[i + 1..])
    modifies volume
    ensures Removed(volume.tree, before, Glob(before, d)[i..])
    ensures wasFile == IsFile(before, p)
  {
    ghost var was, rest := volume.tree, Glob(before, d)[i + 1..];
    assert Glob(before, d)[i..] == [p] + rest;
    StillThere(was, before, d, i);
    wasFile := volume.tree[p].File?;
    if wasFile {
      volume.Unlink(p);
    } else {
      NothingLeftBelow(before, volume.tree, d, i);
      var ok := volume.Rmdir(p);
      assert ok;
    }
    RemovedOne(was, volume.tree, before, p, rest);
  }

  lemma NotRepeated(t: Tree, d: Path, i: nat)
    requires i < |Glob(t, d)|
    ensures Glob(t, d)[i] !in Glob(t, d)[i + 1..]
  {
    var g := Glob(t, d);
    forall j | i < j < |g| ensures g[j] != g[i] {
      GlobOrder(t, d, i, j);
    }
  }

  /** Remove the descendants of `d`, deepest first, as the reversed sorted listing gives them. */
  method RemoveDescendants(volume: Volume, d: Path) returns (count: nat)
    modifies volume
    ensures volume.tree == map p | p in old(volume.tree) && !(d < p) :: old(volume.tree)[p]
    ensures count == FilesAmong(old(volume.tree), Glob(old(volume.tree), d))
  {
    ghost var before := volume.tree;
    var found := SortedGlob(volume.tree, d);
    count := 0;
    var i := |found|;
    while i > 0
      invariant 0 <= i <= |found|
      invariant Removed(volume.tree, before, found[i..])
      invariant count == FilesAmong(before, found[i..])
    {
      i := i - 1;
      assert found[i..] == [found[i]] + found[i + 1..];
      var wasFile := Remove(volume, found[i], before, d, i);
      if wasFile {
        count := count + 1;
      }
    }
    assert found[0..] == found;
    GlobMembers(before, d);
  }

  lemma DescendantComesLater(t: Tree, d: Path, i: nat, q: Path)
    requires i < |Glob(t, d)| && q in t && Glob(t, d)[i] < q
    ensures q in Glob(t, d)[i + 1..]
  {
    var g := Glob(t, d);
    GlobMembers(t, d);
    var j :| 0 <= j < |g| && g[j] == q;
    GlobOrder(t, d, i, j);
    assert g[i + 1..][j - i - 1] == q;
  }

  /** When a directory's turn comes, all its descendants are gone. */
  lemma NothingLeftBelow(before: Tree, now: Tree, d: Path, i: nat)
    requires i < |Glob(before, d)|
    requires forall p :: p in now ==> p in before && p !in Glob(before, d)[i + 1..]
    ensures Descendants(now, Glob(before, d)[i]) == {}
  {
    forall q | q in now ensures !(Glob(before, d)[i] < q) {
      if Glob(before, d)[i] < q {
        DescendantComesLater(before, d, i, q);
      }
    }
  }

  // ---------------------------------------------------------------------------
  // The adapter
  // ---------------------------------------------------------------------------

  function TreeGet(t: Tree, root: Path, key: string): Result<Bytes> {
    match Lookup(t, Start(root, key), Parts(key))
    case Some(File(data)) => Ok(data)
    case _ => Err(NotFound)
  }

  function TreePut(t: Tree, root: Path, key: string, data: Bytes): Result<Tree> {
    WriteFile(t, Start(root, key), Parts(key), data)
  }

  /** The directory (or file) a prefix names. */
  function PrefixPath(root: Path, prefix: string): Path {
    Walk(Start(root, prefix), Parts(prefix))
  }

  function PrefixExists(t: Tree, root: Path, prefix: string): bool {
    Lookup(t, Start(root, prefix), Parts(prefix)).Some?
  }

  ghost function TreeWithout(t: Tree, root: Path, prefix: string): Tree {
    if PrefixExists(t, root, prefix) then Pruned(t, PrefixPath(root, prefix)) else t
  }

  ghost function TreeCount(t: Tree, root: Path, prefix: string): nat {
    if PrefixExists(t, root, prefix) then FilesAmong(t, Glob(t, PrefixPath(root, prefix))) else 0
  }

  /** `str(path.relative_to(root))` for a path found below `root / prefix`. */
  function RelativeKey(root: Path, prefix: string, p: Path): string {
    var base := PrefixPath(root, prefix);
    Join(Parts(prefix) + (if base <= p then p[|base|..] else []), '/')
  }

  /** The listed files with their keys and sizes. */
  function FileRefs(t: Tree, root: Path, prefix: string, found: seq<Path>): seq<ObjectRef> {
    if found == [] then []
    else
      var rest := FileRefs(t, root, prefix, found[1..]);
      if IsFile(t, found[0]) then [ObjectRef(RelativeKey(root, prefix, found[0]), |t[found[0]].data|)] + rest else rest
  }

  /** The reference to what the listing found, if it is a file. */
  function RefAt(t: Tree, root: Path, prefix: string, p: Path): seq<ObjectRef> {
    if IsFile(t, p) then [ObjectRef(RelativeKey(root, prefix, p), |t[p].data|)] else []
  }

  lemma FileRefsNext(t: Tree, root: Path, prefix: string, found: seq<Path>, i: nat, refs: seq<ObjectRef>)
    requires i < |found| && FileRefs(t, root, prefix, found) == refs + FileRefs(t, root, prefix, found[i..])
    ensures FileRefs(t, root, prefix, found)
            == refs + RefAt(t, root, prefix, found[i]) + FileRefs(t, root, prefix, found[i + 1..])
  {
    assert found[i..][1..] == found[i + 1..];
    ConcatAssoc(refs, RefAt(t, root, prefix, found[i]), FileRefs(t, root, prefix, found[i + 1..]));
  }

  ghost function TreeListing(t: Tree, root: Path, prefix: string): seq<ObjectRef> {
    if PrefixExists(t, root, prefix) then FileRefs(t, root, prefix, Glob(t, PrefixPath(root, prefix))) else []
  }

  /** On a canonical key, reading finds exactly the files below the root. */
  lemma FoundIsStored(t: Tree, root: Path, key: string)
    requires WellFormed(t) && Canonical(key)
    ensures TreeGet(t, root, key) == if key in FilesBelow(t, root) then Ok(FilesBelow(t, root)[key]) else Err(NotFound)
  {
    CanonicalParts(key);
    LookupExact(t, root, Split(key, '/'));
    assert FileAt(t, root, key).Some? <==> key in FilesBelow(t, root);
  }

  class Storage {
    const volume: Volume
    const root: Path
    const id: WorkspaceId
    const scope: Option<string>

    constructor (volume: Volume, root: Path, id: WorkspaceId, scope: Option<string>)
      ensures this.volume == volume && this.root == root && this.id == id && this.scope == scope
    {
      this.volume := volume;
      this.root := root;
      this.id := id;
      this.scope := scope;
    }

    method GetObject(key: string) returns (r: Result<Bytes>)
      ensures Guard(id, scope, key).Err? ==> r == Err(Isolation)
      ensures Guard(id, scope, key).Ok? ==> r == TreeGet(volume.tree, root, key)
      ensures Guard(id, scope, key).Ok? && WellFormed(volume.tree) && Canonical(key) ==>
                var files := FilesBelow(volume.tree, root);
                r == if key in files then Ok(files[key]) else Err(NotFound)
    {
      var g := Guard(id, scope, key);
      if g.Err? {
        return Err(g.error);
      }
      if WellFormed(volume.tree) && Canonical(key) {
        FoundIsStored(volume.tree, root, key);
      }
      return TreeGet(volume.tree, root, key);
    }

    method PutObject(key: string, data: Bytes) returns (r: Result<ObjectRef>)
      modifies volume
      ensures Guard(id, scope, key).Err? ==> r == Err(Isolation) && volume.tree == old(volume.tree)
      ensures Guard(id, scope, key).Ok? ==>
                match TreePut(old(volume.tree), root, key, data)
                case Ok(t) => r == Ok(ObjectRef(key, |data|)) && volume.tree == t
                case Err(e) => r == Err(e) && volume.tree == old(volume.tree)
    {
      var g := Guard(id, scope, key);
      if g.Err? {
        return Err(g.error);
      }
      var w := TreePut(volume.tree, root, key, data);
      match w
      case Err(e) => return Err(e);
      case Ok(t) =>
        volume.tree := t;
        return Ok(ObjectRef(key, |data|));
    }

    method ListObjects(prefix: string) returns (r: Result<seq<ObjectRef>>)
      ensures Guard(id, scope, prefix).Err? ==> r == Err(Isolation)
      ensures Guard(id, scope, prefix).Ok? ==> r.Ok? && r.value == TreeListing(volume.tree, root, prefix)
    {
      var g := Guard(id, scope, prefix);
      if g.Err? {
        return Err(g.error);
      }
      if !PrefixExists(volume.tree, root, prefix) {
        return Ok([]);
      }
      var base := PrefixPath(root, prefix);
      var found := SortedGlob(volume.tree, base);
      var refs: seq<ObjectRef> := [];
      GlobMembers(volume.tree, base);
      hide FileRefs, Guard, RelativeKey, PrefixExists;
      for i := 0 to |found|
        invariant FileRefs(volume.tree, root, prefix, found) == refs + FileRefs(volume.tree, root, prefix, found[i..])
      {
        var p := found[i];
        FileRefsNext(volume.tree, root, prefix, found, i, refs);
        if volume.tree[p].File? {
          refs := refs + [ObjectRef(RelativeKey(root, prefix, p), |volume.tree[p].data|)];
        }
      }
      return Ok(refs);
    }

    method DeletePrefix(prefix: string) returns (r: Result<nat>)
      modifies volume
      ensures Guard(id, scope, prefix).Err? ==> r == Err(Isolation) && volume.tree == old(volume.tree)
      ensures Guard(id, scope, prefix).Ok? ==>
                && r == Ok(TreeCount(old(volume.tree), root, prefix))
                && volume.tree == TreeWithout(old(volume.tree), root, prefix)
    {
      var g := Guard(id, scope, prefix);
      if g.Err? {
        return Err(g.error);
      }
      if !PrefixExists(volume.tree, root, prefix) {
        return Ok(0);
      }
      var base := PrefixPath(root, prefix);
      var count := RemoveDescendants(volume, base);
      if IsDir(volume.tree, base) {
        var ok := volume.Rmdir(base);
        assert ok;
      }
      return Ok(count);
    }
  }
}
