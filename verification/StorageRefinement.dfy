/** On prefix-free canonical keys the directory tree is indistinguishable from a flat key store. */
module StorageRefinement {
  import opened Text
  import opened Integrity
  import opened Paths
  import opened Disk
  import opened FlatStorage
  import opened LocalStorage

  // ---------------------------------------------------------------------------
  // Prefixes that end in a slash
  // ---------------------------------------------------------------------------

  predicate DirPrefix(prefix: string) {
    prefix != "" && prefix[|prefix| - 1] == '/' && Canonical(prefix[..|prefix| - 1])
  }

  function DirOf(prefix: string): Path
    requires prefix != ""
  {
    Split(prefix[..|prefix| - 1], '/')
  }

  lemma {:induction false} DropTrivialEnd(p: Path)
    requires FilePath(p)
    ensures DropTrivial(p + [""]) == p
  {
    if p != [] {
      assert (p + [""])[1..] == p[1..] + [""];
      DropTrivialEnd(p[1..]);
      assert p == [p[0]] + p[1..];
    } else {
      assert p + [""] == [""];
    }
  }

  lemma DirPrefixParts(prefix: string)
    requires DirPrefix(prefix)
    ensures Parts(prefix) == DirOf(prefix) && DirOf(prefix) != [] && FilePath(DirOf(prefix))
  {
    var front := prefix[..|prefix| - 1];
    assert prefix == front + ['/'] + "";
    SplitAppend(front, "", '/');
    DropTrivialEnd(DirOf(prefix));
  }

  lemma DirPrefixShape(root: Path, prefix: string)
    requires DirPrefix(prefix)
    ensures Parts(prefix) == DirOf(prefix) && DirOf(prefix) != [] && FilePath(DirOf(prefix))
    ensures prefix == Join(DirOf(prefix), '/') + "/"
    ensures Start(root, prefix) == root
    ensures PrefixPath(root, prefix) == root + DirOf(prefix)
  {
    DirPrefixParts(prefix);
    var front := prefix[..|prefix| - 1];
    CanonicalParts(front);
    assert front != "" && prefix[0] == front[0];
    WalkProper(root, DirOf(prefix));
  }

  /** A canonical key has the prefix as a string exactly when its path lies below the directory. */
  lemma BelowPrefix(prefix: string, k: string)
    requires DirPrefix(prefix) && Canonical(k)
    ensures prefix <= k <==> DirOf(prefix) < Split(k, '/')
  {
    DirPrefixShape([], prefix);
    JoinSplit(k, '/');
    JoinedPrefix(DirOf(prefix), Split(k, '/'));
  }

  lemma BelowShift(root: Path, d: Path, q: Path)
    ensures root + d < root + q <==> d < q
  {
    assert (root + q)[|root|..] == q && (root + d)[|root|..] == d;
    if root + d < root + q {
      assert d == (root + q)[..|root + d|][|root|..];
    }
  }

  // ---------------------------------------------------------------------------
  // One operation at a time
  // ---------------------------------------------------------------------------

  ghost function Stored(t: Tree, root: Path): Objects {
    FilesBelow(t, root)
  }

  lemma GetRefines(t: Tree, root: Path, k: string)
    requires WellFormed(t) && Canonical(k)
    ensures TreeGet(t, root, k) == if k in Stored(t, root) then Ok(Stored(t, root)[k]) else Err(NotFound)
  {
    FoundIsStored(t, root, k);
  }

  /** No key is a directory of another. */
  ghost predicate PrefixFree(keys: set<string>) {
    && (forall k :: k in keys ==> Canonical(k))
    && (forall j, k :: j in keys && k in keys ==> !(Split(j, '/') < Split(k, '/')))
  }

  /** Only directories that some key needs exist below the root, and only keys are stored. */
  ghost predicate Tidy(t: Tree, root: Path, keys: set<string>) {
    && WellFormed(t) && IsDir(t, root)
    && (forall k :: k in Stored(t, root) ==> k in keys)
    && (forall p :: IsDir(t, p) && root < p ==> NeededDir(root, keys, p))
  }

  ghost predicate NeededDir(root: Path, keys: set<string>, p: Path) {
    exists k :: k in keys && p < root + Split(k, '/')
  }

  /** No file lies on the way to a key, for its own path would be a key and a directory of another. */
  lemma NoFileOnTheWay(t: Tree, root: Path, keys: set<string>, k: string, q: Path)
    requires PrefixFree(keys) && Tidy(t, root, keys) && k in keys && q < Split(k, '/')
    ensures !IsFile(t, root + q)
  {
    if q == [] {
      assert root + q == root;
    } else {
      assert forall i :: 0 <= i < |q| ==> q[i] == Split(k, '/')[i];
      JoinedPathSplits(q);
      if IsFile(t, root + q) {
        FilesAreCanonical(t, root, q);
      }
    }
  }

  lemma KeyIsNoDir(t: Tree, root: Path, keys: set<string>, k: string)
    requires PrefixFree(keys) && Tidy(t, root, keys) && k in keys
    ensures !IsDir(t, root + Split(k, '/'))
  {
    var parts := Split(k, '/');
    assert root < root + parts;
    if IsDir(t, root + parts) {
      hide WellFormed, FilesBelow;
      var j :| j in keys && root + parts < root + Split(j, '/');
      BelowShift(root, parts, Split(j, '/'));
    }
  }

  lemma PartOfTheWay(root: Path, parts: Path, p: Path)
    requires parts != [] && OnTheWay(p, root, Parent(parts))
    ensures p == root + p[|root|..] && p[|root|..] < parts
  {
    var q := p[|root|..];
    assert p == root + q;
    assert q == (root + Parent(parts))[|root|..|p|];
  }

  lemma TidyIsWritable(t: Tree, root: Path, keys: set<string>, k: string)
    requires PrefixFree(keys) && Tidy(t, root, keys) && k in keys
    ensures Writable(t, root, Split(k, '/'))
  {
    var parts := Split(k, '/');
    hide Tidy, PrefixFree;
    forall p | OnTheWay(p, root, Parent(parts)) ensures !IsFile(t, p) {
      var q := p[|root|..];
      PartOfTheWay(root, parts, p);
      NoFileOnTheWay(t, root, keys, k, q);
    }
    KeyIsNoDir(t, root, keys, k);
  }

  /** `put_object` on a tidy tree succeeds, updates the map and keeps the tree tidy. */
  lemma PutRefines(t: Tree, root: Path, keys: set<string>, k: string, data: Bytes)
    requires PrefixFree(keys) && Tidy(t, root, keys) && k in keys
    ensures var w := TreePut(t, root, k, data);
            && w.Ok? && Tidy(w.value, root, keys)
            && Stored(w.value, root) == Stored(t, root)[k := data]
  {
    TidyIsWritable(t, root, keys, k);
    CanonicalParts(k);
    WriteIsUpdate(t, root, k, data);
    WriteKeepsDirs(t, root, keys, k, data);
  }

  lemma WriteKeepsDirs(t: Tree, root: Path, keys: set<string>, k: string, data: Bytes)
    requires Tidy(t, root, keys) && k in keys && Canonical(k) && Writable(t, root, Split(k, '/'))
    ensures var w := WriteFile(t, root, Split(k, '/'), data);
            w.Ok? && forall p :: IsDir(w.value, p) && root < p ==> NeededDir(root, keys, p)
  {
    var parts := Split(k, '/');
    WriteFileExact(t, root, parts, data);
    var w := WriteFile(t, root, parts, data).value;
    var made :| WithDirs(t, made, root, Parent(parts)) && w == made[root + parts := File(data)];
    forall p | IsDir(w, p) && root < p ensures NeededDir(root, keys, p) {
      if !IsDir(t, p) {
        assert p <= root + Parent(parts);
        assert root + Parent(parts) < root + parts;
        assert p < root + Split(k, '/');
      }
    }
  }

  lemma FileAtPruned(t: Tree, root: Path, prefix: string, k: string)
    requires DirPrefix(prefix)
    ensures FileAt(Pruned(t, root + DirOf(prefix)), root, k)
            == if prefix <= k && Canonical(k) then None else FileAt(t, root, k)
  {
    if Canonical(k) {
      BelowPrefix(prefix, k);
      BelowShift(root, DirOf(prefix), Split(k, '/'));
    }
  }

  /** `delete_prefix` removes exactly the objects under the prefix. */
  lemma DeleteRefines(t: Tree, root: Path, keys: set<string>, prefix: string)
    requires Tidy(t, root, keys) && DirPrefix(prefix)
    ensures Stored(TreeWithout(t, root, prefix), root) == Without(Stored(t, root), prefix)
    ensures Tidy(TreeWithout(t, root, prefix), root, keys)
  {
    DirPrefixShape(root, prefix);
    var d := root + DirOf(prefix);
    LookupExact(t, root, DirOf(prefix));
    var w := TreeWithout(t, root, prefix);
    if d !in t {
      NothingBelowMissing(t, d);
    }
    assert w == Pruned(t, d);
    PrunedWellFormed(t, d);
    var kept := Without(Stored(t, root), prefix);
    forall k ensures k in kept <==> FileAt(w, root, k).Some? {
      FileAtPruned(t, root, prefix, k);
    }
    forall k | k in kept ensures FileAt(w, root, k) == Some(kept[k]) {
      FileAtPruned(t, root, prefix, k);
    }
    FileMapUnique(w, root, kept);
    assert root < d;
  }

  lemma NothingBelowMissing(t: Tree, d: Path)
    requires WellFormed(t) && d !in t
    ensures Pruned(t, d) == t
  {
    forall p | p in t ensures !(d < p) {
      if d < p {
        AncestorsAreDirs(t, p, d);
      }
    }
  }

  // ---------------------------------------------------------------------------
  // Listings
  // ---------------------------------------------------------------------------

  ghost predicate RefOf(t: Tree, root: Path, prefix: string, p: Path, ref: ObjectRef) {
    IsFile(t, p) && ref == ObjectRef(RelativeKey(root, prefix, p), |t[p].data|)
  }

  lemma {:induction false} FileRefsMembers(t: Tree, root: Path, prefix: string, found: seq<Path>)
    ensures |FileRefs(t, root, prefix, found)| == FilesAmong(t, found)
    ensures forall ref ::
              ref in FileRefs(t, root, prefix, found) <==> exists p :: p in found && RefOf(t, root, prefix, p, ref)
  {
    if found != [] {
      FileRefsMembers(t, root, prefix, found[1..]);
      var refs := FileRefs(t, root, prefix, found);
      forall ref ensures ref in refs <==> exists p :: p in found && RefOf(t, root, prefix, p, ref) {
        if p :| p in found && RefOf(t, root, prefix, p, ref) {
          assert p == found[0] || p in found[1..];
        }
        if ref in refs && ref !in FileRefs(t, root, prefix, found[1..]) {
          assert RefOf(t, root, prefix, found[0], ref);
        }
      }
    }
  }

  ghost predicate Distinct<T>(s: seq<T>) {
    forall i, j :: 0 <= i < j < |s| ==> s[i] != s[j]
  }

  ghost predicate DistinctKeys(refs: seq<ObjectRef>) {
    forall i, j :: 0 <= i < j < |refs| ==> refs[i].key != refs[j].key
  }

  /** The key of a path found below the prefix is its path relative to the root. */
  lemma FoundKey(t: Tree, root: Path, prefix: string, p: Path)
    requires DirPrefix(prefix) && WellFormed(t) && p in t && root + DirOf(prefix) < p
    ensures var q := p[|root|..];
            p == root + q && DirOf(prefix) < q && FilePath(q) && RelativeKey(root, prefix, p) == Join(q, '/')
  {
    DirPrefixShape(root, prefix);
    var d := DirOf(prefix);
    var q := p[|root|..];
    assert p == root + q;
    BelowShift(root, d, q);
    assert p[|root + d|..] == q[|d|..];
    assert d + q[|d|..] == q;
    assert forall i :: 0 <= i < |q| ==> q[i] == p[|root| + i];
  }

  lemma FoundKeysDiffer(t: Tree, root: Path, prefix: string, p: Path, p': Path)
    requires DirPrefix(prefix) && WellFormed(t) && p in t && p' in t
    requires root + DirOf(prefix) < p && root + DirOf(prefix) < p'
    requires RelativeKey(root, prefix, p) == RelativeKey(root, prefix, p')
    ensures p == p'
  {
    FoundKey(t, root, prefix, p);
    FoundKey(t, root, prefix, p');
    JoinedPathsDiffer(p[|root|..], p'[|root|..]);
  }

  lemma {:induction false} FileRefsDistinct(t: Tree, root: Path, prefix: string, found: seq<Path>)
    requires DirPrefix(prefix) && WellFormed(t) && Distinct(found)
    requires forall p :: p in found ==> p in t && root + DirOf(prefix) < p
    ensures DistinctKeys(FileRefs(t, root, prefix, found))
  {
    if found != [] {
      FileRefsDistinct(t, root, prefix, found[1..]);
      FileRefsMembers(t, root, prefix, found[1..]);
      var rest := FileRefs(t, root, prefix, found[1..]);
      forall i | 0 <= i < |rest| ensures rest[i].key != RelativeKey(root, prefix, found[0]) {
        assert rest[i] in rest;
        var p :| p in found[1..] && RefOf(t, root, prefix, p, rest[i]);
        if rest[i].key == RelativeKey(root, prefix, found[0]) {
          FoundKeysDiffer(t, root, prefix, p, found[0]);
        }
      }
    }
  }

  lemma GlobDistinct(t: Tree, d: Path)
    ensures Distinct(Glob(t, d))
  {
    forall i, j | 0 <= i < j < |Glob(t, d)| ensures Glob(t, d)[i] != Glob(t, d)[j] {
      GlobOrder(t, d, i, j);
    }
  }

  lemma ListedRef(t: Tree, root: Path, prefix: string, ref: ObjectRef)
    requires DirPrefix(prefix) && WellFormed(t)
    ensures ref in FileRefs(t, root, prefix, Glob(t, root + DirOf(prefix)))
            <==> ref.key in Keys(Stored(t, root), prefix) && ref.size == |Stored(t, root)[ref.key]|
  {
    var d, found := root + DirOf(prefix), Glob(t, root + DirOf(prefix));
    FileRefsMembers(t, root, prefix, found);
    GlobMembers(t, d);
    DirPrefixShape(root, prefix);
    if p :| p in found && RefOf(t, root, prefix, p, ref) {
      FoundKey(t, root, prefix, p);
      var q := p[|root|..];
      FilesAreCanonical(t, root, q);
      JoinedPrefix(DirOf(prefix), q);
    }
    if ref.key in Keys(Stored(t, root), prefix) && ref.size == |Stored(t, root)[ref.key]| {
      var q := Split(ref.key, '/');
      assert FileAt(t, root, ref.key).Some?;
      BelowPrefix(prefix, ref.key);
      BelowShift(root, DirOf(prefix), q);
      var p := root + q;
      assert p in found;
      FoundKey(t, root, prefix, p);
      assert p[|root|..] == q;
      JoinSplit(ref.key, '/');
      assert RefOf(t, root, prefix, p, ref);
    }
  }

  /** `list_objects` lists exactly the objects under the prefix, each once, with its size. */
  lemma ListRefines(t: Tree, root: Path, prefix: string)
    requires WellFormed(t) && DirPrefix(prefix)
    ensures IsListingOf(TreeListing(t, root, prefix), Stored(t, root), prefix)
    ensures TreeCount(t, root, prefix) == |TreeListing(t, root, prefix)|
  {
    DirPrefixShape(root, prefix);
    var d := root + DirOf(prefix);
    LookupExact(t, root, DirOf(prefix));
    GlobMembers(t, d);
    GlobDistinct(t, d);
    FileRefsMembers(t, root, prefix, Glob(t, d));
    FileRefsDistinct(t, root, prefix, Glob(t, d));
    var refs := FileRefs(t, root, prefix, Glob(t, d));
    if d !in t {
      NothingListed(t, d);
    }
    assert refs == TreeListing(t, root, prefix);
    forall i | 0 <= i < |refs|
      ensures refs[i].key in Keys(Stored(t, root), prefix) && refs[i].size == |Stored(t, root)[refs[i].key]|
    {
      ListedRef(t, root, prefix, refs[i]);
      assert refs[i] in refs;
    }
    forall k | k in Keys(Stored(t, root), prefix) ensures Mentions(refs, k) {
      var ref := ObjectRef(k, |Stored(t, root)[k]|);
      ListedRef(t, root, prefix, ref);
      var i :| 0 <= i < |refs| && refs[i] == ref;
      assert refs[i].key == k;
    }
  }

  lemma NothingListed(t: Tree, d: Path)
    requires WellFormed(t) && d !in t
    ensures Glob(t, d) == []
  {
    GlobMembers(t, d);
    EmptyOrInhabited(Glob(t, d));
    forall p | p in t ensures !(d < p) {
      if d < p {
        AncestorsAreDirs(t, p, d);
      }
    }
  }

  lemma {:induction false} ListingSize(refs: seq<ObjectRef>, keys: set<string>)
    requires DistinctKeys(refs)
    requires forall i :: 0 <= i < |refs| ==> refs[i].key in keys
    requires forall k :: k in keys ==> Mentions(refs, k)
    ensures |refs| == |keys|
  {
    if refs == [] {
      assert forall k :: !Mentions(refs, k);
      assert keys == {};
    } else {
      var last := refs[|refs| - 1];
      var front := refs[..|refs| - 1];
      forall k | k in keys - {last.key} ensures Mentions(front, k) {
        var i :| 0 <= i < |refs| && refs[i].key == k;
        assert front[i].key == k;
      }
      ListingSize(front, keys - {last.key});
    }
  }

  /** The count that `delete_prefix` returns is the number of objects it removes. */
  lemma CountRefines(t: Tree, root: Path, prefix: string)
    requires WellFormed(t) && DirPrefix(prefix)
    ensures TreeCount(t, root, prefix) == |Keys(Stored(t, root), prefix)|
  {
    ListRefines(t, root, prefix);
    ListingSize(TreeListing(t, root, prefix), Keys(Stored(t, root), prefix));
  }

  // ---------------------------------------------------------------------------
  // Whole runs
  // ---------------------------------------------------------------------------

  datatype Op = Put(key: string, data: Bytes) | Delete(prefix: string)

  ghost predicate Legal(op: Op, keys: set<string>) {
    match op
    case Put(k, _) => k in keys
    case Delete(prefix) => DirPrefix(prefix)
  }

  datatype Outcome = Written(size: nat) | Deleted(count: nat) | Failed(error: Error)

  ghost function TreeStep(t: Tree, root: Path, op: Op): (Tree, Outcome) {
    match op
    case Put(k, data) =>
      (match TreePut(t, root, k, data)
       case Ok(w) => (w, Written(|data|))
       case Err(e) => (t, Failed(e)))
    case Delete(prefix) => (TreeWithout(t, root, prefix), Deleted(TreeCount(t, root, prefix)))
  }

  ghost function FlatStep(o: Objects, op: Op): (Objects, Outcome) {
    match op
    case Put(k, data) => (o[k := data], Written(|data|))
    case Delete(prefix) => (Without(o, prefix), Deleted(|Keys(o, prefix)|))
  }

  ghost function TreeRun(t: Tree, root: Path, ops: seq<Op>): (Tree, seq<Outcome>)
    decreases ops
  {
    if ops == [] then (t, [])
    else
      var (t', out) := TreeStep(t, root, ops[0]);
      var (t'', outs) := TreeRun(t', root, ops[1..]);
      (t'', [out] + outs)
  }

  ghost function FlatRun(o: Objects, ops: seq<Op>): (Objects, seq<Outcome>)
    decreases ops
  {
    if ops == [] then (o, [])
    else
      var (o', out) := FlatStep(o, ops[0]);
      var (o'', outs) := FlatRun(o', ops[1..]);
      (o'', [out] + outs)
  }

  lemma StepRefines(t: Tree, root: Path, keys: set<string>, op: Op)
    requires PrefixFree(keys) && Tidy(t, root, keys) && Legal(op, keys)
    ensures var (w, out) := TreeStep(t, root, op);
            Tidy(w, root, keys) && FlatStep(Stored(t, root), op) == (Stored(w, root), out)
  {
    match op
    case Put(k, data) => PutRefines(t, root, keys, k, data);
    case Delete(prefix) =>
      DeleteRefines(t, root, keys, prefix);
      CountRefines(t, root, prefix);
  }

  /** After any sequence of puts and prefix deletes the tree holds what the flat store holds, and
      every operation reported the same. */
  lemma {:induction false} RunRefines(t: Tree, root: Path, keys: set<string>, ops: seq<Op>)
    requires PrefixFree(keys) && Tidy(t, root, keys)
    requires forall op :: op in ops ==> Legal(op, keys)
    ensures var (w, outs) := TreeRun(t, root, ops);
            Tidy(w, root, keys) && FlatRun(Stored(t, root), ops) == (Stored(w, root), outs)
    decreases ops
  {
    if ops != [] {
      assert ops[0] in ops;
      StepRefines(t, root, keys, ops[0]);
      var (w, out) := TreeStep(t, root, ops[0]);
      RunRefines(w, root, keys, ops[1..]);
    }
  }

  /** Every observation of the tree after a run is an observation of the flat store. */
  lemma ObservationsRefine(t: Tree, root: Path, keys: set<string>, ops: seq<Op>, k: string, prefix: string)
    requires PrefixFree(keys) && Tidy(t, root, keys) && Canonical(k) && DirPrefix(prefix)
    requires forall op :: op in ops ==> Legal(op, keys)
    ensures var (w, _) := TreeRun(t, root, ops);
            var (o, _) := FlatRun(Stored(t, root), ops);
            && TreeGet(w, root, k) == (if k in o then Ok(o[k]) else Err(NotFound))
            && IsListingOf(TreeListing(w, root, prefix), o, prefix)
  {
    RunRefines(t, root, keys, ops);
    var (w, outs) := TreeRun(t, root, ops);
    GetRefines(w, root, k);
    ListRefines(w, root, prefix);
  }
}
