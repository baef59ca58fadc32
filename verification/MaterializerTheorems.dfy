/** When a materialization goes through, and what it leaves in the skills directory. */
module MaterializerTheorems {
  import opened Text
  import opened Integrity
  import opened Paths
  import opened Disk
  import opened StorageRefinement
  import opened Materializer

  // ---------------------------------------------------------------------------
  // Whatever the store answered
  // ---------------------------------------------------------------------------

  /** Without a catalog, what starts has the digest, and paths that cannot spell a line of its encoding. */
  lemma StartedTreeIsVerified(sha: Sha256, t: Tree, root: Path, w: string, session: string, digest: string,
                              downloads: seq<Download>, again: seq<Download>)
    requires Materialized(sha, t, root, None, w, session, digest, downloads, again).problem == None
    ensures var files := FilesBelow(Materialized(sha, t, root, None, w, session, digest, downloads, again).tree,
                                    SkillsDir(root, w, session));
            Digest(sha, files) == digest && AllSafe(files) && AllSeparatorFree(files)
  {
    TreesAreSeparatorFree(Materialized(sha, t, root, None, w, session, digest, downloads, again).tree, SkillsDir(root,
        w, session));
  }

  /** Against an approved bundle with the generation's digest, the tree of a session is that bundle
      exactly when the bundle's paths do not spell a line of the encoding. */
  lemma VerifiedTreeIsApproved(sha: Sha256, t: Tree, root: Path, w: string, session: string, digest: string,
                               downloads: seq<Download>, again: seq<Download>, approved: Files)
    requires var o := Materialized(sha, t, root, None, w, session, digest, downloads, again);
             && o.problem == None
             && Digest(sha, approved) == digest
             && !Collide(sha, FilesBelow(o.tree, SkillsDir(root, w, session)), approved)
    ensures var o := Materialized(sha, t, root, None, w, session, digest, downloads, again);
            FilesBelow(o.tree, SkillsDir(root, w, session)) == approved <==> AllSeparatorFree(approved)
  {
    var tree := Materialized(sha, t, root, None, w, session, digest, downloads, again).tree;
    var skills := SkillsDir(root, w, session);
    TreesAreSeparatorFree(tree, skills);
    SameDigestSameFiles(sha, FilesBelow(tree, skills), approved);
  }

  /** Every object that was listed, but the marker of the directory itself, must have been answered. */
  lemma {:induction false} LaidIsAnswered(t: Tree, skills: Path, downloads: seq<Download>)
    requires LayDown(t, skills, downloads).problem == None
    ensures forall i :: 0 <= i < |downloads| && downloads[i].rel != "" ==> downloads[i].reply.Ok?
    decreases downloads
  {
    if downloads != [] {
      var next := if downloads[0].rel == "" then t else LayOne(t, skills, downloads[0]).value;
      LaidIsAnswered(next, skills, downloads[1..]);
      assert downloads == [downloads[0]] + downloads[1..];
    }
  }

  /** The file at the name and the answer of the store have one hash. */
  ghost predicate SameOnDisk(sha: Sha256, t: Tree, skills: Path, d: Download) {
    var found := Lookup(t, Start(skills, d.rel), Parts(d.rel));
    d.reply.Ok? && found.Some? && found.value.File? && sha(found.value.data) == sha(d.reply.value)
  }

  /** The comparison passes if and only if every listed object is on the disk as the store answers it. */
  lemma {:induction false} VerifiedEach(sha: Sha256, t: Tree, skills: Path, downloads: seq<Download>)
    ensures VerifyEach(sha, t, skills, downloads) == None
            <==> forall i :: 0 <= i < |downloads| && downloads[i].rel != "" ==>
                               SameOnDisk(sha, t, skills, downloads[i])
  {
    hide Lookup, Parts;
    if downloads != [] {
      VerifiedEach(sha, t, skills, downloads[1..]);
      assert downloads == [downloads[0]] + downloads[1..];
    }
  }

  /** A name that starts with a slash is written from the root of the disk, not below the session. */
  lemma AbsoluteNamesStartAtTheRoot(t: Tree, skills: Path, k: string, data: Bytes)
    requires Canonical(k)
    ensures LayOne(t, skills, Download("/" + k, Ok(data))) == LayOne(t, [], Download(k, Ok(data)))
    ensures !("/" <= k)
  {
    CanonicalParts(k);
    SplitAppend("", k, '/');
    SplitNoSep("", '/');
    assert "" + ['/'] + k == "/" + k;
    assert [""] + Split(k, '/') == Split("/" + k, '/');
  }

  /** Of a name only the components count that are neither empty nor a dot. */
  lemma {:induction false} TrivialComponentsDrop(a: seq<string>, b: seq<string>)
    ensures DropTrivial(a + b) == DropTrivial(a) + DropTrivial(b)
  {
    if a == [] {
      assert a + b == b;
    } else {
      TrivialComponentsDrop(a[1..], b);
      assert (a + b)[0] == a[0] && (a + b)[1..] == a[1..] + b;
      ghost var first := if a[0] == "" || a[0] == "." then [] else [a[0]];
      assert DropTrivial(a) == first + DropTrivial(a[1..]);
      assert DropTrivial(a + b) == first + DropTrivial(a[1..] + b);
    }
  }

  lemma OneComponent(c: string)
    ensures DropTrivial([c]) == if c == "" || c == "." then [] else [c]
  {
    assert DropTrivial([c][1..]) == [];
  }

  lemma CatalogKeepsDirectory(t: Tree, catalog: Option<Path>, skills: Path, p: Path)
    requires IsDir(t, p) && (p == skills || !(skills <= p))
    ensures IsDir(WithCatalog(t, catalog, skills), p)
  {
    if catalog.Some? && p == skills {
      assert Original(catalog.value, skills, p) == catalog.value;
    }
  }

  lemma SessionKeepsDirectory(sha: Sha256, t: Tree, base: Path, name: string, catalog: Option<Path>, digest: string,
                              downloads: seq<Download>, again: seq<Download>)
    requires IsDir(t, base + [name])
    ensures IsDir(Fill(sha, t, base + ["skills"], catalog, digest, downloads, again).tree, base + [name])
  {
    hide LayDown, WithCatalog, Verify;
    assert base + ["skills"] <= base + [name] ==> (base + ["skills"])[|base|] == (base + [name])[|base|];
    CatalogKeepsDirectory(t, catalog, base + ["skills"], base + [name]);
    LayDownKeeps(WithCatalog(t, catalog, base + ["skills"]), base + ["skills"], downloads, base + [name]);
  }

  lemma SessionMadeDirectory(t: Tree, base: Path, name: string)
    requires NewBelow(t, base) && name in SUBDIRS
    ensures var made := MakeAll(t, base, SUBDIRS); made.Ok? && IsDir(made.value, base + [name])
  {
    MadeAll(t, t, base, SUBDIRS);
  }

  lemma SessionHasDirectory(sha: Sha256, t: Tree, root: Path, catalog: Option<Path>, w: string, session: string,
                            digest: string, downloads: seq<Download>, again: seq<Download>, name: string)
    requires Fresh(t, root, w, session) && name in SUBDIRS
    ensures var t' := Materialized(sha, t, root, catalog, w, session, digest, downloads, again).tree;
            IsDir(t', root + [w, session] + [name])
  {
    hide LayDown, Verify, MakeAll, Fill, WithCatalog;
    var base := SessionDir(root, w, session);
    assert Parent(base) == root + [w];
    SessionMadeDirectory(t, base, name);
    SessionKeepsDirectory(sha, MakeAll(t, base, SUBDIRS).value, base, name, catalog, digest, downloads, again);
  }

  /** The four directories of a session. */
  lemma SessionHasDirectories(sha: Sha256, t: Tree, root: Path, catalog: Option<Path>, w: string, session: string,
                              digest: string, downloads: seq<Download>, again: seq<Download>)
    requires Fresh(t, root, w, session)
    ensures var t' := Materialized(sha, t, root, catalog, w, session, digest, downloads, again).tree;
            forall name :: name in {"skills", "antigravity-data", "inputs", "work"} ==>
                             IsDir(t', root + [w, session] + [name])
  {
    hide Materialized, Fresh;
    forall name | name in {"skills", "antigravity-data", "inputs", "work"}
      ensures IsDir(Materialized(sha, t, root, catalog, w, session, digest, downloads, again).tree,
                    root + [w, session] + [name])
    {
      assert name in SUBDIRS by {
        assert SUBDIRS[0] == "skills" && SUBDIRS[1] == "antigravity-data" && SUBDIRS[2] == "inputs"
               && SUBDIRS[3] == "work";
      }
      SessionHasDirectory(sha, t, root, catalog, w, session, digest, downloads, again, name);
    }
  }

  // ---------------------------------------------------------------------------
  // An honest store
  // ---------------------------------------------------------------------------

  /** Every file of the revision is answered with its content, and nothing else is listed. */
  ghost predicate Honest(downloads: seq<Download>, files: Files) {
    && (forall i :: 0 <= i < |downloads| ==>
              downloads[i].rel in files && downloads[i].reply == Ok(files[downloads[i].rel]))
    && (forall k :: k in files ==> k in Rels(downloads))
  }

  ghost predicate Among(downloads: seq<Download>, files: Files) {
    forall i :: 0 <= i < |downloads| ==> downloads[i].rel in files && downloads[i].reply == Ok(files[downloads[i].rel])
  }

  lemma {:induction false} ReceivedAmong(downloads: seq<Download>, files: Files)
    requires AllAnswered(downloads) && Among(downloads, files)
    ensures Received(downloads).Keys == Rels(downloads) <= files.Keys
    ensures forall k :: k in Received(downloads) ==> Received(downloads)[k] == files[k]
  {
    if downloads != [] {
      ReceivedAmong(downloads[1..], files);
    }
  }

  lemma HonestReceived(downloads: seq<Download>, files: Files)
    requires AllAnswered(downloads) && Honest(downloads, files)
    ensures Received(downloads) == files && Rels(downloads) == files.Keys
  {
    ReceivedAmong(downloads, files);
  }

  lemma CanonicalAnswers(downloads: seq<Download>, files: Files)
    requires Honest(downloads, files) && forall k :: k in files ==> Canonical(k)
    ensures AllAnswered(downloads)
  {
  }

  ghost predicate Empty(t: Tree, base: Path) {
    WellFormed(t) && IsDir(t, base) && forall p :: p in t ==> !(base < p)
  }

  lemma EmptyFits(t: Tree, base: Path, rels: set<string>)
    requires Empty(t, base)
    ensures Fits(t, base, rels) <==> PrefixFree(rels)
    ensures FilesBelow(t, base) == map[]
  {
    forall k | k in rels ensures Writable(t, base, Split(k, '/')) {
      var parts := Split(k, '/');
      assert base < base + parts;
      forall p | OnTheWay(p, base, Parent(parts)) ensures !IsFile(t, p) {
        assert p == base || base < p;
      }
    }
    forall k ensures k !in FilesBelow(t, base) {
      assert base < base + Split(k, '/');
      assert FileAt(t, base, k).None?;
    }
  }

  /** With an honest store and canonical paths, filling an empty directory reproduces the bundle
      exactly when no path is a directory of another. */
  lemma EmptyFilled(sha: Sha256, t: Tree, skills: Path, downloads: seq<Download>, again: seq<Download>, files: Files)
    requires Empty(t, skills) && Honest(downloads, files) && AllSafe(files)
    requires forall k :: k in files ==> Canonical(k)
    ensures var o := Fill(sha, t, skills, None, Digest(sha, files), downloads, again);
            && (o.problem == None <==> PrefixFree(files.Keys))
            && (o.problem == None ==> FilesBelow(o.tree, skills) == files)
  {
    hide Fits, PrefixFree, LayDown, WellFormed, Honest, Canonical, SafePath, Received;
    CanonicalAnswers(downloads, files);
    HonestReceived(downloads, files);
    EmptyFits(t, skills, files.Keys);
    LayDownExact(t, skills, downloads);
    if LayDown(t, skills, downloads).problem == None {
      LayDownUpdates(t, skills, downloads);
      assert map[] + files == files;
    }
  }

  /** If the digest check passed, the paths were canonical and none was a directory of another. */
  lemma FilledWasPrefixFree(sha: Sha256, t: Tree, skills: Path, downloads: seq<Download>, again: seq<Download>,
                            files: Files)
    requires Empty(t, skills) && AllSeparatorFree(files)
    requires var o := Fill(sha, t, skills, None, Digest(sha, files), downloads, again);
             o.problem == None && !Collide(sha, files, FilesBelow(o.tree, skills))
    ensures PrefixFree(files.Keys)
  {
    var tree := Fill(sha, t, skills, None, Digest(sha, files), downloads, again).tree;
    LayDownWellFormed(t, skills, downloads);
    TreesAreSeparatorFree(tree, skills);
    SameDigestSameFiles(sha, files, FilesBelow(tree, skills));
    TreesArePrefixFree(tree, skills);
  }

  /** Publish and start: a session on an untouched revision starts exactly when the revision's paths
      are canonical and none is a directory of another, and then has exactly the revision's files. */
  lemma HonestStart(sha: Sha256, t: Tree, root: Path, w: string, session: string, downloads: seq<Download>,
                    again: seq<Download>, files: Files)
    requires Fresh(t, root, w, session)
    requires Honest(downloads, files) && AllSafe(files) && AllSeparatorFree(files)
    requires var o := Materialized(sha, t, root, None, w, session, Digest(sha, files), downloads, again);
             !Collide(sha, files, FilesBelow(o.tree, SkillsDir(root, w, session)))
    ensures var o := Materialized(sha, t, root, None, w, session, Digest(sha, files), downloads, again);
            && (o.problem == None <==> PrefixFree(files.Keys))
            && (o.problem == None ==> FilesBelow(o.tree, SkillsDir(root, w, session)) == files)
  {
    hide Fill, Fits;
    SessionMade(t, root, w, session);
    var made, skills := MakeAll(t, SessionDir(root, w, session), SUBDIRS).value, SkillsDir(root, w, session);
    var o := Fill(sha, made, skills, None, Digest(sha, files), downloads, again);
    if o.problem == None {
      FilledWasPrefixFree(sha, made, skills, downloads, again, files);
    }
    if PrefixFree(files.Keys) {
      EmptyFilled(sha, made, skills, downloads, again, files);
    }
  }

  // ---------------------------------------------------------------------------
  // On top of a catalog
  // ---------------------------------------------------------------------------

  /** A configured catalog that is no directory is left out, though the files are then compared one by one. */
  lemma MissingCatalogIsLeftOut(sha: Sha256, t: Tree, skills: Path, c: Path, digest: string, downloads: seq<Download>,
                                again: seq<Download>)
    requires !IsDir(t, c)
    ensures var o, laid := Fill(sha, t, skills, Some(c), digest, downloads, again), LayDown(t, skills, downloads);
            && o.tree == laid.tree
            && (o.problem == None
                <==> laid.problem == None
                     && forall i :: 0 <= i < |again| && again[i].rel != "" ==>
                                      SameOnDisk(sha, laid.tree, skills, again[i]))
  {
    hide LayDown, SameOnDisk, VerifyEach;
    VerifiedEach(sha, LayDown(t, skills, downloads).tree, skills, again);
  }

  lemma CopiedPath(t: Tree, c: Path, to: Path, q: Path)
    requires WellFormed(t) && IsDir(t, c) && Empty(t, to) && !(c <= to)
    ensures var w := CopyTree(t, c, to);
            && (to + q in w <==> c + q in t)
            && (c + q in t ==> w[to + q] == t[c + q])
  {
    var p := to + q;
    assert p[|to|..] == q;
    assert Original(c, to, p) == c + q;
    if c + q in t {
      assert (c + q)[|c|..] == q;
      assert p in Copied(t, c, to);
    }
    if p in Copied(t, c, to) {
      var r :| r in t && c <= r && p == to + r[|c|..];
      assert r == c + r[|c|..] && r[|c|..] == p[|to|..];
    }
    if p in t {
      assert p == to;
      assert q == [] && c + q == c;
    }
  }

  lemma CopiedBelow(t: Tree, c: Path, to: Path)
    requires WellFormed(t) && IsDir(t, c) && Empty(t, to) && !(c <= to)
    ensures FilesBelow(CopyTree(t, c, to), to) == FilesBelow(t, c)
  {
    var w := CopyTree(t, c, to);
    forall k ensures FileAt(w, to, k) == FileAt(t, c, k) {
      CopiedPath(t, c, to, Split(k, '/'));
    }
    FileMapUnique(w, to, FilesBelow(t, c));
  }

  lemma CopiedWritable(t: Tree, c: Path, to: Path, parts: Path)
    requires WellFormed(t) && IsDir(t, c) && Empty(t, to) && !(c <= to) && parts != []
    ensures Writable(CopyTree(t, c, to), to, parts) <==> Writable(t, c, parts)
  {
    var w := CopyTree(t, c, to);
    CopiedPath(t, c, to, parts);
    forall q ensures IsFile(w, to + q) <==> IsFile(t, c + q) {
      CopiedPath(t, c, to, q);
    }
    SameOnTheWay(w, to, t, c, Parent(parts));
    SameOnTheWay(t, c, w, to, Parent(parts));
  }

  lemma SameOnTheWay(t: Tree, a: Path, w: Tree, b: Path, front: Path)
    requires forall q :: IsFile(t, a + q) <==> IsFile(w, b + q)
    ensures FileOnTheWay(t, a, front) ==> FileOnTheWay(w, b, front)
  {
    if p :| OnTheWay(p, a, front) && IsFile(t, p) {
      var q := p[|a|..];
      assert p == a + q;
      assert q == (a + front)[..|p|][|a|..];
      assert q <= front;
      assert OnTheWay(b + q, b, front) && IsFile(w, b + q);
    }
  }

  lemma CopiedWellFormed(t: Tree, c: Path, to: Path)
    requires WellFormed(t) && IsDir(t, c) && Empty(t, to) && !(c <= to)
    ensures WellFormed(CopyTree(t, c, to)) && IsDir(CopyTree(t, c, to), to)
  {
    var w := CopyTree(t, c, to);
    CopiedPath(t, c, to, []);
    assert c + [] == c && to + [] == to;
    forall p | p in w ensures FilePath(p) && (p != [] ==> IsDir(w, Parent(p))) {
      if to < p {
        CopiedDescendant(t, c, to, p);
      } else {
        KeptPath(t, c, to, p);
      }
    }
  }

  lemma BelowCatalog(t: Tree, c: Path, q: Path)
    requires WellFormed(t) && c + q in t && q != []
    ensures FilePath(q) && IsDir(t, c + Parent(q))
  {
    assert Parent(c + q) == c + Parent(q);
    assert forall i :: 0 <= i < |q| ==> q[i] == (c + q)[|c| + i];
  }

  lemma NamesBelow(to: Path, q: Path)
    requires FilePath(to) && FilePath(q)
    ensures FilePath(to + q)
    ensures q != [] ==> Parent(to + q) == to + Parent(q)
  {
  }

  lemma CopiedDescendant(t: Tree, c: Path, to: Path, p: Path)
    requires WellFormed(t) && IsDir(t, c) && Empty(t, to) && !(c <= to)
    requires to < p && p in CopyTree(t, c, to)
    ensures FilePath(p) && IsDir(CopyTree(t, c, to), Parent(p))
  {
    assert FilePath(to);
    hide WellFormed, CopyTree, FilePath, Empty, Parent;
    var q := p[|to|..];
    assert p == to + q;
    CopiedPath(t, c, to, q);
    BelowCatalog(t, c, q);
    CopiedPath(t, c, to, Parent(q));
    NamesBelow(to, q);
  }

  lemma KeptPath(t: Tree, c: Path, to: Path, p: Path)
    requires WellFormed(t) && IsDir(t, c) && Empty(t, to) && !(c <= to)
    requires !(to < p) && p in CopyTree(t, c, to)
    ensures FilePath(p) && (p != [] ==> IsDir(CopyTree(t, c, to), Parent(p)))
  {
    if p in Copied(t, c, to) {
      assert p == to;
    }
    assert p in t;
    assert p != [] && to <= Parent(p) ==> to < p;
  }

  ghost predicate Holds(m: Files, files: Files) {
    forall k :: k in files ==> k in m && m[k] == files[k]
  }

  lemma VerifyOnePasses(sha: Sha256, t: Tree, skills: Path, d: Download)
    requires WellFormed(t) && Answered(d)
    requires d.rel in FilesBelow(t, skills) && FilesBelow(t, skills)[d.rel] == d.reply.value
    ensures VerifyOne(sha, t, skills, d) == None
  {
    CanonicalParts(d.rel);
    LookupExact(t, skills, Split(d.rel, '/'));
    assert FileAt(t, skills, d.rel) == Some(d.reply.value);
  }

  lemma {:induction false} VerifyEachPasses(sha: Sha256, t: Tree, skills: Path, downloads: seq<Download>, files: Files)
    requires WellFormed(t) && AllAnswered(downloads) && Among(downloads, files) && Holds(FilesBelow(t, skills), files)
    ensures VerifyEach(sha, t, skills, downloads) == None
  {
    if downloads != [] {
      VerifyOnePasses(sha, t, skills, downloads[0]);
      VerifyEachPasses(sha, t, skills, downloads[1..], files);
    }
  }

  /** The catalog is a directory that does not contain the new session. */
  ghost predicate CatalogApart(t: Tree, c: Path, skills: Path) {
    IsDir(t, c) && !(c <= skills)
  }

  lemma CatalogFilled(sha: Sha256, t: Tree, skills: Path, c: Path, digest: string, downloads: seq<Download>,
                      again: seq<Download>, files: Files)
    requires Empty(t, skills) && CatalogApart(t, c, skills) && Honest(downloads, files) && Honest(again, files)
    requires forall k :: k in files ==> Canonical(k)
    ensures var o := Fill(sha, t, skills, Some(c), digest, downloads, again);
            && (o.problem == None <==> Fits(t, c, files.Keys))
            && (o.problem == None ==> FilesBelow(o.tree, skills) == FilesBelow(t, c) + files)
  {
    hide PrefixFree, LayDown, WellFormed, Writable, CopyTree, FilesBelow;
    var based := CopyTree(t, c, skills);
    CanonicalAnswers(downloads, files);
    CanonicalAnswers(again, files);
    HonestReceived(downloads, files);
    CopiedWellFormed(t, c, skills);
    CopiedBelow(t, c, skills);
    forall k ensures Writable(based, skills, Split(k, '/')) <==> Writable(t, c, Split(k, '/')) {
      CopiedWritable(t, c, skills, Split(k, '/'));
    }
    LayDownExact(based, skills, downloads);
    if LayDown(based, skills, downloads).problem == None {
      LayDownUpdates(based, skills, downloads);
      LayDownWellFormed(based, skills, downloads);
      VerifyEachPasses(sha, LayDown(based, skills, downloads).tree, skills, again, files);
    }
  }

  /** The session directory adds nothing to a catalog that lies apart from it. */
  lemma CatalogUntouched(t: Tree, made: Tree, root: Path, w: string, session: string, c: Path)
    requires WellFormed(t) && Grown(t, made, SessionDir(root, w, session))
    requires CatalogApart(t, c, SkillsDir(root, w, session)) && SessionDir(root, w, session) !in t
    ensures CatalogApart(made, c, SkillsDir(root, w, session))
    ensures FilesBelow(made, c) == FilesBelow(t, c)
    ensures forall parts: Path :: parts != [] ==> (Writable(made, c, parts) <==> Writable(t, c, parts))
  {
    var base := SessionDir(root, w, session);
    forall k ensures FileAt(made, c, k) == FileAt(t, c, k) {
    }
    FileMapUnique(made, c, FilesBelow(t, c));
    forall parts: Path | parts != [] ensures Writable(made, c, parts) <==> Writable(t, c, parts) {
      if IsDir(made, c + parts) && c + parts !in t {
        AboveSession(base, c, parts);
      }
    }
  }

  lemma AboveSession(base: Path, c: Path, parts: Path)
    requires Around(c + parts, base) && parts != []
    ensures c <= base + ["skills"]
  {
    assert c == (c + parts)[..|c|];
    if c + parts <= base {
      assert c <= base;
    } else {
      assert base == (c + parts)[..|base|];
      assert c <= base;
    }
  }

  /** With a catalog, the session holds the catalog overridden by the revision, and it starts
      exactly when each file of the revision can be written over the catalog. */
  lemma CatalogIsOverridden(sha: Sha256, t: Tree, root: Path, c: Path, w: string, session: string, digest: string,
                            downloads: seq<Download>, again: seq<Download>, files: Files)
    requires Fresh(t, root, w, session) && CatalogApart(t, c, SkillsDir(root, w, session))
    requires Honest(downloads, files) && Honest(again, files) && forall k :: k in files ==> Canonical(k)
    ensures var o := Materialized(sha, t, root, Some(c), w, session, digest, downloads, again);
            && (o.problem == None <==> Fits(t, c, files.Keys))
            && (o.problem == None ==> FilesBelow(o.tree, SkillsDir(root, w, session)) == FilesBelow(t, c) + files)
  {
    hide Fill, PrefixFree, Writable, MakeAll;
    SessionMade(t, root, w, session);
    var made, skills := MakeAll(t, SessionDir(root, w, session), SUBDIRS).value, SkillsDir(root, w, session);
    CatalogUntouched(t, made, root, w, session, c);
    CatalogFilled(sha, made, skills, c, digest, downloads, again, files);
  }

  // ---------------------------------------------------------------------------
  // What a catalog switches off
  // ---------------------------------------------------------------------------

  /** Over `base`, the two maps look alike: where only one of them has a path, `base` has its content. */
  ghost predicate AlikeOver(base: Files, x: Files, y: Files) {
    && (forall k :: k in x && k in y ==> x[k] == y[k])
    && (forall k :: k in x && k !in y ==> k in base && base[k] == x[k])
    && (forall k :: k in y && k !in x ==> k in base && base[k] == y[k])
  }

  lemma AlikeIffSame(base: Files, x: Files, y: Files)
    ensures base + x == base + y <==> AlikeOver(base, x, y)
    ensures base.Keys !! x.Keys + y.Keys ==> (AlikeOver(base, x, y) <==> x == y)
  {
    if base + x == base + y {
      forall k | k in x || k in y ensures k in base + x && (base + x)[k] == (base + y)[k] {
      }
    }
    if AlikeOver(base, x, y) && base.Keys !! x.Keys + y.Keys {
      assert forall k :: k in x <==> k in y;
    }
  }

  /** With a catalog the digest of the generation plays no part: whatever files the store holds under it,
      the session starts exactly when they can be written over the catalog, and it has the approved
      files over the catalog exactly when the store holds those, or the catalog makes up for them. */
  lemma CatalogSessionsRunWhatIsStored(sha: Sha256, t: Tree, root: Path, c: Path, w: string, session: string,
                                       downloads: seq<Download>, again: seq<Download>, stored: Files, approved: Files)
    requires Fresh(t, root, w, session) && CatalogApart(t, c, SkillsDir(root, w, session))
    requires Honest(downloads, stored) && Honest(again, stored) && forall k :: k in stored ==> Canonical(k)
    ensures var o := Materialized(sha, t, root, Some(c), w, session, Digest(sha, approved), downloads, again);
            var base, files := FilesBelow(t, c), FilesBelow(o.tree, SkillsDir(root, w, session));
            && (o.problem == None <==> Fits(t, c, stored.Keys))
            && (o.problem == None ==> (files == base + approved <==> AlikeOver(base, stored, approved)))
            && (o.problem == None && base.Keys !! stored.Keys + approved.Keys ==>
                  (files == base + approved <==> stored == approved))
  {
    hide Materialized, Fits, FilesBelow, AlikeOver, Honest, Canonical, Fresh, CatalogApart, Digest;
    CatalogIsOverridden(sha, t, root, c, w, session, Digest(sha, approved), downloads, again, stored);
    AlikeIffSame(FilesBelow(t, c), stored, approved);
  }

  /** A disk with the directory `c` and nothing else. */
  function Bare(c: string): Tree {
    map[[] := Dir, [c] := Dir]
  }

  function OneFile(name: string, data: Bytes): Files {
    map[name := data]
  }

  function Fetching(name: string, data: Bytes): seq<Download> {
    [Download(name, Ok(data))]
  }

  lemma OneFileIsPlain(name: string, data: Bytes)
    requires FileName(name)
    ensures Canonical(name) && AllSeparatorFree(OneFile(name, data)) && PrefixFree(OneFile(name, data).Keys)
  {
    SplitNoSep(name, '/');
    WithoutNulOrLineFeed(name);
    hide SeparatorFree;
  }

  lemma FetchingIsHonest(name: string, data: Bytes)
    ensures Honest(Fetching(name, data), OneFile(name, data))
  {
    assert Rels(Fetching(name, data)[1..]) == {};
    assert Rels(Fetching(name, data)) == {name};
  }

  lemma BareIsFresh(c: string, top: string, w: string, session: string)
    requires FileName(c) && FileName(top) && FileName(w) && FileName(session) && c != top
    ensures Fresh(Bare(c), [top], w, session) && CatalogApart(Bare(c), [c], SkillsDir([top], w, session))
    ensures Empty(Bare(c), [c])
  {
    assert FilePath([c]) && Parent([c]) == [];
    assert [top] + [w, session] == [top, w, session];
    assert SkillsDir([top], w, session)[0] == top && [c][0] == c;
  }

  lemma FreshIsEmpty(t: Tree, root: Path, w: string, session: string)
    requires Fresh(t, root, w, session)
    ensures MakeAll(t, SessionDir(root, w, session), SUBDIRS).Ok?
    ensures Empty(MakeAll(t, SessionDir(root, w, session), SUBDIRS).value, SkillsDir(root, w, session))
  {
    hide MakeAll, Fresh, WellFormed;
    SessionMade(t, root, w, session);
  }

  /** The answers lay down `stored`; then the digest decides. */
  lemma DigestDecides(sha: Sha256, t: Tree, skills: Path, digest: string, downloads: seq<Download>,
                      again: seq<Download>, stored: Files)
    requires Empty(t, skills) && Honest(downloads, stored) && AllSafe(stored) && PrefixFree(stored.Keys)
    ensures Fill(sha, t, skills, None, digest, downloads, again).problem
            == if Digest(sha, stored) == digest then None else Some(Error.Integrity)
  {
    hide LayDown, WellFormed, Honest, Canonical, SafePath, Received, Fits, Digest, FilesBelow;
    CanonicalAnswers(downloads, stored);
    HonestReceived(downloads, stored);
    EmptyFits(t, skills, stored.Keys);
    LayDownExact(t, skills, downloads);
    LayDownUpdates(t, skills, downloads);
    assert map[] + stored == stored;
  }

  /** Without a catalog a start on tampered bytes is refused, unless SHA-256 collides on them. */
  lemma TamperedStartIsRefused(sha: Sha256, c: string, top: string, w: string, session: string, name: string,
                               x: Bytes, y: Bytes)
    requires FileName(c) && FileName(top) && FileName(w) && FileName(session) && c != top
    requires FileName(name) && SafePath(name) && x != y && !Collide(sha, OneFile(name, y), OneFile(name, x))
    ensures Materialized(sha, Bare(c), [top], None, w, session, Digest(sha, OneFile(name, x)),
                         Fetching(name, y), Fetching(name, y)).problem == Some(Error.Integrity)
  {
    hide LayDown, Digest, Collide, AllSeparatorFree, SafePath, Canonical, PrefixFree, Honest, Fresh, MakeAll, Fill,
      FileName, Empty, CatalogApart, Bare;
    BareIsFresh(c, top, w, session);
    OneFileIsPlain(name, x);
    OneFileIsPlain(name, y);
    FetchingIsHonest(name, y);
    FreshIsEmpty(Bare(c), [top], w, session);
    var made := MakeAll(Bare(c), SessionDir([top], w, session), SUBDIRS).value;
    DigestDecides(sha, made, SkillsDir([top], w, session), Digest(sha, OneFile(name, x)), Fetching(name, y),
                  Fetching(name, y), OneFile(name, y));
    assert OneFile(name, y)[name] != OneFile(name, x)[name];
    if Digest(sha, OneFile(name, y)) == Digest(sha, OneFile(name, x)) {
      DigestInjective(sha, OneFile(name, y), OneFile(name, x));
    }
  }

  /** With a catalog, even an empty one, the same start goes through and runs the tampered bytes. */
  lemma TamperedStartOverCatalog(sha: Sha256, c: string, top: string, w: string, session: string, name: string,
                                 x: Bytes, y: Bytes)
    requires FileName(c) && FileName(top) && FileName(w) && FileName(session) && c != top
    requires FileName(name) && x != y
    ensures var o := Materialized(sha, Bare(c), [top], Some([c]), w, session, Digest(sha, OneFile(name, x)),
                                  Fetching(name, y), Fetching(name, y));
            && o.problem == None
            && FilesBelow(o.tree, SkillsDir([top], w, session)) == OneFile(name, y) != OneFile(name, x)
  {
    hide Materialized, Digest, AllSeparatorFree, Canonical, PrefixFree, Honest, Fresh, CatalogApart, Fits, Empty,
      FileName, Bare;
    BareIsFresh(c, top, w, session);
    OneFileIsPlain(name, y);
    FetchingIsHonest(name, y);
    EmptyFits(Bare(c), [c], OneFile(name, y).Keys);
    CatalogIsOverridden(sha, Bare(c), [top], [c], w, session, Digest(sha, OneFile(name, x)), Fetching(name, y),
                        Fetching(name, y), OneFile(name, y));
    assert map[] + OneFile(name, y) == OneFile(name, y);
    assert OneFile(name, y)[name] != OneFile(name, x)[name];
  }
}
