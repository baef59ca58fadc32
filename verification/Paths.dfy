/** Component paths: how a key or a relative path resolves, one component at a time. */
module Paths {
  import opened Text

  /** A resolved path from the root: no empty component, no `.`, no `..`, no slash. */
  type Path = seq<string>

  predicate ProperName(c: string) {
    c != "" && c != "." && c != ".." && '/' !in c
  }

  predicate Resolved(p: Path) {
    forall k :: 0 <= k < |p| ==> ProperName(p[k])
  }

  /** One step of resolution; `..` at the root stays at the root. */
  function Step(at: Path, c: string): Path {
    if c == "" || c == "." then at
    else if c == ".." then if at == [] then [] else at[..|at| - 1]
    else at + [c]
  }

  /** Resolution of a component list, starting from `at`. */
  function Walk(at: Path, components: seq<string>): Path
    decreases components
  {
    if components == [] then at else Walk(Step(at, components[0]), components[1..])
  }

  lemma {:induction false} WalkResolved(at: Path, components: seq<string>)
    requires Resolved(at)
    requires forall k :: 0 <= k < |components| ==> '/' !in components[k]
    ensures Resolved(Walk(at, components))
    decreases components
  {
    if components != [] {
      WalkResolved(Step(at, components[0]), components[1..]);
    }
  }

  lemma {:induction false} WalkAppend(at: Path, a: seq<string>, b: seq<string>)
    ensures Walk(at, a + b) == Walk(Walk(at, a), b)
    decreases a
  {
    if a == [] {
      assert a + b == b;
    } else {
      assert (a + b)[1..] == a[1..] + b;
      WalkAppend(Step(at, a[0]), a[1..], b);
    }
  }

  /** Walking over proper names enters them one by one. */
  lemma {:induction false} WalkProper(at: Path, p: Path)
    requires Resolved(p)
    ensures Walk(at, p) == at + p
    decreases p
  {
    if p != [] {
      WalkProper(at + [p[0]], p[1..]);
      assert at + [p[0]] + p[1..] == at + p;
    } else {
      assert at + p == at;
    }
  }

  /** Without `..`, resolution never leaves the directory it starts from. */
  lemma {:induction false} WalkStaysBelow(at: Path, components: seq<string>)
    requires ".." !in components
    ensures at <= Walk(at, components)
    decreases components
  {
    if components != [] {
      assert components[0] in components;
      WalkStaysBelow(Step(at, components[0]), components[1..]);
    }
  }

  /** Joining a resolved path and splitting it again changes nothing. */
  lemma JoinedPathSplits(p: Path)
    requires Resolved(p) && p != []
    ensures Split(Join(p, '/'), '/') == p
  {
    SplitJoin(p, '/');
  }

  lemma JoinedPathsDiffer(p: Path, q: Path)
    requires Resolved(p) && Resolved(q) && Join(p, '/') == Join(q, '/')
    ensures p == q
  {
    if p != [] && q != [] {
      JoinedPathSplits(p);
      JoinedPathSplits(q);
    } else if p != [] {
      JoinedPathNonempty(p);
    } else if q != [] {
      JoinedPathNonempty(q);
    }
  }

  lemma JoinedPathNonempty(p: Path)
    requires Resolved(p) && p != []
    ensures Join(p, '/') != "" && Join(p, '/')[0] != '/'
  {
    assert ProperName(p[0]);
    assert p[0][0] in p[0];
  }

  /** A directory prefix of paths is a string prefix of joined paths, up to the slash. */
  lemma JoinedPrefix(d: Path, p: Path)
    requires Resolved(d) && Resolved(p) && d != []
    ensures Join(d, '/') + "/" <= Join(p, '/') <==> d < p
  {
    var s, t := Join(d, '/') + "/", Join(p, '/');
    if d < p {
      var rest := p[|d|..];
      assert p == d + rest;
      JoinAppend(d, rest, '/');
    }
    if s <= t {
      var rest := t[|s|..];
      assert t == Join(d, '/') + ['/'] + rest;
      SplitAppend(Join(d, '/'), rest, '/');
      JoinedPathSplits(d);
      assert p != [];
      JoinedPathSplits(p);
      assert d < p;
    }
  }

  // ---------------------------------------------------------------------------
  // Order of paths
  // ---------------------------------------------------------------------------

  /** Comparison of `pathlib` paths: component by component. */
  predicate PathLess(a: Path, b: Path) {
    if b == [] then false
    else if a == [] then true
    else Less(a[0], b[0]) || (a[0] == b[0] && PathLess(a[1..], b[1..]))
  }

  lemma {:induction false} PathLessLaws(a: Path, b: Path, c: Path)
    ensures !PathLess(a, a)
    ensures a == b || PathLess(a, b) || PathLess(b, a)
    ensures !(PathLess(a, b) && PathLess(b, a))
    ensures PathLess(a, b) && PathLess(b, c) ==> PathLess(a, c)
    decreases |a| + |b| + |c|
  {
    if a != [] {
      LessIrreflexive(a[0]);
      PathLessLaws(a[1..], if b == [] then [] else b[1..], if c == [] then [] else c[1..]);
    }
    if a != [] && b != [] {
      LessTrichotomy(a[0], b[0]);
      LessIrreflexive(b[0]);
      if Less(a[0], b[0]) && Less(b[0], a[0]) {
        LessTransitive(a[0], b[0], a[0]);
      }
      assert a == [a[0]] + a[1..] && b == [b[0]] + b[1..];
      if c != [] && Less(a[0], b[0]) && Less(b[0], c[0]) {
        LessTransitive(a[0], b[0], c[0]);
      }
    }
  }

  lemma PathLessIsStrictTotalOrder()
    ensures StrictTotalOrder(PathLess)
  {
    forall a: Path, b: Path, c: Path
      ensures !PathLess(a, a) && (a == b || PathLess(a, b) || PathLess(b, a)) && !(PathLess(a, b) && PathLess(b, a))
      ensures PathLess(a, b) && PathLess(b, c) ==> PathLess(a, c)
    {
      PathLessLaws(a, b, c);
    }
  }

  /** An ancestor sorts before its descendants. */
  lemma {:induction false} AncestorSortsFirst(d: Path, p: Path)
    requires d < p
    ensures PathLess(d, p)
  {
    if d != [] {
      AncestorSortsFirst(d[1..], p[1..]);
    }
  }
}
