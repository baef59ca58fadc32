/** Content addressing: the canonical digest of a `{relative path: bytes}` map.

    SHA-256 is a parameter of which only the output format is known. No injectivity is assumed of
    it: results that need collision freedom name the finite set of inputs on which they need it.
 */
module Integrity {
  import opened Text

  type Files = map<string, Bytes>

  predicate IsHex(s: string) {
    forall k :: 0 <= k < |s| ==> '0' <= s[k] <= '9' || 'a' <= s[k] <= 'f'
  }

  predicate IsHex64(s: string) {
    |s| == 64 && IsHex(s)
  }

  function Zeros(n: nat): (z: string)
    ensures |z| == n && IsHex(z)
  {
    seq(n, _ => '0')
  }

  type Sha256 = f: Bytes -> string | forall b: Bytes :: IsHex64(f(b)) witness (b: Bytes) => Zeros(64)

  // ---------------------------------------------------------------------------
  // UTF-8
  // ---------------------------------------------------------------------------

  function EncodeChar(c: char): (bytes: Bytes)
    ensures 1 <= |bytes| <= 4
  {
    var n := c as int;
    var q1, q2, q3 := n / 64, n / 64 / 64, n / 64 / 64 / 64;
    if n < 0x80 then [n as byte]
    else if n < 0x800 then [(0xC0 + q1) as byte, Trailing(n)]
    else if n < 0x1_0000 then [(0xE0 + q2) as byte, Trailing(q1), Trailing(n)]
    else [(0xF0 + q3) as byte, Trailing(q2), Trailing(q1), Trailing(n)]
  }

  /** A continuation byte carries six bits. */
  function Trailing(q: nat): byte {
    (0x80 + q % 64) as byte
  }

  /** `s.encode()`. */
  function Utf8(s: string): Bytes {
    if s == "" then [] else EncodeChar(s[0]) + Utf8(s[1..])
  }

  /** The first byte tells how many bytes a character takes. */
  lemma EncodedLength(c: char)
    ensures var first := EncodeChar(c)[0] as int;
            |EncodeChar(c)| == if first < 0x80 then 1 else if first < 0xE0 then 2 else if first < 0xF0 then 3 else 4
  {
  }

  function Payload(b: byte): int {
    b as int - 0x80
  }

  /** The code point that an encoded character stands for. */
  function DecodeChar(bytes: Bytes): int
    requires 1 <= |bytes| <= 4
  {
    if |bytes| == 1 then bytes[0] as int
    else if |bytes| == 2 then (bytes[0] as int - 0xC0) * 64 + Payload(bytes[1])
    else if |bytes| == 3 then ((bytes[0] as int - 0xE0) * 64 + Payload(bytes[1])) * 64 + Payload(bytes[2])
    else (((bytes[0] as int - 0xF0) * 64 + Payload(bytes[1])) * 64 + Payload(bytes[2])) * 64 + Payload(bytes[3])
  }

  lemma DecodeEncodedChar(c: char)
    ensures DecodeChar(EncodeChar(c)) == c as int
  {
  }

  lemma EncodeCharInjective(c: char, d: char, x: Bytes, y: Bytes)
    requires EncodeChar(c) + x == EncodeChar(d) + y
    ensures c == d && x == y
  {
    var ec, ed := EncodeChar(c), EncodeChar(d);
    assert (ec + x)[0] == ec[0] && (ed + y)[0] == ed[0];
    EncodedLength(c);
    EncodedLength(d);
    PrefixUnique(ec, x, ed, y);
    DecodeEncodedChar(c);
    DecodeEncodedChar(d);
  }

  lemma PrefixUnique(p: Bytes, x: Bytes, q: Bytes, y: Bytes)
    requires p + x == q + y && |p| == |q|
    ensures p == q && x == y
  {
    assert p == (p + x)[..|p|] && q == (q + y)[..|q|];
    assert x == (p + x)[|p|..] && y == (q + y)[|q|..];
  }

  lemma {:induction false} Utf8Injective(s: string, t: string)
    requires Utf8(s) == Utf8(t)
    ensures s == t
  {
    if s != "" && t != "" {
      EncodeCharInjective(s[0], t[0], Utf8(s[1..]), Utf8(t[1..]));
      Utf8Injective(s[1..], t[1..]);
      assert s == [s[0]] + s[1..] && t == [t[0]] + t[1..];
    }
  }

  // ---------------------------------------------------------------------------
  // The digest
  // ---------------------------------------------------------------------------

  /** The structural check on bundle paths, used when a draft is validated and when it is hashed. */
  predicate SafePath(path: string) {
    && path != ""
    && path[0] != '/'
    && '\\' !in path
    && NoDots(Split(path, '/'))
  }

  predicate NoDots(segments: seq<string>) {
    "." !in segments && ".." !in segments
  }

  predicate AllSafe(files: Files) {
    forall p :: p in files ==> SafePath(p)
  }

  function Line(path: string, hash: string): string {
    path + "\0" + hash
  }

  function Content(files: Files, path: string): Bytes {
    if path in files then files[path] else []
  }

  function FileLine(sha: Sha256, files: Files, path: string): string {
    Line(path, sha(Content(files, path)))
  }

  function Lines(sha: Sha256, files: Files, paths: seq<string>): (lines: seq<string>)
    ensures |lines| == |paths|
  {
    if paths == [] then [] else [FileLine(sha, files, paths[0])] + Lines(sha, files, paths[1..])
  }

  /** `sorted(files)`: the one ascending listing of the paths. */
  ghost function SortedPaths(files: Files): (paths: seq<string>)
    ensures IsListing(paths, files.Keys, Less)
  {
    LessIsStrictTotalOrder();
    Listing(files.Keys, Less)
  }

  lemma ListedPaths(files: Files, paths: seq<string>)
    requires IsListing(paths, files.Keys, Less)
    ensures paths == SortedPaths(files)
  {
    LessIsStrictTotalOrder();
    ListingUnique(paths, SortedPaths(files), files.Keys, Less);
  }

  /** One `path NUL sha256(bytes)` line per file in path order, joined by line feeds. */
  ghost function Blob(sha: Sha256, files: Files): string {
    Join(Lines(sha, files, SortedPaths(files)), '\n')
  }

  ghost function Digest(sha: Sha256, files: Files): (digest: string)
    ensures IsHex64(digest)
  {
    sha(Utf8(Blob(sha, files)))
  }

  method ListPaths(files: Files) returns (paths: seq<string>)
    ensures paths == SortedPaths(files)
  {
    LessIsStrictTotalOrder();
    paths := Sort(files.Keys, Less);
  }

  ghost predicate PathsSafe(paths: seq<string>) {
    forall k :: 0 <= k < |paths| ==> SafePath(paths[k])
  }

  method CollectLines(sha: Sha256, files: Files, paths: seq<string>) returns (ok: bool, lines: seq<string>)
    ensures ok == PathsSafe(paths)
    ensures ok ==> lines == Lines(sha, files, paths)
  {
    ok, lines := true, [];
    for i := 0 to |paths|
      invariant ok && forall k :: 0 <= k < i ==> SafePath(paths[k])
      invariant Lines(sha, files, paths) == lines + Lines(sha, files, paths[i..])
    {
      if !SafePath(paths[i]) {
        return false, lines;
      }
      assert paths[i..] == [paths[i]] + paths[i + 1..];
      ConcatAssoc(lines, [FileLine(sha, files, paths[i])], Lines(sha, files, paths[i + 1..]));
      lines := lines + [FileLine(sha, files, paths[i])];
    }
  }

  lemma ListedPathsSafe(files: Files)
    ensures PathsSafe(SortedPaths(files)) <==> AllSafe(files)
  {
    var paths := SortedPaths(files);
    forall p | PathsSafe(paths) && p in files ensures SafePath(p) {
      assert p in paths;
    }
    forall k | AllSafe(files) && 0 <= k < |paths| ensures SafePath(paths[k]) {
      assert paths[k] in paths;
    }
  }

  /** `digest_files`: a bundle with an unsafe path has no digest. */
  method DigestFiles(sha: Sha256, files: Files) returns (r: Result<string>)
    ensures AllSafe(files) ==> r == Ok(Digest(sha, files))
    ensures !AllSafe(files) ==> r == Err(BadValue)
  {
    var paths := ListPaths(files);
    var ok, lines := CollectLines(sha, files, paths);
    ListedPathsSafe(files);
    if !ok {
      return Err(BadValue);
    }
    return Ok(sha(Utf8(Join(lines, '\n'))));
  }

  // ---------------------------------------------------------------------------
  // Injectivity
  // ---------------------------------------------------------------------------

  /** The path contains what ends a line of the encoding: NUL, 64 hex digits, LF. */
  ghost predicate Separated(path: string, a: string, h: string, b: string) {
    path == a + "\0" + h + "\n" + b && IsHex64(h)
  }

  ghost predicate SeparatorFree(path: string) {
    forall a, h, b :: !Separated(path, a, h, b)
  }

  ghost predicate AllSeparatorFree(files: Files) {
    forall p :: p in files ==> SeparatorFree(p)
  }

  lemma WithoutNulOrLineFeed(path: string)
    requires '\0' !in path || '\n' !in path
    ensures SeparatorFree(path)
  {
    forall a, h, b ensures !Separated(path, a, h, b) {
      var w := a + "\0" + h + "\n" + b;
      assert w[|a|] == '\0' && w[|a| + 1 + |h|] == '\n';
    }
  }

  lemma DropPrefix(p: string, x: string, y: string)
    requires p + x == p + y
    ensures x == y
  {
    assert x == (p + x)[|p|..] && y == (p + y)[|p|..];
  }

  lemma SplitAt(p: string, x: string, q: string, y: string) returns (m: string)
    requires p + x == q + y && |p| <= |q|
    ensures q == p + m && x == m + y
  {
    m := q[|p|..];
    assert q == (q + y)[..|q|];
    assert p == (p + x)[..|p|];
    assert q == p + m;
    ConcatAssoc(p, m, y);
    DropPrefix(p, x, m + y);
  }

  ghost predicate LineEnd(rest: string) {
    rest == "" || rest[0] == '\n'
  }

  /** Where one line ends and another reaches further, the longer path contains a separator. */
  lemma LongerPathIsSeparated(p: string, h: string, rest: string, p': string, h': string, rest': string)
    requires IsHex64(h) && IsHex64(h') && LineEnd(rest)
    requires Line(p, h) + rest == Line(p', h') + rest'
    requires |p| < |p'|
    ensures !SeparatorFree(p')
  {
    ConcatAssoc(p, "\0", h + rest);
    ConcatAssoc(p', "\0", h' + rest');
    assert Line(p, h) + rest == p + ("\0" + h + rest);
    assert Line(p', h') + rest' == p' + ("\0" + h' + rest');
    var q := SplitAt(p, "\0" + h + rest, p', "\0" + h' + rest');
    var t := "\0" + h' + rest';
    assert ("\0" + h + rest)[0] == q[0];
    var q1 := q[1..];
    assert q == "\0" + q1;
    assert "\0" + h + rest == "\0" + (h + rest) && q + t == "\0" + (q1 + t);
    DropPrefix("\0", h + rest, q1 + t);
    assert (q1 + t)[|q1|] == '\0';
    assert |q1| >= |h|;
    var q2 := SplitAt(h, rest, q1, t);
    assert rest[0] == (q2 + t)[0];
    assert q2 != "";
    var b := q2[1..];
    assert q2 == "\n" + b;
    assert p' == p + ("\0" + (h + ("\n" + b))) == p + "\0" + h + "\n" + b;
    assert Separated(p', p, h, b);
  }

  lemma LineUnique(p: string, h: string, rest: string, p': string, h': string, rest': string)
    requires IsHex64(h) && IsHex64(h') && LineEnd(rest) && LineEnd(rest')
    requires SeparatorFree(p) && SeparatorFree(p')
    requires Line(p, h) + rest == Line(p', h') + rest'
    ensures p == p' && h == h' && rest == rest'
  {
    if |p| < |p'| {
      LongerPathIsSeparated(p, h, rest, p', h', rest');
    } else if |p'| < |p| {
      LongerPathIsSeparated(p', h', rest', p, h, rest);
    } else {
      var w := Line(p, h) + rest;
      assert p == w[..|p|] == p';
      assert h == w[|p| + 1..|p| + 65] == h';
      assert rest == w[|p| + 65..] == rest';
    }
  }

  /** What follows the first line. */
  function AfterFirst(lines: seq<string>): string {
    if |lines| <= 1 then "" else "\n" + Join(lines[1..], '\n')
  }

  lemma JoinFirst(lines: seq<string>)
    requires lines != []
    ensures Join(lines, '\n') == lines[0] + AfterFirst(lines)
  {
    if |lines| > 1 {
      ConcatAssoc(lines[0], "\n", Join(lines[1..], '\n'));
    }
  }

  lemma AfterFirstInjective(xs: seq<string>, ys: seq<string>)
    requires xs != [] && ys != [] && AfterFirst(xs) == AfterFirst(ys)
    ensures Join(xs[1..], '\n') == Join(ys[1..], '\n')
  {
    if |xs| > 1 && |ys| > 1 {
      DropPrefix("\n", Join(xs[1..], '\n'), Join(ys[1..], '\n'));
    }
  }

  lemma LinesAreLong(sha: Sha256, files: Files, paths: seq<string>)
    requires paths != []
    ensures Join(Lines(sha, files, paths), '\n') != ""
  {
    JoinFirst(Lines(sha, files, paths));
  }

  /** Equal blobs are blobs of the same paths with the same hashes. */
  lemma {:induction false} LinesInjective(sha: Sha256, f: Files, ps: seq<string>, g: Files, qs: seq<string>)
    requires forall p :: p in ps ==> SeparatorFree(p)
    requires forall q :: q in qs ==> SeparatorFree(q)
    requires Join(Lines(sha, f, ps), '\n') == Join(Lines(sha, g, qs), '\n')
    ensures ps == qs
    ensures forall p :: p in ps ==> sha(Content(f, p)) == sha(Content(g, p))
  {
    if ps == [] {
      if qs != [] {
        LinesAreLong(sha, g, qs);
      }
    } else if qs == [] {
      LinesAreLong(sha, f, ps);
    } else {
      assert ps[0] in ps && qs[0] in qs;
      var xs, ys := Lines(sha, f, ps), Lines(sha, g, qs);
      JoinFirst(xs);
      JoinFirst(ys);
      LineUnique(ps[0], sha(Content(f, ps[0])), AfterFirst(xs), qs[0], sha(Content(g, qs[0])), AfterFirst(ys));
      assert xs[1..] == Lines(sha, f, ps[1..]) && ys[1..] == Lines(sha, g, qs[1..]);
      AfterFirstInjective(xs, ys);
      LinesInjective(sha, f, ps[1..], g, qs[1..]);
      assert ps == [ps[0]] + ps[1..] && qs == [qs[0]] + qs[1..];
    }
  }

  /** The byte strings that are hashed when the digest of `files` is computed. */
  ghost function Hashed(sha: Sha256, files: Files): set<Bytes> {
    (set p | p in files :: files[p]) + {Utf8(Blob(sha, files))}
  }

  /** The two digest computations exhibit two different inputs with one hash. */
  ghost predicate Collide(sha: Sha256, f: Files, g: Files) {
    var all := Hashed(sha, f) + Hashed(sha, g);
    exists x, y :: x in all && y in all && x != y && sha(x) == sha(y)
  }

  /** Equal digests mean equal file maps, unless SHA-256 collides on their very contents. */
  lemma DigestInjective(sha: Sha256, f: Files, g: Files)
    requires AllSeparatorFree(f) && AllSeparatorFree(g)
    requires Digest(sha, f) == Digest(sha, g) && !Collide(sha, f, g)
    ensures f == g
  {
    var all := Hashed(sha, f) + Hashed(sha, g);
    assert Utf8(Blob(sha, f)) in all && Utf8(Blob(sha, g)) in all;
    Utf8Injective(Blob(sha, f), Blob(sha, g));
    LinesInjective(sha, f, SortedPaths(f), g, SortedPaths(g));
    assert f.Keys == g.Keys by {
      assert forall p :: p in f <==> p in SortedPaths(f);
      assert forall p :: p in g <==> p in SortedPaths(g);
    }
    forall p | p in f ensures f[p] == g[p] {
      assert p in SortedPaths(f);
      assert f[p] in Hashed(sha, f) && g[p] in Hashed(sha, g);
      assert f[p] in all && g[p] in all;
    }
  }

  /** Against a separator-free map, a map with the same digest is the same map exactly when it is
      separator-free as well. */
  lemma SameDigestSameFiles(sha: Sha256, f: Files, g: Files)
    requires AllSeparatorFree(f) && Digest(sha, f) == Digest(sha, g) && !Collide(sha, f, g)
    ensures f == g <==> AllSeparatorFree(g)
  {
    if AllSeparatorFree(g) {
      DigestInjective(sha, f, g);
    }
  }

  // ---------------------------------------------------------------------------
  // What the structural path check leaves open
  // ---------------------------------------------------------------------------

  /** The path that spells the end of one line and the start of the next. */
  function MergedPath(sha: Sha256, f: Files, a: string, b: string): string
    requires a in f
  {
    Line(a, sha(f[a])) + "\n" + b
  }

  /** `f` with two neighbouring files replaced by one whose path spells both lines. */
  function Merged(sha: Sha256, f: Files, a: string, b: string): Files
    requires a in f && b in f
  {
    (f - {a, b})[MergedPath(sha, f, a, b) := f[b]]
  }

  lemma {:induction false} NulSortsFirst(a: string, t: string, c: string)
    requires Less(a, c) && '\0' !in c
    ensures Less(a + "\0" + t, c)
  {
    var w := a + "\0" + t;
    assert c[0] in c;
    if a != "" && a[0] == c[0] {
      assert w[1..] == a[1..] + "\0" + t;
      NulSortsFirst(a[1..], t, c[1..]);
    }
  }

  lemma {:induction false} JoinMerge(xs: seq<string>, u: string, v: string, ys: seq<string>)
    ensures Join(xs + [u, v] + ys, '\n') == Join(xs + [u + "\n" + v] + ys, '\n')
  {
    var l, r := xs + [u, v] + ys, xs + [u + "\n" + v] + ys;
    if xs == [] {
      assert l[1..] == [v] + ys && ([v] + ys)[1..] == ys && r[1..] == ys;
      if ys == [] {
        assert Join(l, '\n') == u + "\n" + v;
      } else {
        assert Join(l, '\n') == u + "\n" + (v + "\n" + Join(ys, '\n'));
        assert Join(r, '\n') == u + "\n" + v + "\n" + Join(ys, '\n');
      }
    } else {
      assert l[1..] == xs[1..] + [u, v] + ys && r[1..] == xs[1..] + [u + "\n" + v] + ys;
      JoinMerge(xs[1..], u, v, ys);
    }
  }

  lemma {:induction false} LinesConcat(sha: Sha256, f: Files, ps: seq<string>, qs: seq<string>)
    ensures Lines(sha, f, ps + qs) == Lines(sha, f, ps) + Lines(sha, f, qs)
  {
    if ps == [] {
      assert ps + qs == qs;
    } else {
      assert (ps + qs)[1..] == ps[1..] + qs;
      LinesConcat(sha, f, ps[1..], qs);
    }
  }

  lemma {:induction false} LinesAgree(sha: Sha256, f: Files, g: Files, ps: seq<string>)
    requires forall p :: p in ps ==> Content(f, p) == Content(g, p)
    ensures Lines(sha, f, ps) == Lines(sha, g, ps)
  {
    if ps != [] {
      assert ps[0] in ps;
      LinesAgree(sha, f, g, ps[1..]);
    }
  }

  ghost predicate Neighbours(f: Files, a: string, b: string) {
    && a in f && b in f && Less(a, b)
    && forall c :: c in f ==> !(Less(a, c) && Less(c, b))
  }

  lemma NeighbourPositions(f: Files, a: string, b: string) returns (i: nat)
    requires Neighbours(f, a, b)
    ensures i + 1 < |SortedPaths(f)| && SortedPaths(f)[i] == a && SortedPaths(f)[i + 1] == b
  {
    LessIrreflexive(a);
    if Less(b, a) {
      LessTransitive(a, b, a);
    }
    assert a in SortedPaths(f) && b in SortedPaths(f);
    i := AdjacentPositions(SortedPaths(f), Less, a, b);
  }

  lemma AdjacentPositions<T>(ks: seq<T>, less: (T, T) -> bool, a: T, b: T) returns (i: nat)
    requires Ascending(ks, less) && a in ks && b in ks && a != b && !less(b, a)
    requires forall c :: c in ks ==> !(less(a, c) && less(c, b))
    ensures i + 1 < |ks| && ks[i] == a && ks[i + 1] == b
  {
    var j :| 0 <= j < |ks| && ks[j] == a;
    var k :| 0 <= k < |ks| && ks[k] == b;
    assert ks[j + 1] in ks;
    i := j;
  }

  lemma MergedPathOrder(sha: Sha256, f: Files, a: string, b: string)
    requires a in f
    ensures Less(a, MergedPath(sha, f, a, b))
    ensures forall c :: Less(a, c) && '\0' !in c ==> Less(MergedPath(sha, f, a, b), c)
    ensures '\0' in MergedPath(sha, f, a, b)
  {
    var t := sha(f[a]) + "\n" + b;
    var p := a + "\0" + t;
    assert p == MergedPath(sha, f, a, b);
    ConcatAssoc(a, "\0", t);
    PrefixLess(a, "\0" + t);
    assert p[|a|] == '\0';
    forall c | Less(a, c) && '\0' !in c ensures Less(p, c) {
      NulSortsFirst(a, t, c);
    }
  }

  /** The listing of the merged map. */
  lemma MergedListing(sha: Sha256, f: Files, a: string, b: string, i: nat)
    requires Neighbours(f, a, b)
    requires forall p :: p in f ==> '\0' !in p
    requires i + 1 < |SortedPaths(f)| && SortedPaths(f)[i] == a && SortedPaths(f)[i + 1] == b
    ensures var ks := SortedPaths(f);
            SortedPaths(Merged(sha, f, a, b)) == ks[..i] + [MergedPath(sha, f, a, b)] + ks[i + 2..]
  {
    var ks, p, g := SortedPaths(f), MergedPath(sha, f, a, b), Merged(sha, f, a, b);
    MergedPathOrder(sha, f, a, b);
    forall c | c in ks[i + 2..] ensures Less(p, c) {
      var k :| i + 2 <= k < |ks| && ks[k] == c;
      assert c in f && Less(ks[i], ks[k]);
    }
    forall c | c in ks[..i] ensures Less(c, p) {
      var k :| 0 <= k < i && ks[k] == c;
      assert Less(ks[k], ks[i]);
      LessTransitive(c, a, p);
    }
    AscendingInsert(ks, i, p);
    forall q ensures q in ks[..i] + [p] + ks[i + 2..] <==> q in g {
      assert q in ks <==> q in f;
      WithoutTwo(ks, i, q);
    }
    ListedPaths(g, ks[..i] + [p] + ks[i + 2..]);
  }

  /** Cutting two neighbours out of an ascending listing removes just these two. */
  lemma WithoutTwo(ks: seq<string>, i: nat, q: string)
    requires Ascending(ks, Less) && i + 1 < |ks|
    ensures q in ks[..i] || q in ks[i + 2..] <==> q in ks && q != ks[i] && q != ks[i + 1]
  {
    LessIrreflexive(q);
    if q in ks && q != ks[i] && q != ks[i + 1] {
      var k :| 0 <= k < |ks| && ks[k] == q;
      assert k < i ==> ks[..i][k] == q;
      assert k > i + 1 ==> ks[i + 2..][k - i - 2] == q;
    }
  }

  lemma AscendingInsert(ks: seq<string>, i: nat, p: string)
    requires Ascending(ks, Less) && i + 1 < |ks|
    requires forall c :: c in ks[..i] ==> Less(c, p)
    requires forall c :: c in ks[i + 2..] ==> Less(p, c)
    ensures Ascending(ks[..i] + [p] + ks[i + 2..], Less)
  {
    var zs := ks[..i] + [p] + ks[i + 2..];
    forall j, k | 0 <= j < k < |zs| ensures Less(zs[j], zs[k]) {
      if j == i {
        assert zs[k] in ks[i + 2..];
      } else if k == i {
        assert zs[j] in ks[..i];
      } else {
        assert zs[j] == ks[if j < i then j else j + 1] && zs[k] == ks[if k < i then k else k + 1];
      }
    }
  }

  lemma MergedPathIsSafe(sha: Sha256, f: Files, a: string, b: string)
    requires a in f && SafePath(a) && SafePath(b)
    ensures SafePath(MergedPath(sha, f, a, b))
  {
    var p, t := MergedPath(sha, f, a, b), "\0" + sha(f[a]) + "\n";
    assert p == a + t + b;
    assert p[0] == a[0];
    assert '\\' !in p && '/' !in t;
    var xs, ys := Split(a, '/'), Split(b, '/');
    SplitGlue(a, t, b);
    GlueParts(xs, t, ys);
    var last := xs[|xs| - 1];
    assert (last + t + ys[0])[|last|] == '\0';
  }

  /** Two part lists with the last part of one glued to the first of the other. */
  function Glue(xs: seq<string>, t: string, ys: seq<string>): seq<string>
    requires xs != [] && ys != []
  {
    if |xs| == 1 then [xs[0] + t + ys[0]] + ys[1..] else [xs[0]] + Glue(xs[1..], t, ys)
  }

  lemma {:induction false} GlueParts(xs: seq<string>, t: string, ys: seq<string>)
    requires xs != [] && ys != []
    ensures Glue(xs, t, ys) == xs[..|xs| - 1] + [xs[|xs| - 1] + t + ys[0]] + ys[1..]
  {
    if |xs| > 1 {
      GlueParts(xs[1..], t, ys);
      assert xs[..|xs| - 1] == [xs[0]] + xs[1..][..|xs| - 2];
    }
  }

  lemma GlueAttach(c: char, xs: seq<string>, t: string, ys: seq<string>)
    requires xs != [] && ys != []
    ensures Glue(Attach(c, xs), t, ys) == Attach(c, Glue(xs, t, ys))
  {
    assert Attach(c, xs)[1..] == xs[1..];
    if |xs| == 1 {
      assert [c] + xs[0] + t + ys[0] == [c] + (xs[0] + t + ys[0]);
    }
  }

  lemma {:induction false} SplitBehind(t: string, b: string)
    requires '/' !in t
    ensures Split(t + b, '/') == Glue([""], t, Split(b, '/'))
  {
    var ys := Split(b, '/');
    if t == "" {
      assert t + b == b && "" + t + ys[0] == ys[0];
    } else {
      SplitBehind(t[1..], b);
      assert (t + b)[1..] == t[1..] + b && t[0] in t;
      assert "" + t[1..] + ys[0] == t[1..] + ys[0];
      assert [t[0]] + (t[1..] + ys[0]) == "" + t + ys[0];
    }
  }

  /** Gluing text without a separator joins the last part of one string to the first of the next. */
  lemma {:induction false} SplitGlue(a: string, t: string, b: string)
    requires '/' !in t
    ensures Split(a + t + b, '/') == Glue(Split(a, '/'), t, Split(b, '/'))
  {
    if a == "" {
      SplitBehind(t, b);
      assert a + t + b == t + b;
    } else {
      SplitGlue(a[1..], t, b);
      assert (a + t + b)[1..] == a[1..] + t + b;
      GlueAttach(a[0], Split(a[1..], '/'), t, Split(b, '/'));
    }
  }

  /** The structural check alone does not make the digest identify a bundle: every bundle with two
      neighbouring files has a twin with the same digest that passes the check as well. */
  lemma EveryBundleHasATwin(sha: Sha256, f: Files, a: string, b: string)
    requires AllSafe(f) && Neighbours(f, a, b)
    requires forall p :: p in f ==> '\0' !in p
    ensures var g := Merged(sha, f, a, b);
            && g != f && AllSafe(g)
            && Digest(sha, g) == Digest(sha, f)
            && forall p :: p in f && p != a && p != b ==> p in g && g[p] == f[p]
  {
    var i := NeighbourPositions(f, a, b);
    var ks := SortedPaths(f);
    MergedListing(sha, f, a, b, i);
    MergedAllSafe(sha, f, a, b);
    MergedPathOrder(sha, f, a, b);
    CutTwo(ks, i);
    MergedBlob(sha, f, a, b, ks[..i], ks[i + 2..]);
    MergedFiles(sha, f, a, b);
  }

  lemma CutTwo(ks: seq<string>, i: nat)
    requires i + 1 < |ks|
    ensures ks == ks[..i] + [ks[i], ks[i + 1]] + ks[i + 2..]
  {
  }

  lemma MergedFiles(sha: Sha256, f: Files, a: string, b: string)
    requires a in f && b in f && MergedPath(sha, f, a, b) !in f
    ensures Merged(sha, f, a, b) != f
    ensures forall p :: p in f && p != a && p != b ==> p in Merged(sha, f, a, b) && Merged(sha, f, a, b)[p] == f[p]
  {
    assert MergedPath(sha, f, a, b) in Merged(sha, f, a, b);
  }

  lemma MergedAllSafe(sha: Sha256, f: Files, a: string, b: string)
    requires AllSafe(f) && a in f && b in f
    ensures AllSafe(Merged(sha, f, a, b))
  {
    MergedPathIsSafe(sha, f, a, b);
  }

  lemma MergedLine(sha: Sha256, f: Files, a: string, b: string, h: string)
    requires a in f
    ensures Line(MergedPath(sha, f, a, b), h) == Line(a, sha(f[a])) + "\n" + Line(b, h)
  {
    var u := Line(a, sha(f[a])) + "\n";
    ConcatAssoc(u, b, "\0");
    ConcatAssoc(u, b + "\0", h);
  }

  lemma MergedBlob(sha: Sha256, f: Files, a: string, b: string, front: seq<string>, back: seq<string>)
    requires a in f && b in f && SortedPaths(f) == front + [a, b] + back
    requires SortedPaths(Merged(sha, f, a, b)) == front + [MergedPath(sha, f, a, b)] + back
    requires MergedPath(sha, f, a, b) !in f
    ensures Blob(sha, Merged(sha, f, a, b)) == Blob(sha, f)
  {
    var g, p := Merged(sha, f, a, b), MergedPath(sha, f, a, b);
    ThreeParts(sha, f, front, [a, b], back);
    ThreeParts(sha, g, front, [p], back);
    forall q | q in front || q in back ensures Content(f, q) == Content(g, q) {
      assert q in SortedPaths(g) && q in SortedPaths(f);
    }
    LinesAgree(sha, f, g, front);
    LinesAgree(sha, f, g, back);
    LinesOfTwo(sha, f, a, b);
    MergedLine(sha, f, a, b, sha(f[b]));
    assert p in g && Lines(sha, g, [p]) == [Line(p, sha(f[b]))];
    JoinMerge(Lines(sha, f, front), Line(a, sha(f[a])), Line(b, sha(f[b])), Lines(sha, f, back));
  }

  lemma LinesOfTwo(sha: Sha256, f: Files, a: string, b: string)
    requires a in f && b in f
    ensures Lines(sha, f, [a, b]) == [Line(a, sha(f[a])), Line(b, sha(f[b]))]
  {
    assert [a, b][1..] == [b];
    assert Lines(sha, f, [b]) == [Line(b, sha(f[b]))];
  }

  lemma ThreeParts(sha: Sha256, f: Files, front: seq<string>, middle: seq<string>, back: seq<string>)
    ensures Lines(sha, f, front + middle + back) == Lines(sha, f, front) + Lines(sha, f, middle) + Lines(sha, f, back)
  {
    LinesConcat(sha, f, front + middle, back);
    LinesConcat(sha, f, front, middle);
  }
}
