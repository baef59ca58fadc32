/** Content addresses, spelled out: the bytes of a text, the order of the paths, and the text that is hashed. */
module Addressing {
  import opened Text
  import opened Integrity

  // ---------------------------------------------------------------------------
  // UTF-8 (RFC 3629, section 3)
  // ---------------------------------------------------------------------------

  /** A continuation byte, which carries six bits. */
  ghost predicate IsTail(b: byte) {
    0x80 <= b <= 0xBF
  }

  /** The one to four bytes of a character. */
  ghost predicate IsUtf8Of(c: char, b: Bytes) {
    var n := c as int;
    if n < 0x80 then b == [n as byte]
    else if n < 0x800 then
      && |b| == 2 && 0xC2 <= b[0] <= 0xDF && IsTail(b[1])
      && n == (b[0] as int - 0xC0) * 64 + (b[1] as int - 0x80)
    else if n < 0x1_0000 then
      && |b| == 3 && 0xE0 <= b[0] <= 0xEF && IsTail(b[1]) && IsTail(b[2])
      && n == ((b[0] as int - 0xE0) * 64 + (b[1] as int - 0x80)) * 64 + (b[2] as int - 0x80)
    else
      && |b| == 4 && 0xF0 <= b[0] <= 0xF4 && IsTail(b[1]) && IsTail(b[2]) && IsTail(b[3])
      && n == (((b[0] as int - 0xF0) * 64 + (b[1] as int - 0x80)) * 64 + (b[2] as int - 0x80)) * 64
              + (b[3] as int - 0x80)
  }

  lemma CharacterIsUtf8(c: char)
    ensures IsUtf8Of(c, EncodeChar(c))
  {
  }

  /** The bytes of a text are those of its characters, in order. */
  lemma TextIsUtf8(s: string, c: char, t: string)
    ensures Utf8("") == []
    ensures Utf8(s + t) == Utf8(s) + Utf8(t)
    ensures IsUtf8Of(c, Utf8([c]))
  {
    CharacterIsUtf8(c);
    assert [c][1..] == "";
    hide EncodeChar, IsUtf8Of;
    Utf8Appends(s, t);
  }

  lemma {:induction false} Utf8Appends(s: string, t: string)
    ensures Utf8(s + t) == Utf8(s) + Utf8(t)
  {
    hide EncodeChar;
    if s == "" {
      assert s + t == t;
    } else {
      assert (s + t)[0] == s[0] && (s + t)[1..] == s[1..] + t;
      Utf8Appends(s[1..], t);
    }
  }

  // ---------------------------------------------------------------------------
  // The order of the paths
  // ---------------------------------------------------------------------------

  /** `a` stands before `b`: it is shorter, or has the smaller character where they first differ. */
  ghost predicate IsBefore(a: string, b: string) {
    exists k :: FirstDifferAt(a, b, k)
  }

  ghost predicate FirstDifferAt(a: string, b: string, k: int) {
    0 <= k <= |a| && k < |b| && a[..k] == b[..k] && (k == |a| || a[k] < b[k])
  }

  /** Paths are ordered by their characters. */
  lemma {:induction false} LessIsBefore(a: string, b: string)
    ensures Less(a, b) <==> IsBefore(a, b)
  {
    if b != "" {
      if a == "" || a[0] < b[0] {
        assert FirstDifferAt(a, b, 0);
      } else if a[0] == b[0] {
        LessIsBefore(a[1..], b[1..]);
        DifferBehind(a, b);
      } else {
        forall k ensures !FirstDifferAt(a, b, k) {
          assert k > 0 && k <= |a| && k <= |b| ==> a[..k][0] == a[0] && b[..k][0] == b[0];
        }
      }
    }
  }

  lemma DifferBehind(a: string, b: string)
    requires a != "" && b != "" && a[0] == b[0]
    ensures IsBefore(a, b) <==> IsBefore(a[1..], b[1..])
  {
    if IsBefore(a, b) {
      var k :| FirstDifferAt(a, b, k);
      assert k > 0 && a[1..][..k - 1] == a[..k][1..] && b[1..][..k - 1] == b[..k][1..];
      assert FirstDifferAt(a[1..], b[1..], k - 1);
    }
    if IsBefore(a[1..], b[1..]) {
      var k :| FirstDifferAt(a[1..], b[1..], k);
      assert a[..k + 1] == [a[0]] + a[1..][..k] && b[..k + 1] == [b[0]] + b[1..][..k];
      assert FirstDifferAt(a, b, k + 1);
    }
  }

  /** The paths of the bundle, each before the next. */
  ghost predicate InOrder(paths: seq<string>, files: Files) {
    && (forall path :: path in paths <==> path in files)
    && forall i, j :: 0 <= i < j < |paths| ==> IsBefore(paths[i], paths[j])
  }

  // ---------------------------------------------------------------------------
  // The digest
  // ---------------------------------------------------------------------------

  /** One line per path: the path, a NUL and the hash of its content; line feeds between the lines. */
  function Listed(sha: Sha256, files: Files, paths: seq<string>): string
    requires forall path :: path in paths ==> path in files
  {
    if paths == [] then ""
    else
      paths[0] + "\0" + sha(files[paths[0]])
      + (if |paths| == 1 then "" else "\n" + Listed(sha, files, paths[1..]))
  }

  lemma {:induction false} ListedIsJoined(sha: Sha256, files: Files, paths: seq<string>)
    requires forall path :: path in paths ==> path in files
    ensures Listed(sha, files, paths) == Join(Lines(sha, files, paths), '\n')
  {
    if |paths| == 1 {
      assert paths[1..] == [];
      assert Lines(sha, files, paths) == [FileLine(sha, files, paths[0])];
    } else if |paths| > 1 {
      var rest := Listed(sha, files, paths[1..]);
      ListedIsJoined(sha, files, paths[1..]);
      assert Lines(sha, files, paths)[1..] == Lines(sha, files, paths[1..]);
      ConcatAssoc(FileLine(sha, files, paths[0]), "\n", rest);
    }
  }

  /** The digest of a bundle is the hash of that text in UTF-8, with the paths in order. */
  lemma DigestIsHashOfLines(sha: Sha256, files: Files, paths: seq<string>)
    requires InOrder(paths, files)
    ensures Digest(sha, files) == sha(Utf8(Listed(sha, files, paths)))
  {
    hide Listed, Lines;
    forall i, j | 0 <= i < j < |paths| ensures Less(paths[i], paths[j]) {
      LessIsBefore(paths[i], paths[j]);
    }
    ListedPaths(files, paths);
    ListedIsJoined(sha, files, paths);
  }
}
