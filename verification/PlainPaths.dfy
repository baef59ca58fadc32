/** Relative paths, read character by character: what their components are and which of them are plain. */
module PlainPaths {
  import opened Text
  import opened Integrity

  /** From `i` to `j` the text is a component: separators or ends on both sides, none inside. */
  predicate IsSegment(s: string, sep: char, i: int, j: int) {
    && 0 <= i <= j <= |s|
    && (i == 0 || s[i - 1] == sep)
    && (j == |s| || s[j] == sep)
    && forall k :: i <= k < j ==> s[k] != sep
  }

  /** `segment` is one of the components between the separators. */
  ghost predicate HasSegment(s: string, sep: char, segment: string) {
    exists i, j :: IsSegment(s, sep, i, j) && s[i..j] == segment
  }

  lemma FirstSeparator(s: string, sep: char) returns (p: nat)
    requires sep in s
    ensures p < |s| && s[p] == sep && sep !in s[..p]
  {
    p := 0;
    while s[p] != sep
      invariant p < |s| && (forall k :: 0 <= k < p ==> s[k] != sep) && sep in s[p..]
      decreases |s| - p
    {
      assert s[p..] == [s[p]] + s[p + 1..];
      p := p + 1;
    }
  }

  /** Behind the first separator, the components are those of the rest. */
  lemma SegmentBehind(s: string, sep: char, p: nat, i: int, j: int)
    requires p < |s| && s[p] == sep && (forall k :: 0 <= k < p ==> s[k] != sep)
    ensures IsSegment(s, sep, i, j) <==> (i == 0 && j == p) || IsSegment(s[p + 1..], sep, i - p - 1, j - p - 1)
    ensures p < i <= j <= |s| ==> s[i..j] == s[p + 1..][i - p - 1..j - p - 1]
  {
    var b := s[p + 1..];
    assert forall k :: p < k < |s| ==> s[k] == b[k - p - 1];
    assert forall k :: 0 <= k < |b| ==> b[k] == s[k + p + 1];
  }

  /** Splitting gives exactly the components. */
  lemma {:induction false} SplitGivesSegments(s: string, sep: char, segment: string)
    ensures segment in Split(s, sep) <==> HasSegment(s, sep, segment)
    decreases |s|
  {
    if sep !in s {
      WholeSegment(s, sep, segment);
    } else {
      var p := FirstSeparator(s, sep);
      var a, b := s[..p], s[p + 1..];
      assert forall k :: 0 <= k < p ==> s[k] == a[k];
      assert s == a + [sep] + b;
      SplitAppend(a, b, sep);
      SplitNoSep(a, sep);
      SplitGivesSegments(b, sep, segment);
      hide Split, IsSegment;
      assert segment in Split(s, sep) <==> segment == a || HasSegment(b, sep, segment);
      SegmentOfRest(s, sep, p, segment);
    }
  }

  lemma WholeSegment(s: string, sep: char, segment: string)
    requires sep !in s
    ensures segment in Split(s, sep) <==> HasSegment(s, sep, segment)
  {
    SplitNoSep(s, sep);
    assert s[0..|s|] == s;
    assert IsSegment(s, sep, 0, |s|);
    forall i, j | IsSegment(s, sep, i, j) ensures s[i..j] == s {
    }
  }

  lemma SegmentOfRest(s: string, sep: char, p: nat, segment: string)
    requires p < |s| && s[p] == sep && (forall k :: 0 <= k < p ==> s[k] != sep)
    ensures HasSegment(s, sep, segment) <==> segment == s[..p] || HasSegment(s[p + 1..], sep, segment)
  {
    assert IsSegment(s, sep, 0, p) && s[0..p] == s[..p];
    if HasSegment(s, sep, segment) {
      var i, j :| IsSegment(s, sep, i, j) && s[i..j] == segment;
      BehindOrFirst(s, sep, p, i, j);
      hide IsSegment;
    }
    if HasSegment(s[p + 1..], sep, segment) {
      var i, j :| IsSegment(s[p + 1..], sep, i, j) && s[p + 1..][i..j] == segment;
      Shifted(s, sep, p, i, j);
    }
  }

  lemma Shifted(s: string, sep: char, p: nat, i: int, j: int)
    requires p < |s| && s[p] == sep && (forall k :: 0 <= k < p ==> s[k] != sep)
    requires IsSegment(s[p + 1..], sep, i, j)
    ensures HasSegment(s, sep, s[p + 1..][i..j])
  {
    SegmentBehind(s, sep, p, i + p + 1, j + p + 1);
    assert s[i + p + 1..j + p + 1] == s[p + 1..][i..j];
  }

  lemma BehindOrFirst(s: string, sep: char, p: nat, i: int, j: int)
    requires p < |s| && s[p] == sep && (forall k :: 0 <= k < p ==> s[k] != sep)
    requires IsSegment(s, sep, i, j)
    ensures s[i..j] == s[..p] || HasSegment(s[p + 1..], sep, s[i..j])
  {
    SegmentBehind(s, sep, p, i, j);
    if IsSegment(s[p + 1..], sep, i - p - 1, j - p - 1) {
      assert s[p + 1..][i - p - 1..j - p - 1] == s[i..j];
    } else {
      assert s[i..j] == s[..p];
    }
  }

  /** A path that a bundle may hold: not empty, not absolute, no backslash, no `.` and no `..` component. */
  ghost predicate IsPlainPath(path: string) {
    && path != "" && path[0] != '/'
    && (forall k :: 0 <= k < |path| ==> path[k] != '\\')
    && !HasSegment(path, '/', ".") && !HasSegment(path, '/', "..")
  }

  /** The structural check lets exactly the plain paths through. */
  lemma SafeIsPlain(path: string)
    ensures SafePath(path) <==> IsPlainPath(path)
  {
    hide Split, HasSegment;
    SplitGivesSegments(path, '/', ".");
    SplitGivesSegments(path, '/', "..");
  }
}
