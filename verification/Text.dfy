/** Strings, bytes and small wrappers shared by every component.

    Strings are sequences of Unicode scalar values, bytes are sequences of octets. Splitting,
    joining and ordering follow the Python operations the control plane uses: `str.split(sep)`,
    `sep.join(parts)` and comparison by code point.
 */
module Text {

  newtype byte = x: int | 0 <= x < 256

  type Bytes = seq<byte>

  datatype Option<+T> = None | Some(value: T)

  /** The expected failures of the control plane; one per exception class it raises. */
  datatype Error =
    | NotFound
    | Conflict
    | Isolation
    | Integrity
    | Authorization
    | Validation
    | BadValue
    | FileSystem

  datatype Result<+T> = Ok(value: T) | Err(error: Error) {
    predicate IsFailure() {
      Err?
    }

    function PropagateFailure<U>(): Result<U>
      requires Err?
    {
      Err(error)
    }

    function Extract(): T
      requires Ok?
    {
      value
    }
  }

  lemma ConcatAssoc<T>(a: seq<T>, b: seq<T>, c: seq<T>)
    ensures a + (b + c) == a + b + c
  {
  }

  /** A slice that lies behind the first part of a concatenation. */
  lemma SliceBehind<T>(p: seq<T>, q: seq<T>, a: int, e: int)
    requires |p| <= a <= e <= |p| + |q|
    ensures (p + q)[a..e] == q[a - |p|..e - |p|]
  {
    assert (p + q)[a..e] == q[a - |p|..e - |p|];
  }

  // ---------------------------------------------------------------------------
  // Splitting and joining
  // ---------------------------------------------------------------------------

  /** Prefix a character to the first part. */
  function Attach(c: char, parts: seq<string>): seq<string>
    requires |parts| >= 1
  {
    [[c] + parts[0]] + parts[1..]
  }

  lemma AttachAppend(c: char, a: seq<string>, b: seq<string>)
    requires |a| >= 1
    ensures Attach(c, a + b) == Attach(c, a) + b
  {
    assert (a + b)[1..] == a[1..] + b;
  }

  /** `s.split(sep)` for a one-character separator. */
  function Split(s: string, sep: char): (parts: seq<string>)
    ensures |parts| >= 1
    ensures forall k :: 0 <= k < |parts| ==> sep !in parts[k]
  {
    if s == "" then [""]
    else
      var rest := Split(s[1..], sep);
      if s[0] == sep then [""] + rest
      else Attach(s[0], rest)
  }

  /** `sep.join(parts)` for a one-character separator. */
  function Join(parts: seq<string>, sep: char): string {
    if |parts| == 0 then ""
    else if |parts| == 1 then parts[0]
    else parts[0] + [sep] + Join(parts[1..], sep)
  }

  lemma {:induction false} JoinSplit(s: string, sep: char)
    ensures Join(Split(s, sep), sep) == s
  {
    if s != "" {
      JoinSplit(s[1..], sep);
      var rest := Split(s[1..], sep);
      if s[0] == sep {
        assert ([""] + rest)[1..] == rest;
      } else if |rest| > 1 {
        assert Attach(s[0], rest)[1..] == rest[1..];
      }
    }
  }

  lemma {:induction false} SplitNoSep(s: string, sep: char)
    requires sep !in s
    ensures Split(s, sep) == [s]
  {
    if s != "" {
      SplitNoSep(s[1..], sep);
      assert [s[0]] + s[1..] == s;
    }
  }

  /** Splitting distributes over a separator. */
  lemma {:induction false} SplitAppend(a: string, b: string, sep: char)
    ensures Split(a + [sep] + b, sep) == Split(a, sep) + Split(b, sep)
  {
    var whole := a + [sep] + b;
    var rb := Split(b, sep);
    if a == "" {
      assert whole[1..] == b;
    } else {
      SplitAppend(a[1..], b, sep);
      assert whole[1..] == a[1..] + [sep] + b;
      var ra := Split(a[1..], sep);
      assert Split(whole[1..], sep) == ra + rb;
      if a[0] == sep {
        ConcatAssoc([""], ra, rb);
      } else {
        AttachAppend(a[0], ra, rb);
      }
    }
  }

  lemma {:induction false} SplitJoin(parts: seq<string>, sep: char)
    requires |parts| >= 1
    requires forall k :: 0 <= k < |parts| ==> sep !in parts[k]
    ensures Split(Join(parts, sep), sep) == parts
  {
    SplitNoSep(parts[0], sep);
    if |parts| == 1 {
      assert parts == [parts[0]];
    } else {
      SplitJoin(parts[1..], sep);
      SplitAppend(parts[0], Join(parts[1..], sep), sep);
      assert parts == [parts[0]] + parts[1..];
    }
  }

  lemma {:induction false} JoinAppend(a: seq<string>, b: seq<string>, sep: char)
    requires |a| >= 1 && |b| >= 1
    ensures Join(a + b, sep) == Join(a, sep) + [sep] + Join(b, sep)
  {
    if |a| == 1 {
      assert (a + b)[1..] == b;
    } else {
      JoinAppend(a[1..], b, sep);
      assert (a + b)[1..] == a[1..] + b;
    }
  }

  // ---------------------------------------------------------------------------
  // Code-point order
  // ---------------------------------------------------------------------------

  /** Python's `a < b` on strings. */
  predicate Less(a: string, b: string) {
    if b == "" then false
    else if a == "" then true
    else a[0] < b[0] || (a[0] == b[0] && Less(a[1..], b[1..]))
  }

  lemma {:induction false} LessTrichotomy(a: string, b: string)
    ensures a == b || Less(a, b) || Less(b, a)
  {
    if a != "" && b != "" && a[0] == b[0] {
      LessTrichotomy(a[1..], b[1..]);
      assert a == [a[0]] + a[1..] && b == [b[0]] + b[1..];
    }
  }

  lemma {:induction false} LessIrreflexive(a: string)
    ensures !Less(a, a)
  {
    if a != "" {
      LessIrreflexive(a[1..]);
    }
  }

  lemma {:induction false} LessTransitive(a: string, b: string, c: string)
    requires Less(a, b) && Less(b, c)
    ensures Less(a, c)
  {
    if a != "" && a[0] == b[0] == c[0] {
      LessTransitive(a[1..], b[1..], c[1..]);
    }
  }

  /** A proper prefix sorts first. */
  lemma {:induction false} PrefixLess(a: string, b: string)
    requires b != ""
    ensures Less(a, a + b)
  {
    if a != "" {
      PrefixLess(a[1..], b);
      assert (a + b)[1..] == a[1..] + b;
    }
  }

  // ---------------------------------------------------------------------------
  // Sorted listings
  // ---------------------------------------------------------------------------

  /** A trigger: the laws of an order are used for the three values that are compared. */
  ghost predicate Compared<T>(a: T, b: T, c: T) {
    true
  }

  ghost predicate StrictTotalOrder<T(!new)>(less: (T, T) -> bool) {
    forall a, b, c {:trigger Compared(a, b, c)} :: Compared(a, b, c) ==>
      && !less(a, a)
      && (a == b || less(a, b) || less(b, a))
      && !(less(a, b) && less(b, a))
      && (less(a, b) && less(b, c) ==> less(a, c))
  }

  ghost predicate Ascending<T>(s: seq<T>, less: (T, T) -> bool) {
    forall i, j :: 0 <= i < j < |s| ==> less(s[i], s[j])
  }

  lemma LessIsStrictTotalOrder()
    ensures StrictTotalOrder(Less)
  {
    forall a: string, b: string, c: string
      ensures !Less(a, a) && (a == b || Less(a, b) || Less(b, a)) && !(Less(a, b) && Less(b, a))
      ensures Less(a, b) && Less(b, c) ==> Less(a, c)
    {
      LessIrreflexive(a);
      LessTrichotomy(a, b);
      if Less(a, b) && Less(b, a) {
        LessTransitive(a, b, a);
      }
      if Less(a, b) && Less(b, c) {
        LessTransitive(a, b, c);
      }
    }
  }

  ghost predicate IsLeast<T>(m: T, s: set<T>, less: (T, T) -> bool) {
    m in s && forall x :: x in s && x != m ==> less(m, x)
  }

  lemma {:induction false} LeastExists<T(!new)>(s: set<T>, less: (T, T) -> bool)
    requires StrictTotalOrder(less)
    requires s != {}
    ensures exists m :: IsLeast(m, s, less)
  {
    var a :| a in s;
    if s - {a} == {} {
      assert s == {a};
      assert IsLeast(a, s, less);
    } else {
      LeastExists(s - {a}, less);
      var m :| IsLeast(m, s - {a}, less);
      assert Compared(a, m, a);
      if less(a, m) {
        forall x | x in s && x != a ensures less(a, x) {
          assert Compared(a, m, x);
        }
        assert IsLeast(a, s, less);
      } else {
        assert IsLeast(m, s, less);
      }
    }
  }

  /** `r` lists the elements of `s` in ascending order. */
  ghost predicate IsListing<T(!new)>(r: seq<T>, s: set<T>, less: (T, T) -> bool) {
    Ascending(r, less) && forall x :: x in r <==> x in s
  }

  lemma {:induction false} ListingExists<T(!new)>(s: set<T>, less: (T, T) -> bool)
    requires StrictTotalOrder(less)
    ensures exists r :: IsListing(r, s, less)
  {
    if s == {} {
      assert IsListing([], s, less);
    } else {
      LeastExists(s, less);
      var m :| IsLeast(m, s, less);
      ListingExists(s - {m}, less);
      var tail :| IsListing(tail, s - {m}, less);
      forall j | 0 <= j < |tail| ensures less(m, tail[j]) {
        assert tail[j] in tail;
      }
      assert IsListing([m] + tail, s, less);
    }
  }

  /** Python's `sorted` on the elements of a finite set. */
  ghost function Listing<T(!new)>(s: set<T>, less: (T, T) -> bool): (r: seq<T>)
    requires StrictTotalOrder(less)
    ensures IsListing(r, s, less)
  {
    ListingExists(s, less);
    var r :| IsListing(r, s, less);
    r
  }

  lemma EmptyOrInhabited<T>(s: seq<T>)
    ensures s == [] || exists x :: x in s
  {
    if s != [] {
      assert s[0] in s;
    }
  }

  lemma FirstIsLeast<T(!new)>(a: seq<T>, less: (T, T) -> bool, x: T)
    requires Ascending(a, less) && x in a
    ensures x == a[0] || less(a[0], x)
  {
    var i :| 0 <= i < |a| && a[i] == x;
  }

  lemma TailMembers<T(!new)>(a: seq<T>, less: (T, T) -> bool, x: T)
    requires StrictTotalOrder(less) && Ascending(a, less) && a != []
    ensures x in a[1..] <==> x in a && x != a[0]
  {
    assert Compared(x, x, x);
    assert a == [a[0]] + a[1..];
  }

  /** There is one ascending listing, so `sorted` does not depend on insertion order. */
  lemma {:induction false} ListingUnique<T(!new)>(a: seq<T>, b: seq<T>, s: set<T>, less: (T, T) -> bool)
    requires StrictTotalOrder(less)
    requires IsListing(a, s, less) && IsListing(b, s, less)
    ensures a == b
  {
    EmptyOrInhabited(a);
    EmptyOrInhabited(b);
    if a != [] {
      var x, y := a[0], b[0];
      assert x in a && y in b;
      FirstIsLeast(a, less, y);
      FirstIsLeast(b, less, x);
      assert Compared(x, y, x);
      forall z ensures z in a[1..] <==> z in b[1..] {
        TailMembers(a, less, z);
        TailMembers(b, less, z);
      }
      var rest := s - {x};
      forall z ensures z in a[1..] <==> z in rest {
        TailMembers(a, less, z);
      }
      ListingUnique(a[1..], b[1..], rest, less);
      assert a == [x] + a[1..] && b == [x] + b[1..];
    }
  }

  /** Selection of the listing that `sorted` returns. */
  method Sort<T(!new, ==)>(s: set<T>, less: (T, T) -> bool) returns (r: seq<T>)
    requires StrictTotalOrder(less)
    ensures r == Listing(s, less)
  {
    r := [];
    var rest := s;
    while rest != {}
      invariant rest <= s
      invariant IsListing(r, s - rest, less)
      invariant forall x, y :: x in r && y in rest ==> less(x, y)
      decreases |rest|
    {
      LeastExists(rest, less);
      assert exists m :: m in rest && forall x :: x in rest && x != m ==> less(m, x) by {
        var w :| IsLeast(w, rest, less);
      }
      var m :| m in rest && forall x :: x in rest && x != m ==> less(m, x);
      forall k | 0 <= k < |r| ensures less(r[k], m) {
        assert r[k] in r;
      }
      assert (s - (rest - {m})) == (s - rest) + {m};
      r, rest := r + [m], rest - {m};
    }
    ListingUnique(r, Listing(s, less), s, less);
  }
}
