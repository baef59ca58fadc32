/** What redaction guarantees: the output of the four passes contains no word of any pattern. */
module RedactionTheorems {
  import opened Text
  import opened Redaction

  type Language = string -> bool

  ghost function Words(r: Regex): Language {
    w => Matches(r, w)
  }

  ghost predicate Occurs(lang: Language, s: string, i: int, e: int) {
    0 <= i <= e <= |s| && lang(s[i..e])
  }

  /** No substring of `s` is a word. */
  ghost predicate Clean(lang: Language, s: string) {
    forall i, e :: !Occurs(lang, s, i, e)
  }

  /** The table misses no word: where it has no match, no word begins. */
  ghost predicate Covers(table: seq<Option<nat>>, lang: Language, s: string)
    requires |table| == |s|
  {
    forall i, e :: 0 <= i < |s| && table[i].None? ==> !Occurs(lang, s, i, e)
  }

  lemma TableExact(r: Regex, s: string, i: nat)
    requires Consuming(r) && i < |s|
    ensures MatchTable(r, s)[i].Some? <==> exists e :: Occurs(Words(r), s, i, e)
    ensures MatchTable(r, s)[i].Some? ==> Occurs(Words(r), s, i, MatchTable(r, s)[i].value)
  {
    var ends := Ends(r, s, i);
    EndsExact(r, s, i);
    EmptyOrInhabited(ends);
    forall e | Occurs(Words(r), s, i, e) ensures ends != [] {
      var n: nat := e;
      assert MatchesSpan(r, s, i, n);
    }
    if ends != [] {
      assert ends[0] in ends;
      assert Occurs(Words(r), s, i, ends[0]);
    }
  }

  lemma TableCovers(r: Regex, s: string)
    requires Consuming(r)
    ensures Covers(MatchTable(r, s), Words(r), s)
  {
    forall i, e | 0 <= i < |s| && MatchTable(r, s)[i].None? ensures !Occurs(Words(r), s, i, e) {
      TableExact(r, s, i);
    }
  }

  // ---------------------------------------------------------------------------
  // Where a prefix of the output comes from
  // ---------------------------------------------------------------------------

  /** `w` was copied unchanged from `s` at `i`, so the output continues behind it. */
  ghost predicate Copied(table: seq<Option<nat>>, repl: string, s: string, i: nat, w: string)
    requires IsMatchTable(table, s) && i <= |s|
  {
    && i + |w| <= |s|
    && s[i..i + |w|] == w
    && Splice(table, repl, s, i) == w + Splice(table, repl, s, i + |w|)
  }

  /** The first `m` characters of `w` were copied and a replacement starts right behind them. */
  ghost predicate DivergesAt(table: seq<Option<nat>>, repl: string, s: string, i: nat, w: string, m: nat)
    requires |table| == |s| && i <= |s| && repl != ""
  {
    && m < |w| && i + m < |s|
    && s[i..i + m] == w[..m]
    && table[i + m].Some?
    && w[m] == repl[0]
  }

  lemma CopiedExtend(table: seq<Option<nat>>, repl: string, s: string, i: nat, tail: string)
    requires IsMatchTable(table, s) && i < |s| && table[i].None?
    requires Copied(table, repl, s, i + 1, tail)
    ensures Copied(table, repl, s, i, [s[i]] + tail)
  {
    var w := [s[i]] + tail;
    assert s[i..i + |w|] == [s[i]] + s[i + 1..i + 1 + |tail|];
    assert w + Splice(table, repl, s, i + |w|) == [s[i]] + (tail + Splice(table, repl, s, i + |w|));
  }

  lemma DivergesExtend(table: seq<Option<nat>>, repl: string, s: string, i: nat, tail: string, m: nat)
    requires |table| == |s| && i < |s| && repl != ""
    requires DivergesAt(table, repl, s, i + 1, tail, m)
    ensures DivergesAt(table, repl, s, i, [s[i]] + tail, m + 1)
  {
    var w := [s[i]] + tail;
    assert s[i..i + (m + 1)] == [s[i]] + s[i + 1..i + 1 + m];
    assert w[..m + 1] == [s[i]] + tail[..m];
  }

  lemma {:induction false} CopiedOrDiverges(table: seq<Option<nat>>, repl: string, s: string, i: nat, w: string)
    requires IsMatchTable(table, s) && i <= |s| && repl != ""
    requires w <= Splice(table, repl, s, i)
    ensures Copied(table, repl, s, i, w) || exists m: nat :: DivergesAt(table, repl, s, i, w, m)
    decreases |w|
  {
    if w == "" {
      assert s[i..i + 0] == w;
    } else if table[i].Some? {
      assert DivergesAt(table, repl, s, i, w, 0);
    } else {
      var tail := w[1..];
      assert w == [s[i]] + tail;
      CopiedOrDiverges(table, repl, s, i + 1, tail);
      if Copied(table, repl, s, i + 1, tail) {
        CopiedExtend(table, repl, s, i, tail);
      } else {
        var m: nat :| DivergesAt(table, repl, s, i + 1, tail, m);
        DivergesExtend(table, repl, s, i, tail, m);
      }
    }
  }

  /** A prefix that avoids the first character of the replacement was copied. */
  lemma {:induction false} CopiedWhole(table: seq<Option<nat>>, repl: string, s: string, i: nat, w: string)
    requires IsMatchTable(table, s) && i <= |s| && repl != ""
    requires w <= Splice(table, repl, s, i) && repl[0] !in w
    ensures Copied(table, repl, s, i, w)
    decreases |w|
  {
    if w == "" {
      assert s[i..i + 0] == w;
    } else {
      assert w[0] in w;
      var tail := w[1..];
      assert w == [s[i]] + tail;
      CopiedWhole(table, repl, s, i + 1, tail);
      CopiedExtend(table, repl, s, i, tail);
    }
  }

  // ---------------------------------------------------------------------------
  // Passes whose replacement is foreign to a pattern
  // ---------------------------------------------------------------------------

  /** A word cannot overlap an occurrence of `repl`: it avoids its first character and cannot
      begin inside it. */
  ghost predicate ForeignWord(w: string, repl: string)
    requires repl != ""
  {
    && |w| >= 2
    && repl[0] !in w
    && w[0] != repl[|repl| - 1]
    && forall a :: 0 <= a < |repl| - 1 ==> !(w[0] == repl[a] && w[1] == repl[a + 1])
  }

  ghost predicate Foreign(lang: Language, repl: string) {
    repl != "" && forall w :: lang(w) ==> ForeignWord(w, repl)
  }

  /** The output contains no word that the table covers and the replacement cannot help to form. */
  lemma {:induction false} SpliceIsClean(lang: Language, table: seq<Option<nat>>, repl: string, s: string, i: nat,
                                         a: int, e: int)
    requires IsMatchTable(table, s) && i <= |s|
    requires Foreign(lang, repl)
    requires Covers(table, lang, s)
    ensures !Occurs(lang, Splice(table, repl, s, i), a, e)
    decreases |s| - i
  {
    var out := Splice(table, repl, s, i);
    if i == |s| || !(0 <= a <= e <= |out|) {
      assert lang("") ==> ForeignWord("", repl);
      assert 0 <= a <= e <= |out| ==> out[a..e] == "";
    } else if table[i].None? {
      if a == 0 {
        var w := out[..e];
        assert out[a..e] == w;
        if ForeignWord(w, repl) {
          CopiedWhole(table, repl, s, i, w);
          assert lang(w) ==> Occurs(lang, s, i, i + |w|);
        }
      } else {
        SpliceIsClean(lang, table, repl, s, i + 1, a - 1, e - 1);
        SliceBehind([s[i]], Splice(table, repl, s, i + 1), a, e);
      }
    } else {
      var n := |repl|;
      var next := table[i].value;
      if a >= n {
        SpliceIsClean(lang, table, repl, s, next, a - n, e - n);
        SliceBehind(repl, Splice(table, repl, s, next), a, e);
      } else {
        var w := out[a..e];
        assert |w| >= 1 ==> w[0] == repl[a];
        assert |w| >= 2 && a + 1 < n ==> w[1] == repl[a + 1];
        assert !ForeignWord(w, repl);
      }
    }
  }

  /** A pass keeps its output free of a pattern that was absent before, and of its own. */
  lemma PassKeepsClean(q: Regex, r: Regex, repl: string, s: string)
    requires Consuming(r) && Foreign(Words(q), repl)
    requires Clean(Words(q), s) || q == r
    ensures Clean(Words(q), Substitute(r, repl, s))
  {
    TableCovers(r, s);
    forall a, e ensures !Occurs(Words(q), Substitute(r, repl, s), a, e) {
      SpliceIsClean(Words(q), MatchTable(r, s), repl, s, 0, a, e);
    }
  }

  // ---------------------------------------------------------------------------
  // Words of the four patterns
  // ---------------------------------------------------------------------------

  lemma CatSplit(a: Regex, b: Regex, w: string) returns (u: string, v: string)
    requires Matches(Cat(a, b), w)
    ensures w == u + v && Matches(a, u) && Matches(b, v)
  {
    var j :| 0 <= j <= |w| && Matches(a, w[..j]) && Matches(b, w[j..]);
    u, v := w[..j], w[j..];
  }

  lemma CatJoin(a: Regex, b: Regex, u: string, v: string)
    requires Matches(a, u) && Matches(b, v)
    ensures Matches(Cat(a, b), u + v)
  {
    var w := u + v;
    assert w[..|u|] == u && w[|u|..] == v;
  }

  /** `bearer`, white space up to `n`, token characters from `n` on. */
  ghost predicate BearerWord(w: string, n: int) {
    && 7 <= n < |w|
    && SameLetters("bearer", w[..6])
    && AllIn(Space, w[6..n])
    && AllIn(TokenChar(true), w[n..])
  }

  lemma BearerAssemble(a: string, b: string, c: string)
    requires SameLetters("bearer", a) && |b| >= 1 && AllIn(Space, b) && |c| >= 1 && AllIn(TokenChar(true), c)
    ensures BearerWord(a + b + c, |a + b|)
  {
    var w := a + b + c;
    assert w[..6] == a && w[6..|a + b|] == b && w[|a + b|..] == c;
  }

  lemma BearerSplit(w: string)
    requires Matches(Bearer(), w)
    ensures exists n :: BearerWord(w, n)
  {
    var h, z := CatSplit(BearerHead(), Greedy(TokenChar(true)), w);
    var u, v, y := BearerHeadSplit(h);
    assert w == u + v + (y + z);
    BearerAssemble(u, v, y + z);
  }

  lemma BearerHeadSplit(h: string) returns (u: string, v: string, y: string)
    requires Matches(BearerHead(), h)
    ensures h == u + v + y && SameLetters("bearer", u) && |v| >= 1 && AllIn(Space, v) && |y| == 1
    ensures AllIn(TokenChar(true), y)
  {
    var spaces := Cat(Repeat(Space, 1), Greedy(Space));
    var x;
    u, x := CatSplit(LiteralIgnoreCase("bearer"), Cat(spaces, Repeat(TokenChar(true), 1)), h);
    v, y := CatSplit(spaces, Repeat(TokenChar(true), 1), x);
    var v0, v1 := CatSplit(Repeat(Space, 1), Greedy(Space), v);
    assert u + v + y == u + (v + y);
  }

  lemma BearerJoin(w: string, n: int)
    requires BearerWord(w, n)
    ensures Matches(Bearer(), w)
  {
    var u, v := w[6..n], w[n..];
    var u0, u1, v0, v1 := u[..1], u[1..], v[..1], v[1..];
    assert u == u0 + u1 && v == v0 + v1;
    CatJoin(Repeat(Space, 1), Greedy(Space), u0, u1);
    var spaces := Cat(Repeat(Space, 1), Greedy(Space));
    CatJoin(spaces, Repeat(TokenChar(true), 1), u, v0);
    CatJoin(LiteralIgnoreCase("bearer"), Cat(spaces, Repeat(TokenChar(true), 1)), w[..6], u + v0);
    CatJoin(BearerHead(), Greedy(TokenChar(true)), w[..6] + (u + v0), v1);
    assert w == w[..6] + u + v;
    assert w[..6] + (u + v0) + v1 == w[..6] + u + (v0 + v1);
  }

  lemma BearerWords(w: string)
    ensures Matches(Bearer(), w) <==> exists n :: BearerWord(w, n)
  {
    if Matches(Bearer(), w) {
      BearerSplit(w);
    }
    if n :| BearerWord(w, n) {
      BearerJoin(w, n);
    }
  }

  /** A literal, `n` token characters, then more of them. */
  lemma LiteralTokenWords(literal: string, n: nat, w: string)
    requires Matches(Cat(Cat(Literal(literal), Repeat(TokenChar(false), n)), Greedy(TokenChar(false))), w)
    ensures |w| >= |literal| + n && w[..|literal|] == literal && AllIn(TokenChar(false), w[|literal|..])
  {
    var tok := Repeat(TokenChar(false), n);
    var h, t := CatSplit(Cat(Literal(literal), tok), Greedy(TokenChar(false)), w);
    var l, m := CatSplit(Literal(literal), tok, h);
    assert w == literal + (m + t);
    assert w[|literal|..] == m + t;
  }

  lemma NoBracket(u: string)
    requires AllIn(UpperOrSpace, u)
    ensures '[' !in u
  {
  }

  lemma AbsentFromConcat(c: char, u: string, v: string)
    requires c !in u && c !in v
    ensures c !in u + v
  {
  }

  /** A PEM delimiter begins with its literal and has no square bracket. */
  lemma DelimiterWords(begin: string, tail: string, w: string)
    requires '[' !in begin && '[' !in tail
    requires Matches(Cat(Literal(begin), Cat(Greedy(UpperOrSpace), Literal(tail))), w)
    ensures begin <= w && '[' !in w
  {
    var middle := Cat(Greedy(UpperOrSpace), Literal(tail));
    var u, t := CatSplit(Literal(begin), middle, w);
    var v, x := CatSplit(Greedy(UpperOrSpace), Literal(tail), t);
    NoBracket(v);
    AbsentFromConcat('[', v, x);
    AbsentFromConcat('[', u, t);
  }

  /** A header, any text, and a footer. */
  ghost predicate BlockWord(header: Language, footer: Language, w: string, u: string, v: string, x: string) {
    w == u + v + x && header(u) && footer(x)
  }

  ghost predicate IsBlockLanguage(block: Language, header: Language, footer: Language) {
    forall w :: block(w) <==> exists u, v, x :: BlockWord(header, footer, w, u, v, x)
  }

  lemma PemWords()
    ensures IsBlockLanguage(Words(Pem()), Words(PemHeader()), Words(PemFooter()))
  {
    forall w
      ensures Matches(Pem(), w) <==> exists u, v, x :: BlockWord(Words(PemHeader()), Words(PemFooter()), w, u, v, x)
    {
      BlockWords(PemHeader(), PemFooter(), w);
    }
  }

  lemma BlockWords(header: Regex, footer: Regex, w: string)
    ensures Matches(Cat(header, Cat(Lazy(AnyChar), footer)), w)
            <==> exists u, v, x :: BlockWord(Words(header), Words(footer), w, u, v, x)
  {
    if Matches(Cat(header, Cat(Lazy(AnyChar), footer)), w) {
      var u, v, x := BlockSplit(header, footer, w);
    }
    if u, v, x :| BlockWord(Words(header), Words(footer), w, u, v, x) {
      BlockJoin(header, footer, u, v, x);
    }
  }

  lemma BlockSplit(header: Regex, footer: Regex, w: string) returns (u: string, v: string, x: string)
    requires Matches(Cat(header, Cat(Lazy(AnyChar), footer)), w)
    ensures BlockWord(Words(header), Words(footer), w, u, v, x)
  {
    var t;
    u, t := CatSplit(header, Cat(Lazy(AnyChar), footer), w);
    v, x := CatSplit(Lazy(AnyChar), footer, t);
    ConcatAssoc(u, v, x);
  }

  lemma BlockJoin(header: Regex, footer: Regex, u: string, v: string, x: string)
    requires Matches(header, u) && Matches(footer, x)
    ensures Matches(Cat(header, Cat(Lazy(AnyChar), footer)), u + v + x)
  {
    CatJoin(Lazy(AnyChar), footer, v, x);
    CatJoin(header, Cat(Lazy(AnyChar), footer), u, v + x);
    ConcatAssoc(u, v, x);
  }

  // ---------------------------------------------------------------------------
  // The bracketed markers are foreign to the first three patterns
  // ---------------------------------------------------------------------------

  /** Shape of the three bracketed replacements. */
  ghost predicate Marker(repl: string) {
    && |repl| >= 2 && repl[0] == '[' && repl[|repl| - 1] == ']'
    && (forall k :: 0 <= k < |repl| ==> repl[k] !in {'b', 'B', 'y', '-'})
    && (forall k :: 0 <= k < |repl| - 1 ==> !(repl[k] == 'A' && repl[k + 1] == 'I'))
  }

  lemma MarkerShape(body: string, repl: string)
    requires repl == "[" + body + "]"
    requires forall k :: 0 <= k < |body| ==> body[k] !in {'b', 'B', 'y', '-'}
    requires forall k :: 0 <= k < |body| - 1 ==> !(body[k] == 'A' && body[k + 1] == 'I')
    ensures Marker(repl)
  {
    assert forall k :: 0 < k < |repl| - 1 ==> repl[k] == body[k - 1];
  }

  lemma AccessTokenMarker()
    ensures Marker("[REDACTED_ACCESS_TOKEN]")
  {
    MarkerShape("REDACTED_ACCESS_TOKEN", "[REDACTED_ACCESS_TOKEN]");
  }

  lemma ApiKeyMarker()
    ensures Marker("[REDACTED_API_KEY]")
  {
    MarkerShape("REDACTED_API_KEY", "[REDACTED_API_KEY]");
  }

  lemma PemMarker()
    ensures Marker("[REDACTED_PRIVATE_KEY]")
  {
    MarkerShape("REDACTED_PRIVATE_KEY", "[REDACTED_PRIVATE_KEY]");
  }

  lemma BearerForeign(repl: string)
    requires Marker(repl)
    ensures Foreign(Words(Bearer()), repl)
  {
    forall w | Matches(Bearer(), w) ensures ForeignWord(w, repl) {
      BearerWords(w);
      var n :| BearerWord(w, n);
      var word := "bearer";
      assert SameLetter(word[0], w[..6][0]);
      assert forall k :: 0 <= k < 6 ==> SameLetter(word[k], w[..6][k]) && w[..6][k] != '[';
      assert '[' !in w[..6] && '[' !in w[6..n] && '[' !in w[n..];
      assert w == w[..6] + w[6..n] + w[n..];
    }
  }

  lemma AccessTokenForeign(repl: string)
    requires Marker(repl)
    ensures Foreign(Words(AccessToken()), repl)
  {
    forall w | Matches(AccessToken(), w) ensures ForeignWord(w, repl) {
      LiteralTokenWords("ya29.", 1, w);
      assert w == w[..5] + w[5..] && w[0] == w[..5][0];
      assert '[' !in w[5..];
    }
  }

  lemma ApiKeyForeign(repl: string)
    requires Marker(repl)
    ensures Foreign(Words(ApiKey()), repl)
  {
    forall w | Matches(ApiKey(), w) ensures ForeignWord(w, repl) {
      LiteralTokenWords("AIza", 10, w);
      assert w == w[..4] + w[4..] && w[0] == w[..4][0] && w[1] == w[..4][1];
      assert '[' !in w[4..];
    }
  }

  // ---------------------------------------------------------------------------
  // The bearer pass and its own replacement
  // ---------------------------------------------------------------------------

  /** Shape of `Bearer [REDACTED]`: the literal, a space, and then no token. */
  ghost predicate BearerMarker(repl: string) {
    && |repl| >= 8 && repl[0] == 'B' && repl[7] == '['
    && forall k :: 1 <= k < |repl| ==> repl[k] !in {'b', 'B'}
  }

  lemma BearerMarkerHolds()
    ensures BearerMarker("Bearer [REDACTED]")
  {
  }

  ghost predicate MatchesBeginWithB(table: seq<Option<nat>>, s: string)
    requires |table| == |s|
  {
    forall k :: 0 <= k < |s| && table[k].Some? ==> s[k] in {'b', 'B'}
  }

  lemma BearerLetters(w: string, n: int)
    requires BearerWord(w, n)
    ensures w[0] in {'b', 'B'}
    ensures forall k :: 1 <= k < 6 ==> w[k] !in {'b', 'B'}
    ensures forall k :: 6 <= k < n ==> In(Space, w[k])
    ensures forall k :: n <= k < |w| ==> In(TokenChar(true), w[k])
  {
    var word := "bearer";
    assert forall k :: 0 <= k < 6 ==> SameLetter(word[k], w[..6][k]) && w[..6][k] == w[k];
    assert forall k :: 6 <= k < n ==> w[6..n][k - 6] == w[k];
    assert forall k :: n <= k < |w| ==> w[n..][k - n] == w[k];
  }

  /** A bearer word at an uncovered place of the output betrays one at the same place of the input:
      the replaced match begins with a letter, which continues the token. */
  lemma BearerTransfer(table: seq<Option<nat>>, repl: string, s: string, i: nat, w: string, n: int)
    requires IsMatchTable(table, s) && i < |s| && table[i].None?
    requires BearerMarker(repl) && MatchesBeginWithB(table, s)
    requires BearerWord(w, n) && w <= Splice(table, repl, s, i)
    ensures exists e :: Occurs(Words(Bearer()), s, i, e)
  {
    CopiedOrDiverges(table, repl, s, i, w);
    if Copied(table, repl, s, i, w) {
      BearerWords(w);
      assert Occurs(Words(Bearer()), s, i, i + |w|);
    } else {
      var m: nat :| DivergesAt(table, repl, s, i, w, m);
      BearerLetters(w, n);
      BearerContinues(s, i, w, n, m);
    }
  }

  /** Cutting a token behind `m` and appending a letter leaves a bearer word. */
  lemma BearerContinues(s: string, i: nat, w: string, n: int, m: nat)
    requires BearerWord(w, n) && n <= m < |w| && i + m < |s|
    requires s[i..i + m] == w[..m] && s[i + m] in {'b', 'B'}
    ensures Occurs(Words(Bearer()), s, i, i + m + 1)
  {
    var u := s[i..i + m + 1];
    assert u == w[..m] + [s[i + m]];
    assert u[..6] == w[..6] && u[6..n] == w[6..n];
    assert u[n..] == w[n..m] + [s[i + m]];
    assert AllIn(TokenChar(true), w[n..m]) by {
      assert forall k :: 0 <= k < m - n ==> w[n..m][k] == w[n..][k];
    }
    assert BearerWord(u, n);
    BearerWords(u);
  }

  /** No bearer word begins inside the replacement. */
  lemma NoBearerInMarker(repl: string, a: nat, w: string, rest: string)
    requires BearerMarker(repl) && a < |repl| && w <= repl[a..] + rest
    ensures !Matches(Bearer(), w)
  {
    BearerWords(w);
    var whole := repl[a..] + rest;
    assert forall k :: 0 <= k < |w| ==> w[k] == whole[k];
    assert a == 0 ==> whole[7] == repl[7];
    forall n | BearerWord(w, n) ensures false {
      BearerLetters(w, n);
    }
  }

  lemma {:induction false} SpliceHasNoBearer(table: seq<Option<nat>>, repl: string, s: string, i: nat, a: int, e: int)
    requires IsMatchTable(table, s) && i <= |s|
    requires BearerMarker(repl) && MatchesBeginWithB(table, s)
    requires Covers(table, Words(Bearer()), s)
    ensures !Occurs(Words(Bearer()), Splice(table, repl, s, i), a, e)
    decreases |s| - i
  {
    var out := Splice(table, repl, s, i);
    if i == |s| || !(0 <= a <= e <= |out|) {
      BearerWords("");
      assert 0 <= a <= e <= |out| ==> out[a..e] == "";
    } else if table[i].None? {
      if a == 0 {
        var w := out[..e];
        assert out[a..e] == w;
        BearerWords(w);
        forall n | BearerWord(w, n) ensures exists f :: Occurs(Words(Bearer()), s, i, f) {
          BearerTransfer(table, repl, s, i, w, n);
        }
      } else {
        SpliceHasNoBearer(table, repl, s, i + 1, a - 1, e - 1);
        SliceBehind([s[i]], Splice(table, repl, s, i + 1), a, e);
      }
    } else {
      var n := |repl|;
      var next := table[i].value;
      if a >= n {
        SpliceHasNoBearer(table, repl, s, next, a - n, e - n);
        SliceBehind(repl, Splice(table, repl, s, next), a, e);
      } else {
        assert out[a..] == repl[a..] + Splice(table, repl, s, next);
        assert out[a..e] == out[a..][..e - a];
        NoBearerInMarker(repl, a, out[a..e], Splice(table, repl, s, next));
      }
    }
  }

  lemma BearerPassIsClean(s: string)
    ensures Clean(Words(Bearer()), Substitute(Bearer(), "Bearer [REDACTED]", s))
  {
    var table := MatchTable(Bearer(), s);
    BearerMarkerHolds();
    TableCovers(Bearer(), s);
    forall k | 0 <= k < |s| && table[k].Some? ensures s[k] in {'b', 'B'} {
      TableExact(Bearer(), s, k);
      var w := s[k..table[k].value];
      BearerWords(w);
      var n :| BearerWord(w, n);
      BearerLetters(w, n);
      assert w[0] == s[k];
    }
    forall a, e ensures !Occurs(Words(Bearer()), Substitute(Bearer(), "Bearer [REDACTED]", s), a, e) {
      SpliceHasNoBearer(table, "Bearer [REDACTED]", s, 0, a, e);
    }
  }

  // ---------------------------------------------------------------------------
  // The key-block pass and its own replacement
  // ---------------------------------------------------------------------------

  /** A word that avoids the replacement occurs in the output only where it occurs in the input. */
  lemma {:induction false} OccurrenceTransfer(table: seq<Option<nat>>, repl: string, s: string, i: nat, pre: string,
                                              f: string, post: string)
    returns (pre': string, post': string)
    requires IsMatchTable(table, s) && i <= |s| && repl != "" && f != ""
    requires repl[0] !in f && f[0] !in repl
    requires Splice(table, repl, s, i) == pre + f + post
    ensures s[i..] == pre' + f + post'
    decreases |s| - i
  {
    var out := Splice(table, repl, s, i);
    if table[i].None? {
      if pre == "" {
        CopiedWhole(table, repl, s, i, f);
        pre', post' := "", s[i + |f|..];
        assert s[i..] == s[i..i + |f|] + s[i + |f|..];
      } else {
        DropFront([s[i]], Splice(table, repl, s, i + 1), pre, f + post);
        pre', post' := OccurrenceTransfer(table, repl, s, i + 1, pre[1..], f, post);
        assert s[i..] == [s[i]] + s[i + 1..];
        pre' := [s[i]] + pre';
      }
    } else {
      var e := table[i].value;
      var next := Splice(table, repl, s, e);
      assert pre + f + post == pre + (f + post);
      PastReplacement(repl, next, pre, f, post);
      DropFront(repl, next, pre, f + post);
      pre', post' := OccurrenceTransfer(table, repl, s, e, pre[|repl|..], f, post);
      assert s[i..] == s[i..e] + s[e..];
      pre' := s[i..e] + pre';
    }
  }

  lemma PastReplacement(repl: string, next: string, pre: string, f: string, post: string)
    requires repl + next == pre + f + post && f != ""
    ensures f[0] in repl || |pre| >= |repl|
  {
    assert (pre + f + post)[|pre|] == f[0];
  }

  lemma FirstOf(u: string, v: string)
    requires u != ""
    ensures (u + v)[0] == u[0]
  {
  }

  lemma DropFront(p: string, q: string, pre: string, rest: string)
    requires p + q == pre + rest && |p| <= |pre|
    ensures q == pre[|p|..] + rest
  {
    assert q == (pre + rest)[|p|..];
  }

  /** Delimiters are nonempty, begin with a dash and have no bracket. */
  ghost predicate Delimiter(lang: Language) {
    forall w :: lang(w) ==> w != "" && w[0] == '-' && '[' !in w
  }

  lemma PemDelimiters()
    ensures Delimiter(Words(PemHeader())) && Delimiter(Words(PemFooter()))
  {
    forall w | Matches(PemHeader(), w) ensures w != "" && w[0] == '-' && '[' !in w {
      DelimiterWords("-----BEGIN ", "PRIVATE KEY-----", w);
    }
    forall w | Matches(PemFooter(), w) ensures w != "" && w[0] == '-' && '[' !in w {
      DelimiterWords("-----END ", "PRIVATE KEY-----", w);
    }
  }

  /** A block at an uncovered place of the output betrays one at the same place of the input: its
      header was copied, and a footer follows somewhere behind. */
  lemma BlockTransfer(header: Language, footer: Language, table: seq<Option<nat>>, repl: string, s: string, i: nat,
                      u: string, v: string, x: string, y: string) returns (v': string, y': string)
    requires Delimiter(header) && Delimiter(footer) && header(u) && footer(x)
    requires IsMatchTable(table, s) && i < |s| && Marker(repl)
    requires Splice(table, repl, s, i) == u + v + x + y
    ensures s[i..] == u + v' + x + y'
  {
    assert repl[0] !in u && u != "" && x != "" && repl[0] !in x && x[0] !in repl;
    hide Splice, IsMatchTable, Delimiter, Marker;
    assert u + v + x + y == u + (v + x + y);
    CopiedWhole(table, repl, s, i, u);
    DropFront(u, Splice(table, repl, s, i + |u|), u, v + x + y);
    assert u[|u|..] == "" && "" + (v + x + y) == v + x + y;
    v', y' := OccurrenceTransfer(table, repl, s, i + |u|, v, x, y);
    assert s[i..] == s[i..i + |u|] + s[i + |u|..];
    assert u + (v' + x + y') == u + v' + x + y';
  }

  lemma BlockAtStart(block: Language, header: Language, footer: Language, table: seq<Option<nat>>, repl: string,
                     s: string, i: nat, w: string)
    requires IsBlockLanguage(block, header, footer) && Delimiter(header) && Delimiter(footer)
    requires IsMatchTable(table, s) && i < |s| && Marker(repl)
    requires block(w) && w <= Splice(table, repl, s, i)
    ensures exists e :: Occurs(block, s, i, e)
  {
    var u, v, x :| BlockWord(header, footer, w, u, v, x);
    var v', y' := BlockTransfer(header, footer, table, repl, s, i, u, v, x, Splice(table, repl, s, i)[|w|..]);
    BlockFound(block, header, footer, s, i, u, v', x, y');
  }

  lemma BlockFound(block: Language, header: Language, footer: Language, s: string, i: nat, u: string, v: string,
                   x: string, y: string)
    requires IsBlockLanguage(block, header, footer) && header(u) && footer(x)
    requires i <= |s| && s[i..] == u + v + x + y
    ensures exists e :: Occurs(block, s, i, e)
  {
    var w := u + v + x;
    assert BlockWord(header, footer, w, u, v, x);
    var e := i + |w|;
    assert s[i..e] == s[i..][..|w|] == w;
    assert Occurs(block, s, i, e);
  }

  lemma NoBlockWithoutDash(block: Language, header: Language, footer: Language, w: string)
    requires IsBlockLanguage(block, header, footer) && Delimiter(header)
    requires w == "" || w[0] != '-'
    ensures !block(w)
  {
    forall u, v, x ensures !BlockWord(header, footer, w, u, v, x) {
      if u != "" {
        FirstOf(u, v + x);
        assert u + v + x == u + (v + x);
      }
    }
  }

  lemma {:induction false} SpliceHasNoBlock(block: Language, header: Language, footer: Language,
                                            table: seq<Option<nat>>, repl: string, s: string, i: nat, a: int, e: int)
    requires IsBlockLanguage(block, header, footer) && Delimiter(header) && Delimiter(footer)
    requires IsMatchTable(table, s) && i <= |s| && Marker(repl)
    requires Covers(table, block, s)
    ensures !Occurs(block, Splice(table, repl, s, i), a, e)
    decreases |s| - i
  {
    var out := Splice(table, repl, s, i);
    if !(0 <= a <= e <= |out|) {
    } else if i == |s| {
      assert out[a..e] == "";
      NoBlockWithoutDash(block, header, footer, "");
    } else if table[i].None? {
      if a == 0 {
        assert out[a..e] == out[..e];
        if block(out[..e]) {
          BlockAtStart(block, header, footer, table, repl, s, i, out[..e]);
        }
      } else {
        SpliceHasNoBlock(block, header, footer, table, repl, s, i + 1, a - 1, e - 1);
        SliceBehind([s[i]], Splice(table, repl, s, i + 1), a, e);
      }
    } else {
      var n := |repl|;
      if a >= n {
        SpliceHasNoBlock(block, header, footer, table, repl, s, table[i].value, a - n, e - n);
        SliceBehind(repl, Splice(table, repl, s, table[i].value), a, e);
      } else {
        assert |out[a..e]| > 0 ==> out[a..e][0] == repl[a];
        NoBlockWithoutDash(block, header, footer, out[a..e]);
      }
    }
  }

  lemma PemPassIsClean(s: string)
    ensures Clean(Words(Pem()), Substitute(Pem(), "[REDACTED_PRIVATE_KEY]", s))
  {
    PemMarker();
    PemWords();
    PemDelimiters();
    TableCovers(Pem(), s);
    forall a, e ensures !Occurs(Words(Pem()), Substitute(Pem(), "[REDACTED_PRIVATE_KEY]", s), a, e) {
      SpliceHasNoBlock(Words(Pem()), Words(PemHeader()), Words(PemFooter()),
                       MatchTable(Pem(), s), "[REDACTED_PRIVATE_KEY]", s, 0, a, e);
    }
  }

  // ---------------------------------------------------------------------------
  // Main results
  // ---------------------------------------------------------------------------

  /** No substring of `s` is a word of any pattern of the table. */
  ghost predicate SecretFree(s: string) {
    && Clean(Words(Bearer()), s)
    && Clean(Words(AccessToken()), s)
    && Clean(Words(ApiKey()), s)
    && Clean(Words(Pem()), s)
  }

  lemma RedactUnfold(text: string)
    ensures RedactSecrets(text) ==
            Substitute(Pem(), "[REDACTED_PRIVATE_KEY]",
            Substitute(ApiKey(), "[REDACTED_API_KEY]",
            Substitute(AccessToken(), "[REDACTED_ACCESS_TOKEN]",
            Substitute(Bearer(), "Bearer [REDACTED]", text))))
  {
    var rules := Rules();
    assert rules[1..][1..] == rules[2..] && rules[2..][1..] == rules[3..] && rules[3..][1..] == [];
    var t0 := Substitute(Bearer(), "Bearer [REDACTED]", text);
    var t1 := Substitute(AccessToken(), "[REDACTED_ACCESS_TOKEN]", t0);
    var t2 := Substitute(ApiKey(), "[REDACTED_API_KEY]", t1);
    var t3 := Substitute(Pem(), "[REDACTED_PRIVATE_KEY]", t2);
    assert ApplyRules(rules[3..], t2) == t3;
    assert ApplyRules(rules[2..], t1) == t3;
    assert ApplyRules(rules[1..], t0) == t3;
    if text == "" {
      assert t0 == "" && t1 == "" && t2 == "" && t3 == "";
    }
  }

  /** Redaction leaves no secret behind, whatever the text: not in it, not across the boundary of
      a replacement and not through a later rule. */
  lemma RedactedIsSecretFree(text: string)
    ensures SecretFree(RedactSecrets(text))
  {
    hide Clean, Substitute, Words, RedactSecrets;
    RedactUnfold(text);
    AccessTokenMarker();
    ApiKeyMarker();
    PemMarker();
    var m1, m2, m3 := "[REDACTED_ACCESS_TOKEN]", "[REDACTED_API_KEY]", "[REDACTED_PRIVATE_KEY]";
    var t0 := Substitute(Bearer(), "Bearer [REDACTED]", text);
    BearerPassIsClean(text);
    var t1 := Substitute(AccessToken(), m1, t0);
    BearerForeign(m1);
    AccessTokenForeign(m1);
    PassKeepsClean(Bearer(), AccessToken(), m1, t0);
    PassKeepsClean(AccessToken(), AccessToken(), m1, t0);
    var t2 := Substitute(ApiKey(), m2, t1);
    BearerForeign(m2);
    AccessTokenForeign(m2);
    ApiKeyForeign(m2);
    PassKeepsClean(Bearer(), ApiKey(), m2, t1);
    PassKeepsClean(AccessToken(), ApiKey(), m2, t1);
    PassKeepsClean(ApiKey(), ApiKey(), m2, t1);
    BearerForeign(m3);
    AccessTokenForeign(m3);
    ApiKeyForeign(m3);
    PassKeepsClean(Bearer(), Pem(), m3, t2);
    PassKeepsClean(AccessToken(), Pem(), m3, t2);
    PassKeepsClean(ApiKey(), Pem(), m3, t2);
    PemPassIsClean(t2);
  }

  lemma {:induction false} SpliceWithoutMatch(table: seq<Option<nat>>, repl: string, s: string, i: nat)
    requires IsMatchTable(table, s) && i <= |s|
    requires forall k :: 0 <= k < |s| ==> table[k].None?
    ensures Splice(table, repl, s, i) == s[i..]
    decreases |s| - i
  {
    if i < |s| {
      SpliceWithoutMatch(table, repl, s, i + 1);
    }
  }

  lemma SubstituteClean(r: Regex, repl: string, s: string)
    requires Consuming(r) && Clean(Words(r), s)
    ensures Substitute(r, repl, s) == s
  {
    forall k | 0 <= k < |s| ensures MatchTable(r, s)[k].None? {
      TableExact(r, s, k);
    }
    SpliceWithoutMatch(MatchTable(r, s), repl, s, 0);
  }

  /** Redaction changes a text exactly when the text contains a secret. */
  lemma RedactFixesExactlySecretFree(text: string)
    ensures RedactSecrets(text) == text <==> SecretFree(text)
  {
    if SecretFree(text) {
      RedactUnfold(text);
      SubstituteClean(Bearer(), "Bearer [REDACTED]", text);
      SubstituteClean(AccessToken(), "[REDACTED_ACCESS_TOKEN]", text);
      SubstituteClean(ApiKey(), "[REDACTED_API_KEY]", text);
      SubstituteClean(Pem(), "[REDACTED_PRIVATE_KEY]", text);
    }
    RedactedIsSecretFree(text);
  }

  lemma RedactIdempotent(text: string)
    ensures RedactSecrets(RedactSecrets(text)) == RedactSecrets(text)
  {
    RedactedIsSecretFree(text);
    RedactFixesExactlySecretFree(RedactSecrets(text));
  }

  // ---------------------------------------------------------------------------
  // What a pass keeps
  // ---------------------------------------------------------------------------

  /** A stretch of the input: one kept character or one replaced word. */
  datatype Piece = Kept(c: char) | Cut(word: string)

  function Source(pieces: seq<Piece>): string {
    if pieces == [] then ""
    else (match pieces[0] case Kept(c) => [c] case Cut(word) => word) + Source(pieces[1..])
  }

  function Target(pieces: seq<Piece>, repl: string): string {
    if pieces == [] then ""
    else (match pieces[0] case Kept(c) => [c] case Cut(_) => repl) + Target(pieces[1..], repl)
  }

  /** Read from the left, a character is kept where no word begins, and a word is cut where one does. */
  ghost predicate LeftmostCuts(lang: Language, pieces: seq<Piece>, rest: string)
    decreases pieces
  {
    if pieces == [] then rest == ""
    else
      match pieces[0]
      case Kept(c) =>
        && rest != "" && c == rest[0] && (forall e :: !Occurs(lang, rest, 0, e))
        && LeftmostCuts(lang, pieces[1..], rest[1..])
      case Cut(word) => word != "" && word <= rest && lang(word) && LeftmostCuts(lang, pieces[1..], rest[|word|..])
  }

  lemma {:induction false} CutsCover(lang: Language, pieces: seq<Piece>, rest: string)
    requires LeftmostCuts(lang, pieces, rest)
    ensures Source(pieces) == rest
    decreases pieces
  {
    if pieces != [] {
      match pieces[0]
      case Kept(c) =>
        CutsCover(lang, pieces[1..], rest[1..]);
        assert [rest[0]] + rest[1..] == rest;
      case Cut(word) =>
        CutsCover(lang, pieces[1..], rest[|word|..]);
        assert word + rest[|word|..] == rest;
    }
  }

  lemma OccursBehind(lang: Language, s: string, i: nat, e: int)
    requires i <= |s| && Occurs(lang, s[i..], 0, e)
    ensures Occurs(lang, s, i, i + e)
  {
    assert s[i..][0..e] == s[i..i + e];
  }

  lemma {:induction false} SplicePieces(r: Regex, repl: string, s: string, i: nat) returns (pieces: seq<Piece>)
    requires Consuming(r) && i <= |s|
    ensures LeftmostCuts(Words(r), pieces, s[i..])
    ensures Splice(MatchTable(r, s), repl, s, i) == Target(pieces, repl)
    decreases |s| - i
  {
    var table := MatchTable(r, s);
    if i == |s| {
      pieces := [];
    } else if table[i].None? {
      var rest := SplicePieces(r, repl, s, i + 1);
      pieces := [Kept(s[i])] + rest;
      assert s[i..][1..] == s[i + 1..];
      forall e ensures !Occurs(Words(r), s[i..], 0, e) {
        TableExact(r, s, i);
        if Occurs(Words(r), s[i..], 0, e) {
          OccursBehind(Words(r), s, i, e);
        }
      }
    } else {
      var e := table[i].value;
      var rest := SplicePieces(r, repl, s, e);
      pieces := [Cut(s[i..e])] + rest;
      TableExact(r, s, i);
      assert s[i..][|s[i..e]|..] == s[e..];
      assert s[i..][..|s[i..e]|] == s[i..e];
    }
  }

  /** A pass replaces words, leftmost first and none overlapping another, and keeps every other
      character in its place. */
  lemma PassReplacesOnlyWords(r: Regex, repl: string, s: string)
    requires Consuming(r)
    ensures exists pieces ::
              && LeftmostCuts(Words(r), pieces, s) && Source(pieces) == s
              && Substitute(r, repl, s) == Target(pieces, repl)
  {
    var pieces := SplicePieces(r, repl, s, 0);
    assert s[0..] == s;
    CutsCover(Words(r), pieces, s);
  }

  // ---------------------------------------------------------------------------
  // How much text a match consumes
  // ---------------------------------------------------------------------------

  ghost predicate UniqueEnd(r: Regex, s: string, i: nat)
    requires i <= |s|
  {
    forall e, f :: MatchesSpan(r, s, i, e) && MatchesSpan(r, s, i, f) ==> e == f
  }

  lemma {:induction false} GreedyIsLongest(cc: CharClass, s: string, i: nat)
    requires i <= |s|
    ensures Ends(Greedy(cc), s, i) != []
    ensures forall e :: e in Ends(Greedy(cc), s, i) ==> e <= Ends(Greedy(cc), s, i)[0]
    decreases |s| - i
  {
    if i < |s| && In(cc, s[i]) {
      GreedyIsLongest(cc, s, i + 1);
    }
  }

  /** A pattern with one possible head and a greedy tail consumes the longest match. */
  lemma GreedyTailIsLongest(head: Regex, cc: CharClass, s: string, i: nat, e: nat)
    requires i <= |s| && UniqueEnd(head, s, i)
    requires MatchesSpan(Cat(head, Greedy(cc)), s, i, e)
    ensures Ends(Cat(head, Greedy(cc)), s, i) != []
    ensures e <= Ends(Cat(head, Greedy(cc)), s, i)[0]
  {
    var tail := Greedy(cc);
    var starts := Ends(head, s, i);
    EndsExact(Cat(head, tail), s, i);
    EndsExact(head, s, i);
    ContinueExact(tail, s, i, starts);
    assert e in Continue(tail, s, i, starts);
    var m: nat :| m in starts && MatchesSpan(tail, s, m, e);
    assert starts[0] in starts;
    EndsExact(tail, s, m);
    GreedyIsLongest(cc, s, m);
  }

  /** A token is consumed whole: the bearer, access-token and key rules take the longest match. */
  lemma TokensAreConsumedWhole(r: Regex, s: string, i: nat, e: nat)
    requires r == Bearer() || r == AccessToken() || r == ApiKey()
    requires i <= |s| && MatchesSpan(r, s, i, e)
    ensures FirstEnd(r, s, i).Some? && e <= FirstEnd(r, s, i).value
  {
    if r == Bearer() {
      forall e, f | MatchesSpan(BearerHead(), s, i, e) && MatchesSpan(BearerHead(), s, i, f) ensures e == f {
        BearerHeadEnd(s, i, e);
        BearerHeadEnd(s, i, f);
      }
      GreedyTailIsLongest(BearerHead(), TokenChar(true), s, i, e);
    } else if r == AccessToken() {
      FixedHeadEnd("ya29.", 1, s, i);
      GreedyTailIsLongest(AccessTokenHead(), TokenChar(false), s, i, e);
    } else {
      FixedHeadEnd("AIza", 10, s, i);
      GreedyTailIsLongest(ApiKeyHead(), TokenChar(false), s, i, e);
    }
  }

  lemma FixedHeadEnd(literal: string, n: nat, s: string, i: nat)
    requires i <= |s|
    ensures UniqueEnd(Cat(Literal(literal), Repeat(TokenChar(false), n)), s, i)
  {
    var head := Cat(Literal(literal), Repeat(TokenChar(false), n));
    forall e | MatchesSpan(head, s, i, e) ensures e == i + |literal| + n {
      var u, v := CatSplit(Literal(literal), Repeat(TokenChar(false), n), s[i..e]);
    }
  }

  lemma BearerHeadEnd(s: string, i: nat, e: int)
    requires MatchesSpan(BearerHead(), s, i, e)
    ensures i + 8 <= e <= |s|
    ensures forall k :: i + 6 <= k < e - 1 ==> In(Space, s[k])
    ensures In(TokenChar(true), s[e - 1])
  {
    var u, v, y := BearerHeadSplit(s[i..e]);
    assert forall k :: i <= k < e ==> s[k] == s[i..e][k - i];
    assert forall k :: i + 6 <= k < e - 1 ==> s[k] == v[k - i - 6];
    assert s[e - 1] == y[0];
  }

  lemma {:induction false} ContinueFirst(r: Regex, s: string, i: nat, starts: seq<nat>) returns (k: nat)
    requires forall k :: 0 <= k < |starts| ==> i <= starts[k] <= |s|
    requires Continue(r, s, i, starts) != []
    ensures k < |starts|
    ensures Ends(r, s, starts[k]) != [] && Continue(r, s, i, starts)[0] == Ends(r, s, starts[k])[0]
    ensures forall j :: 0 <= j < k ==> Ends(r, s, starts[j]) == []
    decreases |starts|
  {
    if Ends(r, s, starts[0]) != [] {
      k := 0;
    } else {
      var l := ContinueFirst(r, s, i, starts[1..]);
      k := l + 1;
    }
  }

  lemma {:induction false} LazyAscends(s: string, i: nat)
    requires i <= |s|
    ensures |Ends(Lazy(AnyChar), s, i)| == |s| - i + 1
    ensures forall k :: 0 <= k <= |s| - i ==> Ends(Lazy(AnyChar), s, i)[k] == i + k
    decreases |s| - i
  {
    if i < |s| {
      LazyAscends(s, i + 1);
    }
  }

  /** A key block ends at the first footer behind its header. */
  lemma KeyBlockEndsAtFirstFooter(s: string, i: nat) returns (h: nat, f: nat)
    requires i <= |s| && FirstEnd(Pem(), s, i).Some?
    ensures MatchesSpan(PemHeader(), s, i, h)
    ensures h <= f && MatchesSpan(PemFooter(), s, f, FirstEnd(Pem(), s, i).value)
    ensures forall g, e :: h <= g < f ==> !MatchesSpan(PemFooter(), s, g, e)
  {
    var block := Cat(Lazy(AnyChar), PemFooter());
    var headers := Ends(PemHeader(), s, i);
    EndsExact(PemHeader(), s, i);
    var k := ContinueFirst(block, s, i, headers);
    h := headers[k];
    assert h in headers;
    var starts := Ends(Lazy(AnyChar), s, h);
    LazyAscends(s, h);
    var l := ContinueFirst(PemFooter(), s, h, starts);
    f := starts[l];
    EndsExact(PemFooter(), s, f);
    assert Ends(PemFooter(), s, f)[0] in Ends(PemFooter(), s, f);
    forall g, e | h <= g < f ensures !MatchesSpan(PemFooter(), s, g, e) {
      assert starts[g - h] == g;
      EndsExact(PemFooter(), s, g);
    }
  }
}
