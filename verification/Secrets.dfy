/** Which texts are secrets, character by character, and what redaction does with them. Nothing here
    speaks of the rule table or of its regular expressions but the lemmas that tie it to them. */
module Secrets {
  import opened Text
  import opened Redaction
  import opened RedactionTheorems

  // ---------------------------------------------------------------------------
  // The four kinds of secrets
  // ---------------------------------------------------------------------------

  /** What `\s` matches in a text. */
  predicate IsSpace(c: char) {
    || c in {'\t', '\n', '\U{0b}', '\U{0c}', '\r', '\U{1c}', '\U{1d}', '\U{1e}', '\U{1f}', ' '}
    || c in {'\U{85}', '\U{a0}', '\U{1680}', '\U{2028}', '\U{2029}', '\U{202f}', '\U{205f}', '\U{3000}'}
    || '\U{2000}' <= c <= '\U{200a}'
  }

  /** A letter, a digit, a dot, an underscore or a hyphen. */
  predicate IsTokenChar(c: char) {
    || 'a' <= c <= 'z' || 'A' <= c <= 'Z' || '0' <= c <= '9'
    || c == '.' || c == '_' || c == '-'
  }

  /** The same without regard to case: dotted and dotless i, long s and the Kelvin sign are letters too. */
  predicate IsFoldedTokenChar(c: char) {
    IsTokenChar(c) || c == '\U{130}' || c == '\U{131}' || c == '\U{17f}' || c == '\U{212a}'
  }

  predicate IsBearerWord(w: string) {
    && |w| == 6
    && (w[0] == 'b' || w[0] == 'B') && (w[1] == 'e' || w[1] == 'E') && (w[2] == 'a' || w[2] == 'A')
    && (w[3] == 'r' || w[3] == 'R') && (w[4] == 'e' || w[4] == 'E') && (w[5] == 'r' || w[5] == 'R')
  }

  /** `bearer` in any case, space, and a token. */
  ghost predicate IsBearer(w: string) {
    exists n :: 7 <= n < |w| && IsBearerAt(w, n)
  }

  ghost predicate IsBearerAt(w: string, n: int)
    requires 7 <= n < |w|
  {
    && IsBearerWord(w[..6])
    && (forall k :: 6 <= k < n ==> IsSpace(w[k]))
    && (forall k :: n <= k < |w| ==> IsFoldedTokenChar(w[k]))
  }

  /** `ya29.` and a token. */
  predicate IsAccessToken(w: string) {
    |w| >= 6 && w[..5] == "ya29." && forall k :: 5 <= k < |w| ==> IsTokenChar(w[k])
  }

  /** `AIza` and ten token characters or more. */
  predicate IsApiKey(w: string) {
    |w| >= 14 && w[..4] == "AIza" && forall k :: 4 <= k < |w| ==> IsTokenChar(w[k])
  }

  /** `begin`, upper-case letters and blanks, `PRIVATE KEY-----`. */
  predicate IsDelimiter(begin: string, w: string) {
    && |w| >= |begin| + 16
    && w[..|begin|] == begin && w[|w| - 16..] == "PRIVATE KEY-----"
    && forall k :: |begin| <= k < |w| - 16 ==> 'A' <= w[k] <= 'Z' || w[k] == ' '
  }

  predicate IsHeader(w: string) {
    IsDelimiter("-----BEGIN ", w)
  }

  predicate IsFooter(w: string) {
    IsDelimiter("-----END ", w)
  }

  ghost predicate IsKeyBlockAt(w: string, h: int, f: int) {
    0 <= h <= f <= |w| && IsHeader(w[..h]) && IsFooter(w[f..])
  }

  /** A header, any text, and a footer. */
  ghost predicate IsKeyBlock(w: string) {
    exists h, f :: IsKeyBlockAt(w, h, f)
  }

  // ---------------------------------------------------------------------------
  // The patterns match exactly these
  // ---------------------------------------------------------------------------

  lemma SpacesAre(w: string)
    ensures AllIn(Space, w) <==> forall k :: 0 <= k < |w| ==> IsSpace(w[k])
  {
    forall c: char ensures In(Space, c) <==> IsSpace(c) {
    }
  }

  lemma TokenCharsAre(w: string)
    ensures AllIn(TokenChar(false), w) <==> forall k :: 0 <= k < |w| ==> IsTokenChar(w[k])
    ensures AllIn(TokenChar(true), w) <==> forall k :: 0 <= k < |w| ==> IsFoldedTokenChar(w[k])
  {
  }

  lemma BearerLettersAre(w: string)
    ensures SameLetters("bearer", w) <==> IsBearerWord(w)
  {
    var word := "bearer";
    assert word[0] == 'b' && word[1] == 'e' && word[2] == 'a' && word[3] == 'r' && word[4] == 'e' && word[5] == 'r';
    if |w| == 6 {
      assert SameLetters(word, w) <==> SameLetter('b', w[0]) && SameLetter('e', w[1]) && SameLetter('a', w[2])
                                       && SameLetter('r', w[3]) && SameLetter('e', w[4]) && SameLetter('r', w[5]);
    }
  }

  lemma BearerAt(w: string, n: int)
    requires 7 <= n < |w|
    ensures BearerWord(w, n) <==> IsBearerAt(w, n)
  {
    BearerLettersAre(w[..6]);
    SpacesAre(w[6..n]);
    TokenCharsAre(w[n..]);
    hide IsBearerWord, SameLetters, IsSpace, IsFoldedTokenChar, AllIn;
    forall k ensures 6 <= k < n ==> w[k] == w[6..n][k - 6] {
    }
    forall k ensures n <= k < |w| ==> w[k] == w[n..][k - n] {
    }
    assert forall k :: 0 <= k < n - 6 ==> w[6..n][k] == w[k + 6];
    assert forall k :: 0 <= k < |w| - n ==> w[n..][k] == w[k + n];
  }

  /** The bearer pattern matches exactly `bearer` in any case, space, and a token. */
  lemma BearerMatches(w: string)
    ensures Matches(Bearer(), w) <==> IsBearer(w)
  {
    BearerWords(w);
    hide Bearer, Matches, IsBearerAt;
    if n :| BearerWord(w, n) {
      BearerAt(w, n);
    }
    if n :| 7 <= n < |w| && IsBearerAt(w, n) {
      BearerAt(w, n);
    }
  }

  lemma TailAllIn(literal: string, w: string)
    requires |w| >= |literal|
    ensures AllIn(TokenChar(false), w[|literal|..]) <==> forall k :: |literal| <= k < |w| ==> IsTokenChar(w[k])
  {
    var m := |literal|;
    TokenCharsAre(w[m..]);
    hide IsTokenChar, AllIn;
    assert forall k :: m <= k < |w| ==> w[k] == w[m..][k - m];
    assert forall k :: 0 <= k < |w| - m ==> w[m..][k] == w[k + m];
  }

  lemma LiteralTokenJoin(literal: string, n: nat, w: string)
    requires |w| >= |literal| + n && w[..|literal|] == literal && AllIn(TokenChar(false), w[|literal|..])
    ensures Matches(Cat(Cat(Literal(literal), Repeat(TokenChar(false), n)), Greedy(TokenChar(false))), w)
  {
    var t := w[|literal|..];
    var head, tail := t[..n], t[n..];
    CatJoin(Literal(literal), Repeat(TokenChar(false), n), literal, head);
    CatJoin(Cat(Literal(literal), Repeat(TokenChar(false), n)), Greedy(TokenChar(false)), literal + head, tail);
    assert w == literal + t && t == head + tail;
    ConcatAssoc(literal, head, tail);
  }

  lemma LiteralTokenMatches(literal: string, n: nat, w: string)
    ensures Matches(Cat(Cat(Literal(literal), Repeat(TokenChar(false), n)), Greedy(TokenChar(false))), w)
            <==> |w| >= |literal| + n && w[..|literal|] == literal
                 && forall k :: |literal| <= k < |w| ==> IsTokenChar(w[k])
  {
    hide Matches, IsTokenChar, AllIn;
    if |w| >= |literal| {
      TailAllIn(literal, w);
    }
    if Matches(Cat(Cat(Literal(literal), Repeat(TokenChar(false), n)), Greedy(TokenChar(false))), w) {
      LiteralTokenWords(literal, n, w);
    } else if |w| >= |literal| + n && w[..|literal|] == literal && AllIn(TokenChar(false), w[|literal|..]) {
      LiteralTokenJoin(literal, n, w);
    }
  }

  lemma AccessTokenMatches(w: string)
    ensures Matches(AccessToken(), w) <==> IsAccessToken(w)
  {
    hide Matches;
    LiteralTokenMatches("ya29.", 1, w);
  }

  lemma ApiKeyMatches(w: string)
    ensures Matches(ApiKey(), w) <==> IsApiKey(w)
  {
    hide Matches;
    LiteralTokenMatches("AIza", 10, w);
  }

  lemma DelimiterSplit(begin: string, tail: string, w: string) returns (v: string)
    requires Matches(Cat(Literal(begin), Cat(Greedy(UpperOrSpace), Literal(tail))), w)
    ensures w == begin + v + tail && AllIn(UpperOrSpace, v)
  {
    var u, t := CatSplit(Literal(begin), Cat(Greedy(UpperOrSpace), Literal(tail)), w);
    var x;
    v, x := CatSplit(Greedy(UpperOrSpace), Literal(tail), t);
    ConcatAssoc(begin, v, tail);
  }

  lemma DelimiterJoin(begin: string, tail: string, v: string)
    requires AllIn(UpperOrSpace, v)
    ensures Matches(Cat(Literal(begin), Cat(Greedy(UpperOrSpace), Literal(tail))), begin + v + tail)
  {
    CatJoin(Greedy(UpperOrSpace), Literal(tail), v, tail);
    CatJoin(Literal(begin), Cat(Greedy(UpperOrSpace), Literal(tail)), begin, v + tail);
    ConcatAssoc(begin, v, tail);
  }

  lemma DelimiterMatches(begin: string, w: string)
    ensures Matches(Cat(Literal(begin), Cat(Greedy(UpperOrSpace), Literal("PRIVATE KEY-----"))), w)
            <==> IsDelimiter(begin, w)
  {
    var tail := "PRIVATE KEY-----";
    assert |tail| == 16;
    hide Matches;
    if Matches(Cat(Literal(begin), Cat(Greedy(UpperOrSpace), Literal(tail))), w) {
      var v := DelimiterSplit(begin, tail, w);
      DelimiterShape(begin, v, tail);
    }
    if IsDelimiter(begin, w) {
      var v := w[|begin|..|w| - 16];
      assert w == begin + v + tail;
      DelimiterJoin(begin, tail, v);
    }
  }

  lemma DelimiterShape(begin: string, v: string, tail: string)
    requires AllIn(UpperOrSpace, v) && tail == "PRIVATE KEY-----" && |tail| == 16
    ensures IsDelimiter(begin, begin + v + tail)
  {
    var w := begin + v + tail;
    assert w[|w| - 16..] == tail && w[..|begin|] == begin;
    forall k | |begin| <= k < |w| - 16 ensures 'A' <= w[k] <= 'Z' || w[k] == ' ' {
      assert w[k] == v[k - |begin|];
    }
  }

  /** The key-block pattern matches exactly a header, any text, and a footer. */
  lemma KeyBlockMatches(w: string)
    ensures Matches(Pem(), w) <==> IsKeyBlock(w)
  {
    BlockWords(PemHeader(), PemFooter(), w);
    hide Matches, IsDelimiter;
    if u, v, x :| BlockWord(Words(PemHeader()), Words(PemFooter()), w, u, v, x) {
      BlockIsKeyBlock(w, u, v, x);
    }
    if h, f :| IsKeyBlockAt(w, h, f) {
      KeyBlockIsBlock(w, h, f);
    }
  }

  lemma BlockIsKeyBlock(w: string, u: string, v: string, x: string)
    requires BlockWord(Words(PemHeader()), Words(PemFooter()), w, u, v, x)
    ensures IsKeyBlockAt(w, |u|, |u + v|)
  {
    DelimiterMatches("-----BEGIN ", u);
    DelimiterMatches("-----END ", x);
    hide Matches, IsDelimiter;
    assert w[..|u|] == u && w[|u + v|..] == x;
  }

  lemma KeyBlockIsBlock(w: string, h: int, f: int)
    requires IsKeyBlockAt(w, h, f)
    ensures BlockWord(Words(PemHeader()), Words(PemFooter()), w, w[..h], w[h..f], w[f..])
  {
    DelimiterMatches("-----BEGIN ", w[..h]);
    DelimiterMatches("-----END ", w[f..]);
    hide Matches, IsDelimiter;
    assert w == w[..h] + w[h..f] + w[f..];
  }

  // ---------------------------------------------------------------------------
  // Which match the engine takes
  // ---------------------------------------------------------------------------

  datatype Choice = Longest | Shortest

  /** The first `n` characters are a secret, and no secret that begins here is longer (or shorter). */
  ghost predicate Best(lang: Language, choice: Choice, rest: string, n: int) {
    && Occurs(lang, rest, 0, n)
    && forall e :: Occurs(lang, rest, 0, e) ==> if choice == Longest then e <= n else n <= e
  }

  /** Read from the left, a character is kept where no secret begins; where one does, the best one is
      cut out as a whole. */
  ghost predicate Cuts(lang: Language, choice: Choice, pieces: seq<Piece>, rest: string)
    decreases pieces
  {
    if pieces == [] then rest == ""
    else
      match pieces[0]
      case Kept(c) =>
        && rest != "" && c == rest[0] && (forall e :: !Occurs(lang, rest, 0, e))
        && Cuts(lang, choice, pieces[1..], rest[1..])
      case Cut(word) =>
        && word != "" && word <= rest && Best(lang, choice, rest, |word|)
        && Cuts(lang, choice, pieces[1..], rest[|word|..])
  }

  /** `out` is `s` with each secret, cut from the left, replaced by `repl`. */
  ghost predicate Pass(lang: Language, choice: Choice, repl: string, s: string, out: string) {
    exists pieces :: Cuts(lang, choice, pieces, s) && out == Target(pieces, repl)
  }

  lemma {:induction false} CutsUnique(lang: Language, choice: Choice, p: seq<Piece>, q: seq<Piece>, rest: string)
    requires Cuts(lang, choice, p, rest) && Cuts(lang, choice, q, rest)
    ensures p == q
    decreases p
  {
    if p != [] && q != [] {
      FirstPieceUnique(lang, choice, p, q, rest);
      match p[0] {
        case Kept(c) => CutsUnique(lang, choice, p[1..], q[1..], rest[1..]);
        case Cut(word) => CutsUnique(lang, choice, p[1..], q[1..], rest[|word|..]);
      }
      assert p == [p[0]] + p[1..] && q == [q[0]] + q[1..];
    }
  }

  lemma FirstPieceUnique(lang: Language, choice: Choice, p: seq<Piece>, q: seq<Piece>, rest: string)
    requires Cuts(lang, choice, p, rest) && Cuts(lang, choice, q, rest) && p != [] && q != []
    ensures p[0] == q[0]
  {
    if p[0].Cut? && q[0].Cut? {
      assert Occurs(lang, rest, 0, |p[0].word|) && Occurs(lang, rest, 0, |q[0].word|);
      assert p[0].word == rest[..|p[0].word|] && q[0].word == rest[..|q[0].word|];
    }
  }

  /** A pass has one result. */
  lemma PassUnique(lang: Language, choice: Choice, repl: string, s: string, x: string, y: string)
    requires Pass(lang, choice, repl, s, x) && Pass(lang, choice, repl, s, y)
    ensures x == y
  {
    var p :| Cuts(lang, choice, p, s) && x == Target(p, repl);
    var q :| Cuts(lang, choice, q, s) && y == Target(q, repl);
    CutsUnique(lang, choice, p, q, s);
  }

  /** The engine's preferred match at a position is the best one. */
  ghost predicate Takes(r: Regex, choice: Choice)
    requires Consuming(r)
  {
    forall s: string, i: nat, e: int :: i <= |s| && MatchesSpan(r, s, i, e) ==>
      FirstEnd(r, s, i).Some?
      && if choice == Longest then e <= FirstEnd(r, s, i).value else FirstEnd(r, s, i).value <= e
  }

  lemma TokensTakeLongest(r: Regex)
    requires r == Bearer() || r == AccessToken() || r == ApiKey()
    ensures Consuming(r) && Takes(r, Longest)
  {
    assert Consuming(r);
    forall s: string, i: nat, e: int | i <= |s| && MatchesSpan(r, s, i, e)
      ensures FirstEnd(r, s, i).Some? && e <= FirstEnd(r, s, i).value
    {
      TokensAreConsumedWhole(r, s, i, e);
    }
  }

  /** Behind its beginning, a delimiter has dashes only at its end, five of them. */
  lemma DelimiterDashes(begin: string, w: string)
    requires IsDelimiter(begin, w)
    ensures forall k :: |begin| <= k < |w| - 5 ==> w[k] != '-'
    ensures forall k :: |w| - 5 <= k < |w| ==> w[k] == '-'
  {
    var tail := w[|w| - 16..];
    assert forall k :: |w| - 16 <= k < |w| ==> w[k] == tail[k - (|w| - 16)];
    assert tail == "PRIVATE KEY-----";
  }

  lemma DelimiterText(begin: string, s: string, i: nat, e: int)
    requires i <= e <= |s| && IsDelimiter(begin, s[i..e])
    ensures e >= i + |begin| + 16
    ensures forall k :: i + |begin| <= k < e - 5 ==> s[k] != '-'
    ensures forall k :: e - 5 <= k < e ==> s[k] == '-'
  {
    var w := s[i..e];
    DelimiterDashes(begin, w);
    assert forall k :: i <= k < e ==> s[k] == w[k - i];
  }

  /** Of two delimiters that begin alike at one place, neither is longer. */
  lemma DelimiterEndUnique(begin: string, s: string, i: nat, m: int, n: int)
    requires i <= m <= |s| && i <= n <= |s| && IsDelimiter(begin, s[i..m]) && IsDelimiter(begin, s[i..n])
    ensures m == n
  {
    DelimiterText(begin, s, i, m);
    DelimiterText(begin, s, i, n);
    hide IsDelimiter;
    assert s[m - 5] == '-' && s[n - 5] == '-';
  }

  lemma SpanIsDelimiter(begin: string, s: string, i: nat, e: int)
    requires MatchesSpan(Cat(Literal(begin), Cat(Greedy(UpperOrSpace), Literal("PRIVATE KEY-----"))), s, i, e)
    ensures i <= e <= |s| && IsDelimiter(begin, s[i..e])
  {
    hide Matches, IsDelimiter;
    DelimiterMatches(begin, s[i..e]);
  }

  /** A footer that begins behind the beginning of another one ends behind its end. */
  lemma FooterBehindFooter(s: string, f: int, e: int, g: int, d: int)
    requires 0 <= f <= e <= |s| && IsFooter(s[f..e]) && f < g <= d <= |s| && IsFooter(s[g..d])
    ensures e < d
  {
    FooterText(s, f, e);
    FooterText(s, g, d);
    hide IsDelimiter;
    assert s[g + 4] == '-';
  }

  lemma FooterText(s: string, f: int, e: int)
    requires 0 <= f <= e <= |s| && IsFooter(s[f..e])
    ensures e >= f + 25
    ensures forall k :: f <= k < f + 5 ==> s[k] == '-'
    ensures forall k :: f + 5 <= k < e - 5 ==> s[k] != '-'
  {
    var x, begin := s[f..e], "-----END ";
    DelimiterText(begin, s, f, e);
    assert forall k :: 0 <= k < 9 ==> s[f + k] == x[..9][k] == begin[k];
    assert forall k :: f <= k < f + 9 ==> s[k] == begin[k - f];
  }

  /** Where a key block begins, the engine takes the shortest one. */
  lemma KeyBlocksTakeShortest()
    ensures Consuming(Pem()) && Takes(Pem(), Shortest)
  {
    assert Consuming(Pem());
    forall s: string, i: nat, e: int | i <= |s| && MatchesSpan(Pem(), s, i, e)
      ensures FirstEnd(Pem(), s, i).Some? && FirstEnd(Pem(), s, i).value <= e
    {
      ShortestBlock(s, i, e);
    }
  }

  lemma ShortestBlock(s: string, i: nat, e: int)
    requires i <= |s| && MatchesSpan(Pem(), s, i, e)
    ensures FirstEnd(Pem(), s, i).Some? && FirstEnd(Pem(), s, i).value <= e
  {
    BlockIsFound(s, i, e);
    var h, f := KeyBlockEndsAtFirstFooter(s, i);
    hide Matches, IsDelimiter, FirstEnd;
    var end := FirstEnd(Pem(), s, i).value;
    var h', f' := BlockParts(s, i, e);
    SpanIsDelimiter("-----BEGIN ", s, i, h);
    SpanIsDelimiter("-----END ", s, f, end);
    DelimiterEndUnique("-----BEGIN ", s, i, h, h');
    FooterNotEarlier(s, h, f, f', e);
    if f' == f {
      DelimiterEndUnique("-----END ", s, f, e, end);
    } else {
      FooterBehindFooter(s, f, end, f', e);
    }
  }

  lemma BlockIsFound(s: string, i: nat, e: int)
    requires i <= |s| && MatchesSpan(Pem(), s, i, e)
    ensures FirstEnd(Pem(), s, i).Some?
  {
    hide Matches;
    EndsExact(Pem(), s, i);
    var n: nat := e;
    assert n in Ends(Pem(), s, i);
  }

  lemma BlockParts(s: string, i: nat, e: int) returns (h: int, f: int)
    requires i <= |s| && MatchesSpan(Pem(), s, i, e)
    ensures i <= h <= f <= e <= |s| && IsHeader(s[i..h]) && IsFooter(s[f..e])
  {
    hide Matches, IsDelimiter;
    KeyBlockMatches(s[i..e]);
    var m, n :| IsKeyBlockAt(s[i..e], m, n);
    h, f := i + m, i + n;
    assert s[i..e][..m] == s[i..h] && s[i..e][n..] == s[f..e];
  }

  lemma FooterNotEarlier(s: string, h: int, f: int, f': int, e: int)
    requires 0 <= h <= f <= |s| && h <= f' <= e <= |s| && IsFooter(s[f'..e])
    requires forall g, d :: h <= g < f ==> !MatchesSpan(PemFooter(), s, g, d)
    ensures f <= f'
  {
    hide Matches, IsDelimiter;
    DelimiterMatches("-----END ", s[f'..e]);
    assert MatchesSpan(PemFooter(), s, f', e);
  }

  // ---------------------------------------------------------------------------
  // Redaction, character by character
  // ---------------------------------------------------------------------------

  ghost predicate SameLanguage(r: Regex, lang: Language) {
    forall w :: Matches(r, w) <==> lang(w)
  }

  lemma SpanOccurs(r: Regex, lang: Language, s: string, i: nat, e: int)
    requires i <= |s| && SameLanguage(r, lang)
    ensures MatchesSpan(r, s, i, i + e) <==> Occurs(lang, s[i..], 0, e)
  {
    hide Matches;
    if 0 <= e && i + e <= |s| {
      assert s[i..][0..e] == s[i..i + e];
    }
  }

  lemma NothingBegins(r: Regex, lang: Language, s: string, i: nat, e: int)
    requires i < |s| && Consuming(r) && SameLanguage(r, lang) && MatchTable(r, s)[i].None?
    ensures !Occurs(lang, s[i..], 0, e)
  {
    hide Matches, SameLanguage;
    TableExact(r, s, i);
    SpanOccurs(r, lang, s, i, e);
    assert MatchesSpan(r, s, i, i + e) ==> Occurs(Words(r), s, i, i + e);
  }

  lemma BestIsTaken(r: Regex, lang: Language, choice: Choice, s: string, i: nat)
    requires i < |s| && Consuming(r) && SameLanguage(r, lang) && Takes(r, choice) && MatchTable(r, s)[i].Some?
    ensures Best(lang, choice, s[i..], MatchTable(r, s)[i].value - i)
  {
    var end := MatchTable(r, s)[i].value;
    TableExact(r, s, i);
    hide Matches, SameLanguage;
    assert MatchesSpan(r, s, i, end);
    SpanOccurs(r, lang, s, i, end - i);
    forall e | Occurs(lang, s[i..], 0, e) ensures if choice == Longest then e <= end - i else end - i <= e {
      SpanOccurs(r, lang, s, i, e);
    }
  }

  lemma {:induction false} SpliceCuts(r: Regex, lang: Language, choice: Choice, repl: string, s: string, i: nat)
    returns (pieces: seq<Piece>)
    requires i <= |s| && Consuming(r) && SameLanguage(r, lang) && Takes(r, choice)
    ensures Cuts(lang, choice, pieces, s[i..])
    ensures Splice(MatchTable(r, s), repl, s, i) == Target(pieces, repl)
    decreases |s| - i
  {
    hide SameLanguage, Takes, MatchTable, Best, Occurs;
    var table := MatchTable(r, s);
    if i == |s| {
      pieces := [];
    } else if table[i].None? {
      var rest := SpliceCuts(r, lang, choice, repl, s, i + 1);
      pieces := [Kept(s[i])] + rest;
      assert s[i..][1..] == s[i + 1..] && pieces[1..] == rest;
      forall e ensures !Occurs(lang, s[i..], 0, e) {
        NothingBegins(r, lang, s, i, e);
      }
    } else {
      var e := table[i].value;
      var rest := SpliceCuts(r, lang, choice, repl, s, e);
      pieces := [Cut(s[i..e])] + rest;
      BestIsTaken(r, lang, choice, s, i);
      assert s[i..][|s[i..e]|..] == s[e..] && pieces[1..] == rest;
      assert s[i..][..|s[i..e]|] == s[i..e];
    }
  }

  lemma SubstituteIsPass(r: Regex, lang: Language, choice: Choice, repl: string, s: string)
    requires Consuming(r) && SameLanguage(r, lang) && Takes(r, choice)
    ensures Pass(lang, choice, repl, s, Substitute(r, repl, s))
  {
    hide SameLanguage, Takes, Cuts;
    var pieces := SpliceCuts(r, lang, choice, repl, s, 0);
    assert s[0..] == s;
  }

  lemma LanguagesAre()
    ensures SameLanguage(Bearer(), IsBearer) && SameLanguage(AccessToken(), IsAccessToken)
    ensures SameLanguage(ApiKey(), IsApiKey) && SameLanguage(Pem(), IsKeyBlock)
  {
    hide Matches, IsBearer, IsAccessToken, IsApiKey, IsKeyBlock;
    forall w ensures Matches(Bearer(), w) <==> IsBearer(w) {
      BearerMatches(w);
    }
    forall w ensures Matches(AccessToken(), w) <==> IsAccessToken(w) {
      AccessTokenMatches(w);
    }
    forall w ensures Matches(ApiKey(), w) <==> IsApiKey(w) {
      ApiKeyMatches(w);
    }
    forall w ensures Matches(Pem(), w) <==> IsKeyBlock(w) {
      KeyBlockMatches(w);
    }
  }

  /** The four passes with their replacements, in their order. */
  ghost predicate FourPasses(text: string, a: string, b: string, c: string, out: string) {
    && Pass(IsBearer, Longest, "Bearer [REDACTED]", text, a)
    && Pass(IsAccessToken, Longest, "[REDACTED_ACCESS_TOKEN]", a, b)
    && Pass(IsApiKey, Longest, "[REDACTED_API_KEY]", b, c)
    && Pass(IsKeyBlock, Shortest, "[REDACTED_PRIVATE_KEY]", c, out)
  }

  lemma RedactionPasses(text: string) returns (a: string, b: string, c: string)
    ensures FourPasses(text, a, b, c, RedactSecrets(text))
  {
    LanguagesAre();
    TokensTakeLongest(Bearer());
    TokensTakeLongest(AccessToken());
    TokensTakeLongest(ApiKey());
    KeyBlocksTakeShortest();
    RedactUnfold(text);
    hide SameLanguage, Takes, Pass, Substitute, RedactSecrets, Bearer, AccessToken, ApiKey, Pem, Consuming;
    a := Substitute(Bearer(), "Bearer [REDACTED]", text);
    b := Substitute(AccessToken(), "[REDACTED_ACCESS_TOKEN]", a);
    c := Substitute(ApiKey(), "[REDACTED_API_KEY]", b);
    SubstituteIsPass(Bearer(), IsBearer, Longest, "Bearer [REDACTED]", text);
    SubstituteIsPass(AccessToken(), IsAccessToken, Longest, "[REDACTED_ACCESS_TOKEN]", a);
    SubstituteIsPass(ApiKey(), IsApiKey, Longest, "[REDACTED_API_KEY]", b);
    SubstituteIsPass(Pem(), IsKeyBlock, Shortest, "[REDACTED_PRIVATE_KEY]", c);
  }

  /** Redaction is this: read from the left, replace the longest bearer credentials by their marker, then
      the longest access tokens, then the longest API keys, then the shortest key blocks. */
  lemma RedactionIsFourPasses(text: string, out: string)
    ensures out == RedactSecrets(text) <==> exists a, b, c :: FourPasses(text, a, b, c, out)
  {
    var x, y, z := RedactionPasses(text);
    hide Pass, RedactSecrets, IsBearer, IsAccessToken, IsApiKey, IsKeyBlock;
    if a, b, c :| FourPasses(text, a, b, c, out) {
      PassUnique(IsBearer, Longest, "Bearer [REDACTED]", text, a, x);
      PassUnique(IsAccessToken, Longest, "[REDACTED_ACCESS_TOKEN]", a, b, y);
      PassUnique(IsApiKey, Longest, "[REDACTED_API_KEY]", b, c, z);
      PassUnique(IsKeyBlock, Shortest, "[REDACTED_PRIVATE_KEY]", c, out, RedactSecrets(text));
    }
  }

  ghost predicate IsSecret(w: string) {
    IsBearer(w) || IsAccessToken(w) || IsApiKey(w) || IsKeyBlock(w)
  }

  /** No part of the text is a secret. */
  ghost predicate HasNoSecret(s: string) {
    forall i, e :: 0 <= i <= e <= |s| ==> !IsSecret(s[i..e])
  }

  lemma CleanIs(r: Regex, lang: Language, s: string)
    requires SameLanguage(r, lang)
    ensures Clean(Words(r), s) <==> forall i, e :: 0 <= i <= e <= |s| ==> !lang(s[i..e])
  {
    hide Matches;
    if Clean(Words(r), s) {
      forall i, e | 0 <= i <= e <= |s| ensures !lang(s[i..e]) {
        assert !Occurs(Words(r), s, i, e);
      }
    }
  }

  lemma SecretFreeIs(s: string)
    ensures SecretFree(s) <==> HasNoSecret(s)
  {
    LanguagesAre();
    hide SameLanguage, Clean, IsBearer, IsAccessToken, IsApiKey, IsKeyBlock, Bearer, AccessToken, ApiKey, Pem;
    CleanIs(Bearer(), IsBearer, s);
    CleanIs(AccessToken(), IsAccessToken, s);
    CleanIs(ApiKey(), IsApiKey, s);
    CleanIs(Pem(), IsKeyBlock, s);
  }

  /** Redaction leaves no secret behind, whatever the text. */
  lemma RedactedHasNoSecret(text: string)
    ensures HasNoSecret(RedactSecrets(text))
  {
    hide HasNoSecret, SecretFree, RedactSecrets;
    RedactedIsSecretFree(text);
    SecretFreeIs(RedactSecrets(text));
  }

  /** Redaction changes a text exactly when a part of it is a secret. */
  lemma RedactionChangesExactlySecrets(text: string)
    ensures RedactSecrets(text) == text <==> HasNoSecret(text)
  {
    hide HasNoSecret, SecretFree, RedactSecrets;
    RedactFixesExactlySecretFree(text);
    SecretFreeIs(text);
  }
}
