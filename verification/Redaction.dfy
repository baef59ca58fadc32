/** Secret redaction: four ordered regular-expression substitutions.

    The patterns are data: a small regular-expression syntax with a language (`Matches`) and a
    backtracking engine (`Ends`) that lists the ends of all matches at a position in the order in
    which Python's `re` tries them. `Substitute` is `pattern.sub(replacement, text)`: leftmost,
    non-overlapping, each match replaced by a literal.
 */
module Redaction {
  import opened Text

  // ---------------------------------------------------------------------------
  // Regular expressions
  // ---------------------------------------------------------------------------

  datatype CharClass =
    | Space
    | TokenChar(ignoreCase: bool)
    | UpperOrSpace
    | AnyChar

  predicate In(cc: CharClass, c: char) {
    match cc
    case Space =>
      || '\U{09}' <= c <= '\U{0d}' || '\U{1c}' <= c <= ' '
      || c in {'\U{85}', '\U{a0}', '\U{1680}', '\U{2028}', '\U{2029}', '\U{202f}', '\U{205f}', '\U{3000}'}
      || '\U{2000}' <= c <= '\U{200a}'
    case TokenChar(ignoreCase) =>
      || 'a' <= c <= 'z' || 'A' <= c <= 'Z' || '0' <= c <= '9' || c in {'.', '_', '-'}
      || (ignoreCase && c in {'\U{130}', '\U{131}', '\U{17f}', '\U{212a}'})
    case UpperOrSpace => 'A' <= c <= 'Z' || c == ' '
    case AnyChar => true
  }

  datatype Regex =
    | Literal(word: string)
    | LiteralIgnoreCase(word: string)
    | Repeat(cc: CharClass, n: nat)
    | Greedy(cc: CharClass)
    | Lazy(cc: CharClass)
    | Cat(first: Regex, second: Regex)

  /** `c` is the lower-case letter `l` or its upper-case form. */
  predicate SameLetter(l: char, c: char) {
    c == l || ('a' <= l <= 'z' && c as int == l as int - 32)
  }

  predicate SameLetters(word: string, w: string) {
    |w| == |word| && forall k :: 0 <= k < |w| ==> SameLetter(word[k], w[k])
  }

  predicate AllIn(cc: CharClass, w: string) {
    forall k :: 0 <= k < |w| ==> In(cc, w[k])
  }

  /** `w` belongs to the language of `r`. */
  ghost predicate Matches(r: Regex, w: string) {
    match r
    case Literal(word) => w == word
    case LiteralIgnoreCase(word) => SameLetters(word, w)
    case Repeat(cc, n) => |w| == n && AllIn(cc, w)
    case Greedy(cc) => AllIn(cc, w)
    case Lazy(cc) => AllIn(cc, w)
    case Cat(a, b) => exists k :: 0 <= k <= |w| && Matches(a, w[..k]) && Matches(b, w[k..])
  }

  /** Ends of the matches of `r` at `i`, in the engine's order of preference. */
  function Ends(r: Regex, s: string, i: nat): (ends: seq<nat>)
    requires i <= |s|
    ensures forall k :: 0 <= k < |ends| ==> i <= ends[k] <= |s|
    decreases r, 0, |s| - i
  {
    match r
    case Literal(word) => if i + |word| <= |s| && s[i..i + |word|] == word then [i + |word|] else []
    case LiteralIgnoreCase(word) =>
      if i + |word| <= |s| && SameLetters(word, s[i..i + |word|]) then [i + |word|] else []
    case Repeat(cc, n) => if i + n <= |s| && AllIn(cc, s[i..i + n]) then [i + n] else []
    case Greedy(cc) => if i < |s| && In(cc, s[i]) then Ends(r, s, i + 1) + [i] else [i]
    case Lazy(cc) => if i < |s| && In(cc, s[i]) then [i] + Ends(r, s, i + 1) else [i]
    case Cat(a, b) => Continue(b, s, i, Ends(a, s, i))
  }

  function Continue(r: Regex, s: string, i: nat, starts: seq<nat>): (ends: seq<nat>)
    requires forall k :: 0 <= k < |starts| ==> i <= starts[k] <= |s|
    ensures forall k :: 0 <= k < |ends| ==> i <= ends[k] <= |s|
    decreases r, 1, |starts|
  {
    if starts == [] then [] else Ends(r, s, starts[0]) + Continue(r, s, i, starts[1..])
  }

  ghost predicate MatchesSpan(r: Regex, s: string, i: int, e: int) {
    0 <= i <= e <= |s| && Matches(r, s[i..e])
  }

  /** The engine is sound and complete: it lists exactly the spans in the language. */
  lemma {:induction false} EndsExact(r: Regex, s: string, i: nat)
    requires i <= |s|
    ensures forall e: nat :: e in Ends(r, s, i) <==> MatchesSpan(r, s, i, e)
    decreases r, 0, |s| - i
  {
    match r
    case Literal(_) =>
    case LiteralIgnoreCase(_) =>
    case Repeat(_, _) =>
    case Greedy(cc) => RunEndsExact(r, cc, s, i);
    case Lazy(cc) => RunEndsExact(r, cc, s, i);
    case Cat(a, b) =>
      EndsExact(a, s, i);
      ContinueExact(b, s, i, Ends(a, s, i));
      forall e: nat ensures e in Ends(r, s, i) <==> MatchesSpan(r, s, i, e) {
        CatSpan(a, b, s, i, e);
      }
  }

  /** A span of a concatenation splits at some middle. */
  lemma SpansJoin(a: Regex, b: Regex, s: string, i: nat, m: nat, e: nat)
    requires MatchesSpan(a, s, i, m) && MatchesSpan(b, s, m, e)
    ensures MatchesSpan(Cat(a, b), s, i, e)
  {
    var w := s[i..e];
    assert w[..m - i] == s[i..m] && w[m - i..] == s[m..e];
  }

  lemma CutOf(a: Regex, b: Regex, w: string) returns (k: nat)
    requires Matches(Cat(a, b), w)
    ensures k <= |w| && Matches(a, w[..k]) && Matches(b, w[k..])
  {
    k :| 0 <= k <= |w| && Matches(a, w[..k]) && Matches(b, w[k..]);
  }

  lemma Subslices(s: string, i: nat, k: nat, e: nat)
    requires i + k <= e <= |s|
    ensures s[i..e][..k] == s[i..i + k] && s[i..e][k..] == s[i + k..e]
  {
  }

  lemma SpanSplits(a: Regex, b: Regex, s: string, i: nat, e: nat) returns (m: nat)
    requires MatchesSpan(Cat(a, b), s, i, e)
    ensures MatchesSpan(a, s, i, m) && MatchesSpan(b, s, m, e)
  {
    hide Matches;
    var k := CutOf(a, b, s[i..e]);
    Subslices(s, i, k, e);
    m := i + k;
  }

  lemma CatSpan(a: Regex, b: Regex, s: string, i: nat, e: nat)
    ensures MatchesSpan(Cat(a, b), s, i, e) <==> exists m: nat :: MatchesSpan(a, s, i, m) && MatchesSpan(b, s, m, e)
  {
    hide MatchesSpan, Matches;
    if MatchesSpan(Cat(a, b), s, i, e) {
      var m := SpanSplits(a, b, s, i, e);
    }
    if m: nat :| MatchesSpan(a, s, i, m) && MatchesSpan(b, s, m, e) {
      SpansJoin(a, b, s, i, m, e);
    }
  }

  lemma {:induction false} RunEndsExact(r: Regex, cc: CharClass, s: string, i: nat)
    requires i <= |s| && (r == Greedy(cc) || r == Lazy(cc))
    ensures forall e: nat :: e in Ends(r, s, i) <==> MatchesSpan(r, s, i, e)
    decreases |s| - i
  {
    if i < |s| && In(cc, s[i]) {
      RunEndsExact(r, cc, s, i + 1);
      forall e: nat ensures MatchesSpan(r, s, i, e) <==> e == i || MatchesSpan(r, s, i + 1, e) {
        if i < e <= |s| {
          assert s[i..e] == [s[i]] + s[i + 1..e];
        }
      }
    } else {
      forall e: nat | i < e <= |s| ensures !MatchesSpan(r, s, i, e) {
        assert s[i..e][0] == s[i];
      }
    }
  }

  lemma {:induction false} ContinueExact(r: Regex, s: string, i: nat, starts: seq<nat>)
    requires forall k :: 0 <= k < |starts| ==> i <= starts[k] <= |s|
    ensures forall e: nat :: e in Continue(r, s, i, starts) <==> exists m: nat :: m in starts && MatchesSpan(r, s, m, e)
    decreases r, 1, |starts|
  {
    if starts != [] {
      EndsExact(r, s, starts[0]);
      ContinueExact(r, s, i, starts[1..]);
      forall e: nat | exists m: nat :: m in starts && MatchesSpan(r, s, m, e)
        ensures e in Continue(r, s, i, starts)
      {
        var m: nat :| m in starts && MatchesSpan(r, s, m, e);
        assert m == starts[0] || m in starts[1..];
      }
    }
  }

  // ---------------------------------------------------------------------------
  // Substitution
  // ---------------------------------------------------------------------------

  /** No word of the empty length: every rule of the table consumes text. */
  predicate Consuming(r: Regex) {
    match r
    case Literal(word) => word != ""
    case LiteralIgnoreCase(word) => word != ""
    case Repeat(_, n) => n > 0
    case Greedy(_) => false
    case Lazy(_) => false
    case Cat(a, b) => Consuming(a) || Consuming(b)
  }

  lemma {:induction false} ConsumingEnds(r: Regex, s: string, i: nat, e: nat)
    requires Consuming(r) && i <= |s| && e in Ends(r, s, i)
    ensures i < e <= |s|
  {
    EndsExact(r, s, i);
    ConsumingWord(r, s[i..e]);
  }

  lemma {:induction false} ConsumingWord(r: Regex, w: string)
    requires Consuming(r) && Matches(r, w)
    ensures |w| > 0
  {
    match r
    case Literal(_) =>
    case LiteralIgnoreCase(_) =>
    case Repeat(_, _) =>
    case Greedy(_) =>
    case Lazy(_) =>
    case Cat(a, b) =>
      var k :| 0 <= k <= |w| && Matches(a, w[..k]) && Matches(b, w[k..]);
      if Consuming(a) {
        ConsumingWord(a, w[..k]);
      } else {
        ConsumingWord(b, w[k..]);
      }
  }

  /** `pattern.match(s, i).end()`: the engine's preferred match, if there is one. */
  function FirstEnd(r: Regex, s: string, i: nat): (end: Option<nat>)
    requires Consuming(r) && i <= |s|
    ensures end.Some? ==> i < end.value <= |s|
  {
    var ends := Ends(r, s, i);
    if ends == [] then None
    else
      ConsumingEnds(r, s, i, ends[0]);
      Some(ends[0])
  }

  predicate IsMatchTable(table: seq<Option<nat>>, s: string) {
    && |table| == |s|
    && forall i :: 0 <= i < |s| && table[i].Some? ==> i < table[i].value <= |s|
  }

  /** The preferred match at every position. */
  function MatchTable(r: Regex, s: string): (table: seq<Option<nat>>)
    requires Consuming(r)
    ensures IsMatchTable(table, s)
  {
    seq(|s|, i requires 0 <= i < |s| => FirstEnd(r, s, i))
  }

  /** Left to right: copy characters where no match begins, replace whole matches elsewhere. */
  function Splice(table: seq<Option<nat>>, replacement: string, s: string, i: nat): string
    requires IsMatchTable(table, s) && i <= |s|
    decreases |s| - i
  {
    if i == |s| then ""
    else if table[i].None? then [s[i]] + Splice(table, replacement, s, i + 1)
    else replacement + Splice(table, replacement, s, table[i].value)
  }

  /** `pattern.sub(replacement, s)`. */
  function Substitute(r: Regex, replacement: string, s: string): string
    requires Consuming(r)
  {
    Splice(MatchTable(r, s), replacement, s, 0)
  }

  // ---------------------------------------------------------------------------
  // The rule table
  // ---------------------------------------------------------------------------

  /** `bearer\s+` and the first character of the token, in any case. */
  function BearerHead(): Regex {
    Cat(LiteralIgnoreCase("bearer"), Cat(Cat(Repeat(Space, 1), Greedy(Space)), Repeat(TokenChar(true), 1)))
  }

  function AccessTokenHead(): Regex {
    Cat(Literal("ya29."), Repeat(TokenChar(false), 1))
  }

  function ApiKeyHead(): Regex {
    Cat(Literal("AIza"), Repeat(TokenChar(false), 10))
  }

  function PemHeader(): Regex {
    Cat(Literal("-----BEGIN "), Cat(Greedy(UpperOrSpace), Literal("PRIVATE KEY-----")))
  }

  function PemFooter(): Regex {
    Cat(Literal("-----END "), Cat(Greedy(UpperOrSpace), Literal("PRIVATE KEY-----")))
  }

  function Bearer(): Regex {
    Cat(BearerHead(), Greedy(TokenChar(true)))
  }

  function AccessToken(): Regex {
    Cat(AccessTokenHead(), Greedy(TokenChar(false)))
  }

  function ApiKey(): Regex {
    Cat(ApiKeyHead(), Greedy(TokenChar(false)))
  }

  function Pem(): Regex {
    Cat(PemHeader(), Cat(Lazy(AnyChar), PemFooter()))
  }

  datatype RawRule = Rule(pattern: Regex, replacement: string)

  type Rule = r: RawRule | Consuming(r.pattern) witness Rule(Repeat(AnyChar, 1), "")

  function BearerRule(): Rule {
    Rule(Bearer(), "Bearer [REDACTED]")
  }

  function AccessTokenRule(): Rule {
    Rule(AccessToken(), "[REDACTED_ACCESS_TOKEN]")
  }

  function ApiKeyRule(): Rule {
    Rule(ApiKey(), "[REDACTED_API_KEY]")
  }

  function PemRule(): Rule {
    Rule(Pem(), "[REDACTED_PRIVATE_KEY]")
  }

  function Rules(): seq<Rule> {
    [BearerRule(), AccessTokenRule(), ApiKeyRule(), PemRule()]
  }

  function ApplyRules(rules: seq<Rule>, text: string): string {
    if rules == [] then text
    else ApplyRules(rules[1..], Substitute(rules[0].pattern, rules[0].replacement, text))
  }

  function RedactSecrets(text: string): string {
    if text == "" then text else ApplyRules(Rules(), text)
  }
}
