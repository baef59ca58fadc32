/** Session tokens, read character by character and bit by bit: what base64url text is, what the lenient decoder
    overlooks, how a token is presented, and with which error one is refused. */
module TokenTexts {
  import opened Text
  import opened Integrity
  import opened Redaction
  import opened Secrets
  import opened Tokens

  // ---------------------------------------------------------------------------
  // Encoding (RFC 4648, section 5)
  // ---------------------------------------------------------------------------

  /** The character that stands for a value. */
  predicate IsCode(c: char, v: int) {
    || ('A' <= c <= 'Z' && v == c as int - 65)
    || ('a' <= c <= 'z' && v == c as int - 71)
    || ('0' <= c <= '9' && v == c as int + 4)
    || (c == '-' && v == 62)
    || (c == '_' && v == 63)
  }

  /** The `i`-th byte, and zero behind the end. */
  function ByteAt(data: Bytes, i: nat): int {
    if i < |data| then data[i] as int else 0
  }

  /** The 24 bits of the `k`-th three bytes are those of the four values. */
  ghost predicate IsGroup(values: seq<int>, data: Bytes, k: nat)
    requires 4 * k + 3 < |values|
  {
    ((values[4 * k] * 64 + values[4 * k + 1]) * 64 + values[4 * k + 2]) * 64 + values[4 * k + 3]
    == (ByteAt(data, 3 * k) * 256 + ByteAt(data, 3 * k + 1)) * 256 + ByteAt(data, 3 * k + 2)
  }

  ghost predicate AreGroups(values: seq<int>, data: Bytes) {
    && |values| == 4 * ((|data| + 2) / 3)
    && (forall i :: 0 <= i < |values| ==> 0 <= values[i] < 64)
    && forall k: nat :: 4 * k + 3 < |values| ==> IsGroup(values, data, k)
  }

  /** One character for every value that holds bits of the bytes. */
  ghost predicate IsBase64(text: string, data: Bytes) {
    && |text| == (8 * |data| + 5) / 6
    && exists values :: AreGroups(values, data) && Spells(text, values)
  }

  ghost predicate Spells(text: string, values: seq<int>) {
    |text| <= |values| && forall i :: 0 <= i < |text| ==> IsCode(text[i], values[i])
  }

  lemma SymbolIs(v: Sextet)
    ensures IsCode(Symbol(v), v as int)
  {
  }

  lemma GroupOfThree(a: byte, b: byte, c: byte)
    ensures var (p, q, r, s) := Sextets3(a, b, c);
            ((p as int * 64 + q as int) * 64 + r as int) * 64 + s as int
            == (a as int * 256 + b as int) * 256 + c as int
  {
  }

  lemma LaterByte(data: Bytes, i: nat)
    requires |data| >= 3
    ensures ByteAt(data, i + 3) == ByteAt(data[3..], i)
  {
  }

  lemma LaterGroup(values: seq<int>, rest: seq<int>, data: Bytes, k: nat)
    requires |data| >= 3 && 4 * k + 7 < |values| && values[4..] == rest
    requires IsGroup(rest, data[3..], k)
    ensures IsGroup(values, data, k + 1)
  {
    assert rest[4 * k] == values[4 * (k + 1)] && rest[4 * k + 1] == values[4 * (k + 1) + 1];
    assert rest[4 * k + 2] == values[4 * (k + 1) + 2] && rest[4 * k + 3] == values[4 * (k + 1) + 3];
    LaterByte(data, 3 * k);
    LaterByte(data, 3 * k + 1);
    LaterByte(data, 3 * k + 2);
  }

  /** The values of up to three bytes. */
  function Four(data: Bytes): (values: seq<int>)
    requires data != []
    ensures |values| == 4 && forall i :: 0 <= i < 4 ==> 0 <= values[i] < 64
  {
    var (p, q, r, s) := Sextets3(data[0], if |data| > 1 then data[1] else 0, if |data| > 2 then data[2] else 0);
    [p as int, q as int, r as int, s as int]
  }

  function Values(data: Bytes): (values: seq<int>)
    ensures |values| == 4 * ((|data| + 2) / 3)
  {
    if data == [] then [] else Four(data) + (if |data| > 3 then Values(data[3..]) else [])
  }

  lemma FirstGroup(data: Bytes, rest: seq<int>)
    requires data != []
    ensures IsGroup(Four(data) + rest, data, 0)
  {
    GroupOfThree(data[0], if |data| > 1 then data[1] else 0, if |data| > 2 then data[2] else 0);
    hide Sextets3;
    var values := Four(data) + rest;
    assert forall i :: 0 <= i < 4 ==> values[i] == Four(data)[i];
  }

  lemma {:induction false} ValuesAreGroups(data: Bytes)
    ensures AreGroups(Values(data), data)
  {
    if data != [] {
      var rest := if |data| > 3 then Values(data[3..]) else [];
      var values := Four(data) + rest;
      FirstGroup(data, rest);
      assert values == Values(data);
      if |data| > 3 {
        ValuesAreGroups(data[3..]);
      }
      hide Values, Four, IsGroup;
      assert values[4..] == rest;
      forall k: nat | 4 * k + 3 < |values| ensures IsGroup(values, data, k) {
        if k > 0 {
          LaterGroup(values, rest, data, k - 1);
        }
      }
    }
  }

  lemma {:induction false} BareSpells(data: Bytes)
    ensures Spells(Bare(data), Values(data)) && |Bare(data)| == (8 * |data| + 5) / 6
  {
    if data != [] {
      var (p, q, r, s) := Sextets3(data[0], if |data| > 1 then data[1] else 0, if |data| > 2 then data[2] else 0);
      SymbolIs(p);
      SymbolIs(q);
      SymbolIs(r);
      SymbolIs(s);
      hide Symbol, IsCode, Sextets3;
      if |data| > 2 {
        BareSpells(data[3..]);
      }
    }
  }

  /** The encoding is base64 in the URL-safe alphabet without padding. */
  lemma EncodingIsBase64(data: Bytes)
    ensures IsBase64(B64Url(data), data)
  {
    EncodingIsBare(data);
    BareSpells(data);
    ValuesAreGroups(data);
  }

  lemma SameDigits(p: int, q: int, r: int, s: int, p': int, q': int, r': int, s': int)
    requires 0 <= p < 64 && 0 <= q < 64 && 0 <= r < 64 && 0 <= s < 64
    requires 0 <= p' < 64 && 0 <= q' < 64 && 0 <= r' < 64 && 0 <= s' < 64
    requires ((p * 64 + q) * 64 + r) * 64 + s == ((p' * 64 + q') * 64 + r') * 64 + s'
    ensures p == p' && q == q' && r == r' && s == s'
  {
  }

  lemma SameGroups(u: seq<int>, v: seq<int>, data: Bytes)
    requires AreGroups(u, data) && AreGroups(v, data)
    ensures u == v
  {
    forall i | 0 <= i < |u| ensures u[i] == v[i] {
      var k := i / 4;
      assert 4 * k + 3 < |u|;
      assert IsGroup(u, data, k) && IsGroup(v, data, k);
      SameDigits(u[4 * k], u[4 * k + 1], u[4 * k + 2], u[4 * k + 3], v[4 * k], v[4 * k + 1], v[4 * k + 2],
                 v[4 * k + 3]);
    }
  }

  /** There is one such text. */
  lemma Base64Unique(a: string, b: string, data: Bytes)
    requires IsBase64(a, data) && IsBase64(b, data)
    ensures a == b
  {
    var u :| AreGroups(u, data) && Spells(a, u);
    var v :| AreGroups(v, data) && Spells(b, v);
    SameGroups(u, v, data);
    forall i | 0 <= i < |a| ensures a[i] == b[i] {
      assert IsCode(a[i], u[i]) && IsCode(b[i], u[i]);
    }
  }

  // ---------------------------------------------------------------------------
  // Decoding
  // ---------------------------------------------------------------------------

  /** A character of the alphabet. */
  predicate IsCodeChar(c: char) {
    'A' <= c <= 'Z' || 'a' <= c <= 'z' || '0' <= c <= '9' || c == '-' || c == '_'
  }

  /** What the decoder sees: characters outside both alphabets are overlooked, and the other alphabet's two
      symbols are read as those of this one. */
  function Seen(s: string): string {
    if s == "" then ""
    else if IsCodeChar(s[0]) || s[0] == '=' then [s[0]] + Seen(s[1..])
    else if s[0] == '+' then "-" + Seen(s[1..])
    else if s[0] == '/' then "_" + Seen(s[1..])
    else Seen(s[1..])
  }

  lemma OneSeen(c: char)
    ensures Seen([c])
            == if IsCodeChar(c) || c == '=' then [c] else if c == '+' then "-" else if c == '/' then "_" else ""
    ensures Seen([c]) == "" <==> ValueOf(c).None? && c != '='
    ensures Seen([c]) != "" ==> |Seen([c])| == 1 && ValueOf(Seen([c])[0]) == ValueOf(c)
    ensures Seen([c]) != "" ==> (Seen([c])[0] == '=' <==> c == '=')
  {
    assert Seen([c][1..]) == "";
  }

  /** The decoder reads a text as what it sees of it. */
  lemma {:induction false} DecoderOverlooks(s: string, d: Decoder)
    requires d.position < 4
    ensures Decode(s, d) == Decode(Seen(s), d)
    decreases |s|
  {
    if s != "" {
      var c, rest := s[0], s[1..];
      OneSeen(c);
      SeenFirst(s);
      hide ValueOf, IsCodeChar, Feed;
      if Seen([c]) == "" {
        DecoderOverlooks(rest, d);
      } else {
        var e := Seen([c])[0];
        assert Seen(s)[0] == e && Seen(s)[1..] == Seen(rest);
        if c == '=' {
          if !(d.position >= 2 && d.position + d.pads + 1 >= 4) {
            DecoderOverlooks(rest, if d.position >= 2 then d.(pads := d.pads + 1) else d);
          }
        } else {
          DecoderOverlooks(rest, Feed(d, ValueOf(c).value).1);
        }
      }
    }
  }

  lemma SeenFirst(s: string)
    requires s != ""
    ensures Seen(s) == Seen([s[0]]) + Seen(s[1..])
  {
    assert Seen([s[0]][1..]) == "";
  }

  /** What follows the padding does not count. */
  lemma {:induction false} DecodingEndsWithPadding(data: Bytes, more: string)
    requires |data| % 3 != 0
    ensures Decode(Padded(data) + more, FRESH) == Ok(data)
  {
    hide Quad, Decode;
    if |data| == 1 {
      TwoThen(data[0], more);
      assert data == [data[0]];
    } else if |data| == 2 {
      ThreeThen(data[0], data[1], more);
      assert data == [data[0], data[1]];
    } else {
      DecodingEndsWithPadding(data[3..], more);
      QuadDecodes(data[0], data[1], data[2], Padded(data[3..]) + more, data[3..]);
      ConcatAssoc(Quad(data[0], data[1], data[2]), Padded(data[3..]), more);
      assert data == [data[0], data[1], data[2]] + data[3..];
    }
  }

  /** Padding before the second character of a group is skipped, and a character after padding that ends
      nothing starts the count over. */
  lemma EarlyPaddingIsSkipped(d: Decoder, c: char, rest: string)
    requires d.position < 4
    ensures d.position < 2 ==> Decode("=" + rest, d) == Decode(rest, d)
    ensures c != '=' && ValueOf(c).Some? ==> Decode([c] + rest, d) == Decode([c] + rest, d.(pads := 0))
  {
    assert ("=" + rest)[1..] == rest && ([c] + rest)[1..] == rest;
  }

  lemma PaddingEnds(d: Decoder, more: string)
    requires (d.position == 2 || d.position == 3) && d.pads == 0
    ensures d.position == 2 ==> Decode("==" + more, d) == Ok([])
    ensures d.position == 3 ==> Decode("=" + more, d) == Ok([])
  {
    if d.position == 2 {
      assert ("==" + more)[1..] == "=" + more;
      assert Decode("=" + more, d.(pads := 1)) == Ok([]);
    }
  }

  lemma TwoThen(a: byte, more: string)
    ensures Decode(Quad(a, 0, 0)[..2] + "==" + more, FRESH) == Ok([a])
  {
    var (p, q, r, s) := Sextets3(a, 0, 0);
    BitsComeBack(a, 0, 0);
    var d1, d2 := Decoder(1, p, 0), Decoder(2, (q as int % 16) as Sextet, 0);
    PaddingEnds(d2, more);
    hide Decode, Feed, Symbol, Sextets3;
    Fed(q, "==" + more, d1, []);
    Fed(p, [Symbol(q)] + ("==" + more), FRESH, [a] + []);
    assert Quad(a, 0, 0)[..2] + "==" + more == [Symbol(p)] + ([Symbol(q)] + ("==" + more));
    assert [] + ([a] + []) == [a];
  }

  lemma ThreeThen(a: byte, b: byte, more: string)
    ensures Decode(Quad(a, b, 0)[..3] + "=" + more, FRESH) == Ok([a, b])
  {
    var (p, q, r, s) := Sextets3(a, b, 0);
    BitsComeBack(a, b, 0);
    var d1, d2 := Decoder(1, p, 0), Decoder(2, (q as int % 16) as Sextet, 0);
    var d3 := Decoder(3, (r as int % 4) as Sextet, 0);
    PaddingEnds(d3, more);
    hide Decode, Feed, Symbol, Sextets3;
    Fed(r, "=" + more, d2, []);
    Fed(q, [Symbol(r)] + ("=" + more), d1, [b] + []);
    Fed(p, [Symbol(q)] + ([Symbol(r)] + ("=" + more)), FRESH, [a] + ([b] + []));
    assert Quad(a, b, 0)[..3] + "=" + more == [Symbol(p)] + ([Symbol(q)] + ([Symbol(r)] + ("=" + more)));
    assert [] + ([a] + ([b] + [])) == [a, b];
  }

  /** Without its padding, a text of which a group is begun is refused. */
  lemma {:induction false} PaddingIsNeeded(data: Bytes)
    requires |data| % 3 != 0
    ensures Decode(Bare(data), FRESH) == Err(BadValue)
  {
    hide Quad, Decode;
    if |data| == 1 {
      OneIsRefused(data[0]);
    } else if |data| == 2 {
      TwoAreRefused(data[0], data[1]);
    } else {
      PaddingIsNeeded(data[3..]);
      QuadFails(data[0], data[1], data[2], Bare(data[3..]));
    }
  }

  lemma FedFails(v: Sextet, rest: string, d: Decoder)
    requires d.position < 4 && Decode(rest, Feed(d, v).1) == Err(BadValue)
    ensures Decode([Symbol(v)] + rest, d) == Err(BadValue)
  {
    SymbolHasItsValue(v);
    assert ([Symbol(v)] + rest)[1..] == rest;
  }

  lemma QuadFails(a: byte, b: byte, c: byte, rest: string)
    requires Decode(rest, FRESH) == Err(BadValue)
    ensures Decode(Quad(a, b, c) + rest, FRESH) == Err(BadValue)
  {
    var (p, q, r, s) := Sextets3(a, b, c);
    BitsComeBack(a, b, c);
    var d1, d2 := Decoder(1, p, 0), Decoder(2, (q as int % 16) as Sextet, 0);
    var d3 := Decoder(3, (r as int % 4) as Sextet, 0);
    hide Decode, Feed, Symbol, Sextets3;
    FedFails(s, rest, d3);
    FedFails(r, [Symbol(s)] + rest, d2);
    FedFails(q, [Symbol(r)] + ([Symbol(s)] + rest), d1);
    FedFails(p, [Symbol(q)] + ([Symbol(r)] + ([Symbol(s)] + rest)), FRESH);
    QuadText(a, b, c, rest);
  }

  lemma OneIsRefused(a: byte)
    ensures Decode(Quad(a, 0, 0)[..2], FRESH) == Err(BadValue)
  {
    var (p, q, r, s) := Sextets3(a, 0, 0);
    BitsComeBack(a, 0, 0);
    var d1, d2 := Decoder(1, p, 0), Decoder(2, (q as int % 16) as Sextet, 0);
    assert Decode("", d2) == Err(BadValue);
    hide Decode, Feed, Symbol, Sextets3;
    FedFails(q, "", d1);
    FedFails(p, [Symbol(q)] + "", FRESH);
    assert Quad(a, 0, 0)[..2] == [Symbol(p)] + ([Symbol(q)] + "");
  }

  lemma TwoAreRefused(a: byte, b: byte)
    ensures Decode(Quad(a, b, 0)[..3], FRESH) == Err(BadValue)
  {
    var (p, q, r, s) := Sextets3(a, b, 0);
    BitsComeBack(a, b, 0);
    var d1, d2 := Decoder(1, p, 0), Decoder(2, (q as int % 16) as Sextet, 0);
    var d3 := Decoder(3, (r as int % 4) as Sextet, 0);
    assert Decode("", d3) == Err(BadValue);
    hide Decode, Feed, Symbol, Sextets3;
    FedFails(r, "", d2);
    FedFails(q, [Symbol(r)] + "", d1);
    FedFails(p, [Symbol(q)] + ([Symbol(r)] + ""), FRESH);
    assert Quad(a, b, 0)[..3] == [Symbol(p)] + ([Symbol(q)] + ([Symbol(r)] + ""));
  }

  // ---------------------------------------------------------------------------
  // Presentation
  // ---------------------------------------------------------------------------

  /** `u` is `t` without the white space at its ends. */
  ghost predicate IsStripped(t: string, u: string) {
    exists i, j :: IsCore(t, i, j) && u == t[i..j]
  }

  /** White space surrounds the part from `i` to `j`, which has none at its ends. */
  ghost predicate IsCore(t: string, i: int, j: int) {
    && 0 <= i <= j <= |t|
    && (forall k :: 0 <= k < i || j <= k < |t| ==> IsSpace(t[k]))
    && (i < j ==> !IsSpace(t[i]) && !IsSpace(t[j - 1]))
  }

  /** `bearer` in any case, and a space. */
  ghost predicate IsBearerScheme(s: string) {
    && |s| == 7 && s[0] in "bB" && s[1] in "eE" && s[2] in "aA" && s[3] in "rR" && s[4] in "eE" && s[5] in "rR"
    && s[6] == ' '
  }

  /** The token that a header value presents. */
  ghost predicate IsPresented(t: string, token: string) {
    exists u :: IsStripped(t, u) && if |u| >= 7 && IsBearerScheme(u[..7]) then IsStripped(u[7..], token) else token == u
  }

  lemma CharIsSpace(c: char)
    ensures In(Space, c) <==> IsSpace(c)
  {
  }

  lemma {:induction false} SpacesStrip(t: string)
    requires AllIn(Space, t)
    ensures Strip(t) == ""
  {
    if t != "" {
      assert StripLeft(t) == StripLeft(t[1..]);
      SpacesStrip(t[1..]);
    }
  }

  lemma StrippedIs(t: string, u: string)
    requires IsStripped(t, u)
    ensures Strip(t) == u
  {
    var i, j :| IsCore(t, i, j) && u == t[i..j];
    forall c: char ensures In(Space, c) <==> IsSpace(c) {
      CharIsSpace(c);
    }
    hide IsSpace, In, Strip;
    if i == j {
      SpacesStrip(t);
    } else {
      assert t == t[..i] + u + t[j..];
      StripSpaces(t[..i], u, t[j..]);
    }
  }

  lemma CoreEnds(t: string) returns (i: int, j: int)
    ensures IsCore(t, i, j)
  {
    i, j := 0, |t|;
    while i < j && IsSpace(t[i])
      invariant 0 <= i <= j == |t| && forall k :: 0 <= k < i ==> IsSpace(t[k])
    {
      i := i + 1;
    }
    while i < j && IsSpace(t[j - 1])
      invariant 0 <= i <= j <= |t| && (forall k :: 0 <= k < i || j <= k < |t| ==> IsSpace(t[k]))
      invariant i < j ==> !IsSpace(t[i])
    {
      j := j - 1;
    }
  }

  lemma StripIsStripped(t: string)
    ensures IsStripped(t, Strip(t))
  {
    var i, j := CoreEnds(t);
    assert IsStripped(t, t[i..j]);
    StrippedIs(t, t[i..j]);
  }

  lemma SchemeIs(u: string)
    ensures HasScheme(u) <==> |u| >= 7 && IsBearerScheme(u[..7])
  {
    assert SCHEME == ['b', 'e', 'a', 'r', 'e', 'r', ' '];
    if |u| >= 7 {
      var w := u[..7];
      assert SameLetters(SCHEME, w)
          <==> SameLetter('b', w[0]) && SameLetter('e', w[1]) && SameLetter('a', w[2]) && SameLetter('r', w[3])
               && SameLetter('e', w[4]) && SameLetter('r', w[5]) && SameLetter(' ', w[6]);
    }
  }

  /** White space and a bearer scheme are taken off a header value, and nothing else. */
  lemma CredentialsArePresented(t: string, token: string)
    ensures Credentials(t) == token <==> IsPresented(t, token)
  {
    hide Strip, IsStripped, IsBearerScheme, HasScheme;
    var u := Strip(t);
    StripIsStripped(t);
    SchemeIs(u);
    if |u| >= 7 {
      StripIsStripped(u[7..]);
    }
    if IsPresented(t, token) {
      var v :| IsStripped(t, v)
      && if |v| >= 7 && IsBearerScheme(v[..7]) then IsStripped(v[7..], token) else token == v;
      StrippedIs(t, v);
      if |v| >= 7 && IsBearerScheme(v[..7]) {
        StrippedIs(v[7..], token);
      }
    }
  }

  // ---------------------------------------------------------------------------
  // Verification
  // ---------------------------------------------------------------------------

  /** The signature is that of the payload part, in base64url. */
  ghost predicate IsSigned(s: Service, raw: string, sig: string) {
    IsBase64(sig, s.sign(raw))
  }

  lemma SignedIs(s: Service, raw: string, sig: string)
    ensures IsSigned(s, raw, sig) <==> sig == B64Url(s.sign(raw))
  {
    EncodingIsBase64(s.sign(raw));
    if IsSigned(s, raw, sig) {
      Base64Unique(sig, B64Url(s.sign(raw)), s.sign(raw));
    }
  }

  /** A minted token is the printed claims and their signature, both in base64url, with a dot between. */
  lemma MintIs(s: Service, principalKey: string, conversationId: string, now: real)
    ensures exists raw, sig ::
              && Mint(s, principalKey, conversationId, now) == raw + "." + sig
              && IsBase64(raw, s.dumps(SessionToken(principalKey, conversationId, now + s.ttl)))
              && IsBase64(sig, s.sign(raw))
  {
    var raw := B64Url(s.dumps(SessionToken(principalKey, conversationId, now + s.ttl)));
    EncodingIsBase64(s.dumps(SessionToken(principalKey, conversationId, now + s.ttl)));
    EncodingIsBase64(s.sign(raw));
    hide IsBase64, B64Url;
    assert Mint(s, principalKey, conversationId, now) == raw + "." + B64Url(s.sign(raw));
  }

  /** The claims of a payload part: what it decodes to, parsed. */
  ghost function ClaimsOf(s: Service, raw: string): Option<Payload> {
    if B64UrlDecode(raw).Ok? then s.loads(B64UrlDecode(raw).value) else None
  }

  /** The claims are not expired; without an expiry they have expired at time zero. */
  ghost predicate IsCurrent(p: Payload, now: real) {
    if p.exp.Some? then now <= p.exp.value else now <= 0.0
  }

  /** A token without a dot is refused as not authorized. */
  lemma UndottedIsRefused(s: Service, t: string, token: string, now: real)
    requires IsPresented(t, token) && '.' !in token
    ensures Verify(s, t, now) == Err(Authorization)
  {
    CredentialsArePresented(t, token);
    CutIsAtFirstDot(token);
  }

  /** Some character has a code of 128 or more. */
  ghost predicate BeyondAscii(s: string) {
    exists k :: 0 <= k < |s| && s[k] as int >= 128
  }

  /** Every other token is a payload in front of the first dot and a signature behind it. It is refused as not
      authorized if an ASCII signature is not that of the payload, or if the claims have expired; it fails
      if the signature is not ASCII, or if a signed payload does not parse or lacks a claim. */
  lemma VerifyIs(s: Service, t: string, raw: string, sig: string, now: real)
    requires IsPresented(t, raw + "." + sig) && '.' !in raw
    ensures var r, claims := Verify(s, t, now), ClaimsOf(s, raw);
            if BeyondAscii(sig) then r == Err(BadValue)
            else if !IsSigned(s, raw, sig) then r == Err(Authorization)
            else if claims == None then r == Err(BadValue)
            else if !IsCurrent(claims.value, now) then r == Err(Authorization)
            else if claims.value.prn.Some? && claims.value.cid.Some? && claims.value.exp.Some? then
              r == Ok(SessionToken(claims.value.prn.value, claims.value.cid.value, claims.value.exp.value))
            else r == Err(BadValue)
  {
    CredentialsArePresented(t, raw + "." + sig);
    CutFirstDot(raw, sig);
    SignedIs(s, raw, sig);
    DecodeErrors(raw);
    AsciiIs(sig);
    hide Credentials, IsPresented, B64UrlDecode, IsSigned, CutAtDot, IsAscii, BeyondAscii;
  }

  lemma {:induction false} DecodeFails(s: string, d: Decoder)
    requires d.position < 4
    ensures Decode(s, d).Ok? || Decode(s, d) == Err(BadValue)
    decreases |s|
  {
    if s != "" {
      hide Feed, ValueOf;
      if s[0] == '=' {
        if !(d.position >= 2 && d.position + d.pads + 1 >= 4) {
          DecodeFails(s[1..], if d.position >= 2 then d.(pads := d.pads + 1) else d);
        }
      } else {
        DecodeFails(s[1..], d);
        if ValueOf(s[0]).Some? {
          DecodeFails(s[1..], Feed(d, ValueOf(s[0]).value).1);
        }
      }
    }
  }

  lemma AsciiIs(s: string)
    ensures IsAscii(s) <==> !BeyondAscii(s)
  {
  }

  /** Decoding fails with one error, and always on text beyond ASCII. */
  lemma DecodeErrors(raw: string)
    ensures B64UrlDecode(raw).Ok? || B64UrlDecode(raw) == Err(BadValue)
    ensures BeyondAscii(raw) ==> B64UrlDecode(raw) == Err(BadValue)
  {
    AsciiIs(raw);
    DecodeFails(raw + Equals(PaddingLength(|raw|)), FRESH);
  }
}
