/** Session tokens: a signed payload in base64url without padding (RFC 4648, sections 5 and 3.2). */
module Tokens {
  import opened Text
  import opened Integrity
  import opened Redaction

  // ---------------------------------------------------------------------------
  // Base64
  // ---------------------------------------------------------------------------

  newtype Sextet = x: int | 0 <= x < 64

  /** The URL-safe alphabet. */
  function Symbol(v: Sextet): char {
    var n := v as int;
    if n < 26 then ('A' as int + n) as char
    else if n < 52 then ('a' as int + n - 26) as char
    else if n < 62 then ('0' as int + n - 52) as char
    else if n == 62 then '-'
    else '_'
  }

  /** The value of a character, after `-` and `_` were translated to `+` and `/`. */
  function ValueOf(c: char): Option<Sextet> {
    if 'A' <= c <= 'Z' then Some((c as int - 'A' as int) as Sextet)
    else if 'a' <= c <= 'z' then Some((c as int - 'a' as int + 26) as Sextet)
    else if '0' <= c <= '9' then Some((c as int - '0' as int + 52) as Sextet)
    else if c == '-' || c == '+' then Some(62)
    else if c == '_' || c == '/' then Some(63)
    else None
  }

  lemma SymbolHasItsValue(v: Sextet)
    ensures ValueOf(Symbol(v)) == Some(v) && Symbol(v) != '='
  {
  }

  function Sextets3(a: byte, b: byte, c: byte): (Sextet, Sextet, Sextet, Sextet) {
    var x, y, z := a as int, b as int, c as int;
    ((x / 4) as Sextet, ((x % 4) * 16 + y / 16) as Sextet, ((y % 16) * 4 + z / 64) as Sextet, (z % 64) as Sextet)
  }

  /** Three bytes as four characters. */
  function Quad(a: byte, b: byte, c: byte): string {
    var (p, q, r, s) := Sextets3(a, b, c);
    [Symbol(p), Symbol(q), Symbol(r), Symbol(s)]
  }

  /** `base64.urlsafe_b64encode`. */
  function Padded(data: Bytes): string {
    if data == [] then ""
    else if |data| == 1 then Quad(data[0], 0, 0)[..2] + "=="
    else if |data| == 2 then Quad(data[0], data[1], 0)[..3] + "="
    else Quad(data[0], data[1], data[2]) + Padded(data[3..])
  }

  /** `.rstrip(b"=")`. */
  function StripPadding(s: string): string {
    if s != "" && s[|s| - 1] == '=' then StripPadding(s[..|s| - 1]) else s
  }

  /** `_b64url`. */
  function B64Url(data: Bytes): string {
    StripPadding(Padded(data))
  }

  function Join6(left: Sextet, v: Sextet, leftBits: nat): byte
    requires leftBits in {2, 4, 6}
  {
    var l, x := left as int, v as int;
    if leftBits == 6 then ((l * 4 + x / 16) % 256) as byte
    else if leftBits == 4 then ((l * 16 + x / 4) % 256) as byte
    else ((l * 64 + x) % 256) as byte
  }

  /** What `binascii.a2b_base64` keeps between characters: the position in a group of four, the bits
      that are left over, and the padding characters in a row. */
  datatype Decoder = Decoder(position: nat, left: Sextet, pads: nat)

  const FRESH := Decoder(0, 0, 0)

  /** The byte that a data character completes, and the state after it. */
  function Feed(d: Decoder, v: Sextet): (Bytes, Decoder)
    requires d.position < 4
  {
    var x := v as int;
    if d.position == 0 then ([], Decoder(1, v, 0))
    else if d.position == 1 then ([Join6(d.left, v, 6)], Decoder(2, (x % 16) as Sextet, 0))
    else if d.position == 2 then ([Join6(d.left, v, 4)], Decoder(3, (x % 4) as Sextet, 0))
    else ([Join6(d.left, v, 2)], Decoder(0, 0, 0))
  }

  /** `binascii.a2b_base64` without strict mode: characters outside the alphabet are skipped, and
      enough padding ends the input. */
  function Decode(s: string, d: Decoder): Result<Bytes>
    requires d.position < 4
    decreases s
  {
    if s == "" then if d.position == 0 then Ok([]) else Err(BadValue)
    else if s[0] == '=' then
      if d.position >= 2 && d.position + d.pads + 1 >= 4 then Ok([])
      else Decode(s[1..], if d.position >= 2 then d.(pads := d.pads + 1) else d)
    else
      match ValueOf(s[0])
      case None => Decode(s[1..], d)
      case Some(v) =>
        var (out, next) := Feed(d, v);
        var rest :- Decode(s[1..], next);
        Ok(out + rest)
  }

  predicate IsAscii(s: string) {
    forall k :: 0 <= k < |s| ==> s[k] < '\U{80}'
  }

  function Equals(n: nat): string {
    if n == 0 then "" else "=" + Equals(n - 1)
  }

  /** `-len(value) % 4`. */
  function PaddingLength(n: nat): nat {
    (4 - n % 4) % 4
  }

  /** `_b64url_decode`. */
  function B64UrlDecode(value: string): Result<Bytes> {
    if !IsAscii(value) then Err(BadValue) else Decode(value + Equals(PaddingLength(|value|)), FRESH)
  }

  // ---------------------------------------------------------------------------
  // The encoding can be undone
  // ---------------------------------------------------------------------------

  /** The characters of an encoding. */
  predicate IsSymbol(c: char) {
    'A' <= c <= 'Z' || 'a' <= c <= 'z' || '0' <= c <= '9' || c == '-' || c == '_'
  }

  predicate AllSymbols(s: string) {
    forall k :: 0 <= k < |s| ==> IsSymbol(s[k])
  }

  /** The encoding without its padding. */
  function Bare(data: Bytes): string {
    if data == [] then ""
    else if |data| == 1 then Quad(data[0], 0, 0)[..2]
    else if |data| == 2 then Quad(data[0], data[1], 0)[..3]
    else Quad(data[0], data[1], data[2]) + Bare(data[3..])
  }

  lemma SymbolsAreSymbols(v: Sextet)
    ensures IsSymbol(Symbol(v))
  {
  }

  lemma QuadIsSymbols(a: byte, b: byte, c: byte)
    ensures |Quad(a, b, c)| == 4 && AllSymbols(Quad(a, b, c)) && AllSymbols(Quad(a, b, c)[..2])
    ensures AllSymbols(Quad(a, b, c)[..3])
  {
    var (p, q, r, s) := Sextets3(a, b, c);
    SymbolsAreSymbols(p);
    SymbolsAreSymbols(q);
    SymbolsAreSymbols(r);
    SymbolsAreSymbols(s);
  }

  lemma {:induction false} BareIsSymbols(data: Bytes)
    ensures AllSymbols(Bare(data))
    ensures data != [] ==> Bare(data) != ""
  {
    hide Quad;
    if data != [] {
      QuadIsSymbols(data[0], if |data| > 1 then data[1] else 0, if |data| > 2 then data[2] else 0);
      if |data| > 2 {
        BareIsSymbols(data[3..]);
      }
    }
  }

  lemma {:induction false} StrippedSymbols(s: string, n: nat)
    requires AllSymbols(s)
    ensures StripPadding(s + Equals(n)) == s
  {
    if n == 0 {
      assert s + Equals(0) == s;
    } else {
      EqualsEnd(n);
      assert (s + Equals(n))[..|s| + n - 1] == s + Equals(n - 1);
      StrippedSymbols(s, n - 1);
    }
  }

  lemma {:induction false} EqualsEnd(n: nat)
    requires n > 0
    ensures |Equals(n)| == n && Equals(n)[n - 1] == '=' && Equals(n)[..n - 1] == Equals(n - 1)
  {
    if n > 1 {
      EqualsEnd(n - 1);
    }
  }

  lemma PaddingRepeats(n: nat)
    ensures PaddingLength(n + 4) == PaddingLength(n) && (n + 4) % 4 == n % 4
  {
  }

  lemma ShortPadding()
    ensures Equals(1) == "=" && Equals(2) == "==" && PaddingLength(2) == 2 && PaddingLength(3) == 1
  {
    assert Equals(0) == "";
    assert Equals(1) == "=";
  }

  /** The padded encoding is the bare one with as many `=` as its length asks for. */
  lemma {:induction false} PaddedIsBarePlusPadding(data: Bytes)
    ensures Padded(data) == Bare(data) + Equals(PaddingLength(|Bare(data)|))
    ensures |Bare(data)| % 4 != 1
  {
    hide Quad, Symbol, PaddingLength, Equals;
    if |data| > 2 {
      PaddedIsBarePlusPadding(data[3..]);
      QuadIsSymbols(data[0], data[1], data[2]);
      PaddingRepeats(|Bare(data[3..])|);
      ConcatAssoc(Quad(data[0], data[1], data[2]), Bare(data[3..]), Equals(PaddingLength(|Bare(data[3..])|)));
    } else if data != [] {
      QuadIsSymbols(data[0], if |data| > 1 then data[1] else 0, 0);
      ShortPadding();
    } else {
      NoPadding();
    }
  }

  lemma NoPadding()
    ensures Equals(PaddingLength(0)) == ""
  {
  }

  lemma EncodingIsBare(data: Bytes)
    ensures B64Url(data) == Bare(data)
  {
    PaddedIsBarePlusPadding(data);
    BareIsSymbols(data);
    StrippedSymbols(Bare(data), PaddingLength(|Bare(data)|));
  }

  lemma Fed(v: Sextet, rest: string, d: Decoder, tail: Bytes)
    requires d.position < 4 && Decode(rest, Feed(d, v).1) == Ok(tail)
    ensures Decode([Symbol(v)] + rest, d) == Ok(Feed(d, v).0 + tail)
  {
    SymbolHasItsValue(v);
    assert ([Symbol(v)] + rest)[1..] == rest;
  }

  /** The bits of three bytes come back from four sextets. */
  lemma BitsComeBack(a: byte, b: byte, c: byte)
    ensures var (p, q, r, s) := Sextets3(a, b, c);
            && Feed(FRESH, p) == ([], Decoder(1, p, 0))
            && Feed(Decoder(1, p, 0), q) == ([a], Decoder(2, (q as int % 16) as Sextet, 0))
            && Feed(Decoder(2, (q as int % 16) as Sextet, 0), r) == ([b], Decoder(3, (r as int % 4) as Sextet, 0))
            && Feed(Decoder(3, (r as int % 4) as Sextet, 0), s) == ([c], FRESH)
  {
    BitsOfFirst(a as int, b as int);
    BitsOfSecond(b as int, c as int);
    BitsOfThird(c as int);
  }

  lemma BitsOfFirst(x: int, y: int)
    requires 0 <= x < 256 && 0 <= y < 256
    ensures ((x / 4) * 4 + ((x % 4) * 16 + y / 16) / 16) % 256 == x
    ensures ((x % 4) * 16 + y / 16) % 16 == y / 16
  {
    assert ((x % 4) * 16 + y / 16) / 16 == x % 4;
  }

  lemma BitsOfSecond(y: int, z: int)
    requires 0 <= y < 256 && 0 <= z < 256
    ensures ((y / 16) * 16 + ((y % 16) * 4 + z / 64) / 4) % 256 == y
    ensures ((y % 16) * 4 + z / 64) % 4 == z / 64
  {
    assert ((y % 16) * 4 + z / 64) / 4 == y % 16;
  }

  lemma BitsOfThird(z: int)
    requires 0 <= z < 256
    ensures ((z / 64) * 64 + z % 64) % 256 == z
  {
  }

  lemma QuadDecodes(a: byte, b: byte, c: byte, rest: string, tail: Bytes)
    requires Decode(rest, FRESH) == Ok(tail)
    ensures Decode(Quad(a, b, c) + rest, FRESH) == Ok([a, b, c] + tail)
  {
    var (p, q, r, s) := Sextets3(a, b, c);
    BitsComeBack(a, b, c);
    var d1, d2 := Decoder(1, p, 0), Decoder(2, (q as int % 16) as Sextet, 0);
    var d3 := Decoder(3, (r as int % 4) as Sextet, 0);
    hide Decode, Feed, Symbol, Sextets3;
    Fed(s, rest, d3, tail);
    Fed(r, [Symbol(s)] + rest, d2, [c] + tail);
    Fed(q, [Symbol(r)] + ([Symbol(s)] + rest), d1, [b] + ([c] + tail));
    Fed(p, [Symbol(q)] + ([Symbol(r)] + ([Symbol(s)] + rest)), FRESH, [a] + ([b] + ([c] + tail)));
    QuadText(a, b, c, rest);
    assert [] + ([a] + ([b] + ([c] + tail))) == [a, b, c] + tail;
  }

  lemma QuadText(a: byte, b: byte, c: byte, rest: string)
    ensures var (p, q, r, s) := Sextets3(a, b, c);
            Quad(a, b, c) + rest == [Symbol(p)] + ([Symbol(q)] + ([Symbol(r)] + ([Symbol(s)] + rest)))
  {
  }

  lemma TwoDecode(a: byte)
    ensures Decode(Quad(a, 0, 0)[..2] + "==", FRESH) == Ok([a])
  {
    var (p, q, r, s) := Sextets3(a, 0, 0);
    BitsComeBack(a, 0, 0);
    var d1, d2 := Decoder(1, p, 0), Decoder(2, (q as int % 16) as Sextet, 0);
    EndsAfterTwo(d2);
    hide Decode, Feed, Symbol, Sextets3;
    Fed(q, "==", d1, []);
    Fed(p, [Symbol(q)] + "==", FRESH, [a] + []);
    assert Quad(a, 0, 0)[..2] + "==" == [Symbol(p)] + ([Symbol(q)] + "==");
    assert [] + ([a] + []) == [a];
  }

  lemma EndsAfterTwo(d: Decoder)
    requires d.position == 2 && d.pads == 0
    ensures Decode("==", d) == Ok([])
  {
    assert "=="[1..] == "=";
    assert Decode("=", d.(pads := 1)) == Ok([]);
  }

  lemma ThreeDecode(a: byte, b: byte)
    ensures Decode(Quad(a, b, 0)[..3] + "=", FRESH) == Ok([a, b])
  {
    var (p, q, r, s) := Sextets3(a, b, 0);
    BitsComeBack(a, b, 0);
    var d1, d2 := Decoder(1, p, 0), Decoder(2, (q as int % 16) as Sextet, 0);
    var d3 := Decoder(3, (r as int % 4) as Sextet, 0);
    assert Decode("=", d3) == Ok([]);
    hide Decode, Feed, Symbol, Sextets3;
    Fed(r, "=", d2, []);
    Fed(q, [Symbol(r)] + "=", d1, [b] + []);
    Fed(p, [Symbol(q)] + ([Symbol(r)] + "="), FRESH, [a] + ([b] + []));
    assert Quad(a, b, 0)[..3] + "=" == [Symbol(p)] + ([Symbol(q)] + ([Symbol(r)] + "="));
    assert [] + ([a] + ([b] + [])) == [a, b];
  }

  lemma {:induction false} PaddedDecodes(data: Bytes)
    ensures Decode(Padded(data), FRESH) == Ok(data)
  {
    hide Quad, Decode;
    if data == [] {
      EmptyDecodes();
    } else if |data| == 1 {
      TwoDecode(data[0]);
      assert data == [data[0]];
    } else if |data| == 2 {
      ThreeDecode(data[0], data[1]);
      assert data == [data[0], data[1]];
    } else {
      PaddedDecodes(data[3..]);
      QuadDecodes(data[0], data[1], data[2], Padded(data[3..]), data[3..]);
      assert data == [data[0], data[1], data[2]] + data[3..];
    }
  }

  lemma EmptyDecodes()
    ensures Decode("", FRESH) == Ok([])
  {
  }

  lemma SymbolsAreAscii(s: string)
    requires AllSymbols(s)
    ensures IsAscii(s) && '.' !in s && (forall k :: 0 <= k < |s| ==> !In(Space, s[k]))
  {
    forall k | 0 <= k < |s| ensures s[k] < '\U{80}' && s[k] != '.' && !In(Space, s[k]) {
      assert IsSymbol(s[k]);
    }
  }

  /** Every byte string comes back from its unpadded encoding. */
  lemma DecodeEncode(data: Bytes)
    ensures B64UrlDecode(B64Url(data)) == Ok(data)
  {
    EncodingIsBare(data);
    PaddedIsBarePlusPadding(data);
    BareIsSymbols(data);
    SymbolsAreAscii(Bare(data));
    PaddedDecodes(data);
  }

  // ---------------------------------------------------------------------------
  // Tokens
  // ---------------------------------------------------------------------------

  datatype SessionToken = SessionToken(principalKey: string, conversationId: string, expiresAt: real)

  /** A parsed payload; fields that are missing are `None`. */
  datatype Payload = Payload(prn: Option<string>, cid: Option<string>, exp: Option<real>)

  /** The service's secret as its signing function, the JSON code, and the time to live. */
  datatype Service = Service(
    sign: string -> Bytes,
    dumps: SessionToken -> Bytes,
    loads: Bytes -> Option<Payload>,
    ttl: real)

  /** Parsing a printed payload gives it back. */
  ghost predicate Lawful(s: Service) {
    forall t :: s.loads(s.dumps(t)) == Some(Payload(Some(t.principalKey), Some(t.conversationId), Some(t.expiresAt)))
  }

  function Mint(s: Service, principalKey: string, conversationId: string, now: real): string {
    var raw := B64Url(s.dumps(SessionToken(principalKey, conversationId, now + s.ttl)));
    raw + "." + B64Url(s.sign(raw))
  }

  function StripLeft(t: string): string {
    if t != "" && In(Space, t[0]) then StripLeft(t[1..]) else t
  }

  function StripRight(t: string): string {
    if t != "" && In(Space, t[|t| - 1]) then StripRight(t[..|t| - 1]) else t
  }

  /** `t.strip()`. */
  function Strip(t: string): string {
    StripRight(StripLeft(t))
  }

  const SCHEME := "bearer "

  predicate HasScheme(t: string) {
    |t| >= |SCHEME| && SameLetters(SCHEME, t[..|SCHEME|])
  }

  /** The token without surrounding space and scheme. */
  function Credentials(t: string): string {
    var u := Strip(t);
    if HasScheme(u) then Strip(u[|SCHEME|..]) else u
  }

  /** `t.split(".", 1)`. */
  function CutAtDot(t: string): Option<(string, string)> {
    if t == "" then None
    else if t[0] == '.' then Some(("", t[1..]))
    else
      match CutAtDot(t[1..])
      case None => None
      case Some((raw, sig)) => Some(([t[0]] + raw, sig))
  }

  function Accept(p: Payload, now: real): Result<SessionToken> {
    if (if p.exp.Some? then p.exp.value else 0.0) < now then Err(Authorization)
    else if p.prn.None? || p.cid.None? || p.exp.None? then Err(BadValue)
    else Ok(SessionToken(p.prn.value, p.cid.value, p.exp.value))
  }

  function Verify(s: Service, t: string, now: real): Result<SessionToken> {
    match CutAtDot(Credentials(t))
    case None => Err(Authorization)
    case Some((raw, sig)) =>
      if !IsAscii(sig) then Err(BadValue)
      else if B64Url(s.sign(raw)) != sig then Err(Authorization)
      else
        var bytes :- B64UrlDecode(raw);
        match s.loads(bytes)
        case None => Err(BadValue)
        case Some(p) => Accept(p, now)
  }

  // ---------------------------------------------------------------------------
  // Minted tokens verify
  // ---------------------------------------------------------------------------

  predicate NoSpaceIn(t: string) {
    forall k :: 0 <= k < |t| ==> !In(Space, t[k])
  }

  /** Text that begins and ends with something other than space. */
  predicate Trimmed(t: string) {
    t != "" && !In(Space, t[0]) && !In(Space, t[|t| - 1])
  }

  lemma {:induction false} StripRightSpaces(t: string, b: string)
    requires AllIn(Space, b) && Trimmed(t)
    ensures StripRight(t + b) == t
  {
    if b == "" {
      assert t + b == t;
    } else {
      var n := |b| - 1;
      assert (t + b)[..|t + b| - 1] == t + b[..n];
      StripRightSpaces(t, b[..n]);
    }
  }

  lemma StripSpaces(a: string, t: string, b: string)
    requires AllIn(Space, a) && AllIn(Space, b) && Trimmed(t)
    ensures Strip(a + t + b) == t
  {
    StripRightSpaces(t, b);
    ConcatAssoc(a, t, b);
    StripLeftBefore(a, t, b);
  }

  lemma {:induction false} StripLeftBefore(a: string, t: string, b: string)
    requires AllIn(Space, a) && Trimmed(t)
    ensures StripLeft(a + (t + b)) == t + b
  {
    if a == "" {
      assert a + (t + b) == t + b;
    } else {
      assert (a + (t + b))[1..] == a[1..] + (t + b);
      StripLeftBefore(a[1..], t, b);
    }
  }

  lemma {:induction false} CutFirstDot(raw: string, sig: string)
    requires '.' !in raw
    ensures CutAtDot(raw + "." + sig) == Some((raw, sig))
  {
    var t := raw + "." + sig;
    if raw == "" {
      assert t[1..] == sig;
    } else {
      assert t[1..] == raw[1..] + "." + sig;
      CutFirstDot(raw[1..], sig);
      assert [raw[0]] + raw[1..] == raw;
    }
  }

  /** `before` and `after` are space, and a scheme in any case may stand in front of the token. */
  ghost predicate Presents(t: string, token: string) {
    exists before, scheme, between, after ::
      && AllIn(Space, before) && AllIn(Space, between) && AllIn(Space, after)
      && ((scheme == "" && between == "") || SameLetters(SCHEME, scheme))
      && t == before + (scheme + between + token) + after
  }

  lemma SchemeEndsInSpace(w: string)
    requires SameLetters(SCHEME, w)
    ensures |w| == 7 && w[6] == ' ' && !In(Space, w[0])
  {
    assert SCHEME[6] == ' ' && SCHEME[0] == 'b';
    assert SameLetter(SCHEME[6], w[6]) && SameLetter(SCHEME[0], w[0]);
  }

  lemma NoSchemeInToken(token: string)
    requires NoSpaceIn(token)
    ensures !HasScheme(token)
  {
    if HasScheme(token) {
      SchemeEndsInSpace(token[..7]);
      assert In(Space, token[6]);
    }
  }

  lemma PresentedToken(t: string, token: string)
    requires token != "" && NoSpaceIn(token) && Presents(t, token)
    ensures Credentials(t) == token
  {
    var before, scheme, between, after :|
      && AllIn(Space, before) && AllIn(Space, between) && AllIn(Space, after)
      && ((scheme == "" && between == "") || SameLetters(SCHEME, scheme))
      && t == before + (scheme + between + token) + after;
    var u := scheme + between + token;
    NoSchemeInToken(token);
    if scheme == "" {
      assert u == token;
      StripSpaces(before, u, after);
    } else {
      SchemeEndsInSpace(scheme);
      assert u[0] == scheme[0] && u[|u| - 1] == token[|token| - 1];
      StripSpaces(before, u, after);
      assert u[..7] == scheme && u[7..] == between + token;
      assert between + token + "" == between + token;
      StripSpaces(between, token, "");
    }
  }

  lemma MintedText(s: Service, principalKey: string, conversationId: string, now: real)
    ensures var t := SessionToken(principalKey, conversationId, now + s.ttl);
            var raw := B64Url(s.dumps(t));
            var token := Mint(s, principalKey, conversationId, now);
            && token != "" && NoSpaceIn(token) && token == raw + "." + B64Url(s.sign(raw))
            && '.' !in raw && IsAscii(B64Url(s.sign(raw)))
  {
    var raw := B64Url(s.dumps(SessionToken(principalKey, conversationId, now + s.ttl)));
    EncodedIsPlain(s.dumps(SessionToken(principalKey, conversationId, now + s.ttl)));
    EncodedIsPlain(s.sign(raw));
    hide B64Url;
    var sig := B64Url(s.sign(raw));
    var token := raw + "." + sig;
    forall k | 0 <= k < |token| ensures !In(Space, token[k]) {
      assert token[k] == if k < |raw| then raw[k] else if k == |raw| then '.' else sig[k - |raw| - 1];
    }
  }

  lemma EncodedIsPlain(data: Bytes)
    ensures IsAscii(B64Url(data)) && '.' !in B64Url(data) && NoSpaceIn(B64Url(data))
  {
    EncodingIsBare(data);
    BareIsSymbols(data);
    SymbolsAreAscii(Bare(data));
  }

  /** A minted token, bare or behind the scheme in any case, is accepted exactly until it expires, and
      gives back the principal and the conversation it was minted for. */
  lemma MintedTokensVerify(s: Service, principalKey: string, conversationId: string, minted: real, t: string, now: real)
    requires Lawful(s) && Presents(t, Mint(s, principalKey, conversationId, minted))
    ensures Verify(s, t, now)
            == if now <= minted + s.ttl then Ok(SessionToken(principalKey, conversationId,
                                                             minted + s.ttl)) else Err(Authorization)
  {
    var claims := SessionToken(principalKey, conversationId, minted + s.ttl);
    var raw := B64Url(s.dumps(claims));
    MintedText(s, principalKey, conversationId, minted);
    PresentedToken(t, Mint(s, principalKey, conversationId, minted));
    CutFirstDot(raw, B64Url(s.sign(raw)));
    DecodeEncode(s.dumps(claims));
    assert s.loads(s.dumps(claims)) == Some(Payload(Some(principalKey), Some(conversationId), Some(minted + s.ttl)));
  }

  lemma {:induction false} CutIsAtFirstDot(t: string)
    ensures CutAtDot(t).None? <==> '.' !in t
    ensures CutAtDot(t).Some? ==> var (raw, sig) := CutAtDot(t).value; t == raw + "." + sig && '.' !in raw
  {
    if t != "" && t[0] != '.' {
      CutIsAtFirstDot(t[1..]);
      assert t == [t[0]] + t[1..];
    } else if t != "" {
      assert t == "" + "." + t[1..];
    }
  }

  /** The payload part `raw` carries the service's signature and decodes to unexpired claims. */
  ghost predicate Vouched(s: Service, raw: string, x: SessionToken, now: real) {
    && B64UrlDecode(raw).Ok?
    && s.loads(B64UrlDecode(raw).value)
       == Some(Payload(Some(x.principalKey), Some(x.conversationId), Some(x.expiresAt)))
    && now <= x.expiresAt
  }

  /** Exactly the texts that the secret signed are accepted: what stands before the first dot must be
      followed by its own signature, and nothing else. */
  lemma OnlySignedTokensVerify(s: Service, t: string, now: real, x: SessionToken)
    ensures Verify(s, t, now) == Ok(x)
            <==> exists raw ::
                   '.' !in raw && Credentials(t) == raw + "." + B64Url(s.sign(raw)) && Vouched(s, raw, x, now)
  {
    var u := Credentials(t);
    hide Credentials, B64UrlDecode, B64Url;
    CutIsAtFirstDot(u);
    if raw :| '.' !in raw && u == raw + "." + B64Url(s.sign(raw)) && Vouched(s, raw, x, now) {
      CutFirstDot(raw, B64Url(s.sign(raw)));
      EncodedIsPlain(s.sign(raw));
    }
    if Verify(s, t, now) == Ok(x) {
      var (raw, sig) := CutAtDot(u).value;
      assert Vouched(s, raw, x, now);
    }
  }
}
