/**
 The signed envelope a container presents to spawn a child session. Base64url is concrete;
 the MAC and the JSON encoding of a payload are parameters.
 */
module ParentToken {
  import opened Prelude

  type Byte = b: int | 0 <= b < 256

  type Sextet = v: int | 0 <= v < 64

  // ---- Base64 ----

  /** Three bytes to four sextets; one or two bytes left over make two or three. */
  function Sextets(bytes: seq<Byte>): seq<Sextet> {
    if |bytes| == 0 then []
    else if |bytes| == 1 then [bytes[0] / 4, bytes[0] % 4 * 16]
    else if |bytes| == 2 then [bytes[0] / 4, bytes[0] % 4 * 16 + bytes[1] / 16, bytes[1] % 16 * 4]
    else
      [bytes[0] / 4, bytes[0] % 4 * 16 + bytes[1] / 16, bytes[1] % 16 * 4 + bytes[2] / 64, bytes[2] % 64]
      + Sextets(bytes[3..])
  }

  function FirstByte(a: Sextet, b: Sextet): Byte {
    a as int * 4 + b as int / 16
  }

  function SecondByte(b: Sextet, c: Sextet): Byte {
    b as int % 16 * 16 + c as int / 4
  }

  function ThirdByte(c: Sextet, d: Sextet): Byte {
    c as int % 4 * 64 + d as int
  }

  /** The bytes that groups of sextets complete. */
  function Bytes(sextets: seq<Sextet>): seq<Byte> {
    if |sextets| < 2 then []
    else if |sextets| == 2 then [FirstByte(sextets[0], sextets[1])]
    else if |sextets| == 3 then [FirstByte(sextets[0], sextets[1]), SecondByte(sextets[1], sextets[2])]
    else
      [FirstByte(sextets[0], sextets[1]), SecondByte(sextets[1], sextets[2]), ThirdByte(sextets[2], sextets[3])]
      + Bytes(sextets[4..])
  }

  function CharOf(v: Sextet): char {
    if v < 26 then ('A' as int + v) as char
    else if v < 52 then ('a' as int + v - 26) as char
    else if v < 62 then ('0' as int + v - 52) as char
    else if v == 62 then '+' else '/'
  }

  function ValueOf(c: char): Option<Sextet> {
    if 'A' <= c <= 'Z' then Some(c as int - 'A' as int)
    else if 'a' <= c <= 'z' then Some(c as int - 'a' as int + 26)
    else if '0' <= c <= '9' then Some(c as int - '0' as int + 52)
    else if c == '+' then Some(62)
    else if c == '/' then Some(63)
    else None
  }

  function Chars(sextets: seq<Sextet>): string {
    if sextets == [] then "" else [CharOf(sextets[0])] + Chars(sextets[1..])
  }

  /** A lenient reader: what is not in the alphabet is skipped, and '=' ends the text. */
  function Values(s: string): seq<Sextet> {
    if s == "" || s[0] == '=' then []
    else if ValueOf(s[0]).None? then Values(s[1..])
    else [ValueOf(s[0]).value] + Values(s[1..])
  }

  function Padding(length: nat): string {
    if length % 4 == 0 then "" else if length % 4 == 1 then "===" else if length % 4 == 2 then "==" else "="
  }

  function Replace(s: string, from: char, to: char): string {
    if s == "" then "" else [if s[0] == from then to else s[0]] + Replace(s[1..], from, to)
  }

  function StripPadding(s: string): string {
    if s != "" && s[|s|-1] == '=' then StripPadding(s[..|s|-1]) else s
  }

  function Base64(bytes: seq<Byte>): string {
    Chars(Sextets(bytes)) + Padding(|Sextets(bytes)|)
  }

  function Base64UrlEncode(bytes: seq<Byte>): string {
    StripPadding(Replace(Replace(Base64(bytes), '+', '-'), '/', '_'))
  }

  function Base64UrlDecode(s: string): seq<Byte> {
    Bytes(Values(Replace(Replace(s, '-', '+'), '_', '/') + Padding(|s|)))
  }

  // ---- The decoder inverts the encoder ----

  lemma {:induction false} BytesOfSextets(bytes: seq<Byte>)
    ensures Bytes(Sextets(bytes)) == bytes
  {
    if |bytes| >= 3 {
      var sextets := Sextets(bytes);
      assert sextets[4..] == Sextets(bytes[3..]);
      BytesOfSextets(bytes[3..]);
      assert bytes == [bytes[0], bytes[1], bytes[2]] + bytes[3..];
    }
  }

  lemma ValueOfChar(v: Sextet)
    ensures ValueOf(CharOf(v)) == Some(v) && CharOf(v) != '='
    ensures CharOf(v) != '-' && CharOf(v) != '_' && CharOf(v) != '.'
  {
  }

  lemma ValuesStep(v: Sextet, rest: string)
    ensures Values([CharOf(v)] + rest) == [v] + Values(rest)
  {
  }

  lemma {:induction false} ValuesOfChars(sextets: seq<Sextet>, pad: string, text: string)
    requires text == Chars(sextets) + pad && (pad == "" || pad[0] == '=')
    ensures Values(text) == sextets
  {
    if sextets == [] {
      assert text == pad;
    } else {
      var rest := Chars(sextets[1..]) + pad;
      assert text == [CharOf(sextets[0])] + rest;
      ValuesStep(sextets[0], rest);
      ValuesOfChars(sextets[1..], pad, rest);
    }
  }

  function UrlCharOf(v: Sextet): char {
    if v == 62 then '-' else if v == 63 then '_' else CharOf(v)
  }

  function UrlChars(sextets: seq<Sextet>): (s: string)
    ensures |s| == |sextets|
  {
    if sextets == [] then "" else [UrlCharOf(sextets[0])] + UrlChars(sextets[1..])
  }

  lemma {:induction false} ReplaceAppend(a: string, b: string, from: char, to: char)
    ensures Replace(a + b, from, to) == Replace(a, from, to) + Replace(b, from, to)
  {
    if a == "" {
      assert a + b == b;
    } else {
      assert (a + b)[1..] == a[1..] + b;
      ReplaceAppend(a[1..], b, from, to);
    }
  }

  lemma {:induction false} ToUrl(sextets: seq<Sextet>)
    ensures Replace(Replace(Chars(sextets), '+', '-'), '/', '_') == UrlChars(sextets)
  {
    if sextets != [] {
      var head, tail := [CharOf(sextets[0])], Chars(sextets[1..]);
      ReplaceAppend(head, tail, '+', '-');
      ReplaceAppend(Replace(head, '+', '-'), Replace(tail, '+', '-'), '/', '_');
      ToUrl(sextets[1..]);
      ValueOfChar(sextets[0]);
      assert Replace(Replace(head, '+', '-'), '/', '_') == [UrlCharOf(sextets[0])];
    }
  }

  lemma {:induction false} FromUrl(sextets: seq<Sextet>)
    ensures Replace(Replace(UrlChars(sextets), '-', '+'), '_', '/') == Chars(sextets)
  {
    if sextets != [] {
      var head, tail := [UrlCharOf(sextets[0])], UrlChars(sextets[1..]);
      ReplaceAppend(head, tail, '-', '+');
      ReplaceAppend(Replace(head, '-', '+'), Replace(tail, '-', '+'), '_', '/');
      FromUrl(sextets[1..]);
      ValueOfChar(sextets[0]);
      assert Replace(Replace(head, '-', '+'), '_', '/') == [CharOf(sextets[0])];
    }
  }

  predicate UrlSafe(c: char) {
    'A' <= c <= 'Z' || 'a' <= c <= 'z' || '0' <= c <= '9' || c == '-' || c == '_'
  }

  lemma {:induction false} UrlCharsAreSafe(sextets: seq<Sextet>)
    ensures forall i :: 0 <= i < |sextets| ==> UrlSafe(UrlChars(sextets)[i])
  {
    if sextets != [] {
      UrlCharsAreSafe(sextets[1..]);
      forall i | 0 <= i < |sextets| ensures UrlSafe(UrlChars(sextets)[i]) {
        if i > 0 {
          assert UrlChars(sextets)[i] == UrlChars(sextets[1..])[i-1];
        }
      }
    }
  }

  lemma {:induction false} StripsPadding(s: string, pad: string)
    requires s == "" || s[|s|-1] != '='
    requires forall i :: 0 <= i < |pad| ==> pad[i] == '='
    ensures StripPadding(s + pad) == s
  {
    if pad == "" {
      assert s + pad == s;
    } else {
      assert (s + pad)[|s + pad| - 1] == '=' && (s + pad)[..|s + pad| - 1] == s + pad[..|pad|-1];
      StripsPadding(s, pad[..|pad|-1]);
    }
  }

  lemma {:induction false} ReplaceNone(s: string, from: char, to: char)
    requires from !in s
    ensures Replace(s, from, to) == s
  {
    if s != "" {
      ReplaceNone(s[1..], from, to);
    }
  }

  lemma ReplaceBoth(s: string, pad: string)
    requires '+' !in pad && '/' !in pad
    ensures Replace(Replace(s + pad, '+', '-'), '/', '_') == Replace(Replace(s, '+', '-'), '/', '_') + pad
  {
    ReplaceAppend(s, pad, '+', '-');
    ReplaceNone(pad, '+', '-');
    ReplaceAppend(Replace(s, '+', '-'), pad, '/', '_');
    ReplaceNone(pad, '/', '_');
  }

  lemma EncodedChars(bytes: seq<Byte>)
    ensures Base64UrlEncode(bytes) == UrlChars(Sextets(bytes))
  {
    var sextets := Sextets(bytes);
    ReplaceBoth(Chars(sextets), Padding(|sextets|));
    ToUrl(sextets);
    UrlCharsAreSafe(sextets);
    StripsPadding(UrlChars(sextets), Padding(|sextets|));
  }

  /** The encoding has only letters, digits, '-' and '_', and decoding gives the bytes back. */
  lemma CodecRoundTrip(bytes: seq<Byte>)
    ensures Base64UrlDecode(Base64UrlEncode(bytes)) == bytes
    ensures forall i :: 0 <= i < |Base64UrlEncode(bytes)| ==> UrlSafe(Base64UrlEncode(bytes)[i])
    ensures '.' !in Base64UrlEncode(bytes)
    ensures bytes != [] ==> Base64UrlEncode(bytes) != ""
  {
    var sextets := Sextets(bytes);
    EncodedChars(bytes);
    UrlCharsAreSafe(sextets);
    FromUrl(sextets);
    ValuesOfChars(sextets, Padding(|sextets|), Chars(sextets) + Padding(|sextets|));
    BytesOfSextets(bytes);
  }

  // ---- Minting and verifying ----

  datatype Payload = Payload(
    parentSessionId: string, parentAgentId: string, allowlist: seq<string>, remainingDepth: int, expiresAt: int)

  /** `fromJson` also stands for the parse failing and for a field missing or of the wrong type. */
  datatype Signer = Signer(mac: string -> seq<Byte>, toJson: Payload -> seq<Byte>, fromJson: seq<Byte> -> Option<Payload>)

  const MAC_LENGTH := 32

  ghost predicate Sane(k: Signer) {
    && (forall s :: |k.mac(s)| == MAC_LENGTH)
    && (forall p :: k.fromJson(k.toJson(p)) == Some(p) && k.toJson(p) != [])
  }

  const DEFAULT_TTL_MS := 86400000

  function PayloadFor(session: string, agent: string, allowlist: seq<string>, depth: int, ttl: Option<int>, now: int): Payload {
    Payload(session, agent, allowlist, depth, now + if ttl.Some? then ttl.value else DEFAULT_TTL_MS)
  }

  function Sign(k: Signer, payload: Payload): string {
    var payloadB64 := Base64UrlEncode(k.toJson(payload));
    payloadB64 + "." + Base64UrlEncode(k.mac(payloadB64))
  }

  function Verify(k: Signer, token: string, now: int): Option<Payload> {
    var dot := IndexOf(token, '.');
    if dot <= 0 || dot == |token| - 1 then None
    else
      var payloadB64, macB64 := token[..dot], token[dot + 1..];
      var provided, expected := Base64UrlDecode(macB64), k.mac(payloadB64);
      if |provided| != |expected| || provided != expected then None
      else
        var payload := k.fromJson(Base64UrlDecode(payloadB64));
        if payload.None? || now >= payload.value.expiresAt then None else payload
  }

  /** The part of a token that is signed. */
  function SignedPart(token: string): string {
    var dot := IndexOf(token, '.');
    if dot == -1 then token else token[..dot]
  }

  /** A minted token verifies as its own payload until it expires, and then not at all. */
  lemma MintThenVerify(k: Signer, payload: Payload, now: int)
    requires Sane(k)
    ensures Verify(k, Sign(k, payload), now) == if now < payload.expiresAt then Some(payload) else None
    ensures SignedPart(Sign(k, payload)) == Base64UrlEncode(k.toJson(payload))
  {
    var payloadB64 := Base64UrlEncode(k.toJson(payload));
    var macB64 := Base64UrlEncode(k.mac(payloadB64));
    var token := payloadB64 + "." + macB64;
    CodecRoundTrip(k.toJson(payload));
    CodecRoundTrip(k.mac(payloadB64));
    assert token[|payloadB64|] == '.' && token[..|payloadB64|] == payloadB64 && token[|payloadB64| + 1..] == macB64;
    assert |k.mac(payloadB64)| == MAC_LENGTH;
    FirstAt(token, '.', |payloadB64|);
  }

  /** The caller's lifetime counts when it gives one, otherwise a day; until then the token says what it was minted with. */
  lemma LastsItsTtl(k: Signer, session: string, agent: string, allowlist: seq<string>, depth: int, ttl: Option<int>, t: int, now: int)
    requires Sane(k)
    ensures var lifetime := if ttl.Some? then ttl.value else 86400000;
            Verify(k, Sign(k, PayloadFor(session, agent, allowlist, depth, ttl, t)), now) ==
            if now < t + lifetime then Some(Payload(session, agent, allowlist, depth, t + lifetime)) else None
  {
    MintThenVerify(k, PayloadFor(session, agent, allowlist, depth, ttl, t), now);
  }

  /** `token` is `part`, a dot and an encoding, however lenient, of the signer's MAC for `part`. */
  predicate Signs(k: Signer, token: string, part: string, mac: string) {
    && part != "" && '.' !in part && token == part + "." + mac && Base64UrlDecode(mac) == k.mac(part)
  }

  /** The test `verify` makes before it looks at the payload. */
  predicate MacFits(k: Signer, token: string) {
    var dot := IndexOf(token, '.');
    0 < dot < |token| - 1 && Base64UrlDecode(token[dot + 1..]) == k.mac(token[..dot])
  }

  lemma MacFitsSigns(k: Signer, token: string)
    requires MacFits(k, token)
    ensures exists part, mac :: Signs(k, token, part, mac)
  {
    var dot := IndexOf(token, '.');
    assert token == token[..dot] + "." + token[dot + 1..];
    assert Signs(k, token, token[..dot], token[dot + 1..]);
  }

  lemma SignsMacFits(k: Signer, token: string, part: string, mac: string)
    requires Sane(k) && Signs(k, token, part, mac)
    ensures MacFits(k, token) && part == SignedPart(token)
  {
    SplitAtDot(token, part, mac);
    EmptyDecodes();
    assert |k.mac(part)| == MAC_LENGTH;
  }

  /** A token verifies exactly when it splits in such a way, and then as what its signed part says, unless that expired. */
  lemma VerifiesIff(k: Signer, token: string, now: int, payload: Payload)
    requires Sane(k)
    ensures Verify(k, token, now) == Some(payload) <==>
      && (exists part, mac :: Signs(k, token, part, mac))
      && k.fromJson(Base64UrlDecode(SignedPart(token))) == Some(payload) && now < payload.expiresAt
  {
    if MacFits(k, token) {
      MacFitsSigns(k, token);
    }
    if part, mac :| Signs(k, token, part, mac) {
      SignsMacFits(k, token, part, mac);
    }
  }

  lemma SplitAtDot(token: string, part: string, mac: string)
    requires '.' !in part && token == part + "." + mac
    ensures IndexOf(token, '.') == |part| && token[..|part|] == part && token[|part| + 1..] == mac
  {
  }

  lemma EmptyDecodes()
    ensures Base64UrlDecode("") == []
  {
  }

  /** A token whose signed part was minted verifies, if at all, as the payload that was minted. */
  lemma VerifiedWasMinted(k: Signer, token: string, now: int, payload: Payload, minted: Payload)
    requires Sane(k) && Verify(k, token, now) == Some(payload)
    requires SignedPart(token) == SignedPart(Sign(k, minted))
    ensures payload == minted
  {
    MintThenVerify(k, minted, now);
    CodecRoundTrip(k.toJson(minted));
  }
}
