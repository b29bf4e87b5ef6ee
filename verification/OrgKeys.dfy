/**
 The text of API and management keys (packages/auth/src/keys.ts): printing and parsing are inverse. Random bytes are
 inputs, and the SHA-256 of a text is any function of it.
 */
module OrgKeys {
  import opened Plan
  import opened Text
  import opened OrgNames

  const API_KEY_PREFIX := "cms_"
  const MANAGEMENT_KEY_PREFIX := "cmsm_"

  type Byte = b: int | 0 <= b < 256

  predicate IsHexDigit(c: char) {
    '0' <= c <= '9' || 'a' <= c <= 'f'
  }

  predicate IsKeyId(s: string) {
    |s| == 20 && forall i :: 0 <= i < |s| ==> IsHexDigit(s[i])
  }

  predicate IsSecretCharacter(c: char) {
    'A' <= c <= 'Z' || 'a' <= c <= 'z' || '0' <= c <= '9' || c == '_' || c == '-'
  }

  predicate IsSecret(s: string) {
    |s| == 48 && forall i :: 0 <= i < |s| ==> IsSecretCharacter(s[i])
  }

  datatype ParsedKey = ParsedKey(org: string, keyId: string, hash: string)

  datatype MintedKey = MintedKey(key: string, org: string, keyId: string, hash: string, prefix: string)

  function Hex(bytes: seq<Byte>): (s: string)
    ensures |s| == 2 * |bytes|
    ensures forall i :: 0 <= i < |s| ==> IsHexDigit(s[i])
  {
    if bytes == [] then "" else HexPair(bytes[0]) + Hex(bytes[1..])
  }

  function HexPair(b: Byte): (s: string)
    ensures |s| == 2 && IsHexDigit(s[0]) && IsHexDigit(s[1])
  {
    [HexDigit(b / 16), HexDigit(b % 16)]
  }

  function HexDigit(v: int): (c: char)
    requires 0 <= v < 16
    ensures IsHexDigit(c)
  {
    if v < 10 then ('0' as int + v) as char else ('a' as int + v - 10) as char
  }

  /** The base64url character of six bits. */
  function Sextet(v: int): (c: char)
    requires 0 <= v < 64
    ensures IsSecretCharacter(c)
  {
    if v < 26 then ('A' as int + v) as char
    else if v < 52 then ('a' as int + v - 26) as char
    else if v < 62 then ('0' as int + v - 52) as char
    else if v == 62 then '-'
    else '_'
  }

  /** Unpadded base64url of a whole number of three-byte groups. */
  function Base64Url(bytes: seq<Byte>): (s: string)
    requires |bytes| % 3 == 0
    ensures |s| == |bytes| / 3 * 4
    ensures forall i :: 0 <= i < |s| ==> IsSecretCharacter(s[i])
  {
    if bytes == [] then "" else Group(bytes[0], bytes[1], bytes[2]) + Base64Url(bytes[3..])
  }

  function Group(a: Byte, b: Byte, c: Byte): (s: string)
    ensures |s| == 4 && forall i :: 0 <= i < 4 ==> IsSecretCharacter(s[i])
  {
    [Sextet(a / 4), Sextet(a % 4 * 16 + b / 16), Sextet(b % 16 * 4 + c / 64), Sextet(c % 64)]
  }

  function KeyText(prefix: string, org: string, keyId: string, secret: string): string {
    prefix + (org + ['_'] + (keyId + ['_'] + secret))
  }

  /** A new key of `org`, from ten bytes for its id and 36 for its secret. */
  function MintOrgKey(
    hash: string -> string, prefix: string, org: string, idBytes: seq<Byte>, secretBytes: seq<Byte>): MintedKey
    requires |idBytes| == 10 && |secretBytes| == 36
  {
    var keyId, secret := Hex(idBytes), Base64Url(secretBytes);
    var key := KeyText(prefix, org, keyId, secret);
    MintedKey(key, org, keyId, hash(key), KeyText(prefix, org, keyId, secret[..4]))
  }

  function ParseOrgKey(hash: string -> string, prefix: string, text: string): Option<ParsedKey> {
    if !StartsWith(text, prefix) then None
    else
      var parts := Split(text[|prefix|..], '_');
      if |parts| < 2 then None
      else
        var org, keyId, secret := parts[0], parts[1], Join(parts[2..], '_');
        if !IsOrgId(org) || !IsKeyId(keyId) then None
        else if IsSecret(secret) then Some(ParsedKey(org, keyId, hash(text)))
        else None
  }

  predicate WellFormed(org: string, keyId: string, secret: string) {
    IsOrgId(org) && IsKeyId(keyId) && IsSecret(secret)
  }

  lemma KeyIdsHoldNoSeparator(keyId: string)
    requires IsKeyId(keyId)
    ensures '_' !in keyId
  {
  }

  /** What is printed parses, though the secret may hold the separator. */
  lemma PrintedKeysParse(hash: string -> string, prefix: string, org: string, keyId: string, secret: string)
    requires WellFormed(org, keyId, secret)
    ensures var text := KeyText(prefix, org, keyId, secret);
            ParseOrgKey(hash, prefix, text) == Some(ParsedKey(org, keyId, hash(text)))
  {
    var text := KeyText(prefix, org, keyId, secret);
    var rest := text[|prefix|..];
    OrgIdsHoldNoSeparators(org);
    KeyIdsHoldNoSeparator(keyId);
    assert rest == org + ['_'] + (keyId + ['_'] + secret);
    SplitAfterPart(org, keyId + ['_'] + secret, '_');
    SplitAfterPart(keyId, secret, '_');
    JoinUndoesSplit(secret, '_');
    assert Split(rest, '_')[2..] == Split(secret, '_');
  }

  lemma ParsedKeysArePrinted(hash: string -> string, prefix: string, text: string) returns (secret: string)
    requires ParseOrgKey(hash, prefix, text).Some?
    ensures var parsed := ParseOrgKey(hash, prefix, text).value;
            WellFormed(parsed.org, parsed.keyId, secret) && text == KeyText(prefix, parsed.org, parsed.keyId, secret)
  {
    var rest := text[|prefix|..];
    var parts := Split(rest, '_');
    secret := Join(parts[2..], '_');
    JoinUndoesSplit(rest, '_');
    assert parts[1..][1..] == parts[2..];
    assert |parts| > 2;
    assert Join(parts, '_') == parts[0] + ['_'] + (parts[1] + ['_'] + secret);
    assert text == prefix + rest;
  }

  /**
   A text is accepted exactly when it is the printing of an org, an id and a secret, and says what it was printed of.
   */
  lemma AcceptedExactlyWhenPrinted(
    hash: string -> string, prefix: string, text: string, org: string, keyId: string)
    ensures ParseOrgKey(hash, prefix, text) == Some(ParsedKey(org, keyId, hash(text))) <==>
            exists secret :: WellFormed(org, keyId, secret) && text == KeyText(prefix, org, keyId, secret)
  {
    if ParseOrgKey(hash, prefix, text) == Some(ParsedKey(org, keyId, hash(text))) {
      var secret := ParsedKeysArePrinted(hash, prefix, text);
    }
    forall secret | WellFormed(org, keyId, secret) && text == KeyText(prefix, org, keyId, secret)
      ensures ParseOrgKey(hash, prefix, text) == Some(ParsedKey(org, keyId, hash(text)))
    {
      PrintedKeysParse(hash, prefix, org, keyId, secret);
    }
  }

  /** A text is the printing of one org, id and secret only. */
  lemma PrintingIsInjective(
    prefix: string, org: string, keyId: string, secret: string, other: string, otherId: string, otherSecret: string)
    requires WellFormed(org, keyId, secret) && WellFormed(other, otherId, otherSecret)
    ensures KeyText(prefix, org, keyId, secret) == KeyText(prefix, other, otherId, otherSecret) <==>
            org == other && keyId == otherId && secret == otherSecret
  {
    var a, b := KeyText(prefix, org, keyId, secret), KeyText(prefix, other, otherId, otherSecret);
    if a == b {
      assert a[|prefix|..] == org + ['_'] + (keyId + ['_'] + secret);
      assert b[|prefix|..] == other + ['_'] + (otherId + ['_'] + otherSecret);
      OrgIdsHoldNoSeparators(org);
      OrgIdsHoldNoSeparators(other);
      KeyIdsHoldNoSeparator(keyId);
      KeyIdsHoldNoSeparator(otherId);
      FirstSeparatorDecides(org, keyId + ['_'] + secret, other, otherId + ['_'] + otherSecret, '_');
      FirstSeparatorDecides(keyId, secret, otherId, otherSecret, '_');
    }
  }

  /** Every minted key parses to its org and its id, whatever the random bytes, and what lists show is its start. */
  lemma MintedKeysParse(hash: string -> string, prefix: string, org: string, idBytes: seq<Byte>, secretBytes: seq<Byte>)
    requires IsOrgId(org) && |idBytes| == 10 && |secretBytes| == 36
    ensures var minted := MintOrgKey(hash, prefix, org, idBytes, secretBytes);
            && ParseOrgKey(hash, prefix, minted.key) == Some(ParsedKey(minted.org, minted.keyId, minted.hash))
            && minted.org == org && StartsWith(minted.key, minted.prefix) && |minted.key| == |minted.prefix| + 44
  {
    var keyId, secret := Hex(idBytes), Base64Url(secretBytes);
    PrintedKeysParse(hash, prefix, org, keyId, secret);
    ShownPart(prefix, org, keyId, secret, 4);
  }

  lemma ShownPart(prefix: string, org: string, keyId: string, secret: string, n: nat)
    requires n <= |secret|
    ensures KeyText(prefix, org, keyId, secret) == KeyText(prefix, org, keyId, secret[..n]) + secret[n..]
  {
    assert secret == secret[..n] + secret[n..];
  }

  /** The prefixes keep the two kinds apart: no text is a key of both. */
  lemma NoKeyIsOfBothKinds(hash: string -> string, text: string)
    ensures ParseOrgKey(hash, API_KEY_PREFIX, text).None? || ParseOrgKey(hash, MANAGEMENT_KEY_PREFIX, text).None?
  {
    if StartsWith(text, API_KEY_PREFIX) {
      assert text[3] == text[..4][3] == '_';
      assert |text| >= 5 ==> text[..5][3] == text[3];
    }
  }

  // ---- reading the random bytes back ----

  function HexValue(c: char): (v: int)
    requires IsHexDigit(c)
    ensures 0 <= v < 16
  {
    if c <= '9' then c as int - '0' as int else c as int - 'a' as int + 10
  }

  function FromHexPair(a: char, b: char): Byte
    requires IsHexDigit(a) && IsHexDigit(b)
  {
    HexValue(a) * 16 + HexValue(b)
  }

  function FromHex(s: string): (bytes: seq<Byte>)
    requires |s| % 2 == 0 && forall i :: 0 <= i < |s| ==> IsHexDigit(s[i])
    ensures |bytes| == |s| / 2
  {
    if s == "" then [] else [FromHexPair(s[0], s[1])] + FromHex(s[2..])
  }

  lemma HexDigitsReadBack(v: int)
    requires 0 <= v < 16
    ensures HexValue(HexDigit(v)) == v
  {
  }

  lemma HexDigitsPrintBack(c: char)
    requires IsHexDigit(c)
    ensures HexDigit(HexValue(c)) == c
  {
  }

  lemma HexPairsReadBack(b: Byte)
    ensures FromHexPair(HexPair(b)[0], HexPair(b)[1]) == b
  {
    HexDigitsReadBack(b / 16);
    HexDigitsReadBack(b % 16);
  }

  lemma HexPairsPrintBack(a: char, b: char)
    requires IsHexDigit(a) && IsHexDigit(b)
    ensures HexPair(FromHexPair(a, b)) == [a, b]
  {
    HexDigitsPrintBack(a);
    HexDigitsPrintBack(b);
    PairsOfDigits(HexValue(a), HexValue(b));
  }

  lemma PairsOfDigits(v: int, w: int)
    requires 0 <= v < 16 && 0 <= w < 16
    ensures HexPair(v * 16 + w) == [HexDigit(v), HexDigit(w)]
  {
    assert (v * 16 + w) / 16 == v && (v * 16 + w) % 16 == w;
  }

  /** Printing bytes in hex and reading them back is the identity, both ways: no two bytes print alike. */
  lemma {:induction false} HexReadsBack(bytes: seq<Byte>)
    ensures FromHex(Hex(bytes)) == bytes
  {
    if bytes != [] {
      HexReadsBack(bytes[1..]);
      HexPairsReadBack(bytes[0]);
      assert Hex(bytes)[2..] == Hex(bytes[1..]);
    }
  }

  lemma {:induction false} HexPrintsBack(s: string)
    requires |s| % 2 == 0 && forall i :: 0 <= i < |s| ==> IsHexDigit(s[i])
    ensures Hex(FromHex(s)) == s
  {
    if s != "" {
      HexPrintsBack(s[2..]);
      HexPairsPrintBack(s[0], s[1]);
      assert FromHex(s)[1..] == FromHex(s[2..]);
    }
  }

  function SextetValue(c: char): (v: int)
    requires IsSecretCharacter(c)
    ensures 0 <= v < 64
  {
    if 'A' <= c <= 'Z' then c as int - 'A' as int
    else if 'a' <= c <= 'z' then c as int - 'a' as int + 26
    else if '0' <= c <= '9' then c as int - '0' as int + 52
    else if c == '-' then 62
    else 63
  }

  /** Four characters are a number of 24 bits, which is three bytes. */
  function FromGroup(s: string): (bytes: seq<Byte>)
    requires |s| == 4 && forall i :: 0 <= i < 4 ==> IsSecretCharacter(s[i])
    ensures |bytes| == 3
  {
    var n := SextetValue(s[0]) * 262144 + SextetValue(s[1]) * 4096 + SextetValue(s[2]) * 64 + SextetValue(s[3]);
    [n / 65536, n / 256 % 256, n % 256]
  }

  function FromBase64Url(s: string): (bytes: seq<Byte>)
    requires |s| % 4 == 0 && forall i :: 0 <= i < |s| ==> IsSecretCharacter(s[i])
    ensures |bytes| == |s| / 4 * 3
  {
    if s == "" then [] else FromGroup(s[..4]) + FromBase64Url(s[4..])
  }

  lemma SextetsReadBack(v: int)
    requires 0 <= v < 64
    ensures SextetValue(Sextet(v)) == v
  {
  }

  lemma SextetsPrintBack(c: char)
    requires IsSecretCharacter(c)
    ensures Sextet(SextetValue(c)) == c
  {
  }

  lemma GroupsReadBack(a: Byte, b: Byte, c: Byte)
    ensures FromGroup(Group(a, b, c)) == [a, b, c]
  {
    var v, x, y, z := a / 4, a % 4 * 16 + b / 16, b % 16 * 4 + c / 64, c % 64;
    BytesAreSextets(a, b, c);
    SextetsReadBack(v);
    SextetsReadBack(x);
    SextetsReadBack(y);
    SextetsReadBack(z);
    var s := Group(a, b, c);
    var n := v * 262144 + x * 4096 + y * 64 + z;
    assert SextetValue(s[0]) == v && SextetValue(s[1]) == x && SextetValue(s[2]) == y && SextetValue(s[3]) == z;
    assert FromGroup(s) == [n / 65536, n / 256 % 256, n % 256];
  }

  lemma BytesAreSextets(a: Byte, b: Byte, c: Byte)
    ensures var n := a / 4 * 262144 + (a % 4 * 16 + b / 16) * 4096 + (b % 16 * 4 + c / 64) * 64 + c % 64;
            n / 65536 == a && n / 256 % 256 == b && n % 256 == c
  {
    var n := a / 4 * 262144 + (a % 4 * 16 + b / 16) * 4096 + (b % 16 * 4 + c / 64) * 64 + c % 64;
    assert a == a / 4 * 4 + a % 4 && b == b / 16 * 16 + b % 16 && c == c / 64 * 64 + c % 64;
    assert n == a * 65536 + b * 256 + c;
    ThreeBytes(a, b, c);
  }

  lemma ThreeBytes(a: Byte, b: Byte, c: Byte)
    ensures var n := a * 65536 + b * 256 + c; n / 65536 == a && n / 256 % 256 == b && n % 256 == c
  {
    assert (a * 65536 + b * 256 + c) / 256 == a * 256 + b;
  }

  lemma BitsOfGroups(v: int, x: int, y: int, z: int)
    requires 0 <= v < 64 && 0 <= x < 64 && 0 <= y < 64 && 0 <= z < 64
    ensures var n := v * 262144 + x * 4096 + y * 64 + z;
            var a, b, c := n / 65536, n / 256 % 256, n % 256;
            a / 4 == v && a % 4 * 16 + b / 16 == x && b % 16 * 4 + c / 64 == y && c % 64 == z
  {
    var n := v * 262144 + x * 4096 + y * 64 + z;
    var a, b, c := v * 4 + x / 16, x % 16 * 16 + y / 4, y % 4 * 64 + z;
    assert n == a * 65536 + b * 256 + c;
    ThreeBytes(a, b, c);
    HighBits(v, x / 16, 4);
    HighBits(x % 16, y / 4, 16);
    HighBits(y % 4, z, 64);
  }

  lemma HighBits(high: int, low: int, size: int)
    requires size in {4, 16, 64} && 0 <= low < size
    ensures (high * size + low) / size == high && (high * size + low) % size == low
  {
  }

  lemma GroupsPrintBack(s: string)
    requires |s| == 4 && forall i :: 0 <= i < 4 ==> IsSecretCharacter(s[i])
    ensures var bytes := FromGroup(s); Group(bytes[0], bytes[1], bytes[2]) == s
  {
    var v, x, y, z := SextetValue(s[0]), SextetValue(s[1]), SextetValue(s[2]), SextetValue(s[3]);
    BitsOfGroups(v, x, y, z);
    SextetsPrintBack(s[0]);
    SextetsPrintBack(s[1]);
    SextetsPrintBack(s[2]);
    SextetsPrintBack(s[3]);
    var bytes := FromGroup(s);
    assert Group(bytes[0], bytes[1], bytes[2]) == [Sextet(v), Sextet(x), Sextet(y), Sextet(z)];
  }

  /** Printing bytes in base64url and reading them back is the identity, both ways. */
  lemma {:induction false} Base64UrlReadsBack(bytes: seq<Byte>)
    requires |bytes| % 3 == 0
    ensures FromBase64Url(Base64Url(bytes)) == bytes
  {
    if bytes != [] {
      Base64UrlReadsBack(bytes[3..]);
      GroupsReadBack(bytes[0], bytes[1], bytes[2]);
      var s := Base64Url(bytes);
      assert s[..4] == Group(bytes[0], bytes[1], bytes[2]) && s[4..] == Base64Url(bytes[3..]);
      assert bytes == [bytes[0], bytes[1], bytes[2]] + bytes[3..];
    }
  }

  lemma {:induction false} Base64UrlPrintsBack(s: string)
    requires |s| % 4 == 0 && forall i :: 0 <= i < |s| ==> IsSecretCharacter(s[i])
    ensures Base64Url(FromBase64Url(s)) == s
  {
    if s != "" {
      Base64UrlPrintsBack(s[4..]);
      GroupsPrintBack(s[..4]);
      var bytes := FromBase64Url(s);
      assert bytes[3..] == FromBase64Url(s[4..]);
      assert s == s[..4] + s[4..];
    }
  }

  /** No two keys are minted alike: a minted key tells its org, and every random byte of its id and its secret. */
  lemma MintedKeysAreDistinct(
    hash: string -> string, prefix: string, org: string, idBytes: seq<Byte>, secretBytes: seq<Byte>,
    other: string, otherIdBytes: seq<Byte>, otherSecretBytes: seq<Byte>)
    requires IsOrgId(org) && |idBytes| == 10 && |secretBytes| == 36
    requires IsOrgId(other) && |otherIdBytes| == 10 && |otherSecretBytes| == 36
    ensures MintOrgKey(hash, prefix, org, idBytes, secretBytes).key
            == MintOrgKey(hash, prefix, other, otherIdBytes, otherSecretBytes).key <==>
            org == other && idBytes == otherIdBytes && secretBytes == otherSecretBytes
  {
    PrintingIsInjective(
      prefix, org, Hex(idBytes), Base64Url(secretBytes), other, Hex(otherIdBytes), Base64Url(otherSecretBytes));
    HexReadsBack(idBytes);
    HexReadsBack(otherIdBytes);
    Base64UrlReadsBack(secretBytes);
    Base64UrlReadsBack(otherSecretBytes);
  }

  /** A text parses exactly when it could have been minted: for some org, from some random bytes. */
  lemma AcceptedExactlyWhenMintable(hash: string -> string, prefix: string, text: string)
    ensures ParseOrgKey(hash, prefix, text).Some? <==>
            exists org, idBytes: seq<Byte>, secretBytes: seq<Byte> ::
              && IsOrgId(org) && |idBytes| == 10 && |secretBytes| == 36
              && MintOrgKey(hash, prefix, org, idBytes, secretBytes).key == text
  {
    var parsed := ParseOrgKey(hash, prefix, text);
    if parsed.Some? {
      var secret := ParsedKeysArePrinted(hash, prefix, text);
      var idBytes, secretBytes := FromHex(parsed.value.keyId), FromBase64Url(secret);
      HexPrintsBack(parsed.value.keyId);
      Base64UrlPrintsBack(secret);
      assert MintOrgKey(hash, prefix, parsed.value.org, idBytes, secretBytes).key == text;
    }
    forall org, idBytes: seq<Byte>, secretBytes: seq<Byte> |
      && IsOrgId(org) && |idBytes| == 10 && |secretBytes| == 36
      && MintOrgKey(hash, prefix, org, idBytes, secretBytes).key == text
      ensures parsed.Some?
    {
      MintedKeysParse(hash, prefix, org, idBytes, secretBytes);
    }
  }
}
