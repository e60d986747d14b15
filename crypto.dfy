/**
 * The stateless checks of CryptoService: public-key normalisation and address
 * derivation, signature verification, the format validators and the challenge text.
 * Keccak-256 and EIP-191 signer recovery are uninterpreted: they are fields of
 * `Primitives`, a value every operation that needs them receives.
 */
module Crypto {
  import opened Wrappers
  import opened Hex
  import opened Text

  /** A Keccak-256 digest: 32 bytes. */
  type Digest = d: seq<Byte> | |d| == 32 witness seq(32, _ => 0)

  /**
   * The cryptographic primitives of viem that the service calls.
   * `keccak256` hashes bytes; `recoverMessageAddress(message, signature)` hashes the
   * message the EIP-191 way and recovers the signer's address with secp256k1 ECDSA
   * recovery, or gives `None` where viem throws (a malformed signature).
   */
  datatype Primitives = Primitives(
    keccak256: seq<Byte> -> Digest,
    recoverMessageAddress: (string, string) -> Option<string>)

  /** The one error `publicKeyToAddress` raises: a key of a length it does not handle. */
  datatype KeyError = UnsupportedKeyLength(length: nat)

  /** The three hex lengths `publicKeyToAddress` handles, after an optional "0x". */
  predicate SupportedKeyLength(n: nat) {
    n == 128 || n == 66 || n == 64
  }

  /**
   * The key as SEC 1 (section 2.3.3) hex text: 128 hex digits are an uncompressed key
   * and get the prefix "04"; 66 are a compressed key taken as they are; 64 are taken
   * as a compressed key with an even y coordinate and get the prefix "02".
   */
  function NormalizePublicKey(publicKey: string): (r: Result<string, KeyError>)
    ensures var clean := StripHexPrefix(publicKey);
      && (r.Success? <==> SupportedKeyLength(|clean|))
      && (r.Failure? ==> r.error == UnsupportedKeyLength(|clean|))
      && (r.Success? ==> |r.value| == (if |clean| == 128 then 130 else 66))
      && (r.Success? ==> r.value[|r.value| - |clean|..] == clean)
      && (|clean| == 128 ==> r.value[..2] == "04")
      && (|clean| == 64 ==> r.value[..2] == "02")
      && (|clean| == 66 ==> r.value == clean)
  {
    var clean := StripHexPrefix(publicKey);
    if |clean| == 128 then Success("04" + clean)
    else if |clean| == 66 then Success(clean)
    else if |clean| == 64 then Success("02" + clean)
    else Failure(UnsupportedKeyLength(|clean|))
  }

  /** `publicKeyBytes.slice(1)`: every byte after the first (nothing, for an empty buffer). */
  function DropFirst(bytes: seq<Byte>): seq<Byte> {
    if |bytes| == 0 then [] else bytes[1..]
  }

  /** The bytes `publicKeyToAddress` hashes: the decoded normalised key without its first byte. */
  function HashedKeyBytes(publicKey: string): seq<Byte>
    requires NormalizePublicKey(publicKey).Success?
  {
    DropFirst(DecodeHex(NormalizePublicKey(publicKey).value))
  }

  /**
   * The address of a normalised key: "0x" followed by the last 40 characters of viem's
   * hex Keccak-256 digest (the "0x" and 64 digits) of the key bytes after the first.
   */
  function AddressOfNormalized(crypto: Primitives, normalized: string): (address: string)
    ensures address == "0x" + HexEncode(crypto.keccak256(DropFirst(DecodeHex(normalized)))[12..])
    ensures |address| == 42 && StartsWith(address, "0x") && IsLowerHexString(address[2..])
  {
    var digest := crypto.keccak256(DropFirst(DecodeHex(normalized)));
    HexEncodeAppend(digest[..12], digest[12..]);
    assert digest[..12] + digest[12..] == digest;
    var hash := "0x" + HexEncode(digest);
    assert hash[|hash| - 40..] == HexEncode(digest[12..]);
    "0x" + hash[|hash| - 40..]
  }

  /**
   * `publicKeyToAddress`: the address of the normalised key; keys of any other length
   * are an error.
   */
  function PublicKeyToAddress(crypto: Primitives, publicKey: string): (r: Result<string, KeyError>)
    ensures r.Success? <==> SupportedKeyLength(|StripHexPrefix(publicKey)|)
    ensures r.Failure? ==> r.error == UnsupportedKeyLength(|StripHexPrefix(publicKey)|)
    ensures r.Success? ==> |r.value| == 42 && StartsWith(r.value, "0x") && IsLowerHexString(r.value[2..])
    ensures r.Success? ==>
      r.value == "0x" + HexEncode(crypto.keccak256(HashedKeyBytes(publicKey))[12..])
  {
    match NormalizePublicKey(publicKey)
    case Failure(e) => Failure(e)
    case Success(normalized) => Success(AddressOfNormalized(crypto, normalized))
  }

  /** The address of a key does not depend on whether the key was written with its "0x". */
  lemma AddressIgnoresHexPrefix(crypto: Primitives, key: string)
    requires !StartsWith(key, "0x")
    ensures PublicKeyToAddress(crypto, "0x" + key) == PublicKeyToAddress(crypto, key)
  {
    assert StartsWith("0x" + key, "0x");
    assert ("0x" + key)[2..] == key;
  }

  /** A 64-hex key always decodes with first byte 0x02: even y parity is assumed, never derived. */
  lemma RawKeyAssumedEven(key: string)
    requires |StripHexPrefix(key)| == 64
    ensures NormalizePublicKey(key).Success?
    ensures |DecodeHex(NormalizePublicKey(key).value)| >= 1
    ensures DecodeHex(NormalizePublicKey(key).value)[0] == 0x02
  {
  }

  /** A 64-hex key and the same key written with the prefix "02" give the same address. */
  lemma RawKeySameAsEvenCompressed(crypto: Primitives, key: string)
    requires IsHexOfLength(key, 64)
    ensures PublicKeyToAddress(crypto, key) == PublicKeyToAddress(crypto, "02" + key)
  {
    var prefixed := "02" + key;
    assert prefixed[1] == '2';
    assert IsHexChar(key[1]);
    assert NormalizePublicKey(prefixed) == Success(prefixed);
    assert NormalizePublicKey(key) == Success(prefixed);
  }

  /** A 130-hex key (an uncompressed key that keeps its "04") is refused. */
  lemma PrefixedUncompressedKeyRejected(crypto: Primitives, key: string)
    requires |StripHexPrefix(key)| == 130
    ensures PublicKeyToAddress(crypto, key) == Failure(UnsupportedKeyLength(130))
  {
  }

  /**
   * For a 128-hex key the bytes hashed are exactly the 64 bytes X||Y the key spells,
   * so the result is the address of Appendix F of the Ethereum Yellow Paper.
   */
  lemma {:induction false} UncompressedKeyHashesPoint(key: string)
    requires IsHexOfLength(StripHexPrefix(key), 128)
    ensures NormalizePublicKey(key).Success?
    ensures HashedKeyBytes(key) == DecodeHex(StripHexPrefix(key))
    ensures |HashedKeyBytes(key)| == 64
  {
    var clean := StripHexPrefix(key);
    DecodeHexAppend("04", clean);
    DecodeHexLength(clean);
    assert DecodeHex("04") == [4];
  }

  /**
   * For a 66-hex compressed key only the 32 bytes after the parity byte (X) are
   * hashed: the y coordinate is never recovered, so the result is not that key's
   * Ethereum address.
   */
  lemma {:induction false} CompressedKeyHashesOnlyX(key: string)
    requires IsHexOfLength(StripHexPrefix(key), 66)
    ensures NormalizePublicKey(key).Success?
    ensures |HashedKeyBytes(key)| == 32
  {
    DecodeHexLength(StripHexPrefix(key));
  }

  /**
   * `verifySignature`: never throws. It is true exactly when the key has a supported
   * length, viem recovers a signer address from the message and signature, and that
   * address equals the key's address ignoring case (`isAddressEqual`).
   */
  function VerifySignature(crypto: Primitives, message: string, signature: string, expectedPublicKey: string): (valid: bool)
    ensures !SupportedKeyLength(|StripHexPrefix(expectedPublicKey)|) ==> !valid
    ensures crypto.recoverMessageAddress(message, signature).None? ==> !valid
    ensures valid <==>
      && PublicKeyToAddress(crypto, expectedPublicKey).Success?
      && crypto.recoverMessageAddress(message, signature).Some?
      && EqualsIgnoreCase(crypto.recoverMessageAddress(message, signature).value,
                          PublicKeyToAddress(crypto, expectedPublicKey).value)
  {
    match PublicKeyToAddress(crypto, expectedPublicKey)
    case Failure(_) => false
    case Success(expectedAddress) =>
      match crypto.recoverMessageAddress(message, signature)
      case None => false
      case Some(recovered) => EqualsIgnoreCase(expectedAddress, recovered)
  }

  /** A 64-hex key verifies exactly the signatures its "02"-prefixed form verifies. */
  lemma RawKeyVerifiesAsEvenCompressed(crypto: Primitives, message: string, signature: string, key: string)
    requires IsHexOfLength(key, 64)
    ensures VerifySignature(crypto, message, signature, key) == VerifySignature(crypto, message, signature, "02" + key)
  {
    RawKeySameAsEvenCompressed(crypto, key);
  }

  // ---------------------------------------------------------------- validators

  /**
   * `validatePublicKeyFormat`: after an optional "0x", 64 hex digits, or "04" and 126
   * hex digits, or 128 hex digits.
   */
  function ValidatePublicKeyFormat(publicKey: string): (ok: bool)
    ensures var clean := StripHexPrefix(publicKey);
      ok <==> IsHexOfLength(clean, 64) || IsHexOfLength(clean, 128)
  {
    var clean := StripHexPrefix(publicKey);
    IsHexOfLength(clean, 64)
    || (|clean| == 128 && clean[..2] == "04" && IsHexOfLength(clean[2..], 126))
    || IsHexOfLength(clean, 128)
  }

  /** A well-formed compressed key of 66 hex digits fails the format check yet has an address. */
  lemma CompressedKeyFailsFormatButHasAddress(crypto: Primitives, key: string)
    requires IsHexOfLength(key, 66)
    ensures !ValidatePublicKeyFormat(key)
    ensures PublicKeyToAddress(crypto, key).Success?
  {
    assert IsHexChar(key[1]);
  }

  /** `validateSignatureFormat`: `/^[0-9a-f]{130}$/i` after removing one leading "0x". */
  function ValidateSignatureFormat(signature: string): (ok: bool)
    ensures ok <==> IsHexOfLength(signature, 130)
                    || (StartsWith(signature, "0x") && IsHexOfLength(signature[2..], 130))
  {
    assert StartsWith(signature, "0x") ==> !IsHexString(signature) by {
      if StartsWith(signature, "0x") { assert signature[1] == 'x'; }
    }
    IsHexOfLength(StripHexPrefix(signature), 130)
  }

  /** The prefix of every DID this system issues, matched ignoring case. */
  const DidPrefix: string := "did:hebeu:"

  /**
   * The layout of a version-4 UUID (RFC 4122 section 4.4): `x` is any hex digit, `y`
   * one of 8, 9, a, b; every other character stands for itself. The regular
   * expression `[0-9a-f]{8}-[0-9a-f]{4}-4[0-9a-f]{3}-[89ab][0-9a-f]{3}-[0-9a-f]{12}`
   * and the generator template of the client are both this string.
   */
  const UuidTemplate: string := "xxxxxxxx-xxxx-4xxx-yxxx-xxxxxxxxxxxx"

  /** Whether character `c` matches template character `t` (case-insensitively). */
  predicate TemplateAccepts(t: char, c: char) {
    if t == 'x' then IsHexChar(c)
    else if t == 'y' then c in "89abAB"
    else c == t
  }

  predicate MatchesTemplate(s: string, template: string) {
    |s| == |template| && forall i :: 0 <= i < |s| ==> TemplateAccepts(template[i], s[i])
  }

  /**
   * `validateDIDFormat`: "did:hebeu:" (any letter case) followed by a version-4 UUID,
   * 46 characters in all.
   */
  function ValidateDIDFormat(did: string): (ok: bool)
    ensures ok <==>
      && |did| == 46 && EqualsIgnoreCase(did[..10], "did:hebeu:")
      && did[18] == '-' && did[23] == '-' && did[28] == '-' && did[33] == '-'
      && did[24] == '4' && did[29] in "89abAB"
      && forall i :: 10 <= i < 46 && UuidHexPosition(i - 10) ==> IsHexChar(did[i])
    ensures ok ==> '\n' !in did
  {
    var ok := |did| == 46 && EqualsIgnoreCase(did[..10], DidPrefix) && MatchesTemplate(did[10..], UuidTemplate);
    if |did| == 46 then
      UuidLayout(did[10..]);
      if ok then
        DidHasNoLineBreak(did);
        ok
      else ok
    else ok
  }

  /** The positions of a UUID's random hex digits: all but the dashes, the version and the variant. */
  predicate UuidHexPosition(j: int) {
    0 <= j < 36 && j != 8 && j != 13 && j != 14 && j != 18 && j != 19 && j != 23
  }

  /** The template read position by position. */
  lemma UuidLayout(u: string)
    requires |u| == 36
    ensures MatchesTemplate(u, UuidTemplate) <==>
      && u[8] == '-' && u[13] == '-' && u[18] == '-' && u[23] == '-'
      && u[14] == '4' && u[19] in "89abAB"
      && forall j :: UuidHexPosition(j) ==> IsHexChar(u[j])
  {
    forall j | 0 <= j < 36
      ensures UuidTemplate[j] == if j == 8 || j == 13 || j == 18 || j == 23 then '-'
                                 else if j == 14 then '4' else if j == 19 then 'y' else 'x'
    {
    }
    if MatchesTemplate(u, UuidTemplate) {
      assert TemplateAccepts(UuidTemplate[8], u[8]) && TemplateAccepts(UuidTemplate[13], u[13]);
      assert TemplateAccepts(UuidTemplate[18], u[18]) && TemplateAccepts(UuidTemplate[23], u[23]);
      assert TemplateAccepts(UuidTemplate[14], u[14]) && TemplateAccepts(UuidTemplate[19], u[19]);
      forall j | UuidHexPosition(j) ensures IsHexChar(u[j]) {
        assert TemplateAccepts(UuidTemplate[j], u[j]);
      }
    }
  }

  lemma DidHasNoLineBreak(did: string)
    requires |did| == 46 && EqualsIgnoreCase(did[..10], DidPrefix) && MatchesTemplate(did[10..], UuidTemplate)
    ensures '\n' !in did
  {
    forall i | 0 <= i < |did| ensures did[i] != '\n' {
      if i < 10 {
        assert LowerAscii(did[..10][i]) == LowerAscii(DidPrefix[i]);
        assert DidPrefix[i] in DidPrefix;
      } else {
        assert TemplateAccepts(UuidTemplate[i - 10], did[10..][i - 10]);
        assert UuidTemplate[i - 10] in UuidTemplate;
      }
    }
  }

  // ---------------------------------------------------------------- challenge

  const ChallengeHeader: string := "DID Login Challenge"

  /** `Math.random().toString(36).substring(2, 15)`: at most 13 characters of the base-36 text. */
  function Nonce(randomBase36: string): (nonce: string)
    ensures |nonce| <= 13
  {
    JsSubstring(randomBase36, 2, 15)
  }

  /** No line break is added by putting strings side by side. */
  lemma NoLineBreakInAppend(a: string, b: string)
    requires '\n' !in a && '\n' !in b
    ensures '\n' !in a + b
  {
    forall i | 0 <= i < |a + b| ensures (a + b)[i] != '\n' {
      if i < |a| { assert (a + b)[i] == a[i]; } else { assert (a + b)[i] == b[i - |a|]; }
    }
  }

  /**
   * `generateChallenge`: the login challenge for `did`, stamped with the clock reading
   * `nowMs` (milliseconds) and a nonce cut from `randomBase36`, the text
   * `Math.random().toString(36)` produced. The template literal
   * `DID Login Challenge\nDID: ${did}\nTimestamp: ${timestamp}\nNonce: ${nonce}` is
   * these four lines joined by "\n".
   */
  function GenerateChallenge(did: string, nowMs: nat, randomBase36: string): (challenge: string)
    ensures '\n' !in did && '\n' !in randomBase36 ==>
      SplitLines(challenge) ==
        [ChallengeHeader, "DID: " + did, "Timestamp: " + DecimalString(nowMs), "Nonce: " + Nonce(randomBase36)]
  {
    var lines := [ChallengeHeader, "DID: " + did, "Timestamp: " + DecimalString(nowMs), "Nonce: " + Nonce(randomBase36)];
    if '\n' !in did && '\n' !in randomBase36 then
      ChallengeLinesHaveNoBreak(did, DecimalString(nowMs), randomBase36);
      SplitJoinLines(lines);
      JoinLines(lines)
    else JoinLines(lines)
  }

  lemma ChallengeLinesHaveNoBreak(did: string, timestamp: string, randomBase36: string)
    requires '\n' !in did && '\n' !in randomBase36 && IsDecimalString(timestamp)
    ensures '\n' !in ChallengeHeader
    ensures '\n' !in "DID: " + did
    ensures '\n' !in "Timestamp: " + timestamp
    ensures '\n' !in "Nonce: " + Nonce(randomBase36)
  {
    var nonce := Nonce(randomBase36);
    forall i | 0 <= i < |nonce| ensures nonce[i] != '\n' {
      assert nonce[i] in randomBase36;
    }
    forall i | 0 <= i < |timestamp| ensures timestamp[i] != '\n' {
      assert IsDigit(timestamp[i]);
    }
    NoLineBreakInAppend("DID: ", did);
    NoLineBreakInAppend("Timestamp: ", timestamp);
    NoLineBreakInAppend("Nonce: ", nonce);
  }
}
