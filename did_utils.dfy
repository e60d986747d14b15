/**
 * The client-side DID utilities: key and identifier generation, the self-signed DID
 * proof, conversion to the registry contract's parameters, the copy of each DID kept
 * in `localStorage`, and the login challenge the client can build itself.
 * `Math.random()` draws and `Date.now()` are parameters; viem's `privateKeyToAccount`
 * is the function `derive` (the account's public key for a private key) and its
 * `signMessage` the function `sign`, each giving `None` where viem throws.
 */
module DidUtils {
  import opened Wrappers
  import opened Hex
  import opened Text
  import opened Crypto
  import opened Seqs
  import opened Storage

  /** The locally generated identity. */
  datatype DIDInfo = DIDInfo(
    did: string,
    mainPrivateKey: string,
    recoveryPrivateKey: string,
    recoveryPublicKey: string,
    mainPublicKey: string,
    didProof: string)

  /** The arguments of the registry contract's create call. */
  datatype ContractParams = ContractParams(
    did: string,
    version: int,
    mainPublicKey: string,
    recoPublicKey: string,
    serviceEndpoint: string,
    didProof: string)

  // ---------------------------------------------------------------- identifiers and keys

  /** `(r & 0x3 | 0x8)`: the RFC 4122 variant nibble made from a random nibble. */
  function VariantNibble(r: Nibble): (v: Nibble)
    ensures 8 <= v <= 11 && v == 8 + r % 4
  {
    (((r as bv8) & 3) | 8) as int
  }

  /** The replacement of one template character, given the random nibble drawn for it. */
  function UuidChar(t: char, draw: Nibble): (c: char)
    ensures TemplateAccepts(t, c)
    ensures t == 'x' || t == 'y' ==> IsLowerHexChar(c)
    ensures t == 'y' ==> c in "89ab"
  {
    if t == 'x' then HexDigit(draw)
    else if t == 'y' then
      var v := VariantNibble(draw);
      assert HexDigit(v) == "89ab"[v - 8];
      HexDigit(v)
    else t
  }

  /**
   * `generateUUID`: every `x` of the template becomes a random hex digit and every `y`
   * the variant digit; `draws[i]` is the nibble `Math.random() * 16 | 0` drawn for
   * position i (positions holding neither letter draw nothing).
   */
  function GenerateUuid(draws: seq<Nibble>): (uuid: string)
    requires |draws| == |UuidTemplate|
    ensures |uuid| == 36 && MatchesTemplate(uuid, UuidTemplate)
    ensures uuid[8] == '-' && uuid[13] == '-' && uuid[18] == '-' && uuid[23] == '-'
    ensures uuid[14] == '4' && uuid[19] in "89ab"
  {
    var uuid := seq(|UuidTemplate|, i requires 0 <= i < |UuidTemplate| => UuidChar(UuidTemplate[i], draws[i]));
    assert UuidTemplate[19] == 'y';
    uuid
  }

  /** The digit alphabet `generatePrivateKey` draws from. */
  const KeyAlphabet: string := "0123456789abcdef"

  /** The key `generatePrivateKey` builds from the first 64 draws. */
  function KeyFromDraws(draws: seq<Nibble>): (key: string)
    requires |draws| >= 64
  {
    seq(64, i requires 0 <= i < 64 => HexDigit(draws[i]))
  }

  /** `chars.charAt(d)` is the hex digit of d. */
  lemma KeyAlphabetDigit(d: Nibble)
    ensures KeyAlphabet[d] == HexDigit(d)
  {
  }

  /** `generatePrivateKey`: 64 characters, each drawn from the hex alphabet. */
  method GeneratePrivateKey(draws: seq<Nibble>) returns (key: string)
    requires |draws| >= 64
    ensures key == KeyFromDraws(draws)
  {
    key := "";
    for i := 0 to 64
      invariant |key| == i
      invariant forall j :: 0 <= j < i ==> key[j] == HexDigit(draws[j])
    {
      KeyAlphabetDigit(draws[i]);
      key := key + [KeyAlphabet[draws[i]]];
    }
  }

  /**
   * `validatePrivateKey`: exactly 64 hex digits, either case, no "0x"; that is, the
   * 64-character texts that `Buffer.from(key, 'hex')` reads as 32 whole bytes.
   */
  function ValidatePrivateKey(privateKey: string): (ok: bool)
    ensures ok <==> |privateKey| == 64 && |DecodeHex(privateKey)| == 32
  {
    if IsHexOfLength(privateKey, 64) then
      DecodeHexLength(privateKey);
      true
    else if |privateKey| == 64 then
      DecodeHexShortOnNonHex(privateKey);
      false
    else false
  }

  /** `verifyPrivateKeyFormat`: the same regular expression as `validatePrivateKey`, so the same test. */
  function VerifyPrivateKeyFormat(privateKey: string): (ok: bool)
    ensures ok <==> |privateKey| == 64 && |DecodeHex(privateKey)| == 32
  {
    ValidatePrivateKey(privateKey)
  }

  /** Every generated key passes both checks, and no key written with "0x" passes either. */
  lemma {:induction false} PrivateKeyChecks(draws: seq<Nibble>, key: string)
    requires |draws| >= 64
    ensures ValidatePrivateKey(KeyFromDraws(draws)) && VerifyPrivateKeyFormat(KeyFromDraws(draws))
    ensures ValidatePrivateKey(key) <==> VerifyPrivateKeyFormat(key)
    ensures StartsWith(key, "0x") ==> !ValidatePrivateKey(key)
  {
    var generated := KeyFromDraws(draws);
    forall i | 0 <= i < 64 ensures IsHexChar(generated[i]) {
      assert generated[i] == HexDigit(draws[i]);
    }
    if StartsWith(key, "0x") && |key| > 1 {
      assert key[1] == 'x';
    }
  }

  /** The message of `generatePublicKey`'s single error. */
  const PublicKeyError: string := "私钥格式错误，无法生成公钥"

  /**
   * `generatePublicKey`: the account's public key without "0x" and without its first
   * byte (the SEC 1 prefix 02, 03 or 04); keys of other lengths, keys without "0x"
   * and errors of viem all give one generic error.
   */
  function GeneratePublicKey(derive: string -> Option<string>, privateKey: string): (r: Result<string, string>)
    ensures var account := derive("0x" + privateKey);
      && (r.Success? <==>
            account.Some? && StartsWith(account.value, "0x") && (|account.value| == 68 || |account.value| == 132))
      && (r.Success? ==> r.value == account.value[4..] && (|r.value| == 64 || |r.value| == 128))
      && (r.Failure? ==> r.error == PublicKeyError)
  {
    match derive("0x" + privateKey)
    case None => Failure(PublicKeyError)
    case Some(publicKey) =>
      if StartsWith(publicKey, "0x") then
        var cleanKey := publicKey[2..];
        if |cleanKey| == 66 then Success(cleanKey[2..])
        else if |cleanKey| == 130 then Success(cleanKey[2..])
        else Failure(PublicKeyError)
      else Failure(PublicKeyError)
  }

  /**
   * For the uncompressed key viem produces ("0x04" and 128 hex digits) the client
   * stores the 128 digits, and the server's normalisation puts the "04" back.
   */
  lemma UncompressedKeyRoundTrip(derive: string -> Option<string>, privateKey: string, point: string)
    requires IsHexOfLength(point, 128) && derive("0x" + privateKey) == Some("0x04" + point)
    ensures GeneratePublicKey(derive, privateKey) == Success(point)
    ensures NormalizePublicKey(GeneratePublicKey(derive, privateKey).value) == Success("04" + point)
  {
    assert ("0x04" + point)[2..][2..] == point;
    assert StartsWith("0x04" + point, "0x");
    assert !StartsWith(point, "0x") by { assert IsHexChar(point[1]); }
  }

  /**
   * For a compressed key with odd y ("0x03" and 64 hex digits) the client keeps only
   * x, and the server's normalisation restores it with the even prefix "02": the
   * parity is lost.
   */
  lemma CompressedOddKeyLosesParity(derive: string -> Option<string>, privateKey: string, x: string)
    requires IsHexOfLength(x, 64) && derive("0x" + privateKey) == Some("0x03" + x)
    ensures GeneratePublicKey(derive, privateKey) == Success(x)
    ensures NormalizePublicKey(GeneratePublicKey(derive, privateKey).value) == Success("02" + x)
    ensures "02" + x != "03" + x
  {
    assert ("0x03" + x)[2..][2..] == x;
    assert StartsWith("0x03" + x, "0x");
    assert !StartsWith(x, "0x") by { assert IsHexChar(x[1]); }
    assert ("02" + x)[1] != ("03" + x)[1];
  }

  // ---------------------------------------------------------------- proof and creation

  /** The text `generateDIDProof` signs: a header, the DID and the clock reading. */
  function ProofMessage(did: string, nowMs: nat): (message: string)
    ensures '\n' !in did ==>
      SplitLines(message) == ["DID Proof", "DID: " + did, "Timestamp: " + DecimalString(nowMs)]
  {
    var lines := ["DID Proof", "DID: " + did, "Timestamp: " + DecimalString(nowMs)];
    if '\n' !in did then
      ChallengeLinesHaveNoBreak(did, DecimalString(nowMs), "");
      assert forall i :: 0 <= i < |lines| ==> '\n' !in lines[i];
      SplitJoinLines(lines);
      JoinLines(lines)
    else JoinLines(lines)
  }

  const ProofError: string := "私钥格式错误，无法生成DID证明"

  /** `generateDIDProof`: the EIP-191 signature of the proof message with the given key. */
  function GenerateDIDProof(sign: (string, string) -> Option<string>, did: string, privateKey: string, nowMs: nat)
    : (r: Result<string, string>)
    ensures var signature := sign("0x" + privateKey, ProofMessage(did, nowMs));
      && (r.Success? <==> signature.Some?)
      && (r.Success? ==> r.value == signature.value)
      && (r.Failure? ==> r.error == ProofError)
  {
    match sign("0x" + privateKey, ProofMessage(did, nowMs))
    case None => Failure(ProofError)
    case Some(signature) => Success(signature)
  }

  const DefaultDidPrefix: string := "did:hebeu"

  /** `key || generatePrivateKey()`: a given key is used unless it is empty. */
  function ChosenKey(given: string, draws: seq<Nibble>): (key: string)
    requires |draws| >= 64
    ensures key != ""
  {
    if given != "" then given else KeyFromDraws(draws)
  }

  /**
   * `createDIDInfo`: the two private keys (given or generated), their public keys, a
   * DID of the form `<prefix>:<uuid>` and the proof signed with the main key. The
   * prefix is "did:hebeu" when the caller passes none.
   */
  method CreateDIDInfo(derive: string -> Option<string>, sign: (string, string) -> Option<string>,
                       mainPrivateKey: string, recoveryPrivateKey: string, didPrefix: Option<string>,
                       mainDraws: seq<Nibble>, recoveryDraws: seq<Nibble>, uuidDraws: seq<Nibble>, nowMs: nat)
    returns (r: Result<DIDInfo, string>)
    requires |mainDraws| >= 64 && |recoveryDraws| >= 64 && |uuidDraws| == |UuidTemplate|
    ensures var mainKey := ChosenKey(mainPrivateKey, mainDraws);
      var recoveryKey := ChosenKey(recoveryPrivateKey, recoveryDraws);
      var prefix := if didPrefix.Some? then didPrefix.value else DefaultDidPrefix;
      var did := prefix + ":" + GenerateUuid(uuidDraws);
      && (r.Success? <==>
            GeneratePublicKey(derive, mainKey).Success? && GeneratePublicKey(derive, recoveryKey).Success?
            && GenerateDIDProof(sign, did, mainKey, nowMs).Success?)
      && (r.Success? ==>
            r.value == DIDInfo(did, mainKey, recoveryKey, GeneratePublicKey(derive, recoveryKey).value,
                               GeneratePublicKey(derive, mainKey).value, GenerateDIDProof(sign, did, mainKey, nowMs).value))
      && (r.Failure? ==> r.error == PublicKeyError || r.error == ProofError)
    ensures r.Success? && didPrefix.None? ==> ValidateDIDFormat(r.value.did)
    ensures r.Success? ==> (ValidateDIDInfo(r.value) <==> r.value.didProof != "")
  {
    var mainPrivKey := mainPrivateKey;
    if mainPrivKey == "" {
      mainPrivKey := GeneratePrivateKey(mainDraws);
    }
    var recoveryPrivKey := recoveryPrivateKey;
    if recoveryPrivKey == "" {
      recoveryPrivKey := GeneratePrivateKey(recoveryDraws);
    }

    var mainPublicKey := GeneratePublicKey(derive, mainPrivKey);
    if mainPublicKey.Failure? {
      return Failure(mainPublicKey.error);
    }
    var recoveryPublicKey := GeneratePublicKey(derive, recoveryPrivKey);
    if recoveryPublicKey.Failure? {
      return Failure(recoveryPublicKey.error);
    }

    var prefix := if didPrefix.Some? then didPrefix.value else DefaultDidPrefix;
    var did := prefix + ":" + GenerateUuid(uuidDraws);

    var didProof := GenerateDIDProof(sign, did, mainPrivKey, nowMs);
    if didProof.Failure? {
      return Failure(didProof.error);
    }
    if didPrefix.None? {
      DefaultPrefixDidIsValid(uuidDraws);
    }
    assert mainPrivKey == ChosenKey(mainPrivateKey, mainDraws);
    assert recoveryPrivKey == ChosenKey(recoveryPrivateKey, recoveryDraws);
    assert did != "" && mainPublicKey.value != "" && recoveryPublicKey.value != "";
    r := Success(DIDInfo(did, mainPrivKey, recoveryPrivKey, recoveryPublicKey.value, mainPublicKey.value, didProof.value));
  }

  /** A DID made with the default prefix passes the server's DID format check. */
  lemma DefaultPrefixDidIsValid(draws: seq<Nibble>)
    requires |draws| == |UuidTemplate|
    ensures ValidateDIDFormat(DefaultDidPrefix + ":" + GenerateUuid(draws))
  {
    var did := DefaultDidPrefix + ":" + GenerateUuid(draws);
    assert did[..10] == DidPrefix;
    assert did[10..] == GenerateUuid(draws);
  }

  /**
   * `validateDIDInfo`: all six fields are non-empty (JavaScript truthiness of strings).
   * A record that passes gives contract parameters with no empty field.
   */
  predicate ValidateDIDInfo(info: DIDInfo)
    ensures ValidateDIDInfo(info) <==>
      "" !in [info.did, info.mainPrivateKey, info.mainPublicKey, info.recoveryPrivateKey,
              info.recoveryPublicKey, info.didProof]
    ensures ValidateDIDInfo(info) ==>
      var p := ConvertToContractParams(info);
      p.did != "" && p.mainPublicKey != "" && p.recoPublicKey != "" && p.serviceEndpoint != "" && p.didProof != ""
  {
    info.did != "" && info.mainPrivateKey != "" && info.mainPublicKey != ""
    && info.recoveryPrivateKey != "" && info.recoveryPublicKey != "" && info.didProof != ""
  }

  // ---------------------------------------------------------------- contract parameters

  const EndpointBase: string := "https://api.hebeu.edu.cn/did/"

  /** `generateServiceEndpoint`: the DID appended to the fixed base URL. */
  function ServiceEndpoint(did: string): (url: string)
    ensures StartsWith(url, EndpointBase) && url[|EndpointBase|..] == did
  {
    EndpointBase + did
  }

  /** Different DIDs get different endpoints. */
  lemma ServiceEndpointInjective(did1: string, did2: string)
    requires ServiceEndpoint(did1) == ServiceEndpoint(did2)
    ensures did1 == did2
  {
    assert ServiceEndpoint(did1)[|EndpointBase|..] == ServiceEndpoint(did2)[|EndpointBase|..];
  }

  /**
   * `convertToContractParams`: version 1, the recovery public key as `recoPublicKey`,
   * the endpoint derived from the DID, the other fields copied.
   */
  function ConvertToContractParams(info: DIDInfo): (p: ContractParams)
    ensures p.did == info.did && p.version == 1
    ensures p.mainPublicKey == info.mainPublicKey && p.recoPublicKey == info.recoveryPublicKey
    ensures p.didProof == info.didProof
    ensures StartsWith(p.serviceEndpoint, EndpointBase) && p.serviceEndpoint[|EndpointBase|..] == info.did
  {
    ContractParams(info.did, 1, info.mainPublicKey, info.recoveryPublicKey, ServiceEndpoint(info.did), info.didProof)
  }

  // ---------------------------------------------------------------- login challenge

  /** `timestamp || Date.now()`: a missing or zero timestamp is replaced by the clock. */
  function ChallengeStamp(timestamp: Option<nat>, nowMs: nat): nat {
    if timestamp.Some? && timestamp.value != 0 then timestamp.value else nowMs
  }

  /** `generateLoginChallenge`: the text the server would issue for the same DID, time and draw. */
  function GenerateLoginChallenge(did: string, timestamp: Option<nat>, nowMs: nat, randomBase36: string)
    : (challenge: string)
    ensures challenge == Crypto.GenerateChallenge(did, ChallengeStamp(timestamp, nowMs), randomBase36)
  {
    var stamp := DecimalString(ChallengeStamp(timestamp, nowMs));
    var nonce := JsSubstring(randomBase36, 2, 15);
    var challenge := "DID Login Challenge\nDID: " + did + "\nTimestamp: " + stamp + "\nNonce: " + nonce;
    JoinFourLines(ChallengeHeader, "DID: " + did, "Timestamp: " + stamp, "Nonce: " + nonce);
    challenge
  }

  // ---------------------------------------------------------------- localStorage

  /**
   * What a `localStorage` entry holds, as `JSON.parse` reads it back: a serialised
   * DIDInfo, a serialised list of DIDs, or text that does not parse (including "").
   */
  datatype Stored = InfoJson(info: DIDInfo) | ListJson(dids: seq<string>) | Unparsable(text: string)

  /** What `getDIDListFromLocalStorage` returns: a list, or a non-array value read from the list key. */
  datatype ListRead = ListOf(dids: seq<string>) | NotAList

  const ListKey: string := "did_list"

  /** The key of one DID's entry. The DID "list" has the same key as the list. */
  function EntryKey(did: string): (key: string)
    ensures key == ListKey <==> did == "list"
  {
    var key := "did_" + did;
    assert key[4..] == did;
    assert did == "list" ==> key == ListKey;
    key
  }

  /** `getDIDListFromLocalStorage` on the stored items: a missing or unparsable list reads as empty. */
  function ReadDidList(items: map<string, Stored>): (r: ListRead)
    ensures ListKey !in items || items[ListKey].Unparsable? ==> r == ListOf([])
    ensures r.NotAList? <==> ListKey in items && items[ListKey].InfoJson?
    ensures r.ListOf? && r.dids != [] ==> ListKey in items && items[ListKey] == ListJson(r.dids)
  {
    if ListKey !in items then ListOf([])
    else match items[ListKey]
      case ListJson(dids) => ListOf(dids)
      case InfoJson(_) => NotAList
      case Unparsable(_) => ListOf([])
  }

  function GetDIDListFromLocalStorage(store: LocalStorage<Stored>): (r: ListRead)
    reads store
    ensures ListKey !in store.items || store.items[ListKey].Unparsable? ==> r == ListOf([])
    ensures r.ListOf? && r.dids != [] ==> ListKey in store.items && store.items[ListKey] == ListJson(r.dids)
    ensures r.NotAList? <==> ListKey in store.items && store.items[ListKey].InfoJson?
  {
    ReadDidList(store.items)
  }

  /** `getDIDFromLocalStorage`: the parsed entry, or `None` when it is missing or does not parse. */
  function GetDIDFromLocalStorage(store: LocalStorage<Stored>, did: string): (r: Option<Stored>)
    reads store
    ensures r.Some? <==> EntryKey(did) in store.items && !store.items[EntryKey(did)].Unparsable?
    ensures r.Some? ==> r.value == store.items[EntryKey(did)]
  {
    match store.GetItem(EntryKey(did))
    case None => None
    case Some(Unparsable(_)) => None
    case Some(value) => Some(value)
  }

  predicate Distinct(s: seq<string>) {
    forall i, j :: 0 <= i < j < |s| ==> s[i] != s[j]
  }

  const SaveError: string := "保存DID信息失败"
  const DeleteError: string := "删除DID信息失败"

  /**
   * The items after `saveDIDToLocalStorage` when writes succeed: the entry is written,
   * then the DID is appended to the list unless it is already there. When the list key
   * does not hold a list the append throws, after the entry was written.
   */
  function AfterSave(items: map<string, Stored>, info: DIDInfo): (after: map<string, Stored>)
    ensures forall k :: k != EntryKey(info.did) && k != ListKey ==>
      (k in after <==> k in items) && (k in items ==> after[k] == items[k])
  {
    var written := items[EntryKey(info.did) := InfoJson(info)];
    match ReadDidList(written)
    case NotAList => written
    case ListOf(dids) => if info.did in dids then written else written[ListKey := ListJson(dids + [info.did])]
  }

  /** Whether the list can be read back after the entry is written (the append does not throw). */
  predicate SaveSucceeds(items: map<string, Stored>, info: DIDInfo) {
    ReadDidList(items[EntryKey(info.did) := InfoJson(info)]).ListOf?
  }

  /** `saveDIDToLocalStorage` */
  method SaveDIDToLocalStorage(store: LocalStorage<Stored>, info: DIDInfo) returns (r: Outcome<string>)
    modifies store
    ensures r.Pass? <==> store.writable && SaveSucceeds(old(store.items), info)
    ensures r.Fail? ==> r.error == SaveError
    ensures store.items == if store.writable then AfterSave(old(store.items), info) else old(store.items)
  {
    var key := EntryKey(info.did);
    var ok := store.SetItem(key, InfoJson(info));
    if !ok {
      return Fail(SaveError);
    }
    var didList := GetDIDListFromLocalStorage(store);
    if didList.NotAList? {
      return Fail(SaveError);
    }
    if info.did !in didList.dids {
      ok := store.SetItem(ListKey, ListJson(didList.dids + [info.did]));
    }
    r := Pass;
  }

  /** After a successful save the entry reads back and the list holds the DID. */
  lemma SaveThenRead(items: map<string, Stored>, info: DIDInfo)
    requires SaveSucceeds(items, info)
    ensures EntryKey(info.did) in AfterSave(items, info)
    ensures AfterSave(items, info)[EntryKey(info.did)] == InfoJson(info)
    ensures ReadDidList(AfterSave(items, info)).ListOf?
    ensures info.did in ReadDidList(AfterSave(items, info)).dids
  {
    assert info.did != "list";
  }

  /** Saving keeps a duplicate-free list duplicate-free. */
  lemma SaveKeepsListDistinct(items: map<string, Stored>, info: DIDInfo)
    requires ReadDidList(items).ListOf? && Distinct(ReadDidList(items).dids)
    requires SaveSucceeds(items, info)
    ensures ReadDidList(AfterSave(items, info)).ListOf? && Distinct(ReadDidList(AfterSave(items, info)).dids)
  {
    assert info.did != "list";
    var dids := ReadDidList(items).dids;
    if info.did !in dids {
      var appended := dids + [info.did];
      forall i, j | 0 <= i < j < |appended| ensures appended[i] != appended[j] {
        if j == |dids| { assert appended[i] == dids[i]; }
      }
    }
  }

  /** Saving the same DIDInfo twice leaves the store as saving it once did. */
  lemma SaveIdempotent(items: map<string, Stored>, info: DIDInfo)
    ensures AfterSave(AfterSave(items, info), info) == AfterSave(items, info)
  {
    var once := AfterSave(items, info);
    var key := EntryKey(info.did);
    if info.did != "list" {
      var written := items[key := InfoJson(info)];
      assert ReadDidList(written) == ReadDidList(items);
      assert once[key := InfoJson(info)] == once;
      if ReadDidList(written).ListOf? {
        assert info.did in ReadDidList(once).dids;
      }
    } else {
      assert once == items[key := InfoJson(info)];
      assert once[key := InfoJson(info)] == once;
    }
  }

  /**
   * A DIDInfo whose DID is "list" overwrites the list itself, and the save then fails:
   * the list key holds an object that has no `includes`.
   */
  lemma ListNamedDidBreaksSave(items: map<string, Stored>, info: DIDInfo)
    requires info.did == "list"
    ensures !SaveSucceeds(items, info)
    ensures AfterSave(items, info)[ListKey] == InfoJson(info)
  {
  }

  /**
   * The items after `deleteDIDFromLocalStorage` when writes succeed: the entry is
   * removed and the list is rewritten without the DID (all of its occurrences).
   */
  function AfterDelete(items: map<string, Stored>, did: string): (after: map<string, Stored>)
    ensures forall k :: k != EntryKey(did) && k != ListKey ==>
      (k in after <==> k in items) && (k in items ==> after[k] == items[k])
  {
    var removed := items - {EntryKey(did)};
    match ReadDidList(removed)
    case NotAList => removed
    case ListOf(dids) => removed[ListKey := ListJson(RemoveWhere(dids, d => d == did))]
  }

  /** `deleteDIDFromLocalStorage` */
  method DeleteDIDFromLocalStorage(store: LocalStorage<Stored>, did: string) returns (r: Outcome<string>)
    modifies store
    ensures r.Pass? <==> store.writable && ReadDidList(old(store.items) - {EntryKey(did)}).ListOf?
    ensures r.Fail? ==> r.error == DeleteError
    ensures store.items ==
      if store.writable then AfterDelete(old(store.items), did) else old(store.items) - {EntryKey(did)}
  {
    var key := EntryKey(did);
    store.RemoveItem(key);
    var didList := GetDIDListFromLocalStorage(store);
    if didList.NotAList? {
      return Fail(DeleteError);
    }
    var updatedList := RemoveWhere(didList.dids, d => d == did);
    var ok := store.SetItem(ListKey, ListJson(updatedList));
    if !ok {
      return Fail(DeleteError);
    }
    r := Pass;
  }

  /**
   * After a successful delete of a DID other than "list", its entry is gone, the list
   * no longer names it, and the other DIDs of the list are still there.
   */
  lemma DeleteRemovesEverywhere(items: map<string, Stored>, did: string)
    requires did != "list" && ReadDidList(items).ListOf?
    ensures EntryKey(did) !in AfterDelete(items, did)
    ensures ReadDidList(AfterDelete(items, did)).ListOf?
    ensures did !in ReadDidList(AfterDelete(items, did)).dids
    ensures forall d :: d in ReadDidList(items).dids && d != did ==> d in ReadDidList(AfterDelete(items, did)).dids
  {
    assert ReadDidList(items - {EntryKey(did)}) == ReadDidList(items);
  }

  /** Deleting a DID that was saved into a list without it restores the list. */
  lemma DeleteUndoesSaveInList(items: map<string, Stored>, info: DIDInfo)
    requires ReadDidList(items).ListOf? && info.did !in ReadDidList(items).dids
    requires info.did != "list"
    ensures ReadDidList(AfterDelete(AfterSave(items, info), info.did)) == ReadDidList(items)
  {
    var dids := ReadDidList(items).dids;
    var saved := AfterSave(items, info);
    assert ReadDidList(items[EntryKey(info.did) := InfoJson(info)]) == ReadDidList(items);
    assert ReadDidList(saved) == ListOf(dids + [info.did]);
    assert ReadDidList(saved - {EntryKey(info.did)}) == ListOf(dids + [info.did]);
    RemoveWhereAppend(dids, [info.did], d => d == info.did);
    forall i | 0 <= i < |dids| ensures dids[i] != info.did {
      assert dids[i] in dids;
    }
    RemoveWhereNothing(dids, d => d == info.did);
    assert RemoveWhere([info.did], d => d == info.did) == [];
  }

  /** The name `isLocalStorageAvailable` writes and removes to probe the store. */
  const ProbeKey: string := "__localStorage_test__"

  /** `isLocalStorageAvailable`: whether a write succeeds; the probe entry is removed again. */
  method IsLocalStorageAvailable(store: LocalStorage<Stored>) returns (available: bool)
    modifies store
    ensures available == store.writable
    ensures store.items == if store.writable then old(store.items) - {ProbeKey} else old(store.items)
  {
    var ok := store.SetItem(ProbeKey, Unparsable(ProbeKey));
    if !ok {
      return false;
    }
    store.RemoveItem(ProbeKey);
    available := true;
  }
}
