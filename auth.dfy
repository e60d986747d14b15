/**
 * AuthService: the DID challenge-response login, the session token (a JSON Web
 * Token, RFC 7519, signed with HS256 of RFC 7518 section 3.2) and its verification
 * and renewal. The token library, the ledger and the crypto primitives are values
 * the operations receive; the clock is the parameter `nowMs` (milliseconds).
 */
module Auth {
  import opened Wrappers
  import opened Text
  import opened Crypto
  import opened Oracle

  /** The errors the service throws, one per distinct message. */
  datatype AuthError =
    | MissingParameters
    | InvalidDidFormat
    | InvalidSignatureFormat
    | InvalidChallenge
    | DidNotFound
    | KeyFetchFailed(message: string)
    | PublicKeyMissing
    | SignatureMismatch
    | InvalidTokenType
    | DidRevoked
    | InvalidToken
    | TokenExpired
    | TokenNotActive

  /**
   * The message each error carries to the HTTP layer. A failed key fetch carries the
   * message `getDIDPublicKey` threw; every other error has its own fixed text.
   */
  function ErrorMessage(e: AuthError): (message: string)
    ensures e.KeyFetchFailed? ==> message == e.message
    ensures !e.KeyFetchFailed? ==> message != ""
  {
    match e
    case MissingParameters => "缺少必要的验证参数"
    case InvalidDidFormat => "DID格式不正确"
    case InvalidSignatureFormat => "签名格式不正确"
    case InvalidChallenge => "挑战消息格式不正确"
    case DidNotFound => "DID不存在于区块链中"
    case KeyFetchFailed(message) => message
    case PublicKeyMissing => "无法获取DID主公钥"
    case SignatureMismatch => "签名验证失败，私钥与DID不匹配"
    case InvalidTokenType => "无效的令牌类型"
    case DidRevoked => "DID已失效"
    case InvalidToken => "无效的令牌"
    case TokenExpired => "令牌已过期"
    case TokenNotActive => "jwt not active"
  }

  // ---------------------------------------------------------------- tokens

  /** The claims `generateJWT` signs. */
  datatype Payload = Payload(did: string, publicKey: string, tokenType: string, iat: int)

  /** The options `generateJWT` passes to the signer. */
  datatype SignOptions = SignOptions(expiresIn: string, algorithm: string)

  /** What a successful verification decodes: the signed claims plus the expiry the signer added. */
  datatype Claims = Claims(did: string, publicKey: string, tokenType: string, iat: int, exp: int)

  /** The error classes of `jsonwebtoken.verify`. */
  datatype JwtError = JsonWebTokenError | TokenExpiredError | NotBeforeError

  /**
   * The token library: `sign(payload, secret, options)` and
   * `verify(token, secret, clockSeconds)`.
   */
  datatype JwtCodec = JwtCodec(
    sign: (Payload, string, SignOptions) -> string,
    verify: (string, string, int) -> Result<Claims, JwtError>)

  /**
   * What jsonwebtoken promises of the tokens it signs: verified with the secret it was
   * signed with, a token is either accepted, decoding to its own payload with an
   * expiry still in the future, or refused as expired.
   */
  ghost predicate HonoursOwnTokens(codec: JwtCodec) {
    forall p: Payload, secret: string, options: SignOptions, clock: int ::
      OwnTokenVerdict(codec.verify(codec.sign(p, secret, options), secret, clock), p, clock)
  }

  /** The verdicts `HonoursOwnTokens` allows for a token signed over `p`, checked at `clock`. */
  predicate OwnTokenVerdict(verdict: Result<Claims, JwtError>, p: Payload, clock: int) {
    && (verdict.Success? ==>
          verdict.value == Claims(p.did, p.publicKey, p.tokenType, p.iat, verdict.value.exp)
          && clock < verdict.value.exp)
    && (verdict.Failure? ==> verdict.error == TokenExpiredError)
  }

  const TokenType: string := "did_auth"
  const DefaultJwtSecret: string := "your-secret-key-change-in-production"
  const DefaultJwtExpiresIn: string := "24h"

  /**
   * The payload of `generateJWT`: the DID and key as given, the type tag "did_auth"
   * and the issue time in whole seconds, rounded down.
   */
  function TokenPayload(did: string, publicKey: string, nowMs: nat): (p: Payload)
    ensures p.did == did && p.publicKey == publicKey && p.tokenType == TokenType
    ensures p.iat >= 0 && p.iat * 1000 <= nowMs < p.iat * 1000 + 1000
  {
    Payload(did, publicKey, TokenType, nowMs / 1000)
  }

  /** The success value of `verifyDIDLogin`. */
  datatype LoginResult = LoginResult(token: string, did: string, publicKey: string, expiresIn: string)

  /** The steps of a login or token check that were reached, in order. */
  datatype Step =
    | ExistenceChecked(did: string)
    | PublicKeyFetched(did: string)
    | SignatureChecked(publicKey: string)
    | TokenMinted(payload: Payload)

  // ---------------------------------------------------------------- login

  /**
   * `validateInputs`: all three inputs present, then the DID format, then the
   * signature format, then a challenge of at least 10 characters; the first check
   * that fails decides the error.
   */
  function ValidateInputs(did: string, signature: string, challenge: string): (r: Outcome<AuthError>)
    ensures r.Pass? <==>
      did != "" && signature != "" && challenge != ""
      && ValidateDIDFormat(did) && ValidateSignatureFormat(signature) && Utf16Length(challenge) >= 10
    ensures r == Fail(MissingParameters) <==> did == "" || signature == "" || challenge == ""
    ensures r == Fail(InvalidDidFormat) <==>
      did != "" && signature != "" && challenge != "" && !ValidateDIDFormat(did)
    ensures r == Fail(InvalidSignatureFormat) <==>
      did != "" && signature != "" && challenge != "" && ValidateDIDFormat(did)
      && !ValidateSignatureFormat(signature)
    ensures r == Fail(InvalidChallenge) <==>
      did != "" && signature != "" && challenge != "" && ValidateDIDFormat(did)
      && ValidateSignatureFormat(signature) && Utf16Length(challenge) < 10
  {
    if did == "" || signature == "" || challenge == "" then Fail(MissingParameters)
    else if !ValidateDIDFormat(did) then Fail(InvalidDidFormat)
    else if !ValidateSignatureFormat(signature) then Fail(InvalidSignatureFormat)
    else if Utf16Length(challenge) < 10 then Fail(InvalidChallenge)
    else Pass
  }

  /**
   * The outcome of the login pipeline (validate, existence check, key fetch,
   * signature check): the public key the token will embed, or the first error.
   */
  function LoginDecision(crypto: Primitives, ledger: Ledger, did: string, signature: string, challenge: string)
    : (r: Result<string, AuthError>)
    ensures ValidateInputs(did, signature, challenge).Fail? ==>
      r == Failure(ValidateInputs(did, signature, challenge).error)
    ensures r.Success? <==>
      && ValidateInputs(did, signature, challenge).Pass?
      && CheckDIDExists(ledger, did)
      && GetDIDPublicKey(ledger, did).Success?
      && GetDIDPublicKey(ledger, did).value != ""
      && VerifySignature(crypto, challenge, signature, GetDIDPublicKey(ledger, did).value)
    ensures r.Success? ==> r.value == ledger.getMainPubKeyHex(did).value
    ensures ValidateInputs(did, signature, challenge).Pass? && !CheckDIDExists(ledger, did) ==>
      r == Failure(DidNotFound)
    ensures r == Failure(SignatureMismatch) <==>
      && ValidateInputs(did, signature, challenge).Pass?
      && CheckDIDExists(ledger, did)
      && GetDIDPublicKey(ledger, did).Success?
      && GetDIDPublicKey(ledger, did).value != ""
      && !VerifySignature(crypto, challenge, signature, GetDIDPublicKey(ledger, did).value)
    ensures ValidateInputs(did, signature, challenge).Pass? && CheckDIDExists(ledger, did)
            && GetDIDPublicKey(ledger, did).Failure? ==>
      r == Failure(KeyFetchFailed(GetDIDPublicKey(ledger, did).error))
    ensures ValidateInputs(did, signature, challenge).Pass? && CheckDIDExists(ledger, did)
            && GetDIDPublicKey(ledger, did).Success? && GetDIDPublicKey(ledger, did).value == "" ==>
      r == Failure(PublicKeyMissing)
    ensures r.Failure? ==> ErrorMessage(r.error) != ""
  {
    match ValidateInputs(did, signature, challenge)
    case Fail(e) => Failure(e)
    case Pass =>
      if !CheckDIDExists(ledger, did) then Failure(DidNotFound)
      else
        match GetDIDPublicKey(ledger, did)
        case Failure(message) => Failure(KeyFetchFailed(message))
        case Success(publicKey) =>
          if publicKey == "" then Failure(PublicKeyMissing)
          else if !VerifySignature(crypto, challenge, signature, publicKey) then Failure(SignatureMismatch)
          else Success(publicKey)
  }

  /** Malformed input is refused the same way whatever the ledger holds: no read can influence it. */
  lemma MalformedInputIgnoresLedger(crypto: Primitives, ledger1: Ledger, ledger2: Ledger,
                                    did: string, signature: string, challenge: string)
    requires ValidateInputs(did, signature, challenge).Fail?
    ensures LoginDecision(crypto, ledger1, did, signature, challenge)
         == LoginDecision(crypto, ledger2, did, signature, challenge)
  {
  }

  /**
   * A registered key of an unsupported length never lets anyone in: the verifier
   * answers false rather than failing, so the login fails as a signature mismatch.
   */
  lemma UnsupportedRegisteredKeyIsMismatch(crypto: Primitives, ledger: Ledger,
                                           did: string, signature: string, challenge: string)
    requires ValidateInputs(did, signature, challenge).Pass? && CheckDIDExists(ledger, did)
    requires ledger.getMainPubKeyHex(did).Success? && ledger.getMainPubKeyHex(did).value != ""
    requires !SupportedKeyLength(|StripHexPrefix(ledger.getMainPubKeyHex(did).value)|)
    ensures LoginDecision(crypto, ledger, did, signature, challenge) == Failure(SignatureMismatch)
  {
  }

  /**
   * The steps the login pipeline reaches, in order: every read of the ledger, the
   * signature check and the minting of the token, up to the first failure. Nothing
   * touches the ledger before the inputs are valid, the key is fetched only for an
   * existing DID, the signature is checked only against a non-empty key, and a token
   * is minted exactly when the login succeeds, for the key the ledger returned.
   */
  function LoginTrace(crypto: Primitives, ledger: Ledger, did: string, signature: string, challenge: string, nowMs: nat)
    : (trace: seq<Step>)
    ensures |trace| <= 4
    ensures trace == [] <==> ValidateInputs(did, signature, challenge).Fail?
    ensures |trace| >= 1 ==> trace[0] == ExistenceChecked(did)
    ensures |trace| >= 2 <==> ValidateInputs(did, signature, challenge).Pass? && CheckDIDExists(ledger, did)
    ensures |trace| >= 2 ==> trace[1] == PublicKeyFetched(did)
    ensures |trace| >= 3 <==>
      |trace| >= 2 && GetDIDPublicKey(ledger, did).Success? && GetDIDPublicKey(ledger, did).value != ""
    ensures |trace| >= 3 ==> trace[2] == SignatureChecked(ledger.getMainPubKeyHex(did).value)
    ensures |trace| == 4 <==> LoginDecision(crypto, ledger, did, signature, challenge).Success?
    ensures |trace| == 4 ==>
      trace[3] == TokenMinted(TokenPayload(did, LoginDecision(crypto, ledger, did, signature, challenge).value, nowMs))
  {
    if ValidateInputs(did, signature, challenge).Fail? then []
    else if !CheckDIDExists(ledger, did) then [ExistenceChecked(did)]
    else
      match GetDIDPublicKey(ledger, did)
      case Failure(_) => [ExistenceChecked(did), PublicKeyFetched(did)]
      case Success(publicKey) =>
        if publicKey == "" then [ExistenceChecked(did), PublicKeyFetched(did)]
        else if !VerifySignature(crypto, challenge, signature, publicKey) then
          [ExistenceChecked(did), PublicKeyFetched(did), SignatureChecked(publicKey)]
        else
          [ExistenceChecked(did), PublicKeyFetched(did), SignatureChecked(publicKey),
           TokenMinted(TokenPayload(did, publicKey, nowMs))]
  }

  // ---------------------------------------------------------------- token verification

  /**
   * The outcome of `verifyJWT`: the library's verdict (its two main error classes
   * renamed), then the type tag, then the DID's existence on the ledger.
   */
  function TokenDecision(ledger: Ledger, codec: JwtCodec, secret: string, token: string, nowMs: nat)
    : (r: Result<Claims, AuthError>)
    ensures var verdict := codec.verify(token, secret, nowMs / 1000);
      && (r.Success? <==>
            verdict.Success? && verdict.value.tokenType == TokenType && CheckDIDExists(ledger, verdict.value.did))
      && (r.Success? ==> r.value == verdict.value)
      && (verdict == Failure(JsonWebTokenError) ==> r == Failure(InvalidToken))
      && (verdict == Failure(TokenExpiredError) ==> r == Failure(TokenExpired))
      && (verdict == Failure(NotBeforeError) ==> r == Failure(TokenNotActive))
      && (verdict.Success? && verdict.value.tokenType != TokenType ==> r == Failure(InvalidTokenType))
      && ((verdict.Success? && verdict.value.tokenType == TokenType && !CheckDIDExists(ledger, verdict.value.did))
            ==> r == Failure(DidRevoked))
  {
    match codec.verify(token, secret, nowMs / 1000)
    case Failure(JsonWebTokenError) => Failure(InvalidToken)
    case Failure(TokenExpiredError) => Failure(TokenExpired)
    case Failure(NotBeforeError) => Failure(TokenNotActive)
    case Success(claims) =>
      if claims.tokenType != TokenType then Failure(InvalidTokenType)
      else if !CheckDIDExists(ledger, claims.did) then Failure(DidRevoked)
      else Success(claims)
  }

  // ---------------------------------------------------------------- expiry

  /** `jwtExpiresIn.slice(-1)` */
  function UnitOf(expiresIn: string): string {
    if |expiresIn| == 0 then "" else expiresIn[|expiresIn| - 1..]
  }

  /** `jwtExpiresIn.slice(0, -1)` */
  function AmountOf(expiresIn: string): string {
    if |expiresIn| == 0 then "" else expiresIn[..|expiresIn| - 1]
  }

  /** Seconds per unit letter; 0 for a letter the switch does not list. */
  function UnitSeconds(unit: string): nat {
    if unit == "h" then 3600 else if unit == "d" then 86400 else if unit == "m" then 60
    else if unit == "s" then 1 else 0
  }

  /** The amount is a number (not NaN) whenever the unit is one the switch lists. */
  predicate ExpiresInParses(expiresIn: string) {
    UnitSeconds(UnitOf(expiresIn)) != 0 ==> ParseInt(AmountOf(expiresIn)).Some?
  }

  /**
   * `getExpirationSeconds`: the amount times 3600, 86400, 60 or 1 for the units h, d,
   * m, s, and 86400 for any other unit.
   */
  function ExpirationSeconds(expiresIn: string): (seconds: int)
    requires ExpiresInParses(expiresIn)
    ensures UnitSeconds(UnitOf(expiresIn)) == 0 ==> seconds == 86400
    ensures UnitSeconds(UnitOf(expiresIn)) != 0 ==>
      seconds == ParseInt(AmountOf(expiresIn)).value * UnitSeconds(UnitOf(expiresIn))
  {
    var unit := UnitOf(expiresIn);
    if unit == "h" then ParseInt(AmountOf(expiresIn)).value * 3600
    else if unit == "d" then ParseInt(AmountOf(expiresIn)).value * 86400
    else if unit == "m" then ParseInt(AmountOf(expiresIn)).value * 60
    else if unit == "s" then ParseInt(AmountOf(expiresIn)).value
    else 86400
  }

  /** A decimal amount followed by a unit letter gives that many units, in seconds. */
  lemma ExpirationSecondsOfAmount(amount: nat, unit: char)
    ensures ExpiresInParses(DecimalString(amount) + [unit])
    ensures ExpirationSeconds(DecimalString(amount) + [unit])
         == if unit in "hdms" then amount * UnitSeconds([unit]) else 86400
  {
    var e := DecimalString(amount) + [unit];
    assert UnitOf(e) == [unit];
    assert AmountOf(e) == DecimalString(amount);
    ParseIntOfDecimal(amount);
  }

  /** The default lifetime "24h" is 86400 seconds. */
  lemma DefaultExpirationIsOneDay()
    ensures ExpiresInParses(DefaultJwtExpiresIn)
    ensures ExpirationSeconds(DefaultJwtExpiresIn) == 86400
  {
    assert DecimalString(24) == "24";
    assert DecimalString(24) + ['h'] == DefaultJwtExpiresIn;
    ExpirationSecondsOfAmount(24, 'h');
  }

  // ---------------------------------------------------------------- the service

  /** The service, configured once from the environment. */
  class AuthService {
    const jwtSecret: string
    const jwtExpiresIn: string

    /** `JWT_SECRET` and `JWT_EXPIRES_IN`, each falling back to its default when unset or empty. */
    constructor(env: map<string, string>)
      ensures jwtSecret == EnvOr(env, "JWT_SECRET", DefaultJwtSecret)
      ensures jwtExpiresIn == EnvOr(env, "JWT_EXPIRES_IN", DefaultJwtExpiresIn)
    {
      jwtSecret := EnvOr(env, "JWT_SECRET", DefaultJwtSecret);
      jwtExpiresIn := EnvOr(env, "JWT_EXPIRES_IN", DefaultJwtExpiresIn);
    }

    /** `generateJWT`: the payload signed with the configured secret, lifetime and HS256. */
    function GenerateJWT(codec: JwtCodec, did: string, publicKey: string, nowMs: nat): (token: string)
      ensures HonoursOwnTokens(codec) ==> forall clock :: OwnTokenVerdict(codec.verify(token, jwtSecret, clock),
                                                                         TokenPayload(did, publicKey, nowMs), clock)
    {
      codec.sign(TokenPayload(did, publicKey, nowMs), jwtSecret, SignOptions(jwtExpiresIn, "HS256"))
    }

    /**
     * `verifyDIDLogin`: validate, check existence, fetch the key, verify the signature
     * and mint a token, stopping at the first failure. `trace` lists the steps reached.
     */
    method VerifyDIDLogin(crypto: Primitives, ledger: Ledger, codec: JwtCodec,
                          did: string, signature: string, challenge: string, nowMs: nat)
      returns (r: Result<LoginResult, AuthError>, trace: seq<Step>)
      ensures var decision := LoginDecision(crypto, ledger, did, signature, challenge);
        && (r.Success? <==> decision.Success?)
        && (r.Failure? ==> r.error == decision.error)
        && (r.Success? ==>
              r.value == LoginResult(GenerateJWT(codec, did, decision.value, nowMs), did, decision.value, jwtExpiresIn))
      ensures trace == LoginTrace(crypto, ledger, did, signature, challenge, nowMs)
    {
      trace := [];
      var validation := ValidateInputs(did, signature, challenge);
      if validation.Fail? {
        r := Failure(validation.error);
        return;
      }

      var found := CheckDIDExists(ledger, did);
      trace := [ExistenceChecked(did)];
      if !found {
        r := Failure(DidNotFound);
        return;
      }

      var fetched := GetDIDPublicKey(ledger, did);
      trace := [ExistenceChecked(did), PublicKeyFetched(did)];
      if fetched.Failure? {
        r := Failure(KeyFetchFailed(fetched.error));
        return;
      }
      var publicKey := fetched.value;
      if publicKey == "" {
        r := Failure(PublicKeyMissing);
        return;
      }

      var isValidSignature := VerifySignature(crypto, challenge, signature, publicKey);
      trace := [ExistenceChecked(did), PublicKeyFetched(did), SignatureChecked(publicKey)];
      if !isValidSignature {
        r := Failure(SignatureMismatch);
        return;
      }

      var payload := TokenPayload(did, publicKey, nowMs);
      var token := codec.sign(payload, jwtSecret, SignOptions(jwtExpiresIn, "HS256"));
      trace := trace + [TokenMinted(payload)];
      r := Success(LoginResult(token, did, publicKey, jwtExpiresIn));
    }

    /**
     * `verifyJWT`: the library check under the configured secret, the type tag, then
     * a fresh existence check of the token's DID. `trace` lists the ledger reads made.
     */
    method VerifyJWT(ledger: Ledger, codec: JwtCodec, token: string, nowMs: nat)
      returns (r: Result<Claims, AuthError>, trace: seq<Step>)
      ensures r == TokenDecision(ledger, codec, jwtSecret, token, nowMs)
      ensures var verdict := codec.verify(token, jwtSecret, nowMs / 1000);
        trace == if verdict.Success? && verdict.value.tokenType == TokenType
                 then [ExistenceChecked(verdict.value.did)] else []
    {
      trace := [];
      var verdict := codec.verify(token, jwtSecret, nowMs / 1000);
      if verdict.Failure? {
        r := match verdict.error
          case JsonWebTokenError => Failure(InvalidToken)
          case TokenExpiredError => Failure(TokenExpired)
          case NotBeforeError => Failure(TokenNotActive);
        return;
      }
      var decoded := verdict.value;
      if decoded.tokenType != TokenType {
        r := Failure(InvalidTokenType);
        return;
      }
      var found := CheckDIDExists(ledger, decoded.did);
      trace := [ExistenceChecked(decoded.did)];
      if !found {
        r := Failure(DidRevoked);
        return;
      }
      r := Success(decoded);
    }

    /**
     * `refreshToken`: a token that passes `verifyJWT` is exchanged for a new one with
     * the same DID and public key; any failure of the check is passed on.
     */
    method RefreshToken(ledger: Ledger, codec: JwtCodec, token: string, nowMs: nat)
      returns (r: Result<string, AuthError>, trace: seq<Step>)
      ensures var decision := TokenDecision(ledger, codec, jwtSecret, token, nowMs);
        && (r.Success? <==> decision.Success?)
        && (r.Failure? ==> r.error == decision.error)
        && (r.Success? ==> r.value == GenerateJWT(codec, decision.value.did, decision.value.publicKey, nowMs))
      ensures r.Success? <==> |trace| == 2
      ensures r.Success? ==>
        trace[1] == TokenMinted(TokenPayload(TokenDecision(ledger, codec, jwtSecret, token, nowMs).value.did,
                                             TokenDecision(ledger, codec, jwtSecret, token, nowMs).value.publicKey, nowMs))
    {
      var decoded;
      decoded, trace := VerifyJWT(ledger, codec, token, nowMs);
      if decoded.Failure? {
        r := Failure(decoded.error);
        return;
      }
      var payload := TokenPayload(decoded.value.did, decoded.value.publicKey, nowMs);
      r := Success(codec.sign(payload, jwtSecret, SignOptions(jwtExpiresIn, "HS256")));
      trace := trace + [TokenMinted(payload)];
    }

    /**
     * A token minted by a successful login passes `verifyJWT` later, with the DID and
     * key of the login, unless it has expired or the DID has since been revoked.
     */
    lemma LoginTokenPassesVerification(crypto: Primitives, ledger: Ledger, laterLedger: Ledger, codec: JwtCodec,
                                       did: string, signature: string, challenge: string, loginMs: nat, laterMs: nat)
      requires HonoursOwnTokens(codec)
      requires LoginDecision(crypto, ledger, did, signature, challenge).Success?
      ensures var publicKey := LoginDecision(crypto, ledger, did, signature, challenge).value;
        var decision := TokenDecision(laterLedger, codec, jwtSecret, GenerateJWT(codec, did, publicKey, loginMs), laterMs);
        && (decision.Success? ==>
              decision.value.did == did && decision.value.publicKey == publicKey
              && decision.value.tokenType == TokenType && decision.value.iat == loginMs / 1000)
        && (decision.Failure? ==> decision.error == TokenExpired || decision.error == DidRevoked)
        && (decision == Failure(DidRevoked) ==> !CheckDIDExists(laterLedger, did))
        && (CheckDIDExists(laterLedger, did) ==> decision.Success? || decision == Failure(TokenExpired))
    {
      var publicKey := LoginDecision(crypto, ledger, did, signature, challenge).value;
      var token := GenerateJWT(codec, did, publicKey, loginMs);
      assert OwnTokenVerdict(codec.verify(token, jwtSecret, laterMs / 1000), TokenPayload(did, publicKey, loginMs), laterMs / 1000);
    }

    /** A refreshed token passes `verifyJWT` with the same DID and key as the token it replaced. */
    lemma RefreshedTokenPassesVerification(ledger: Ledger, codec: JwtCodec, token: string, nowMs: nat, laterMs: nat)
      requires HonoursOwnTokens(codec)
      requires TokenDecision(ledger, codec, jwtSecret, token, nowMs).Success?
      ensures var previous := TokenDecision(ledger, codec, jwtSecret, token, nowMs).value;
        var decision := TokenDecision(ledger, codec, jwtSecret, GenerateJWT(codec, previous.did, previous.publicKey, nowMs), laterMs);
        && (decision.Success? ==> decision.value.did == previous.did && decision.value.publicKey == previous.publicKey)
        && (decision.Failure? ==> decision.error == TokenExpired)
    {
      var previous := TokenDecision(ledger, codec, jwtSecret, token, nowMs).value;
      var renewed := GenerateJWT(codec, previous.did, previous.publicKey, nowMs);
      assert OwnTokenVerdict(codec.verify(renewed, jwtSecret, laterMs / 1000), TokenPayload(previous.did, previous.publicKey, nowMs), laterMs / 1000);
    }

    /**
     * `generateChallenge` of the service, written from its own template: the same
     * text as CryptoService's for the same DID, clock and random draw.
     */
    function GenerateChallenge(did: string, nowMs: nat, randomBase36: string): (challenge: string)
      ensures challenge == Crypto.GenerateChallenge(did, nowMs, randomBase36)
    {
      var timestamp := DecimalString(nowMs);
      var nonce := JsSubstring(randomBase36, 2, 15);
      var challenge := "DID Login Challenge\nDID: " + did + "\nTimestamp: " + timestamp + "\nNonce: " + nonce;
      JoinFourLines(ChallengeHeader, "DID: " + did, "Timestamp: " + timestamp, "Nonce: " + nonce);
      challenge
    }
  }
}
