/**
 * The HTTP routes under /api/auth: request validation (express-validator chains,
 * in which every validator of a field runs and each failure adds one entry), the
 * call into the service and the JSON response. Status 200 responses are `Ok`;
 * 400 and 401 responses are `Rejected`.
 */
module AuthRoutes {
  import opened Wrappers
  import opened Hex
  import opened Text
  import opened Crypto
  import opened Oracle
  import opened Auth

  /** One entry of `errors.array()`: the field and the message of the validator that failed. */
  datatype FieldError = FieldError(path: string, msg: string)

  /** The `data` object of a successful response, one variant per route. */
  datatype Data =
    | ChallengeData(challenge: string, did: string)
    | LoginData(token: string, did: string, expiresIn: string)
    | TokenData(did: string, publicKey: string, tokenType: string, iat: int, exp: int)
    | RefreshData(token: string, expiresIn: string)
    | NoData

  /** `{ success: true, message, data }` or `res.status(status).json({ success: false, error, details })`. */
  datatype Response =
    | Ok(message: string, data: Data)
    | Rejected(status: nat, error: string, details: seq<FieldError>)

  const ValidationFailed: string := "请求参数验证失败"

  /** The body of POST /login. A field the client leaves out is the empty string here. */
  datatype LoginRequest = LoginRequest(did: string, signature: string, challenge: string)

  /** `error.message || fallback` for an error the service threw. */
  function ServiceErrorText(e: AuthError, fallback: string): (text: string)
    ensures ErrorMessage(e) != "" ==> text == ErrorMessage(e)
    ensures !e.KeyFetchFailed? ==> text == ErrorMessage(e)
    ensures fallback != "" ==> text != ""
  {
    var message := ErrorMessage(e);
    if message == "" then fallback else message
  }

  // ---------------------------------------------------------------- validators

  /** `body('did').notEmpty().matches(<the DID pattern>/i)`: the pattern is the one `validateDIDFormat` uses. */
  function DidFieldErrors(did: string): (errors: seq<FieldError>)
    ensures errors == [] <==> ValidateDIDFormat(did)
    ensures did == "" ==> errors == [FieldError("did", "DID不能为空"), FieldError("did", "DID格式不正确")]
    ensures forall e :: e in errors ==> e.path == "did"
  {
    (if did == "" then [FieldError("did", "DID不能为空")] else [])
    + (if !ValidateDIDFormat(did) then [FieldError("did", "DID格式不正确")] else [])
  }

  /**
   * `/^0x[0-9a-f]{130}$/i`: with the `i` flag the "x" of the prefix may be upper-case,
   * and the prefix is required.
   */
  predicate RouteSignatureFormat(signature: string) {
    |signature| >= 2 && signature[0] == '0' && (signature[1] == 'x' || signature[1] == 'X')
    && IsHexOfLength(signature[2..], 130)
  }

  function SignatureFieldErrors(signature: string): (errors: seq<FieldError>)
    ensures errors == [] <==> RouteSignatureFormat(signature)
    ensures forall e :: e in errors ==> e.path == "signature"
  {
    (if signature == "" then [FieldError("signature", "签名不能为空")] else [])
    + (if !RouteSignatureFormat(signature) then [FieldError("signature", "签名格式不正确")] else [])
  }

  function ChallengeFieldErrors(challenge: string): (errors: seq<FieldError>)
    ensures errors == [] <==> ValidatorLength(challenge) >= 10
    ensures challenge == "" ==> |errors| == 2
    ensures forall e :: e in errors ==> e.path == "challenge"
  {
    (if challenge == "" then [FieldError("challenge", "挑战消息不能为空")] else [])
    + (if ValidatorLength(challenge) < 10 then [FieldError("challenge", "挑战消息长度不足")] else [])
  }

  /** The three chains of POST /login, in their declared order. */
  function LoginFieldErrors(req: LoginRequest): (errors: seq<FieldError>)
    ensures errors == [] <==>
      ValidateDIDFormat(req.did) && RouteSignatureFormat(req.signature) && ValidatorLength(req.challenge) >= 10
    ensures errors == DidFieldErrors(req.did) + SignatureFieldErrors(req.signature) + ChallengeFieldErrors(req.challenge)
  {
    DidFieldErrors(req.did) + SignatureFieldErrors(req.signature) + ChallengeFieldErrors(req.challenge)
  }

  /** `body('token').notEmpty()` */
  function TokenFieldErrors(token: string): (errors: seq<FieldError>)
    ensures errors == [] <==> token != ""
  {
    if token == "" then [FieldError("token", "令牌不能为空")] else []
  }

  // ---------------------------------------------------------------- route and service checks

  /** A login request the route accepts with a lower-case "0x" also passes the service's own input checks. */
  lemma RouteValidRequestPassesServiceChecks(req: LoginRequest)
    requires LoginFieldErrors(req) == [] && req.signature[1] == 'x'
    ensures ValidateInputs(req.did, req.signature, req.challenge) == Pass
  {
    assert StartsWith(req.signature, "0x");
  }

  /**
   * A signature written "0X…" satisfies the route's case-insensitive pattern, but the
   * service removes only a lower-case "0x", so the service refuses it: the client
   * gets 401 with the signature-format message instead of 400.
   */
  lemma UpperCasePrefixPassesRouteFailsService(req: LoginRequest)
    requires LoginFieldErrors(req) == [] && req.signature[1] == 'X'
    ensures ValidateInputs(req.did, req.signature, req.challenge) == Fail(InvalidSignatureFormat)
  {
    assert !StartsWith(req.signature, "0x");
  }

  /** 130 hex digits without "0x" satisfy the service's check, yet the route refuses them. */
  lemma BareSignatureRejectedOnlyByRoute(req: LoginRequest)
    requires IsHexOfLength(req.signature, 130)
    ensures ValidateSignatureFormat(req.signature)
    ensures FieldError("signature", "签名格式不正确") in LoginFieldErrors(req)
  {
    assert !RouteSignatureFormat(req.signature) by {
      if |req.signature| >= 2 && req.signature[0] == '0' && req.signature[1] == 'x' {
        assert IsHexChar(req.signature[1]);
      }
    }
    assert SignatureFieldErrors(req.signature)[|SignatureFieldErrors(req.signature)| - 1]
        == FieldError("signature", "签名格式不正确");
  }

  /**
   * The route and the service measure the challenge differently: nine letters and an
   * emoji presentation selector are ten UTF-16 units for the service, but nine for the
   * route's length validator, so the route refuses a challenge the service would take.
   */
  lemma PresentationSelectorCountsOnlyForService()
    ensures var challenge := "abcdefghi\U{FE0F}";
      Utf16Length(challenge) == 10 && ValidatorLength(challenge) == 9
      && FieldError("challenge", "挑战消息长度不足") in ChallengeFieldErrors(challenge)
  {
    var challenge := "abcdefghi\U{FE0F}";
    assert challenge[..9] == "abcdefghi";
    assert ValidatorLength(challenge) == ValidatorLength("abcdefghi");
    assert Utf16Length(challenge) == Utf16Length("abcdefghi") + 1;
  }

  // ---------------------------------------------------------------- routes

  /** POST /challenge: a validated DID gets a fresh challenge for it. */
  method ChallengeRoute(service: AuthService, did: string, nowMs: nat, randomBase36: string)
    returns (response: Response)
    ensures response.Ok? <==> ValidateDIDFormat(did)
    ensures response.Rejected? ==> response == Rejected(400, ValidationFailed, DidFieldErrors(did))
    ensures response.Ok? ==>
      && response.message == "挑战消息生成成功"
      && response.data.ChallengeData?
      && response.data.did == did
      && ('\n' !in randomBase36 ==>
            SplitLines(response.data.challenge) ==
              [ChallengeHeader, "DID: " + did, "Timestamp: " + DecimalString(nowMs), "Nonce: " + Nonce(randomBase36)])
  {
    var errors := DidFieldErrors(did);
    if errors != [] {
      return Rejected(400, ValidationFailed, errors);
    }
    var challenge := service.GenerateChallenge(did, nowMs, randomBase36);
    response := Ok("挑战消息生成成功", ChallengeData(challenge, did));
  }

  /**
   * POST /login: a request that fails validation is answered 400 before the service
   * is called; otherwise the service's verdict decides between the token and 401.
   */
  method LoginRoute(service: AuthService, crypto: Primitives, ledger: Ledger, codec: JwtCodec,
                    req: LoginRequest, nowMs: nat)
    returns (response: Response, trace: seq<Step>)
    ensures LoginFieldErrors(req) != [] ==>
      response == Rejected(400, ValidationFailed, LoginFieldErrors(req)) && trace == []
    ensures LoginFieldErrors(req) == [] ==>
      var decision := LoginDecision(crypto, ledger, req.did, req.signature, req.challenge);
      && trace == LoginTrace(crypto, ledger, req.did, req.signature, req.challenge, nowMs)
      && (decision.Success? ==>
            response == Ok("登录成功", LoginData(service.GenerateJWT(codec, req.did, decision.value, nowMs),
                                                  req.did, service.jwtExpiresIn)))
      && (decision.Failure? ==> response == Rejected(401, ErrorMessage(decision.error), []))
  {
    var errors := LoginFieldErrors(req);
    if errors != [] {
      return Rejected(400, ValidationFailed, errors), [];
    }
    var result;
    result, trace := service.VerifyDIDLogin(crypto, ledger, codec, req.did, req.signature, req.challenge, nowMs);
    if result.Failure? {
      return Rejected(401, ServiceErrorText(result.error, "登录验证失败"), []), trace;
    }
    response := Ok("登录成功", LoginData(result.value.token, result.value.did, result.value.expiresIn));
  }

  /** POST /verify: the claims of a token the service accepts, or 401 with the service's message. */
  method VerifyRoute(service: AuthService, ledger: Ledger, codec: JwtCodec, token: string, nowMs: nat)
    returns (response: Response)
    ensures token == "" ==> response == Rejected(400, ValidationFailed, [FieldError("token", "令牌不能为空")])
    ensures token != "" ==>
      var decision := TokenDecision(ledger, codec, service.jwtSecret, token, nowMs);
      && (decision.Success? ==>
            var c := decision.value;
            response == Ok("令牌验证成功", TokenData(c.did, c.publicKey, c.tokenType, c.iat, c.exp)))
      && (decision.Failure? ==> response == Rejected(401, ErrorMessage(decision.error), []))
  {
    var errors := TokenFieldErrors(token);
    if errors != [] {
      return Rejected(400, ValidationFailed, errors);
    }
    var decoded, _ := service.VerifyJWT(ledger, codec, token, nowMs);
    if decoded.Failure? {
      return Rejected(401, ServiceErrorText(decoded.error, "令牌验证失败"), []);
    }
    var c := decoded.value;
    response := Ok("令牌验证成功", TokenData(c.did, c.publicKey, c.tokenType, c.iat, c.exp));
  }

  /** POST /refresh: a new token for a token the service accepts, or 401 with the service's message. */
  method RefreshRoute(service: AuthService, ledger: Ledger, codec: JwtCodec, token: string, nowMs: nat)
    returns (response: Response)
    ensures token == "" ==> response == Rejected(400, ValidationFailed, [FieldError("token", "令牌不能为空")])
    ensures token != "" ==>
      var decision := TokenDecision(ledger, codec, service.jwtSecret, token, nowMs);
      && (decision.Success? ==>
            response == Ok("令牌刷新成功",
                           RefreshData(service.GenerateJWT(codec, decision.value.did, decision.value.publicKey, nowMs),
                                       service.jwtExpiresIn)))
      && (decision.Failure? ==> response == Rejected(401, ErrorMessage(decision.error), []))
  {
    var errors := TokenFieldErrors(token);
    if errors != [] {
      return Rejected(400, ValidationFailed, errors);
    }
    var refreshed, _ := service.RefreshToken(ledger, codec, token, nowMs);
    if refreshed.Failure? {
      return Rejected(401, ServiceErrorText(refreshed.error, "令牌刷新失败"), []);
    }
    response := Ok("令牌刷新成功", RefreshData(refreshed.value, service.jwtExpiresIn));
  }

  /** POST /logout: nothing is validated or revoked on the server; the answer is always success. */
  function LogoutRoute(): (response: Response)
    ensures response.Ok? && response.message == "登出成功" && response.data == NoData
  {
    Ok("登出成功", NoData)
  }
}
