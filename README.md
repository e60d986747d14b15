# DID challenge–response login, modelled in Dafny

This project models the login path of a DID (decentralised identifier) registry.
It covers the backend and the client.

Backend:
- A client asks for a challenge text for its DID (`did:hebeu:<uuid v4>`).
- It signs the challenge with its private key and posts DID, signature and challenge.
- The server checks the input formats, asks the on-chain registry whether the DID exists, and fetches its main public key.
- It derives the Ethereum address of that key and compares it with the address recovered from the signature.
- On success it issues an HS256 JSON Web Token, which can later be verified or exchanged for a fresh one.

Client:
- key, UUID and DID generation;
- the DID proof;
- the contract parameters;
- the copies of DIDs kept in `localStorage`;
- the DID list of the `useDID` hook;
- the Next.js route guard.

The backend's network table is modelled too.

Modules, one per source file, plus helpers:

| module | models |
|---|---|
| `Crypto` (crypto.dfy) | `backend/src/services/cryptoService.js` |
| `Auth` (auth.dfy), class `AuthService` | `backend/src/services/authService.js` |
| `AuthRoutes` (auth_routes.dfy) | `backend/src/routes/auth.js` |
| `Oracle` (oracle.dfy) | the two ledger reads of `backend/src/config/blockchain.js` |
| `Networks` (networks.dfy) | `backend/src/config/networks.js` |
| `DidUtils` (did_utils.dfy) | `frontend/packages/nextjs/utils/didUtils.ts` |
| `UseDid` (use_did.dfy), class `DidHook` | `frontend/packages/nextjs/hooks/scaffold-eth/useDID.ts` |
| `Middleware` (middleware.dfy) | `frontend/packages/nextjs/middleware.ts` |
| `Hex`, `Text`, `Seqs`, `Storage`, `Wrappers` | hex codec, the JavaScript string and number operations used, `filter`/`find`, `localStorage`, `Option`/`Result` |

The external pieces are values passed in:

- **Crypto primitives.** Keccak-256 and viem's EIP-191 signer recovery are the fields of `Crypto.Primitives`.
- **Token library.** `jsonwebtoken`'s `sign`/`verify` are the fields of `Auth.JwtCodec`.
- **Registry.** The two contract reads are the fields of `Oracle.Ledger`.
- **Client key functions.** viem's `privateKeyToAccount(...).publicKey` and `signMessage` are the function parameters `derive` and `sign`.
- **Clock and randomness.** `Date.now()` is the parameter `nowMs`. `Math.random()` results are parameters: nibble draws, or the base-36 text for a nonce.
- **Environment.** `process.env` is a `map<string, string>`.

The service methods `VerifyDIDLogin`, `VerifyJWT` and `RefreshToken` return the result together with a trace. The trace lists the steps reached, in order: existence check, key fetch, signature check, token mint.

## Model

| member | source | states |
|---|---|---|
| Crypto.NormalizePublicKey | backend/src/services/cryptoService.js:89-115 | After removing one lower-case "0x", 128 hex digits get "04", 66 are kept, 64 get "02". Every other length is an error carrying that length. The key text is kept as the suffix of the result. |
| Crypto.PublicKeyToAddress | backend/src/services/cryptoService.js:86-130 | Succeeds exactly for the three supported lengths. The address has 42 characters: "0x" plus lower-case hex. It is the last 20 bytes of Keccak-256 over the decoded key without its first byte. |
| Crypto.AddressIgnoresHexPrefix | backend/src/services/cryptoService.js:89 | A key gets the same address, or the same error, with or without its "0x". |
| Crypto.RawKeyAssumedEven | backend/src/services/cryptoService.js:108-111 | A 64-hex key always decodes with first byte 0x02. Even y parity is assumed, never derived. |
| Crypto.RawKeySameAsEvenCompressed | backend/src/services/cryptoService.js:104-111 | A 64-hex key and the same key prefixed "02" have the same address. |
| Crypto.PrefixedUncompressedKeyRejected | backend/src/services/cryptoService.js:98-115 | A 130-hex key (uncompressed, keeping its "04") is refused. |
| Crypto.UncompressedKeyHashesPoint | backend/src/services/cryptoService.js:98-121 | For a 128-hex key, the hashed bytes are exactly the 64 bytes X‖Y the key spells. |
| Crypto.CompressedKeyHashesOnlyX | backend/src/services/cryptoService.js:104-121 | For a 66-hex key only 32 bytes (X) are hashed. |
| Crypto.VerifySignature | backend/src/services/cryptoService.js:16-55 | Never fails. It is true iff all three hold: the key length is supported, a signer is recovered, and the two addresses are equal ignoring case. An unsupported key or a failed recovery gives false. |
| Crypto.RawKeyVerifiesAsEvenCompressed | backend/src/services/cryptoService.js:36-49 | A 64-hex key verifies exactly the signatures its "02" form verifies. |
| Crypto.ValidatePublicKeyFormat | backend/src/services/cryptoService.js:137-144 | True iff, after an optional lower-case "0x", the key is 64 or 128 hex digits. The "04" pattern adds nothing. |
| Crypto.CompressedKeyFailsFormatButHasAddress | backend/src/services/cryptoService.js:137-144 | A 66-hex key fails the format check, yet `PublicKeyToAddress` accepts it. |
| Crypto.ValidateSignatureFormat | backend/src/services/cryptoService.js:151-156 | True iff the signature is 130 hex digits, or "0x" followed by 130 hex digits. |
| Crypto.ValidateDIDFormat | backend/src/services/cryptoService.js:163-167 | True iff all of these hold: the DID has 46 characters and starts with "did:hebeu:" in any letter case; dashes sit at 18, 23, 28 and 33; index 24 is '4'; index 29 is one of 8, 9, a, b (either case); every other index from 10 on is a hex digit. An accepted DID has no line break. |
| Crypto.UuidLayout | backend/src/services/cryptoService.js:165 | A 36-character text matches the UUID template iff it has the dashes, the version digit 4, the variant digit and hex digits everywhere else. |
| Crypto.Nonce | backend/src/services/cryptoService.js:178 | The nonce has at most 13 characters. |
| Crypto.GenerateChallenge | backend/src/services/cryptoService.js:174-181 | If the DID and the random text contain no line break, splitting the challenge on "\n" gives exactly four lines: header, `DID: <did>`, `Timestamp: <ms>` and `Nonce: <nonce>`. |
| Text.ParseIntOfDecimal | backend/src/services/authService.js:160 | `parseInt` of a number's decimal text gives the number back. |
| Text.Utf16Length | backend/src/services/authService.js:97 | `length` counts at least one and at most two units per character. Text without characters beyond U+FFFF counts one per character. |
| Text.ValidatorLength | backend/src/routes/auth.js:73 | The length `isLength` compares is at most the number of characters. It equals that number when there is no presentation selector. |
| Oracle.CheckDIDExists | backend/src/config/blockchain.js:168-186 | True iff the registry read succeeds and answers true. A failed read gives false, never an error. |
| Oracle.GetDIDPublicKey | backend/src/config/blockchain.js:143-161 | Returns the key when the read succeeds. A failed read is an error whose message is the read's message with the key-fetch prefix. |
| Auth.ErrorMessage | backend/src/services/authService.js:35-56 | A failed key fetch carries the message `getDIDPublicKey` threw. Every other error has its own non-empty text. |
| Auth.TokenPayload | backend/src/services/authService.js:108-114 | The payload has the DID and key as given and type "did_auth". `iat` is the clock in whole seconds, rounded down: iat·1000 ≤ now < iat·1000+1000. |
| Auth.ValidateInputs | backend/src/services/authService.js:84-100 | Passes iff all three inputs are non-empty, the DID and signature formats hold, and the challenge has at least 10 UTF-16 units. Each error is stated exactly, in the order presence, DID, signature, challenge length. |
| Auth.LoginDecision | backend/src/services/authService.js:22-76 | Fails with the validation error when validation fails. Succeeds iff: input valid, DID exists, key fetched and non-empty, signature verifies. A non-existing DID gives `DidNotFound`. A failed key fetch gives `KeyFetchFailed` with the thrown message. An empty key gives `PublicKeyMissing`. `SignatureMismatch` arises exactly when all earlier steps pass and verification fails. Every failure has a non-empty message. On success the value is the fetched key. |
| Auth.MalformedInputIgnoresLedger | backend/src/services/authService.js:29-33 | For input that fails validation, the outcome does not depend on the ledger. |
| Auth.UnsupportedRegisteredKeyIsMismatch | backend/src/services/authService.js:49-57 | A registered key of unsupported length makes every login fail as a signature mismatch. |
| Auth.LoginTrace | backend/src/services/authService.js:29-60 | The ledger is read only after validation passes. The key is fetched only for an existing DID. The signature is checked only against a non-empty key. A token is minted iff the login succeeds, for the fetched key. |
| Auth.TokenDecision | backend/src/services/authService.js:127-152 | Succeeds iff the library accepts the token, the type is "did_auth" and the DID still exists. Library errors map to invalid/expired/not-active. A wrong type and a revoked DID give their own errors. |
| Auth.ExpirationSeconds | backend/src/services/authService.js:158-169 | The amount times 3600, 86400, 60 or 1 for h, d, m, s. Any other unit gives 86400. |
| Auth.ExpirationSecondsOfAmount | backend/src/services/authService.js:158-169 | For `<n><unit>`, the result is n times the unit's seconds, or 86400 for an unknown unit. |
| Auth.DefaultExpirationIsOneDay | backend/src/services/authService.js:10-13 | The default "24h" is 86400 seconds. |
| Auth.AuthService.constructor | backend/src/services/authService.js:10-13 | Secret and lifetime come from `JWT_SECRET`/`JWT_EXPIRES_IN`. A missing or empty variable gives the default. |
| Auth.AuthService.GenerateJWT | backend/src/services/authService.js:108-120 | Assuming the library honours its own tokens, verifying the token with the configured secret at any clock gives one of two results. Either it is accepted with the given DID and key, type "did_auth" and the issue second, with the expiry still ahead, or it is refused as expired. |
| Auth.AuthService.VerifyDIDLogin | backend/src/services/authService.js:22-76 | Agrees with `LoginDecision`. On success it returns the token signed over `TokenPayload` with the configured secret, lifetime and HS256, plus the DID, the key and the lifetime. The trace is `LoginTrace`. |
| Auth.AuthService.VerifyJWT | backend/src/services/authService.js:127-152 | Equals `TokenDecision` under the configured secret. The ledger is read once, and only for a token of the right type. |
| Auth.AuthService.RefreshToken | backend/src/services/authService.js:190-195 | Succeeds iff verification does. It then returns a fresh token for the same DID and key and records the mint in the trace. Otherwise it passes the verification error on. |
| Auth.AuthService.GenerateChallenge | backend/src/services/authService.js:176-183 | Written from the service's own template, and proved to be exactly the text CryptoService issues for the same DID, clock and draw. |
| Auth.AuthService.LoginTokenPassesVerification | backend/src/services/authService.js:22-152 | A token minted by a successful login later passes `verifyJWT` with the login's DID and key, unless it has expired or the DID is no longer registered. `DidRevoked` occurs only for a DID no longer registered. |
| Auth.AuthService.RefreshedTokenPassesVerification | backend/src/services/authService.js:127-195 | A refreshed token passes `verifyJWT` with the DID and key of the token it replaced, unless it has expired. |
| AuthRoutes.ServiceErrorText | backend/src/routes/auth.js:113-116 | A non-empty service message is sent as it is, and so is every error other than a failed key fetch. The text is never empty when the fallback is non-empty. |
| AuthRoutes.DidFieldErrors | backend/src/routes/auth.js:12-17 | No errors iff the DID format holds. An empty DID yields both the "empty" and the "format" entries. |
| AuthRoutes.SignatureFieldErrors | backend/src/routes/auth.js:66-70 | No errors iff the signature is "0x"/"0X" followed by 130 hex digits. |
| AuthRoutes.ChallengeFieldErrors | backend/src/routes/auth.js:71-75 | No errors iff the challenge has at least 10 characters as `isLength` counts them: presentation selectors do not count. An empty challenge yields two entries. |
| AuthRoutes.LoginFieldErrors | backend/src/routes/auth.js:60-75 | The field entries in chain order: did, then signature, then challenge. The list is empty iff every field is valid. |
| AuthRoutes.TokenFieldErrors | backend/src/routes/auth.js:124-127 | No errors iff the token is non-empty. |
| AuthRoutes.RouteValidRequestPassesServiceChecks | backend/src/routes/auth.js:60-93 | A request the route accepts, with a lower-case "0x", passes the service's input checks. |
| AuthRoutes.UpperCasePrefixPassesRouteFailsService | backend/src/routes/auth.js:66-70 | A "0X…" signature passes the route but fails the service's check. The client gets a 401 with the signature-format error. |
| AuthRoutes.BareSignatureRejectedOnlyByRoute | backend/src/routes/auth.js:66-70 | 130 hex digits without "0x" satisfy the service check, yet the route answers 400. |
| AuthRoutes.PresentationSelectorCountsOnlyForService | backend/src/routes/auth.js:71-75 | "abcdefghi" followed by U+FE0F is 10 units for the service but 9 for the route, so the route refuses it for length. |
| AuthRoutes.ChallengeRoute | backend/src/routes/auth.js:12-54 | 200 iff the DID format holds, carrying the same DID and a four-line challenge. Otherwise 400 with the field errors. |
| AuthRoutes.LoginRoute | backend/src/routes/auth.js:60-118 | An invalid request gets 400 and makes no ledger read. Otherwise the reply follows `LoginDecision`: token, DID and lifetime on success, 401 with the error message otherwise. |
| AuthRoutes.VerifyRoute | backend/src/routes/auth.js:124-166 | An empty token gets 400. Otherwise success returns the decoded did, publicKey, type, iat and exp, and failure gets 401 with the message. |
| AuthRoutes.RefreshRoute | backend/src/routes/auth.js:172-211 | An empty token gets 400. Otherwise success returns a fresh token for the decoded DID and key plus the lifetime, and failure gets 401. |
| AuthRoutes.LogoutRoute | backend/src/routes/auth.js:217-224 | Always a success with the logout message and no data. |
| DidUtils.VariantNibble | frontend/packages/nextjs/utils/didUtils.ts:35 | `(r & 3) \| 8` lies in 8..11 and equals 8 + r mod 4. |
| DidUtils.UuidChar | frontend/packages/nextjs/utils/didUtils.ts:33-37 | The replacement matches its template character. x and y give lower-case hex, and y gives one of 8, 9, a, b. |
| DidUtils.GenerateUuid | frontend/packages/nextjs/utils/didUtils.ts:32-38 | 36 characters matching the version-4 template: dashes at 8, 13, 18 and 23, '4' at 14, and 8/9/a/b at 19. |
| DidUtils.GeneratePrivateKey | frontend/packages/nextjs/utils/didUtils.ts:43-50 | The loop builds `KeyFromDraws`: 64 characters, the i-th the hex digit of draw i. |
| DidUtils.ValidatePrivateKey | frontend/packages/nextjs/utils/didUtils.ts:215-219 | True iff the key has 64 characters and hex decoding reads 32 whole bytes from it, that is, 64 hex digits. |
| DidUtils.VerifyPrivateKeyFormat | frontend/packages/nextjs/utils/didUtils.ts:290-294 | The same pattern, so the same characterisation: 64 characters that decode to 32 bytes. |
| DidUtils.PrivateKeyChecks | frontend/packages/nextjs/utils/didUtils.ts:215-219 | Generated keys pass both private-key checks. The two checks (lines 215-219 and 290-294) agree on every string. A "0x"-prefixed key fails. |
| DidUtils.GeneratePublicKey | frontend/packages/nextjs/utils/didUtils.ts:55-85 | Succeeds iff viem gives "0x" plus 66 or 130 hex. The result drops the "0x" and the first byte, so it has 64 or 128 characters. Every failure is the one generic error. |
| DidUtils.UncompressedKeyRoundTrip | frontend/packages/nextjs/utils/didUtils.ts:72-74 | For "0x04"+P the client stores P, and the server's normalisation restores "04"+P. |
| DidUtils.CompressedOddKeyLosesParity | frontend/packages/nextjs/utils/didUtils.ts:69-71 | For "0x03"+X the client stores X, and the server normalises it to "02"+X, which differs from the original. |
| DidUtils.ProofMessage | frontend/packages/nextjs/utils/didUtils.ts:97 | For a DID without line breaks, the proof text splits into the three lines "DID Proof", `DID: <did>` and `Timestamp: <ms>`. |
| DidUtils.GenerateDIDProof | frontend/packages/nextjs/utils/didUtils.ts:90-109 | The signature of the proof message under "0x"+key. A signing failure gives the generic proof error. |
| DidUtils.ChosenKey | frontend/packages/nextjs/utils/didUtils.ts:120-121 | The chosen private key is never empty. |
| DidUtils.CreateDIDInfo | frontend/packages/nextjs/utils/didUtils.ts:114-141 | Succeeds iff both public keys and the proof can be made, giving the exact record `<prefix>:<uuid>`. With the default prefix the DID passes the server's format check. A created record is valid iff its proof is non-empty. |
| DidUtils.DefaultPrefixDidIsValid | frontend/packages/nextjs/utils/didUtils.ts:117-128 | "did:hebeu:"+uuid satisfies `validateDIDFormat`. |
| DidUtils.ValidateDIDInfo | frontend/packages/nextjs/utils/didUtils.ts:276-285 | True iff none of the six fields is empty. A record that passes gives contract parameters with no empty field. |
| DidUtils.ServiceEndpoint | frontend/packages/nextjs/utils/didUtils.ts:224-227 | The base URL followed by the DID, which can be read back. |
| DidUtils.ServiceEndpointInjective | frontend/packages/nextjs/utils/didUtils.ts:224-227 | Different DIDs get different endpoints. |
| DidUtils.ConvertToContractParams | frontend/packages/nextjs/utils/didUtils.ts:232-248 | Version 1. `recoPublicKey` is the recovery key and the endpoint comes from the DID. did, mainPublicKey and didProof are copied. |
| DidUtils.GenerateLoginChallenge | frontend/packages/nextjs/utils/didUtils.ts:267-271 | Equals the server's challenge for the same DID, time and draw. A missing or zero timestamp uses the clock. |
| DidUtils.EntryKey | frontend/packages/nextjs/utils/didUtils.ts:148 | An entry key equals the list key iff the DID is "list". |
| DidUtils.GetDIDFromLocalStorage | frontend/packages/nextjs/utils/didUtils.ts:168-177 | The parsed entry when present and parseable, otherwise null. |
| DidUtils.ReadDidList | frontend/packages/nextjs/utils/didUtils.ts:182-190 | A missing or unparsable list reads as the empty list. A non-array value reads as "not a list". A non-empty list read is exactly what is stored. |
| DidUtils.GetDIDListFromLocalStorage | frontend/packages/nextjs/utils/didUtils.ts:182-190 | The same, on the store: a missing or unparsable list reads as empty, and a non-empty read is the stored list. |
| DidUtils.AfterSave | frontend/packages/nextjs/utils/didUtils.ts:146-157 | A save touches only the entry key and the list key. |
| DidUtils.SaveDIDToLocalStorage | frontend/packages/nextjs/utils/didUtils.ts:146-163 | Succeeds iff writes succeed and the list key reads as a list. The store becomes `AfterSave`, or stays as it was when writes fail. |
| DidUtils.SaveThenRead | frontend/packages/nextjs/utils/didUtils.ts:146-157 | After a successful save the entry holds the info and the list contains the DID. |
| DidUtils.SaveKeepsListDistinct | frontend/packages/nextjs/utils/didUtils.ts:151-156 | Saving keeps a duplicate-free list duplicate-free. |
| DidUtils.SaveIdempotent | frontend/packages/nextjs/utils/didUtils.ts:146-157 | Saving twice leaves the store as saving once. |
| DidUtils.ListNamedDidBreaksSave | frontend/packages/nextjs/utils/didUtils.ts:148-153 | A DID named "list" overwrites the list, and the save then fails. |
| DidUtils.AfterDelete | frontend/packages/nextjs/utils/didUtils.ts:195-203 | A delete touches only the entry key and the list key. |
| DidUtils.DeleteDIDFromLocalStorage | frontend/packages/nextjs/utils/didUtils.ts:195-210 | The entry is always removed. Otherwise the store becomes `AfterDelete`. It succeeds iff writes succeed and the list reads as a list. |
| DidUtils.DeleteRemovesEverywhere | frontend/packages/nextjs/utils/didUtils.ts:195-203 | Afterwards the entry is gone, the list no longer names the DID, and every other DID is kept. |
| DidUtils.DeleteUndoesSaveInList | frontend/packages/nextjs/utils/didUtils.ts:146-203 | Saving a new DID and then deleting it restores the list. |
| DidUtils.IsLocalStorageAvailable | frontend/packages/nextjs/utils/didUtils.ts:253-262 | True iff writes succeed. The probe key is removed again, and nothing else changes. |
| Seqs.RemoveWhereAppend | frontend/packages/nextjs/utils/didUtils.ts:202 | `filter` distributes over concatenation, so the surviving elements keep their order. |
| Seqs.FindWhere | frontend/packages/nextjs/hooks/scaffold-eth/useDID.ts:62 | `find` returns the first accepted element, or none iff no element is accepted. |
| UseDid.Without | frontend/packages/nextjs/hooks/scaffold-eth/useDID.ts:90 | No record has the DID. Every record with another DID is kept. |
| UseDid.Upsert | frontend/packages/nextjs/hooks/scaffold-eth/useDID.ts:70-71 | The saved record is last and is the only one with its DID. The records before it are the rest of the list, filtered. |
| UseDid.FindByDid | frontend/packages/nextjs/hooks/scaffold-eth/useDID.ts:61-63 | The first record with the DID, or none iff no record has it. |
| UseDid.FindAfterUpsert | frontend/packages/nextjs/hooks/scaffold-eth/useDID.ts:66-74 | After a save, looking up the DID gives the saved record. |
| UseDid.FindOtherUnaffected | frontend/packages/nextjs/hooks/scaffold-eth/useDID.ts:66-102 | Saving or deleting one DID does not change the lookup of another. |
| UseDid.FindSkipsRemoved | frontend/packages/nextjs/hooks/scaffold-eth/useDID.ts:86-93 | Removing one DID's records does not change the first match for another DID. |
| UseDid.DeleteAfterUpsert | frontend/packages/nextjs/hooks/scaffold-eth/useDID.ts:66-102 | Save then delete leaves the records of other DIDs as they were, in order. |
| UseDid.DidHook.constructor | frontend/packages/nextjs/hooks/scaffold-eth/useDID.ts:31-33 | Starts with an empty list, no current record, and loading. |
| UseDid.DidHook.GetDIDInfo | frontend/packages/nextjs/hooks/scaffold-eth/useDID.ts:61-63 | The first record in the list with the DID. None iff no record has it. |
| UseDid.DidHook.RefreshDIDList | frontend/packages/nextjs/hooks/scaffold-eth/useDID.ts:36-58 | The list becomes the stored records, or empty for missing or unparsable text. The current record is the match for a non-empty current DID, else none. Loading ends and storage is untouched. Without a window nothing changes. |
| UseDid.DidHook.SaveDIDInfo | frontend/packages/nextjs/hooks/scaffold-eth/useDID.ts:66-83 | The list becomes `Upsert` and storage mirrors it. The current record becomes the info iff it is the current DID's. Nothing changes without a window or when the write fails. |
| UseDid.DidHook.DeleteDIDInfo | frontend/packages/nextjs/hooks/scaffold-eth/useDID.ts:86-102 | The list becomes `Without` and storage mirrors it. The current record is cleared iff the current DID was deleted. Nothing changes without a window or when the write fails. |
| Middleware.AnyUnder | frontend/packages/nextjs/middleware.ts:28-30 | `some` is true iff some route equals the path or is a "/"-bounded prefix of it. |
| Middleware.IsPublicRoute | frontend/packages/nextjs/middleware.ts:28-30 | Public iff the path equals a public route or starts with one followed by "/". |
| Middleware.IsProtectedRoute | frontend/packages/nextjs/middleware.ts:38-40 | Protected iff the path starts with "/get-did-document", with no boundary required. |
| Middleware.Guard | frontend/packages/nextjs/middleware.ts:24-66 | Public paths pass with no header, and so do paths that are neither public nor protected. A protected path redirects, carrying the path, iff the token is missing or empty, the flag is not exactly "true", or the DID is missing or empty. Otherwise it passes with the three headers. |
| Middleware.SecondCharOfPublicRoute | frontend/packages/nextjs/middleware.ts:10-22 | No public route followed by "/" has 'g' as its second character. |
| Middleware.ProtectedPathIsNotPublic | frontend/packages/nextjs/middleware.ts:27-42 | Paths under the protected prefix are never public, so the cookie check is reached. |
| Middleware.LoggedOutDocumentRequestRedirects | frontend/packages/nextjs/middleware.ts:44-53 | Without a token, the document page redirects to login with itself as the target. |
| Middleware.PublicNeedsSegmentBoundary | frontend/packages/nextjs/middleware.ts:28-30 | "/loginx" is not public: the public check needs a segment boundary. |
| Networks.TableIsUnambiguous | backend/src/config/networks.js:6-75 | The nine rows have pairwise different keys and pairwise different chain IDs. |
| Networks.GetCurrentNetworkConfig | backend/src/config/networks.js:80-90 | Returns the row named by `BLOCKCHAIN_NETWORK`, whose default is "hardhat". An unknown name gives the hardhat row, chain 31337. |
| Networks.DefaultNetworkIsHardhat | backend/src/config/networks.js:81 | With the variable unset or empty, the chain is 31337 "Hardhat Local". |
| Networks.GetAllNetworks | backend/src/config/networks.js:95-97 | Exactly the nine keys, in table order. |
| Networks.GetNetworkByChainId | backend/src/config/networks.js:102-105 | The row with the chain ID, or none iff no row has it. |
| Networks.NameAndChainIdAgree | backend/src/config/networks.js:80-105 | A network selected by name is found again by its chain ID, with the same configuration. |

## Left out

- Logging (`console.*`) is dropped.
- `recoverPublicKeyFromSignature` of `cryptoService.js` is left out. Nothing on the login path calls it.
- Curve arithmetic, Keccak-256, EIP-191 message hashing and ECDSA recovery are not modelled; they are uninterpreted functions. So are HMAC-SHA256 and the JWT encoding. Expiry arithmetic therefore lives inside the abstract `JwtCodec`, and the sign/verify round trip is the stated assumption `HonoursOwnTokens`.
- Crypto.PublicKeyToAddress: the error is the key length, not the text of the re-thrown message. The only caller, `verifySignature`, swallows it.
- Auth.AuthService.VerifyDIDLogin: `jwt.sign` is total in the model. The source throws (and the route answers 401) when the library refuses the configured `JWT_EXPIRES_IN`.
- Auth.AuthService.RefreshToken: the same. A refused `JWT_EXPIRES_IN` makes `jwt.sign` throw, and POST /refresh answers 401.
- Auth.AuthService.GenerateJWT: what jsonwebtoken does with its own tokens is the stated assumption `HonoursOwnTokens`, not a model of the library. The expiry instant it adds is not tied to `JWT_EXPIRES_IN`.
- Auth.ExpirationSeconds: requires that the amount parses whenever the unit is h, d, m or s. The NaN result of a non-numeric amount is not modelled, and neither is floating-point rounding of large products.
- The service's challenge length is counted in UTF-16 code units. The route's is counted as validator.js `isLength` counts: one per character, with presentation selectors not counted. Other lengths are counted in characters. They differ from UTF-16 only for characters beyond U+FFFF, which no accepted DID or signature contains.
- AuthRoutes.LoginRoute: a body field the client omits is the empty string. Non-string JSON values (numbers, objects) in a body field are not modelled.
- The 500 branch of POST /challenge is left out: `generateChallenge` cannot throw for a string DID.
- Express wiring, helmet, CORS and rate limiting (`app.js`) are not part of this model. Neither is the proxy route file `routes/did.js`.
- The viem RPC client of `blockchain.js` is not modelled. Only its two reads are, as the abstract `Ledger`.
- `validateNetworkConnection` in `networks.js` is left out because it is network I/O.
- Networks.GetCurrentNetworkConfig: a name such as "constructor", inherited by every JavaScript object, would return a non-configuration value in the source. The model treats it as an unknown name.
- The viem chain object of a row is represented by the name of its viem export.
- React state updates are applied immediately. The model ignores batching, stale `useCallback` closures and the initial `useEffect` refresh. The current DID from `useAuth` is a parameter.
- JSON text in `localStorage` is modelled by the shape it parses to. Other JSON values under these keys are not modelled, except a DIDInfo object under the list key (the "list" collision).
- DidUtils.SaveDIDToLocalStorage: one flag says whether the store accepts writes, for all writes. A save whose entry write succeeds while the list write fails (quota exhausted in between) is not modelled. The same holds for DidUtils.DeleteDIDFromLocalStorage.
- The two `localStorage` users are given separate stores. The hook's key "didList" can never equal one of `didUtils`' keys, which all start with "did_".
- `generateUUID` gets one random nibble per template position. Positions other than x and y ignore theirs.
- DidUtils.GenerateLoginChallenge: negative timestamps are not modelled.
- The Next.js `matcher` configuration, which decides which requests reach the guard, is left out.
- The query-string form of the login URL is left out. The redirect carries the path.
- The React screens, the admin app, `AuthContext.tsx` and the deployment scripts are UI or tooling and are outside the login core.

## Where the code departs from what its design intends

The model follows the code in each case:

- `checkDIDExists` reports a failed registry read as "does not exist". A transport failure is then indistinguishable from an unregistered DID. `Oracle.CheckDIDExists` keeps the code's behaviour, and `getDIDPublicKey` does throw.
- Signatures are meant to carry an optional "0x". The service's check accepts an optional lower-case "0x". The `/login` route requires "0x" or "0X", and the service then refuses "0X" (`AuthRoutes.UpperCasePrefixPassesRouteFailsService`).
- The route sends the service's message. That includes the registry's own error text after a failed key fetch, and the library's "jwt not active" for a token used before its `nbf`.
- An address is meant to be hashed from the uncompressed point for every key form. For a 66-hex compressed key the code hashes only X (`Crypto.CompressedKeyHashesOnlyX`), so the result is not that key's Ethereum address.
- Replay of a challenge is not prevented. `LoginDecision` takes no clock, and no step of the login reads the challenge's timestamp.
