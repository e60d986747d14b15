/**
 * The identity oracle: the two reads of the DID manager contract that the login
 * pipeline makes, and the client wrappers around them, which treat a failed read
 * differently.
 */
module Oracle {
  import opened Wrappers

  /**
   * The contract as seen through the RPC client: `getDidStatus` and
   * `getMainPubKeyHex` for a DID, or the message of the transport or contract error.
   */
  datatype Ledger = Ledger(
    getDidStatus: string -> Result<bool, string>,
    getMainPubKeyHex: string -> Result<string, string>)

  /** `checkDIDExists`: a failed read is reported as "does not exist", never thrown. */
  function CheckDIDExists(ledger: Ledger, did: string): (found: bool)
    ensures found <==> ledger.getDidStatus(did) == Success(true)
    ensures ledger.getDidStatus(did).Failure? ==> !found
  {
    match ledger.getDidStatus(did)
    case Success(status) => status
    case Failure(_) => false
  }

  /** `getDIDPublicKey`: a failed read is thrown, its message prefixed with the key-fetch failure text. */
  function GetDIDPublicKey(ledger: Ledger, did: string): (r: Result<string, string>)
    ensures r.Success? <==> ledger.getMainPubKeyHex(did).Success?
    ensures r.Success? ==> r.value == ledger.getMainPubKeyHex(did).value
    ensures r.Failure? ==> r.error == "无法获取DID主公钥: " + ledger.getMainPubKeyHex(did).error
  {
    match ledger.getMainPubKeyHex(did)
    case Success(key) => Success(key)
    case Failure(message) => Failure("无法获取DID主公钥: " + message)
  }
}
