/** The foundation contract helpers: classifying what the network and the
    wallet return into result records, and the fixed transaction requests
    each helper asks the wallet to sign. The awaited network calls are
    inputs (their settled outcomes); the wallet's `signTransaction` is a
    function parameter, so the request handed to it is part of the model. */
module Foundation {
  import opened JsValues
  import opened WalletAdapter
  import LeoTypes

  const FoundationProgramId: string := "zklaim_foundation.aleo"
  /** 1.0.0, as the contract encodes it. */
  const ProtocolVersion: int := 10000

  const UnreachableNetworkMessage: string := "Cannot reach Aleo network"
  const NotDeployedMessage: string := "Contract not deployed to network yet"
  const NotFoundMessage: string := "Contract not found"

  datatype ProtocolStatus = ProtocolStatus(success: bool, version: int, error: Option<string>)

  datatype TxResult = TxResult(txId: string, success: bool, error: Option<string>)

  datatype VerifyResult = VerifyResult(isRegistered: bool, error: Option<string>)

  datatype EchoResult = EchoResult(result: Option<string>, success: bool, error: Option<string>)

  datatype AddResult = AddResult(result: Option<int>, success: bool, error: Option<string>)

  datatype ProtocolInfo = ProtocolInfo(deployed: bool, version: int, networkHeight: Option<int>, error: Option<string>)

  /** The wallet's `signTransaction`, as a function of the request. */
  type Signer = UnsignedTransaction -> Settled<SignedTransaction>

  /** `pingContract()`. `height` is how `getLatestHeight()` settled (null when
      the network is unreachable); `program` is how `getProgram` settled,
      reduced to the truthiness of the program it returned. */
  function PingContract(height: Settled<Option<int>>, program: Settled<bool>): (r: ProtocolStatus)
    ensures r.success <==> height.Fulfilled? && height.value.Some? && program == Fulfilled(true)
    ensures r.success ==> r.version == ProtocolVersion && r.error.None?
    ensures !r.success ==> r.version == 0 && r.error.Some?
  {
    match height
    case Rejected(message) => ProtocolStatus(false, 0, Some(ErrorText(message, "Unknown error")))
    case Fulfilled(None) => ProtocolStatus(false, 0, Some(UnreachableNetworkMessage))
    case Fulfilled(Some(_)) =>
      match program
      case Rejected(_) => ProtocolStatus(false, 0, Some(NotDeployedMessage))
      case Fulfilled(found) =>
        if found then ProtocolStatus(true, ProtocolVersion, None)
        else ProtocolStatus(false, 0, Some(NotFoundMessage))
  }

  /** Which message each failed ping carries. */
  lemma PingContractMessages(height: Settled<Option<int>>, program: Settled<bool>)
    ensures height == Fulfilled(None) ==>
            PingContract(height, program) == ProtocolStatus(false, 0, Some(UnreachableNetworkMessage))
    ensures height.Fulfilled? && height.value.Some? && program.Rejected? ==>
            PingContract(height, program).error == Some(NotDeployedMessage)
    ensures height.Fulfilled? && height.value.Some? && program == Fulfilled(false) ==>
            PingContract(height, program).error == Some(NotFoundMessage)
  {
  }

  /** The try/catch every signing helper wraps around `signTransaction`. */
  function SignedTxResult(outcome: Settled<SignedTransaction>, fallback: string): (r: TxResult)
    ensures r.success <==> outcome.Fulfilled?
    ensures r.success ==> r.txId == outcome.value.transaction && r.error.None?
    ensures !r.success ==> r.txId == "" && r.error.Some?
  {
    match outcome
    case Fulfilled(tx) => TxResult(tx.transaction, true, None)
    case Rejected(message) => TxResult("", false, Some(ErrorText(message, fallback)))
  }

  function RegisterUserRequest(): (r: UnsignedTransaction)
    ensures r.programId == FoundationProgramId && r.functionName == "register_user"
    ensures r.inputs == [] && r.fee == Some(100000)
  {
    UnsignedTransaction(FoundationProgramId, "register_user", [], Some(100000))
  }

  function VerifyRegistrationRequest(): (r: UnsignedTransaction)
    ensures r.programId == FoundationProgramId && r.functionName == "verify_registration"
    ensures r.inputs == [] && r.fee == Some(50000)
  {
    UnsignedTransaction(FoundationProgramId, "verify_registration", [], Some(50000))
  }

  function InitializeProtocolRequest(adminAddress: string): (r: UnsignedTransaction)
    ensures r.programId == FoundationProgramId && r.functionName == "initialize_protocol"
    ensures r.inputs == [adminAddress] && r.fee == Some(200000)
  {
    UnsignedTransaction(FoundationProgramId, "initialize_protocol", [adminAddress], Some(200000))
  }

  function StoreValueRequest(key: string, value: string): (r: UnsignedTransaction)
    ensures r.programId == FoundationProgramId && r.functionName == "store_value"
    ensures |r.inputs| == 2 && r.fee == Some(100000)
    ensures LeoTypes.ParseField(r.inputs[0]) == key && LeoTypes.ParseField(r.inputs[1]) == value
  {
    LeoTypes.FieldRoundTrip(key);
    LeoTypes.FieldRoundTrip(value);
    UnsignedTransaction(FoundationProgramId, "store_value", [LeoTypes.ToField(key), LeoTypes.ToField(value)], Some(100000))
  }

  /** `registerUser`: the signed transaction's id, or an empty id and an error. */
  function RegisterUser(sign: Signer): (r: TxResult)
    ensures r.success <==> sign(RegisterUserRequest()).Fulfilled?
    ensures r.success ==> r.txId == sign(RegisterUserRequest()).value.transaction && r.error.None?
    ensures !r.success ==> r.txId == "" && r.error == Some(ErrorText(sign(RegisterUserRequest()).message, "Failed to register"))
  {
    SignedTxResult(sign(RegisterUserRequest()), "Failed to register")
  }

  /** `verifyUserRegistration`: a successful signature counts as registered. */
  function VerifyUserRegistration(sign: Signer): (r: VerifyResult)
    ensures r.isRegistered <==> sign(VerifyRegistrationRequest()).Fulfilled?
    ensures r.error.Some? <==> !r.isRegistered
  {
    match sign(VerifyRegistrationRequest())
    case Fulfilled(_) => VerifyResult(true, None)
    case Rejected(message) => VerifyResult(false, Some(ErrorText(message, "Verification failed")))
  }

  /** `initializeProtocol`: classified like `registerUser`. */
  function InitializeProtocol(sign: Signer, adminAddress: string): (r: TxResult)
    ensures r.success <==> sign(InitializeProtocolRequest(adminAddress)).Fulfilled?
    ensures r.success ==> r.txId == sign(InitializeProtocolRequest(adminAddress)).value.transaction && r.error.None?
    ensures !r.success ==> r.txId == "" && r.error == Some(ErrorText(sign(InitializeProtocolRequest(adminAddress)).message, "Failed to initialize"))
  {
    SignedTxResult(sign(InitializeProtocolRequest(adminAddress)), "Failed to initialize")
  }

  /** `storeValue`: classified like `registerUser`. */
  function StoreValue(sign: Signer, key: string, value: string): (r: TxResult)
    ensures r.success <==> sign(StoreValueRequest(key, value)).Fulfilled?
    ensures r.success ==> r.txId == sign(StoreValueRequest(key, value)).value.transaction && r.error.None?
    ensures !r.success ==> r.txId == "" && r.error == Some(ErrorText(sign(StoreValueRequest(key, value)).message, "Failed to store value"))
  {
    SignedTxResult(sign(StoreValueRequest(key, value)), "Failed to store value")
  }

  /** `echoTest`: simulated, so it always succeeds with its input. */
  function EchoTest(value: string): (r: EchoResult)
    ensures r.success && r.result == Some(value) && r.error.None?
  {
    EchoResult(Some(value), true, None)
  }

  /** `addTest`: simulated, so it always succeeds with the sum. */
  function AddTest(a: int, b: int): (r: AddResult)
    ensures r.success && r.result == Some(a + b) && r.error.None?
  {
    AddResult(Some(a + b), true, None)
  }

  /** `getProtocolInfo()`: `pingContract()` and a second `getLatestHeight()`
      run together. `pingHeight` is the height the ping saw, `height` the one
      the second query settled with; `pingContract` itself never throws. */
  function GetProtocolInfo(pingHeight: Settled<Option<int>>, program: Settled<bool>, height: Settled<Option<int>>)
    : (r: ProtocolInfo)
    ensures height.Fulfilled? ==>
            var ping := PingContract(pingHeight, program);
            r == ProtocolInfo(ping.success, ping.version, height.value, ping.error)
    ensures height.Rejected? ==> !r.deployed && r.version == 0 && r.networkHeight.None? && r.error.Some?
  {
    match height
    case Rejected(message) => ProtocolInfo(false, 0, None, Some(ErrorText(message, "Unknown error")))
    case Fulfilled(h) =>
      var ping := PingContract(pingHeight, program);
      ProtocolInfo(ping.success, ping.version, h, ping.error)
  }

  /** `registerUser` asks for `register_user` on the foundation program with
      no inputs and a 100000 microcredit fee, and returns the signed
      transaction id, or an empty id and `success: false`. */
  lemma RegisterUserContract(sign: Signer)
    ensures RegisterUserRequest().programId == "zklaim_foundation.aleo"
    ensures RegisterUserRequest().functionName == "register_user"
    ensures RegisterUserRequest().inputs == [] && RegisterUserRequest().fee == Some(100000)
    ensures var r := RegisterUser(sign);
            && (r.success <==> sign(RegisterUserRequest()).Fulfilled?)
            && (r.success ==> r.txId == sign(RegisterUserRequest()).value.transaction && r.error.None?)
            && (!r.success ==> r.txId == "" && r.error.Some?)
  {
  }

  /** Registration is verified with a 50000 microcredit fee, and only a
      failed verification reports an error. */
  lemma VerifyRegistrationContract(sign: Signer)
    ensures VerifyRegistrationRequest().functionName == "verify_registration"
    ensures VerifyRegistrationRequest().fee == Some(50000) && VerifyRegistrationRequest().inputs == []
    ensures var r := VerifyUserRegistration(sign);
            (r.isRegistered ==> r.error.None?) && (!r.isRegistered ==> r.error.Some?)
  {
  }

  /** `initializeProtocol` passes the admin address as its one input with a
      200000 microcredit fee, and classifies the signing like `registerUser`. */
  lemma InitializeProtocolContract(sign: Signer, adminAddress: string)
    ensures InitializeProtocolRequest(adminAddress).inputs == [adminAddress]
    ensures InitializeProtocolRequest(adminAddress).fee == Some(200000)
    ensures InitializeProtocolRequest(adminAddress).functionName == "initialize_protocol"
    ensures InitializeProtocol(sign, adminAddress).success <==> sign(InitializeProtocolRequest(adminAddress)).Fulfilled?
  {
  }

  /** `storeValue` encodes key and value as Leo field literals, which read
      back as the key and the value, with a 100000 microcredit fee. */
  lemma StoreValueEncodesFields(sign: Signer, key: string, value: string)
    ensures var req := StoreValueRequest(key, value);
            && |req.inputs| == 2
            && LeoTypes.ParseField(req.inputs[0]) == key
            && LeoTypes.ParseField(req.inputs[1]) == value
            && req.fee == Some(100000) && req.functionName == "store_value"
    ensures StoreValue(sign, key, value).success <==> sign(StoreValueRequest(key, value)).Fulfilled?
  {
    LeoTypes.FieldRoundTrip(key);
    LeoTypes.FieldRoundTrip(value);
  }

  /** A deployed contract is reported only with the protocol version and no
      error; anything else reports version 0 and an error. */
  lemma ProtocolInfoConsistent(pingHeight: Settled<Option<int>>, program: Settled<bool>, height: Settled<Option<int>>)
    ensures var info := GetProtocolInfo(pingHeight, program, height);
            && (info.deployed ==> info.version == ProtocolVersion && info.error.None?)
            && (!info.deployed ==> info.version == 0 && info.error.Some?)
  {
  }
}
