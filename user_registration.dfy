/** The user registration card: a six-valued registration status with a
    transaction id and an error message, driven by the "Check Status" and
    "Register" handlers, and the display rules derived from that state.
    Each handler is split at its await: the first half runs when the button
    is pressed, the second when the foundation helper settles. */
module UserRegistrationComponent {
  import opened JsValues
  import Foundation
  import MockWalletAdapter
  import ProtocolStatusComponent

  datatype RegistrationStatus = Unknown | Checking | Registered | NotRegistered | Registering | Error

  datatype RegistrationState = RegistrationState(
    status: RegistrationStatus,
    txId: Option<string>,
    error: Option<string>)

  const InitialState: RegistrationState := RegistrationState(Unknown, None, None)

  const CheckFailedMessage: string := "Failed to check registration"
  const RegistrationFailedMessage: string := "Registration failed"

  /** `isLoading`: a check or a registration is in flight. */
  predicate IsLoading(s: RegistrationState)
    ensures IsLoading(s) <==> s.status == Checking || s.status == Registering
  {
    s.status == Checking || s.status == Registering
  }

  /** Start of `handleCheckRegistration`: nothing without a wallet, else
      `checking` with the error cleared. */
  function BeginCheck(s: RegistrationState, hasWallet: bool): (r: RegistrationState)
    ensures !hasWallet ==> r == s
    ensures hasWallet ==> r.status == Checking && r.error.None? && r.txId == s.txId && IsLoading(r)
  {
    if !hasWallet then s else s.(status := Checking, error := None)
  }

  /** End of `handleCheckRegistration`, once `verifyUserRegistration` settles. */
  function FinishCheck(s: RegistrationState, outcome: Settled<Foundation.VerifyResult>): (r: RegistrationState)
    ensures r.txId == s.txId && !IsLoading(r)
    ensures outcome.Fulfilled? ==>
              && (r.status == Registered <==> outcome.value.isRegistered)
              && (r.status == NotRegistered <==> !outcome.value.isRegistered)
              && r.error == (if Truthy(outcome.value.error) then outcome.value.error else s.error)
    ensures outcome.Rejected? ==> r.status == Error && r.error == Some(ErrorText(outcome.message, CheckFailedMessage))
  {
    match outcome
    case Fulfilled(result) =>
      var next := s.(status := if result.isRegistered then Registered else NotRegistered);
      if Truthy(result.error) then next.(error := result.error) else next
    case Rejected(message) =>
      s.(status := Error, error := Some(ErrorText(message, CheckFailedMessage)))
  }

  /** Start of `handleRegister`: nothing without a wallet, else `registering`
      with the error and the transaction id cleared. */
  function BeginRegister(s: RegistrationState, hasWallet: bool): (r: RegistrationState)
    ensures !hasWallet ==> r == s
    ensures hasWallet ==> r == RegistrationState(Registering, None, None) && IsLoading(r)
  {
    if !hasWallet then s else RegistrationState(Registering, None, None)
  }

  /** End of `handleRegister`, once `registerUser` settles. */
  function FinishRegister(s: RegistrationState, outcome: Settled<Foundation.TxResult>): (r: RegistrationState)
    ensures !IsLoading(r)
    ensures r.status == Registered <==> outcome.Fulfilled? && outcome.value.success
    ensures r.status == Registered ==> r.txId == Some(outcome.value.txId) && r.error == s.error
    ensures r.status != Registered ==> r.status == Error && r.txId == s.txId && r.error.Some?
    ensures outcome.Fulfilled? && !outcome.value.success ==>
              r.error == Some(outcome.value.error.GetOr(RegistrationFailedMessage))
    ensures outcome.Rejected? ==> r.error == Some(ErrorText(outcome.message, RegistrationFailedMessage))
  {
    match outcome
    case Fulfilled(result) =>
      if result.success then s.(txId := Some(result.txId), status := Registered)
      else s.(status := Error, error := Some(result.error.GetOr(RegistrationFailedMessage)))
    case Rejected(message) =>
      s.(status := Error, error := Some(ErrorText(message, RegistrationFailedMessage)))
  }

  /* The display rules below take the wallet store's `isConnected`: without a
     connection the card is only the "Connect your wallet" placeholder, with
     no button, no transaction box and no error box, whatever the state. */

  /** The buttons are rendered, and both disabled, exactly while connected and loading. */
  predicate ButtonsDisabled(s: RegistrationState, isConnected: bool) {
    isConnected && IsLoading(s)
  }

  /** The Register button is rendered on the connected card unless the user is registered. */
  predicate RegisterButtonShown(s: RegistrationState, isConnected: bool) {
    isConnected && s.status != Registered
  }

  /** The error box needs the connected card, a non-empty error and the `error` status. */
  predicate ErrorShown(s: RegistrationState, isConnected: bool) {
    isConnected && Truthy(s.error) && s.status == Error
  }

  /** The transaction box needs the connected card and a non-empty transaction id. */
  predicate TxIdShown(s: RegistrationState, isConnected: bool) {
    isConnected && Truthy(s.txId)
  }

  datatype StatusBadge = StatusBadge(variant: ProtocolStatusComponent.BadgeVariant, caption: string, spinning: bool)

  /** `getStatusBadge()`. */
  function Badge(status: RegistrationStatus): (r: StatusBadge)
    ensures r.spinning <==> IsLoading(RegistrationState(status, None, None))
    ensures r.variant == ProtocolStatusComponent.Destructive <==> status == Error
    ensures r.variant == ProtocolStatusComponent.Default <==> status == Registered
  {
    match status
    case Unknown => StatusBadge(ProtocolStatusComponent.Secondary, "Unknown", false)
    case Checking => StatusBadge(ProtocolStatusComponent.Secondary, "Checking...", true)
    case Registered => StatusBadge(ProtocolStatusComponent.Default, "Registered", false)
    case NotRegistered => StatusBadge(ProtocolStatusComponent.Outline, "Not Registered", false)
    case Registering => StatusBadge(ProtocolStatusComponent.Secondary, "Registering...", true)
    case Error => StatusBadge(ProtocolStatusComponent.Destructive, "Error", false)
  }

  /** The address line: the first 10 characters, `...`, the last 6; `N/A`
      without an address. */
  function AddressLabel(address: Option<string>): (r: string)
    ensures !Truthy(address) ==> r == "N/A"
    ensures Truthy(address) ==>
              var n := |address.value|;
              |r| == (if n < 10 then n else 10) + 3 + (if n < 6 then n else 6)
    ensures Truthy(address) && |address.value| >= 10 ==> |r| == 19
    ensures Truthy(address) && |address.value| >= 10 ==>
              && |r| >= 13 && r[..10] == address.value[..10]
              && r[10..13] == "..."
    ensures Truthy(address) && |address.value| >= 6 ==>
              && |r| >= 6
              && r[|r| - 6..] == address.value[|address.value| - 6..]
  {
    if Truthy(address) then
      SliceHead(address.value, 10) + "..." + SliceTail(address.value, 6)
    else "N/A"
  }

  /** A mock wallet address (63 characters) shows as 19 characters: its
      `aleo1` prefix and 5 more characters, `...`, and its last 6. */
  lemma MockAddressLabel(address: string)
    requires MockWalletAdapter.IsMockAddress(address)
    ensures var shown := AddressLabel(Some(address));
            && |shown| == 19
            && shown == address[..10] + "..." + address[57..]
            && shown[..5] == "aleo1"
  {
    assert address[..10][..5] == address[..5];
  }

  /** Checking with a wallet ends in `registered` or `not_registered`,
      never in `error`, because `verifyUserRegistration` catches every
      failure itself: an unregistered user's error message is kept but
      never shown, and only a signed verification counts as registered. */
  lemma CheckNeverShowsError(s: RegistrationState, sign: Foundation.Signer)
    ensures var r := FinishCheck(BeginCheck(s, true), Fulfilled(Foundation.VerifyUserRegistration(sign)));
            && (forall isConnected :: !ErrorShown(r, isConnected))
            && (r.status == Registered <==> sign(Foundation.VerifyRegistrationRequest()).Fulfilled?)
            && (r.status == NotRegistered <==> sign(Foundation.VerifyRegistrationRequest()).Rejected?)
            && RegisterButtonShown(r, true) == (r.status == NotRegistered)
  {
  }

  /** Registering with a wallet whose signing succeeds shows the signed
      transaction id and hides the Register button; a failed signing shows
      the helper's message in the error box. */
  lemma RegisterOutcomeShown(s: RegistrationState, sign: Foundation.Signer)
    ensures var r := FinishRegister(BeginRegister(s, true), Fulfilled(Foundation.RegisterUser(sign)));
            var signed := sign(Foundation.RegisterUserRequest());
            && (signed.Fulfilled? ==> r.status == Registered && r.txId == Some(signed.value.transaction)
                                      && r.error.None? && !RegisterButtonShown(r, true)
                                      && (TxIdShown(r, true) <==> signed.value.transaction != ""))
            && (signed.Rejected? ==> r.status == Error && r.txId.None?
                                     && r.error == Some(ErrorText(signed.message, "Failed to register"))
                                     && RegisterButtonShown(r, true)
                                     && (ErrorShown(r, true) <==> ErrorText(signed.message, "Failed to register") != ""))
  {
    Foundation.RegisterUserContract(sign);
  }

  /** While a handler is in flight the buttons are disabled, so a second
      handler cannot start from a loading state through the UI; once it
      settles they are enabled again. */
  lemma LoadingDisablesButtons(s: RegistrationState, verify: Settled<Foundation.VerifyResult>, register: Settled<Foundation.TxResult>)
    ensures ButtonsDisabled(BeginCheck(s, true), true) && ButtonsDisabled(BeginRegister(s, true), true)
    ensures !ButtonsDisabled(FinishCheck(BeginCheck(s, true), verify), true)
    ensures !ButtonsDisabled(FinishRegister(BeginRegister(s, true), register), true)
  {
  }

  /** Without a connection the card shows only its placeholder: no button,
      no transaction box and no error box, whatever the registration state. */
  lemma DisconnectedShowsPlaceholder(s: RegistrationState)
    ensures !ButtonsDisabled(s, false) && !RegisterButtonShown(s, false)
    ensures !TxIdShown(s, false) && !ErrorShown(s, false)
  {
  }

  class UserRegistration {
    var status: RegistrationStatus
    var txId: Option<string>
    var error: Option<string>

    function State(): RegistrationState
      reads this
    {
      RegistrationState(status, txId, error)
    }

    constructor ()
      ensures State() == InitialState
    {
      status, txId, error := Unknown, None, None;
    }

    method StartCheck(hasWallet: bool)
      modifies this
      ensures State() == BeginCheck(old(State()), hasWallet)
    {
      if !hasWallet {
        return;
      }
      status := Checking;
      error := None;
    }

    method CompleteCheck(outcome: Settled<Foundation.VerifyResult>)
      modifies this
      ensures State() == FinishCheck(old(State()), outcome)
    {
      match outcome {
        case Fulfilled(result) =>
          status := if result.isRegistered then Registered else NotRegistered;
          if Truthy(result.error) {
            error := result.error;
          }
        case Rejected(message) =>
          status := Error;
          error := Some(ErrorText(message, CheckFailedMessage));
      }
    }

    /** `handleCheckRegistration` run to completion. */
    method HandleCheckRegistration(hasWallet: bool, outcome: Settled<Foundation.VerifyResult>)
      modifies this
      ensures State() == if hasWallet then FinishCheck(BeginCheck(old(State()), true), outcome) else old(State())
    {
      if !hasWallet {
        return;
      }
      StartCheck(true);
      CompleteCheck(outcome);
    }

    method StartRegister(hasWallet: bool)
      modifies this
      ensures State() == BeginRegister(old(State()), hasWallet)
    {
      if !hasWallet {
        return;
      }
      status := Registering;
      error := None;
      txId := None;
    }

    method CompleteRegister(outcome: Settled<Foundation.TxResult>)
      modifies this
      ensures State() == FinishRegister(old(State()), outcome)
    {
      match outcome {
        case Fulfilled(result) =>
          if result.success {
            txId := Some(result.txId);
            status := Registered;
          } else {
            status := Error;
            error := Some(result.error.GetOr(RegistrationFailedMessage));
          }
        case Rejected(message) =>
          status := Error;
          error := Some(ErrorText(message, RegistrationFailedMessage));
      }
    }

    /** `handleRegister` run to completion. */
    method HandleRegister(hasWallet: bool, outcome: Settled<Foundation.TxResult>)
      modifies this
      ensures State() == if hasWallet then FinishRegister(BeginRegister(old(State()), true), outcome) else old(State())
    {
      if !hasWallet {
        return;
      }
      StartRegister(true);
      CompleteRegister(outcome);
    }
  }
}
