/** The development mock wallet: a wallet adapter that is always available,
    invents an address and a view key when it connects, keeps a balance in
    microcredits and signs anything while connected. Random hex digits are
    inputs of the model (`Math.floor(Math.random() * 16)` for each one);
    the artificial delays are left out. */
module MockWalletAdapter {
  import opened JsValues
  import opened WalletAdapter

  const HexAlphabet: string := "0123456789abcdef"

  /** One random draw: an index into the hex alphabet. */
  type HexDraw = d: nat | d < 16

  predicate IsHex(s: string) {
    forall i :: 0 <= i < |s| ==> s[i] in HexAlphabet
  }

  const MockWalletName: string := "Mock Wallet"
  const MockWalletIcon: string := "/icons/mock-wallet.svg"
  /** `process.env.NODE_ENV === 'development' || true` holds in every environment. */
  const MockWalletAvailable: bool := true
  /** 1000 Aleo credits, in microcredits. */
  const InitialBalance: int := 1_000_000_000_000
  const NotConnectedMessage: string := "Wallet not connected"

  /** `s` is `prefix` followed by exactly `hexLength` hex digits. */
  predicate HasHexShape(s: string, prefix: string, hexLength: nat) {
    |s| == |prefix| + hexLength && s[..|prefix|] == prefix && IsHex(s[|prefix|..])
  }

  predicate IsMockAddress(s: string) { HasHexShape(s, "aleo1", 58) }
  predicate IsMockViewKey(s: string) { HasHexShape(s, "AViewKey1", 50) }
  predicate IsMockTransactionId(s: string) { HasHexShape(s, "at1", 62) }
  predicate IsMockSignature(s: string) { HasHexShape(s, "sign1", 64) }

  /** `generateRandomHex(length)`: one alphabet character per draw. */
  method GenerateRandomHex(length: nat, draws: seq<HexDraw>) returns (result: string)
    requires |draws| == length
    ensures |result| == length && IsHex(result)
    ensures forall i :: 0 <= i < length ==> result[i] == HexAlphabet[draws[i]]
  {
    result := "";
    for i := 0 to length
      invariant |result| == i
      invariant forall k :: 0 <= k < i ==> result[k] == HexAlphabet[draws[k]]
    {
      result := result + [HexAlphabet[draws[i]]];
    }
  }

  lemma PrefixedHex(prefix: string, hex: string)
    requires IsHex(hex)
    ensures HasHexShape(prefix + hex, prefix, |hex|)
  {
    assert (prefix + hex)[..|prefix|] == prefix;
    assert (prefix + hex)[|prefix|..] == hex;
  }

  /** What the listeners of one emitted event see of the wallet: the event
      and the connection flag, address and view key at the moment of the emit. */
  datatype Observed = Observed(event: WalletEvent, connected: bool, address: Option<string>, viewKey: Option<string>)

  class MockWallet {
    const name: string
    const icon: string
    /** The listener map this adapter inherits from `BaseWalletAdapter`. */
    const events: ListenerRegistry
    var address: Option<string>
    var viewKey: Option<string>
    var connected: bool
    var balance: int
    var txCounter: nat
    /** Every event emitted so far, with the state its listeners saw. */
    ghost var emitted: seq<Observed>

    /** Connected exactly when an address and a view key of the mock shapes
        are present. */
    ghost predicate Valid()
      reads this
    {
      && (connected ==> address.Some? && IsMockAddress(address.value) && viewKey.Some? && IsMockViewKey(viewKey.value))
      && (!connected ==> address.None? && viewKey.None?)
    }

    constructor ()
      ensures Valid() && name == MockWalletName && icon == MockWalletIcon
      ensures !connected && address.None? && viewKey.None?
      ensures balance == InitialBalance && txCounter == 0
      ensures fresh(events) && events.listeners == map[]
      ensures emitted == []
    {
      name := MockWalletName;
      icon := MockWalletIcon;
      events := new ListenerRegistry();
      address := None;
      viewKey := None;
      connected := false;
      balance := InitialBalance;
      txCounter := 0;
      emitted := [];
    }

    /** `isAvailable()`: true in every environment. */
    function IsAvailable(): (r: bool)
      ensures r
    {
      MockWalletAvailable
    }

    function IsConnected(): bool
      reads this
    {
      connected
    }

    /** `this.emit(event)`: calls the event's subscribers, which see the
        wallet's fields as they are now. */
    method Emit(event: WalletEvent) returns (notified: seq<Callback>)
      modifies this
      ensures emitted == old(emitted) + [Observed(event, connected, address, viewKey)]
      ensures connected == old(connected) && address == old(address) && viewKey == old(viewKey)
      ensures balance == old(balance) && txCounter == old(txCounter)
      ensures InvokesEachOnce(notified, Subscribers(events.listeners, event))
    {
      emitted := emitted + [Observed(event, connected, address, viewKey)];
      notified := events.Emit(event);
    }

    /** `connect()`: sets the new address, view key and flag, then emits
        `connect`, so every callback runs against the connected state. */
    method Connect(addressDraws: seq<HexDraw>, viewKeyDraws: seq<HexDraw>) returns (notified: seq<Callback>)
      requires Valid() && |addressDraws| == 58 && |viewKeyDraws| == 50
      modifies this
      ensures Valid() && connected
      ensures address.Some? && IsMockAddress(address.value)
      ensures forall i :: 0 <= i < 58 ==> address.value[5 + i] == HexAlphabet[addressDraws[i]]
      ensures viewKey.Some? && IsMockViewKey(viewKey.value)
      ensures forall i :: 0 <= i < 50 ==> viewKey.value[9 + i] == HexAlphabet[viewKeyDraws[i]]
      ensures balance == old(balance) && txCounter == old(txCounter)
      ensures InvokesEachOnce(notified, Subscribers(events.listeners, WalletEvent.Connect))
      ensures emitted == old(emitted) + [Observed(WalletEvent.Connect, true, address, viewKey)]
    {
      var addressHex := GenerateRandomHex(58, addressDraws);
      PrefixedHex("aleo1", addressHex);
      address := Some("aleo1" + addressHex);
      var viewKeyHex := GenerateRandomHex(50, viewKeyDraws);
      PrefixedHex("AViewKey1", viewKeyHex);
      viewKey := Some("AViewKey1" + viewKeyHex);
      connected := true;
      notified := Emit(WalletEvent.Connect);
    }

    /** `disconnect()`: clears the address, view key and flag, then emits
        `disconnect`, so every callback runs against the disconnected state. */
    method Disconnect() returns (notified: seq<Callback>)
      requires Valid()
      modifies this
      ensures Valid() && !connected && address.None? && viewKey.None?
      ensures balance == old(balance) && txCounter == old(txCounter)
      ensures InvokesEachOnce(notified, Subscribers(events.listeners, WalletEvent.Disconnect))
      ensures emitted == old(emitted) + [Observed(WalletEvent.Disconnect, false, None, None)]
    {
      address := None;
      viewKey := None;
      connected := false;
      notified := Emit(WalletEvent.Disconnect);
    }

    method GetAddress() returns (r: Settled<string>)
      requires Valid()
      ensures r.Fulfilled? <==> connected
      ensures connected ==> r.value == address.value && IsMockAddress(r.value)
      ensures !connected ==> r == Rejected(Some(NotConnectedMessage))
    {
      if !connected || !Truthy(address) {
        r := Rejected(Some(NotConnectedMessage));
      } else {
        r := Fulfilled(address.value);
      }
    }

    method GetViewKey() returns (r: Settled<string>)
      requires Valid()
      ensures r.Fulfilled? <==> connected
      ensures connected ==> r.value == viewKey.value && IsMockViewKey(r.value)
      ensures !connected ==> r == Rejected(Some(NotConnectedMessage))
    {
      if !connected || !Truthy(viewKey) {
        r := Rejected(Some(NotConnectedMessage));
      } else {
        r := Fulfilled(viewKey.value);
      }
    }

    method GetBalance() returns (r: Settled<int>)
      ensures connected ==> r == Fulfilled(balance)
      ensures !connected ==> r == Rejected(Some(NotConnectedMessage))
    {
      if !connected {
        r := Rejected(Some(NotConnectedMessage));
      } else {
        r := Fulfilled(balance);
      }
    }

    /** `signMessage`: a mock signature `sign1` + 64 hex digits, whatever the message. */
    method SignMessage(message: string, draws: seq<HexDraw>) returns (r: Settled<string>)
      requires |draws| == 64
      ensures r.Fulfilled? <==> connected
      ensures connected ==> IsMockSignature(r.value)
      ensures !connected ==> r == Rejected(Some(NotConnectedMessage))
    {
      if !connected {
        r := Rejected(Some(NotConnectedMessage));
        return;
      }
      var hash := GenerateRandomHex(64, draws);
      PrefixedHex("sign1", hash);
      r := Fulfilled("sign1" + hash);
    }

    /** `signTransaction`: while connected, counts the transaction and returns
        a mock id `at1` + 62 hex digits and signature `sign1` + 64 hex digits. */
    method SignTransaction(tx: UnsignedTransaction, txDraws: seq<HexDraw>, signatureDraws: seq<HexDraw>)
      returns (r: Settled<SignedTransaction>)
      requires |txDraws| == 62 && |signatureDraws| == 64
      modifies this
      ensures r.Fulfilled? <==> old(connected)
      ensures old(connected) ==> IsMockTransactionId(r.value.transaction) && IsMockSignature(r.value.signature)
      ensures !old(connected) ==> r == Rejected(Some(NotConnectedMessage))
      ensures txCounter == if old(connected) then old(txCounter) + 1 else old(txCounter)
      ensures connected == old(connected) && address == old(address) && viewKey == old(viewKey)
      ensures balance == old(balance)
    {
      if !connected {
        r := Rejected(Some(NotConnectedMessage));
        return;
      }
      txCounter := txCounter + 1;
      var txHex := GenerateRandomHex(62, txDraws);
      PrefixedHex("at1", txHex);
      var signatureHex := GenerateRandomHex(64, signatureDraws);
      PrefixedHex("sign1", signatureHex);
      r := Fulfilled(SignedTransaction("at1" + txHex, "sign1" + signatureHex));
    }

    /** `setBalance(b)`: overwrites the balance, with no clamping. */
    method SetBalance(newBalance: int)
      modifies this
      ensures balance == newBalance
      ensures connected == old(connected) && address == old(address) && viewKey == old(viewKey)
      ensures txCounter == old(txCounter)
    {
      balance := newBalance;
    }

    /** `adjustBalance(a)`: adds `a` and clamps the result at zero. */
    method AdjustBalance(amount: int)
      modifies this
      ensures balance == if old(balance) + amount < 0 then 0 else old(balance) + amount
      ensures balance >= 0
      ensures connected == old(connected) && address == old(address) && viewKey == old(viewKey)
      ensures txCounter == old(txCounter)
    {
      balance := balance + amount;
      if balance < 0 {
        balance := 0;
      }
    }
  }

  /** A client's view: once disconnected, every guarded accessor throws
      `Wallet not connected`. */
  method DisconnectThenAccessorsReject(wallet: MockWallet, draws: seq<HexDraw>)
    returns (address: Settled<string>, viewKey: Settled<string>, balance: Settled<int>, signature: Settled<string>)
    requires wallet.Valid() && |draws| == 64
    modifies wallet
    ensures !wallet.IsConnected()
    ensures address == viewKey == signature == Rejected(Some(NotConnectedMessage))
    ensures balance == Rejected(Some(NotConnectedMessage))
  {
    var _ := wallet.Disconnect();
    address := wallet.GetAddress();
    viewKey := wallet.GetViewKey();
    balance := wallet.GetBalance();
    signature := wallet.SignMessage("message", draws);
  }

  /** A client's view: once connected, the accessors return the new address
      and the unchanged balance. */
  method ConnectThenAccessorsSucceed(wallet: MockWallet, addressDraws: seq<HexDraw>, viewKeyDraws: seq<HexDraw>)
    returns (address: Settled<string>, balance: Settled<int>)
    requires wallet.Valid() && |addressDraws| == 58 && |viewKeyDraws| == 50
    modifies wallet
    ensures wallet.IsConnected()
    ensures address.Fulfilled? && IsMockAddress(address.value)
    ensures balance == Fulfilled(old(wallet.balance))
  {
    var _ := wallet.Connect(addressDraws, viewKeyDraws);
    address := wallet.GetAddress();
    balance := wallet.GetBalance();
  }
}
