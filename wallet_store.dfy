/** The wallet store: which wallet is connected, its address and balance,
    the last error, and the two persisted preferences. The adapter calls each
    action awaits are inputs (their settled outcomes); each action runs to
    completion before the next starts. */
module WalletStore {
  import opened JsValues
  import opened WalletRegistry

  /** What the three awaited adapter calls of a connection attempt
      (`connect`, `getAddress`, `getBalance`) yield when all resolve. */
  datatype Account = Account(address: string, balance: int)

  datatype WalletState = WalletState(
    wallet: Option<WalletRef>,
    isConnected: bool,
    isConnecting: bool,
    error: Option<string>,
    address: Option<string>,
    balance: Option<int>,
    lastWalletName: Option<string>,
    autoConnect: bool)

  const InitialState: WalletState :=
    WalletState(None, false, false, None, None, None, None, false)

  const NoWalletMessage: string := "No wallet available"
  const ConnectFailedMessage: string := "Failed to connect"

  /** The fields written to browser storage. */
  datatype PersistedWallet = PersistedWallet(lastWalletName: Option<string>, autoConnect: bool)

  /** `partialize`: what persistence keeps of a state. */
  function Partialize(s: WalletState): (r: PersistedWallet)
    ensures r.lastWalletName == s.lastWalletName && r.autoConnect == s.autoConnect
  {
    PersistedWallet(s.lastWalletName, s.autoConnect)
  }

  /** Rehydration: the initial state with the persisted fields merged in. */
  function Rehydrate(p: PersistedWallet): (r: WalletState)
    ensures Partialize(r) == p
    ensures r.wallet.None? && !r.isConnected && !r.isConnecting && r.error.None?
    ensures r.address.None? && r.balance.None?
  {
    InitialState.(lastWalletName := p.lastWalletName, autoConnect := p.autoConnect)
  }

  /** The wallet `connect` aims at: the argument; else the wallet named by a
      truthy `lastWalletName`; else the first available wallet; else none. */
  function SelectTarget(requested: Option<WalletRef>, lastWalletName: Option<string>, registry: seq<WalletRef>)
    : (r: Option<WalletRef>)
    ensures requested.Some? ==> r == requested
    ensures requested.None? && Truthy(lastWalletName) && FindByName(registry, lastWalletName.value).Some?
            ==> r == FindByName(registry, lastWalletName.value)
    ensures requested.None? && (!Truthy(lastWalletName) || FindByName(registry, lastWalletName.value).None?)
            ==> r == (if FilterAvailable(registry) == [] then None else Some(FilterAvailable(registry)[0]))
    ensures r.None? <==> requested.None? && FilterAvailable(registry) == []
                         && (!Truthy(lastWalletName) || FindByName(registry, lastWalletName.value).None?)
  {
    if requested.Some? then requested
    else
      var remembered := if Truthy(lastWalletName) then FindByName(registry, lastWalletName.value) else None;
      if remembered.Some? then remembered
      else
        var available := FilterAvailable(registry);
        if |available| > 0 then Some(available[0]) else None
  }

  /** The state after `connect(requested)` when the adapter calls settle with `outcome`. */
  function AfterConnect(s: WalletState, requested: Option<WalletRef>, outcome: Settled<Account>, registry: seq<WalletRef>)
    : (r: WalletState)
    ensures r.autoConnect == s.autoConnect
    ensures r.wallet != s.wallet ==> r.wallet == SelectTarget(requested, s.lastWalletName, registry) && r.isConnected
    ensures r.lastWalletName != s.lastWalletName ==> r.isConnected && r.wallet.Some? && r.lastWalletName == Some(r.wallet.value.name)
  {
    var target := SelectTarget(requested, s.lastWalletName, registry);
    if target.None? then s.(error := Some(NoWalletMessage))
    else if s.wallet == target && s.isConnected then s
    else match outcome
      case Fulfilled(account) =>
        s.(wallet := target, isConnected := true, isConnecting := false,
           address := Some(account.address), balance := Some(account.balance),
           lastWalletName := Some(target.value.name), error := None)
      case Rejected(message) =>
        s.(isConnecting := false, error := Some(ErrorText(message, ConnectFailedMessage)))
  }

  /** The state after `disconnect()`, whatever the adapter's own disconnect did. */
  function AfterDisconnect(s: WalletState): (r: WalletState)
    ensures r.wallet.None? && !r.isConnected && r.address.None? && r.balance.None? && r.error.None?
    ensures Partialize(r) == Partialize(s) && r.isConnecting == s.isConnecting
  {
    s.(wallet := None, isConnected := false, address := None, balance := None, error := None)
  }

  /** The state after `refreshBalance()` when `getBalance` settles with `outcome`. */
  function AfterRefreshBalance(s: WalletState, outcome: Settled<int>): (r: WalletState)
    ensures r == s.(balance := r.balance)
    ensures r.balance != s.balance ==> s.wallet.Some? && s.isConnected && outcome.Fulfilled? && r.balance == Some(outcome.value)
  {
    if s.wallet.None? || !s.isConnected then s
    else match outcome
      case Fulfilled(b) => s.(balance := Some(b))
      case Rejected(_) => s
  }

  /** The state after the `disconnect` listener that `connect` subscribes runs. */
  function AfterAdapterDisconnected(s: WalletState): (r: WalletState)
    ensures !r.isConnected && r.address.None? && r.balance.None?
    ensures r == s.(isConnected := false, address := None, balance := None)
  {
    s.(isConnected := false, address := None, balance := None)
  }

  /** `useAutoConnect`: connect on mount when enabled and idle. */
  predicate ShouldAutoConnect(s: WalletState) {
    s.autoConnect && !s.isConnected && !s.isConnecting
  }

  /** `shortenAddress`: the first 8 and last 6 characters around `...`, or
      the empty string for a missing or empty address. */
  function ShortenAddress(address: Option<string>): (r: string)
    ensures !Truthy(address) ==> r == ""
    ensures Truthy(address) ==>
      var a := address.value;
      var head := if |a| < 8 then |a| else 8;
      var tail := if |a| < 6 then |a| else 6;
      |r| == head + 3 + tail && r[..head] == a[..head] && r[head..head + 3] == "..."
      && r[head + 3..] == a[|a| - tail..]
  {
    if !Truthy(address) then ""
    else SliceHead(address.value, 8) + "..." + SliceTail(address.value, 6)
  }

  /** The store as a mutable object; `registry` is the adapter list the
      lookups search (`AvailableWallets` in the shipped build). */
  class Store {
    const registry: seq<WalletRef>
    var wallet: Option<WalletRef>
    var isConnected: bool
    var isConnecting: bool
    var error: Option<string>
    var address: Option<string>
    var balance: Option<int>
    var lastWalletName: Option<string>
    var autoConnect: bool

    function State(): WalletState
      reads this
    {
      WalletState(wallet, isConnected, isConnecting, error, address, balance, lastWalletName, autoConnect)
    }

    constructor (registry: seq<WalletRef>)
      ensures State() == InitialState && this.registry == registry
    {
      this.registry := registry;
      wallet, isConnected, isConnecting, error := None, false, false, None;
      address, balance, lastWalletName, autoConnect := None, None, None, false;
    }

    method Connect(requested: Option<WalletRef>, outcome: Settled<Account>)
      modifies this
      ensures State() == AfterConnect(old(State()), requested, outcome, registry)
    {
      var target := requested;
      if target.None? {
        if Truthy(lastWalletName) {
          target := FindByName(registry, lastWalletName.value);
        }
        if target.None? {
          var available := FilterAvailable(registry);
          if |available| > 0 {
            target := Some(available[0]);
          }
        }
      }
      if target.None? {
        error := Some(NoWalletMessage);
        return;
      }
      if wallet == target && isConnected {
        return;
      }
      isConnecting, error := true, None;
      match outcome {
        case Fulfilled(account) =>
          wallet, isConnected, isConnecting := target, true, false;
          address, balance := Some(account.address), Some(account.balance);
          lastWalletName, error := Some(target.value.name), None;
        case Rejected(message) =>
          isConnecting := false;
          error := Some(ErrorText(message, ConnectFailedMessage));
      }
    }

    /** `disconnect()`; `adapterOutcome` is how the adapter's own disconnect
        settled, which the store logs and otherwise ignores. */
    method Disconnect(adapterOutcome: Settled<()>)
      modifies this
      ensures State() == AfterDisconnect(old(State()))
    {
      wallet, isConnected, address, balance, error := None, false, None, None, None;
    }

    method RefreshBalance(outcome: Settled<int>)
      modifies this
      ensures State() == AfterRefreshBalance(old(State()), outcome)
    {
      if wallet.None? || !isConnected {
        return;
      }
      if outcome.Fulfilled? {
        balance := Some(outcome.value);
      }
    }

    method SetAutoConnect(enabled: bool)
      modifies this
      ensures State() == old(State()).(autoConnect := enabled)
    {
      autoConnect := enabled;
    }

    method ClearError()
      modifies this
      ensures State() == old(State()).(error := None)
    {
      error := None;
    }

    /** The `disconnect` event listener that a successful `connect` subscribes. */
    method OnAdapterDisconnected()
      modifies this
      ensures State() == AfterAdapterDisconnected(old(State()))
    {
      isConnected, address, balance := false, None, None;
    }
  }

  /** Without an argument and with no truthy `lastWalletName`, the shipped
      registry yields the mock wallet. */
  lemma ShippedTargetIsMockWallet(lastWalletName: Option<string>)
    ensures SelectTarget(None, lastWalletName, AvailableWallets) == Some(MockWalletRef)
  {
    ShippedRegistry();
  }

  /** With no wallet to aim at, `connect` records `No wallet available` and
      changes nothing else. */
  lemma ConnectWithoutTarget(s: WalletState, requested: Option<WalletRef>, outcome: Settled<Account>, registry: seq<WalletRef>)
    requires SelectTarget(requested, s.lastWalletName, registry).None?
    ensures AfterConnect(s, requested, outcome, registry) == s.(error := Some(NoWalletMessage))
  {
  }

  /** `connect` to the wallet already connected is a no-op, whatever the
      adapter would have done. */
  lemma ConnectSameWalletIsNoop(s: WalletState, requested: Option<WalletRef>, outcome: Settled<Account>, registry: seq<WalletRef>)
    requires s.isConnected && s.wallet.Some?
    requires SelectTarget(requested, s.lastWalletName, registry) == s.wallet
    ensures AfterConnect(s, requested, outcome, registry) == s
  {
  }

  /** A successful `connect` records the target wallet, its account, and its
      name as `lastWalletName`, and keeps `autoConnect`. */
  lemma ConnectSuccess(s: WalletState, requested: Option<WalletRef>, account: Account, registry: seq<WalletRef>)
    requires var t := SelectTarget(requested, s.lastWalletName, registry); t.Some? && !(s.wallet == t && s.isConnected)
    ensures var t := SelectTarget(requested, s.lastWalletName, registry);
            var s' := AfterConnect(s, requested, Fulfilled(account), registry);
            && s'.wallet == t && s'.isConnected && !s'.isConnecting
            && s'.address == Some(account.address) && s'.balance == Some(account.balance)
            && s'.lastWalletName == Some(t.value.name) && s'.error.None?
            && s'.autoConnect == s.autoConnect
  {
  }

  /** A failed `connect` ends not connecting, with the thrown message (or
      `Failed to connect` for a throw that is not an `Error`), and
      keeps the wallet, connection flag, address and balance it had. */
  lemma ConnectFailure(s: WalletState, requested: Option<WalletRef>, message: Option<string>, registry: seq<WalletRef>)
    requires var t := SelectTarget(requested, s.lastWalletName, registry); t.Some? && !(s.wallet == t && s.isConnected)
    ensures var s' := AfterConnect(s, requested, Rejected(message), registry);
            && !s'.isConnecting && s'.error.Some?
            && (message.None? ==> s'.error == Some(ConnectFailedMessage))
            && (message.Some? ==> s'.error == message)
            && s'.wallet == s.wallet && s'.isConnected == s.isConnected
            && s'.address == s.address && s'.balance == s.balance
            && Partialize(s') == Partialize(s)
  {
  }

  /** `disconnect` always ends disconnected with nothing recorded, and keeps
      the persisted preferences. */
  lemma DisconnectClears(s: WalletState)
    ensures var s' := AfterDisconnect(s);
            && s'.wallet.None? && !s'.isConnected && s'.address.None? && s'.balance.None? && s'.error.None?
            && Partialize(s') == Partialize(s)
    ensures AfterDisconnect(AfterDisconnect(s)) == AfterDisconnect(s)
  {
  }

  /** `refreshBalance` changes nothing unless connected, and a failing
      `getBalance` changes nothing either; otherwise only the balance moves. */
  lemma RefreshBalanceGuarded(s: WalletState, outcome: Settled<int>)
    ensures s.wallet.None? || !s.isConnected || outcome.Rejected? ==> AfterRefreshBalance(s, outcome) == s
    ensures s.wallet.Some? && s.isConnected && outcome.Fulfilled? ==>
            AfterRefreshBalance(s, outcome) == s.(balance := Some(outcome.value))
  {
  }

  /** Persistence keeps `lastWalletName` and `autoConnect` and nothing else:
      two states persist alike exactly when those two fields agree, and
      rehydrating then persisting again gives the same record. */
  lemma PersistsOnlyPreferences(s: WalletState, t: WalletState, p: PersistedWallet)
    ensures Partialize(s) == Partialize(t) <==> s.lastWalletName == t.lastWalletName && s.autoConnect == t.autoConnect
    ensures Partialize(Rehydrate(p)) == p
  {
  }

  /** After a reload the store auto-connects exactly when the persisted
      preference asks for it, and never while connected or connecting. */
  lemma AutoConnectRule(p: PersistedWallet, s: WalletState)
    ensures ShouldAutoConnect(Rehydrate(p)) <==> p.autoConnect
    ensures s.isConnected || s.isConnecting ==> !ShouldAutoConnect(s)
  {
  }

  /** A mock-wallet address shortens to 17 characters that still start with
      `aleo1`. */
  lemma ShortenMockAddress(a: string)
    requires |a| == 63 && a[..5] == "aleo1"
    ensures |ShortenAddress(Some(a))| == 17
    ensures ShortenAddress(Some(a))[..5] == "aleo1"
  {
    var r := ShortenAddress(Some(a));
    assert r[..8] == a[..8];
    assert r[..5] == r[..8][..5];
    assert a[..5] == a[..8][..5];
  }
}
