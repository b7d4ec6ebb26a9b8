# ZKlaim front end: a verified model of its logic

ZKlaim's web front end talks to the `zklaim_foundation.aleo` program on
the Aleo network through a browser wallet. Most of the repository is
presentational React. This project models its deterministic core in Dafny:

- **Leo literal codec.** Values are formatted as Leo `field`, `u64`, `u32`,
  `u8` and boolean literals, and read back.
- **Wallet adapter event registry.** `on`, `off` and `emit` over a map from
  event to a set of callbacks.
- **Mock wallet.** The development wallet: connected/disconnected states,
  invented address and view key, balance, transaction counter, and guarded
  accessors that throw when disconnected.
- **Wallet registry and wallet store.** Which wallet `connect` picks,
  the connect/disconnect/refresh transitions, what is persisted, and
  `shortenAddress`.
- **App store.** Sidebar and mobile-menu flags, the theme, and the
  notification list.
- **Foundation contract helpers.** How network and wallet outcomes become
  result records, and the fixed transaction requests sent to the wallet.
- **Protocol status card.** The status mapping, the version text and the
  badge rules.
- **User registration card.** The six-valued registration status machine
  and the display rules derived from it.
- **Error boundary.** Its state transitions and the branch `render` takes.

## How the model is built

Each source file is one Dafny module.

- `js_values.dfy` (`JsValues`) holds the JavaScript vocabulary shared by the
  modules:
  - nullable values (`Option`);
  - the two ways an awaited call settles, `Fulfilled(value)` or
    `Rejected(message)` (`Settled`);
  - string truthiness;
  - `String.prototype.slice`.
- `decimal.dfy` (`Decimal`) is the decimal text of integers. It models what
  a template literal prints and what `BigInt`/`parseInt` read back.

Code that updates fields in place is a `class`:

- `BaseWalletAdapter`'s listener map;
- `MockWallet`;
- the two Zustand stores;
- the state of the three components.

The stores and the components have a function that returns a datatype
snapshot of their fields: `State()`, or `Snapshot()` in `ProtocolStatus`.
Their methods state the new snapshot in terms of the old one, and the lemmas
are stated about pure transition functions on those snapshots.
`ListenerRegistry` and `MockWallet` have no snapshot. Their methods state
each field they change and each field they keep.

Calls the core cannot see become inputs:

- the wallet adapter's `connect`/`getAddress`/`getBalance`, `getLatestHeight`
  and `getProgram` are settled outcomes;
- the wallet's `signTransaction` is a function parameter of the foundation
  helpers, so the request handed to it is part of the model;
- every `Math.random` hex digit is a draw below 16;
- notification ids and timestamps are parameters.

A React handler with an `await` is split at the await into two methods.
A third method runs both.

Integers are unbounded. JavaScript's `bigint` fields are unbounded too. The
`number` fields involved (versions, fees, u32/u8 values) stay far below
2^53.

## Model

| member | source | states |
|---|---|---|
| `Decimal.FromNat` | lib/aleo/types.ts:96-98 | the text printed for a natural number is a canonical digit string, starting with `0` only for zero |
| `Decimal.FromInt` | lib/aleo/types.ts:96-112 | the text printed for an integer is canonical: digits, a minus sign only for negatives, no leading zero |
| `Decimal.ParseInteger` | lib/aleo/types.ts:58-77 | a string is read as an integer exactly when it is an optional minus sign followed by one or more digits |
| `Decimal.ToNatFromNat` | lib/aleo/types.ts:58-98 | reading back the printed text of a natural number gives the number |
| `Decimal.FromNatToNat` | lib/aleo/types.ts:58-98 | printing the value of a canonical digit string gives the string back |
| `Decimal.FromNatInjective` | lib/aleo/types.ts:96-98 | two naturals with the same printed text are equal |
| `Decimal.ParseIntegerFromInt` | lib/aleo/types.ts:58-112 | `BigInt`/`parseInt` of the printed text of any integer gives the integer |
| `Decimal.FromIntParseInteger` | lib/aleo/types.ts:58-112 | every canonical integer text is the printed text of the integer it reads as |
| `LeoTypes.StripSuffix` | lib/aleo/types.ts:50-53 | the end-anchored replace removes exactly one trailing suffix when present, and otherwise returns the input unchanged |
| `LeoTypes.ParseField` | lib/aleo/types.ts:50-53 | `parseField` of a literal ending in `field` is the text that `toField` turns back into the literal; any other literal is returned unchanged |
| `LeoTypes.ParseU64` | lib/aleo/types.ts:58-61 | a canonical `u64` literal reads as the integer whose printed text precedes the suffix; text without the suffix is read whole |
| `LeoTypes.ParseU32` | lib/aleo/types.ts:66-69 | a canonical `u32` literal reads as the integer whose printed text precedes the suffix; text without the suffix is read whole |
| `LeoTypes.ParseU8` | lib/aleo/types.ts:74-77 | a canonical `u8` literal reads as the integer whose printed text precedes the suffix; text without the suffix is read whole |
| `LeoTypes.ParseBool` | lib/aleo/types.ts:82-84 | a literal reads as true only when it is the text `toBool(true)` writes |
| `LeoTypes.ToField` | lib/aleo/types.ts:89-91 | the literal is the string followed by `field`, five characters longer |
| `LeoTypes.ToFieldInt` | lib/aleo/types.ts:89-91 | a bigint's field literal is its canonical decimal text, which reads back as the bigint, followed by `field` |
| `LeoTypes.ToU64` | lib/aleo/types.ts:96-98 | the literal is canonical decimal text that reads back as the value, followed by `u64` |
| `LeoTypes.ToU32` | lib/aleo/types.ts:103-105 | the literal is canonical decimal text that reads back as the value, followed by `u32` |
| `LeoTypes.ToU8` | lib/aleo/types.ts:110-112 | the literal is canonical decimal text that reads back as the value, followed by `u8` |
| `LeoTypes.ToBool` | lib/aleo/types.ts:117-119 | the literal is `true` exactly for true, and `false` otherwise |
| `LeoTypes.StripAppendedSuffix` | lib/aleo/types.ts:50-61 | stripping a suffix just appended gives the original string |
| `LeoTypes.FieldRoundTrip` | lib/aleo/types.ts:50-91 | `parseField(toField(s)) == s` for every string |
| `LeoTypes.ParseFieldUnsuffixed` | lib/aleo/types.ts:50-53 | a literal not ending in `field` reads back unchanged |
| `LeoTypes.FieldRestored` | lib/aleo/types.ts:50-91 | `toField(parseField(s)) == s` holds exactly when `s` ends in `field` |
| `LeoTypes.FieldIntRoundTrip` | lib/aleo/types.ts:89-91 | a field formatted from a bigint reads back as the integer's decimal text, which parses back to the integer |
| `LeoTypes.U64RoundTrip` | lib/aleo/types.ts:58-98 | `parseU64(toU64(n)) == n` for every integer |
| `LeoTypes.U32RoundTrip` | lib/aleo/types.ts:66-105 | `parseU32(toU32(n)) == n` for every integer |
| `LeoTypes.U8RoundTrip` | lib/aleo/types.ts:74-112 | `parseU8(toU8(n)) == n` for every integer |
| `LeoTypes.IntegerLiteralShape` | lib/aleo/types.ts:96-112 | `toU64`/`toU32`/`toU8` print the canonical decimal text of the value followed by its suffix and nothing else |
| `LeoTypes.U64LiteralRestored` | lib/aleo/types.ts:58-98 | every canonical `u64` literal is reproduced by formatting what `parseU64` read, so the codec is a bijection |
| `LeoTypes.BoolRoundTrip` | lib/aleo/types.ts:82-119 | `parseBool(toBool(b)) == b` |
| `LeoTypes.ParseBoolExact` | lib/aleo/types.ts:82-84 | `parseBool(s)` holds exactly when `s` is `true`; `toBool(parseBool(s)) == s` exactly for `true` and `false`; `True` and `1` read as false |
| `WalletAdapter.WithListener` | lib/wallet/adapter.ts:102-107 | `on` adds the callback to the event's set, creating the set if needed, and leaves every other event's set unchanged |
| `WalletAdapter.WithoutListener` | lib/wallet/adapter.ts:109-111 | `off` removes the callback from the event's set, never creates a set, and leaves every other event's set unchanged |
| `WalletAdapter.ListenerRegistry.constructor` | lib/wallet/adapter.ts:90 | the listener map starts empty |
| `WalletAdapter.ListenerRegistry.On` | lib/wallet/adapter.ts:102-107 | the map after `on` is `WithListener` of the map before |
| `WalletAdapter.ListenerRegistry.Off` | lib/wallet/adapter.ts:109-111 | the map after `off` is `WithoutListener` of the map before |
| `WalletAdapter.ListenerRegistry.Emit` | lib/wallet/adapter.ts:113-115 | `emit` calls every subscriber of the event, nothing else, each exactly once |
| `WalletAdapter.OnThenEmitReaches` | lib/wallet/adapter.ts:102-115 | after `on(e, cb)`, `emit(e)` calls `cb` |
| `WalletAdapter.OnIdempotent` | lib/wallet/adapter.ts:102-107 | subscribing the same callback twice leaves the same map as subscribing once |
| `WalletAdapter.InvokedOncePerEmit` | lib/wallet/adapter.ts:113-115 | each subscriber appears exactly once among the calls of one emit, and the number of calls equals the number of subscribers |
| `WalletAdapter.OffThenEmitSkips` | lib/wallet/adapter.ts:109-115 | after `off(e, cb)`, `emit(e)` does not call `cb` |
| `WalletAdapter.OffUnknownEventIsNoop` | lib/wallet/adapter.ts:109-111 | `off` for an event without a set changes nothing |
| `WalletAdapter.EmitUnknownEventCallsNothing` | lib/wallet/adapter.ts:113-115 | `emit` for an event without a set calls nothing |
| `MockWalletAdapter.GenerateRandomHex` | lib/wallet/mock-wallet.ts:15-22 | the result has the requested length, is all hex digits, and its i-th character is the alphabet character the i-th draw picks |
| `MockWalletAdapter.PrefixedHex` | lib/wallet/mock-wallet.ts:56-57 | a prefix followed by hex digits has the mock shape of that prefix and length |
| `MockWalletAdapter.MockWallet.constructor` | lib/wallet/mock-wallet.ts:34-44 | a new mock wallet is named `Mock Wallet`, is disconnected with no address or view key, holds 1000000000000 microcredits and has counted no transaction |
| `MockWalletAdapter.MockWallet.IsAvailable` | lib/wallet/mock-wallet.ts:46-49 | the mock wallet reports itself available in every environment |
| `MockWalletAdapter.MockWallet.IsConnected` | lib/wallet/mock-wallet.ts:75-77 | the flag reads true after `connect` and false after `disconnect`, as ConnectThenAccessorsSucceed and DisconnectThenAccessorsReject state |
| `MockWalletAdapter.MockWallet.Emit` | lib/wallet/adapter.ts:113-115 | an emit calls each subscriber once, while the wallet's flag, address and view key are what they are at that moment, and changes none of them |
| `MockWalletAdapter.MockWallet.Connect` | lib/wallet/mock-wallet.ts:51-62 | after `connect` the wallet is connected, its address is `aleo1` + 58 hex digits and its view key `AViewKey1` + 50, balance and counter are unchanged, and the `connect` emit reaches each subscriber once after the flag, address and view key are set, so its listeners see the connected state |
| `MockWalletAdapter.MockWallet.Disconnect` | lib/wallet/mock-wallet.ts:64-73 | after `disconnect` the wallet is disconnected with no address or view key, and the `disconnect` emit reaches each subscriber once after they are cleared, so its listeners see the disconnected state |
| `MockWalletAdapter.MockWallet.GetAddress` | lib/wallet/mock-wallet.ts:79-84 | the address is returned exactly when connected; otherwise the call throws `Wallet not connected` |
| `MockWalletAdapter.MockWallet.GetViewKey` | lib/wallet/mock-wallet.ts:86-91 | the view key is returned exactly when connected; otherwise the call throws `Wallet not connected` |
| `MockWalletAdapter.MockWallet.GetBalance` | lib/wallet/mock-wallet.ts:93-98 | the balance is returned when connected; otherwise the call throws `Wallet not connected` |
| `MockWalletAdapter.MockWallet.SignMessage` | lib/wallet/mock-wallet.ts:100-110 | when connected the signature is `sign1` + 64 hex digits; otherwise the call throws `Wallet not connected` |
| `MockWalletAdapter.MockWallet.SignTransaction` | lib/wallet/mock-wallet.ts:112-128 | when connected the counter rises by exactly one and the result is `at1` + 62 hex digits signed `sign1` + 64; otherwise the call throws and nothing changes |
| `MockWalletAdapter.MockWallet.SetBalance` | lib/wallet/mock-wallet.ts:135-137 | the balance becomes the argument, without clamping, and nothing else changes |
| `MockWalletAdapter.MockWallet.AdjustBalance` | lib/wallet/mock-wallet.ts:142-147 | the balance becomes max(0, balance + amount), so it is never negative, and nothing else changes |
| `MockWalletAdapter.DisconnectThenAccessorsReject` | lib/wallet/mock-wallet.ts:64-110 | after `disconnect`, `getAddress`, `getViewKey`, `getBalance` and `signMessage` all throw `Wallet not connected` |
| `MockWalletAdapter.ConnectThenAccessorsSucceed` | lib/wallet/mock-wallet.ts:51-98 | after `connect`, `getAddress` returns a mock address and `getBalance` the unchanged balance |
| `WalletRegistry.FindByName` | lib/wallet/index.ts:25-27 | `find` returns the first wallet with the name, or none exactly when no wallet has it |
| `WalletRegistry.FilterAvailable` | lib/wallet/index.ts:32-34 | `filter` keeps exactly the available wallets, every copy of each, as an order-preserving subsequence |
| `WalletRegistry.FilterAvailableConcat` | lib/wallet/index.ts:32-34 | filtering a concatenation concatenates the filtered parts, so order and multiplicity are kept |
| `WalletRegistry.GetWalletByName` | lib/wallet/index.ts:25-27 | the wallet found is in the shipped list and has the name; none is found exactly when no shipped wallet has it |
| `WalletRegistry.GetAvailableWallets` | lib/wallet/index.ts:32-34 | the result holds exactly the available shipped wallets |
| `WalletRegistry.ShippedRegistry` | lib/wallet/index.ts:15-34 | with the shipped list, `Mock Wallet` finds the mock wallet singleton, no other name finds anything, and the mock wallet is the only available wallet |
| `WalletStore.SelectTarget` | stores/wallet-store.ts:59-80 | `connect` aims at the argument, else the wallet named by a truthy `lastWalletName`, else the first available wallet; there is no target exactly when all three fail |
| `WalletStore.ShortenAddress` | stores/wallet-store.ts:229-234 | a missing or empty address shortens to the empty string; otherwise to its first 8 characters, `...`, and its last 6 |
| `WalletStore.Partialize` | stores/wallet-store.ts:186-189 | persistence keeps `lastWalletName` and `autoConnect` as they are |
| `WalletStore.Rehydrate` | stores/wallet-store.ts:43-51 | a rehydrated store persists back to the same record and starts with no wallet, connection, error, address or balance |
| `WalletStore.AfterConnect` | stores/wallet-store.ts:56-125 | `connect` keeps `autoConnect`, changes the wallet only to the chosen target and connected, and changes `lastWalletName` only to the connected wallet's name; ConnectSuccess and ConnectFailure state each branch |
| `WalletStore.AfterDisconnect` | stores/wallet-store.ts:130-148 | `disconnect` clears the wallet, flag, address, balance and error, and keeps the persisted fields and `isConnecting` |
| `WalletStore.AfterRefreshBalance` | stores/wallet-store.ts:153-166 | only the balance can change, and only for a connected wallet whose `getBalance` resolved, to that value |
| `WalletStore.AfterAdapterDisconnected` | stores/wallet-store.ts:106-112 | the adapter's `disconnect` event clears the flag, address and balance and nothing else |
| `WalletStore.ShouldAutoConnect` | stores/wallet-store.ts:197-204 | the hook connects when auto-connect is on and the store is neither connected nor connecting, as AutoConnectRule states |
| `WalletStore.Store.constructor` | stores/wallet-store.ts:43-51 | the store starts with no wallet, not connected, no error, no account, no remembered wallet and auto-connect off |
| `WalletStore.Store.Connect` | stores/wallet-store.ts:56-125 | `connect` runs the target choice, the same-wallet guard and the success and failure updates step by step, and ends in `AfterConnect` of the old state |
| `WalletStore.Store.Disconnect` | stores/wallet-store.ts:130-148 | `disconnect` ends in `AfterDisconnect` of the old state, however the adapter's own disconnect settled |
| `WalletStore.Store.RefreshBalance` | stores/wallet-store.ts:153-166 | `refreshBalance` ends in `AfterRefreshBalance` of the old state |
| `WalletStore.Store.SetAutoConnect` | stores/wallet-store.ts:171-173 | only `autoConnect` changes, to the argument |
| `WalletStore.Store.ClearError` | stores/wallet-store.ts:178-180 | only `error` changes, to null |
| `WalletStore.Store.OnAdapterDisconnected` | stores/wallet-store.ts:106-112 | the `disconnect` listener clears the connection flag, address and balance, and nothing else |
| `WalletStore.ShippedTargetIsMockWallet` | stores/wallet-store.ts:60-75 | with the shipped registry and no argument, `connect` always aims at the mock wallet |
| `WalletStore.ConnectWithoutTarget` | stores/wallet-store.ts:77-80 | with no target, `connect` sets `No wallet available` and changes nothing else |
| `WalletStore.ConnectSameWalletIsNoop` | stores/wallet-store.ts:83-85 | `connect` to the wallet already connected changes nothing |
| `WalletStore.ConnectSuccess` | stores/wallet-store.ts:87-103 | a successful `connect` records the target, connected and not connecting, its address and balance, its name as `lastWalletName`, no error, and keeps `autoConnect` |
| `WalletStore.ConnectFailure` | stores/wallet-store.ts:119-124 | a failed `connect` ends not connecting with the thrown error's message as its error (`Failed to connect` for a non-Error throw) and keeps the wallet, flag, address, balance and preferences |
| `WalletStore.DisconnectClears` | stores/wallet-store.ts:130-148 | `disconnect` always ends with no wallet, not connected, no address, balance or error, keeps the persisted preferences, and is idempotent |
| `WalletStore.RefreshBalanceGuarded` | stores/wallet-store.ts:153-166 | without a connected wallet, or when `getBalance` throws, nothing changes; otherwise only the balance changes |
| `WalletStore.PersistsOnlyPreferences` | stores/wallet-store.ts:186-189 | two states persist alike exactly when `lastWalletName` and `autoConnect` agree, and persisting a rehydrated record gives it back |
| `WalletStore.AutoConnectRule` | stores/wallet-store.ts:197-204 | after a reload the store auto-connects exactly when the persisted preference is on, and never while connected or connecting |
| `WalletStore.ShortenMockAddress` | stores/wallet-store.ts:229-234 | a mock wallet address shortens to 17 characters that start with `aleo1` |
| `AppStore.AutoDismissDelay` | stores/app-store.ts:106-112 | a dismiss timer is scheduled only for a positive duration, which defaults to 5000 when omitted |
| `AppStore.RemoveById` | stores/app-store.ts:117-121 | the filtered list holds exactly the entries whose id differs, and is no longer than before |
| `AppStore.RemoveByIdConcat` | stores/app-store.ts:117-121 | removal distributes over concatenation, so the survivors keep their order |
| `AppStore.RemoveAbsentId` | stores/app-store.ts:117-121 | removing an id no entry carries leaves the list unchanged |
| `AppStore.RemoveByIdIdempotent` | stores/app-store.ts:117-121 | removing the same id twice is removing it once |
| `AppStore.AddThenRemove` | stores/app-store.ts:94-121 | appending an entry under a fresh id and removing that id gives the old list back |
| `AppStore.Store.constructor` | stores/app-store.ts:55-60 | the store starts with the sidebar open, the mobile menu closed, theme `system` and no notifications |
| `AppStore.Store.ToggleSidebar` | stores/app-store.ts:63-65 | only the sidebar flag changes, to its negation |
| `AppStore.Store.SetSidebarOpen` | stores/app-store.ts:67-69 | only the sidebar flag changes, to the argument |
| `AppStore.Store.ToggleMobileMenu` | stores/app-store.ts:72-74 | only the mobile-menu flag changes, to its negation |
| `AppStore.Store.SetMobileMenuOpen` | stores/app-store.ts:76-78 | only the mobile-menu flag changes, to the argument |
| `AppStore.Store.SetTheme` | stores/app-store.ts:81-83 | only `theme` changes, to the argument |
| `AppStore.Store.AddNotification` | stores/app-store.ts:94-115 | exactly one entry, carrying the draft's fields, the id and the timestamp, is appended after the unchanged earlier entries; the id and the dismiss delay are returned |
| `AppStore.Store.RemoveNotification` | stores/app-store.ts:117-121 | only the notification list changes, to `RemoveById` of the old list |
| `AppStore.Store.ClearNotifications` | stores/app-store.ts:123-125 | only the notification list changes, to empty |
| `AppStore.ToggleSidebarTwice` | stores/app-store.ts:63-65 | toggling the sidebar twice restores the whole store |
| `AppStore.ToggleMobileMenuTwice` | stores/app-store.ts:72-74 | toggling the mobile menu twice restores the whole store |
| `AppStore.AddThenDismiss` | stores/app-store.ts:94-121 | adding a notification under a fresh id and then removing that id, as its timer does when one is scheduled, restores the whole store |
| `Foundation.PingContract` | lib/aleo/foundation.ts:28-74 | the ping succeeds exactly when the height is known and the program fetch returns a truthy program; success carries version 10000 and no error, every failure version 0 and an error |
| `Foundation.PingContractMessages` | lib/aleo/foundation.ts:34-66 | a null height gives `Cannot reach Aleo network`, a throwing program fetch `Contract not deployed to network yet`, a falsy program `Contract not found` |
| `Foundation.SignedTxResult` | lib/aleo/foundation.ts:83-102 | a signed transaction gives its id with success and no error; a throw gives an empty id, no success and an error |
| `Foundation.RegisterUserRequest` | lib/aleo/foundation.ts:85-90 | the request is `register_user` on `zklaim_foundation.aleo` with no inputs and fee 100000 |
| `Foundation.VerifyRegistrationRequest` | lib/aleo/foundation.ts:113-118 | the request is `verify_registration` on `zklaim_foundation.aleo` with no inputs and fee 50000 |
| `Foundation.InitializeProtocolRequest` | lib/aleo/foundation.ts:142-147 | the request is `initialize_protocol` with the admin address as its one input and fee 200000 |
| `Foundation.StoreValueRequest` | lib/aleo/foundation.ts:171-176 | the request is `store_value` with two field literals that read back as the key and the value, and fee 100000 |
| `Foundation.RegisterUser` | lib/aleo/foundation.ts:80-103 | success exactly when signing succeeds, with the signed id; otherwise an empty id and the thrown message or `Failed to register` |
| `Foundation.InitializeProtocol` | lib/aleo/foundation.ts:137-160 | success exactly when signing succeeds, with the signed id; otherwise an empty id and the thrown message or `Failed to initialize` |
| `Foundation.StoreValue` | lib/aleo/foundation.ts:165-189 | success exactly when signing succeeds, with the signed id; otherwise an empty id and the thrown message or `Failed to store value` |
| `Foundation.VerifyUserRegistration` | lib/aleo/foundation.ts:108-132 | the user counts as registered exactly when signing succeeds, and an error is present exactly when not registered |
| `Foundation.EchoTest` | lib/aleo/foundation.ts:194-213 | the echo succeeds with its input and no error |
| `Foundation.AddTest` | lib/aleo/foundation.ts:218-240 | the add test succeeds with the sum and no error |
| `Foundation.GetProtocolInfo` | lib/aleo/foundation.ts:245-271 | the info copies `deployed`, `version` and `error` from the ping and the height from the second query; a throw gives not deployed, version 0, no height and an error |
| `Foundation.RegisterUserContract` | lib/aleo/foundation.ts:80-103 | `registerUser` requests `register_user` on `zklaim_foundation.aleo` with no inputs and fee 100000, and returns the signed id or an empty id without success |
| `Foundation.VerifyRegistrationContract` | lib/aleo/foundation.ts:108-132 | the verification request is `verify_registration` with no inputs and fee 50000; an error is present exactly when not registered |
| `Foundation.InitializeProtocolContract` | lib/aleo/foundation.ts:137-160 | `initializeProtocol` requests `initialize_protocol` with the admin address as its one input and fee 200000, and succeeds exactly when signing does |
| `Foundation.StoreValueEncodesFields` | lib/aleo/foundation.ts:165-189 | `storeValue` sends two field literals that `parseField` reads back as key and value, with fee 100000, and succeeds exactly when signing does |
| `Foundation.ProtocolInfoConsistent` | lib/aleo/foundation.ts:245-271 | deployed info always carries version 10000 and no error; any other info carries version 0 and an error |
| `ProtocolStatusComponent.CheckedStatus` | components/foundation/protocol-status.tsx:41-59 | a settled check sets contract-connected from `deployed`, network-connected exactly when a height is known, the latest block and the error; a throw sets everything off with `Unable to connect to network. Please try again.` |
| `ProtocolStatusComponent.ShowsSkeleton` | components/foundation/protocol-status.tsx:71-85 | the skeleton card shows exactly in the initial view: loading with no status yet |
| `ProtocolStatusComponent.NetworkBadge` | components/foundation/protocol-status.tsx:123 | the network badge is `default` exactly when the network is connected, else `destructive` |
| `ProtocolStatusComponent.ContractBadge` | components/foundation/protocol-status.tsx:141-148 | the contract badge is `default` when the contract is connected, else `secondary` when the network is, else `outline` |
| `ProtocolStatusComponent.ShowsError` | components/foundation/protocol-status.tsx:181 | the error box shows only for a status with a non-empty error whose contract badge is not `default` |
| `ProtocolStatusComponent.FormatVersion` | components/foundation/protocol-status.tsx:88-93 | the version text is `N/A` exactly for version 0, and starts with `v` otherwise |
| `ProtocolStatusComponent.VersionParts` | components/foundation/protocol-status.tsx:90-91 | major and minor are the two parts of the release number `version / 100` |
| `ProtocolStatusComponent.DotSplit` | components/foundation/protocol-status.tsx:92 | a `major.minor` text determines its two digit strings |
| `ProtocolStatusComponent.FormatProtocolVersion` | components/foundation/protocol-status.tsx:87-93 | the protocol version 10000 reads `v1.0` |
| `ProtocolStatusComponent.FormatVersionIgnoresPatch` | components/foundation/protocol-status.tsx:90-92 | two non-zero versions that differ only in the last two digits print alike |
| `ProtocolStatusComponent.FormatVersionShowsRelease` | components/foundation/protocol-status.tsx:88-93 | two non-zero versions that print alike have the same major and minor |
| `ProtocolStatusComponent.FormatVersionEquality` | components/foundation/protocol-status.tsx:88-93 | two versions print alike exactly when both are 0, or both are non-zero with equal `version / 100` |
| `ProtocolStatusComponent.CheckedStatusDisplay` | components/foundation/protocol-status.tsx:41-181 | after any check, a connected contract reads `v1.0`, has the `default` badge and never shows the error box; any other contract reads `N/A` |
| `ProtocolStatusComponent.ProtocolStatus.constructor` | components/foundation/protocol-status.tsx:32-33 | the card starts with no status and loading, so it shows the skeleton |
| `ProtocolStatusComponent.ProtocolStatus.BeginCheck` | components/foundation/protocol-status.tsx:39 | starting a check sets loading and keeps the previous status |
| `ProtocolStatusComponent.ProtocolStatus.CompleteCheck` | components/foundation/protocol-status.tsx:40-62 | a finished check stores the status `CheckedStatus` derives and clears loading, whatever the outcome |
| `ProtocolStatusComponent.ProtocolStatus.CheckStatus` | components/foundation/protocol-status.tsx:38-63 | a whole `checkStatus` run ends with the status `CheckedStatus` derives and loading off |
| `UserRegistrationComponent.BeginCheck` | components/foundation/user-registration.tsx:36-40 | without a wallet nothing changes; otherwise the status becomes `checking`, the error is cleared and the card is loading |
| `UserRegistrationComponent.FinishCheck` | components/foundation/user-registration.tsx:42-51 | a settled check ends `registered` or `not_registered` as verification reports, keeps a truthy error; a throw ends `error` with its message or `Failed to check registration` |
| `UserRegistrationComponent.BeginRegister` | components/foundation/user-registration.tsx:57-62 | without a wallet nothing changes; otherwise the status becomes `registering` with error and transaction id cleared |
| `UserRegistrationComponent.FinishRegister` | components/foundation/user-registration.tsx:64-77 | success sets the transaction id and `registered`; a failed result sets `error` with its message or `Registration failed`; a throw sets `error` too |
| `UserRegistrationComponent.IsLoading` | components/foundation/user-registration.tsx:134 | the card is loading exactly in the two in-flight statuses, `checking` and `registering` |
| `UserRegistrationComponent.ButtonsDisabled` | components/foundation/user-registration.tsx:167-183 | on the connected card both buttons are disabled exactly while loading, as LoadingDisablesButtons states; without a connection no button is rendered |
| `UserRegistrationComponent.RegisterButtonShown` | components/foundation/user-registration.tsx:180 | the Register button shows on the connected card unless registered, as RegisterOutcomeShown and CheckNeverShowsError state; never without a connection |
| `UserRegistrationComponent.TxIdShown` | components/foundation/user-registration.tsx:202 | the transaction box shows on the connected card for a non-empty id, as RegisterOutcomeShown states; never without a connection |
| `UserRegistrationComponent.ErrorShown` | components/foundation/user-registration.tsx:222 | the error box needs the connected card, a non-empty error and the `error` status, as CheckNeverShowsError states |
| `UserRegistrationComponent.Badge` | components/foundation/user-registration.tsx:95-132 | the badge spins exactly while loading, is `destructive` exactly for `error` and `default` exactly for `registered` |
| `UserRegistrationComponent.AddressLabel` | components/foundation/user-registration.tsx:152 | the address shows as its first 10 characters, `...` and its last 6, 19 characters in all for an address of at least 10, or `N/A` without one |
| `UserRegistrationComponent.MockAddressLabel` | components/foundation/user-registration.tsx:152 | a mock wallet address shows as 19 characters starting with `aleo1` |
| `UserRegistrationComponent.CheckNeverShowsError` | components/foundation/user-registration.tsx:43-47 | a check through `verifyUserRegistration` ends `registered` exactly when signing succeeds, else `not_registered`, and never shows the error box |
| `UserRegistrationComponent.RegisterOutcomeShown` | components/foundation/user-registration.tsx:64-73 | registering through `registerUser` shows the signed id and hides the Register button on success, and shows the helper's message on failure |
| `UserRegistrationComponent.LoadingDisablesButtons` | components/foundation/user-registration.tsx:134-183 | both buttons are disabled while a handler is in flight and enabled once it settles |
| `UserRegistrationComponent.DisconnectedShowsPlaceholder` | components/foundation/user-registration.tsx:80-92 | without a connection the card is the placeholder alone: no button, no transaction box and no error box, whatever the registration state |
| `UserRegistrationComponent.UserRegistration.constructor` | components/foundation/user-registration.tsx:29-31 | the card starts `unknown` with no transaction id and no error |
| `UserRegistrationComponent.UserRegistration.StartCheck` | components/foundation/user-registration.tsx:37-40 | the first half of `handleCheckRegistration` applies `BeginCheck` |
| `UserRegistrationComponent.UserRegistration.CompleteCheck` | components/foundation/user-registration.tsx:42-51 | the second half of `handleCheckRegistration` applies `FinishCheck` |
| `UserRegistrationComponent.UserRegistration.HandleCheckRegistration` | components/foundation/user-registration.tsx:36-52 | the whole `handleCheckRegistration` is a no-op without a wallet, else `FinishCheck` after `BeginCheck` |
| `UserRegistrationComponent.UserRegistration.StartRegister` | components/foundation/user-registration.tsx:58-62 | the first half of `handleRegister` applies `BeginRegister` |
| `UserRegistrationComponent.UserRegistration.CompleteRegister` | components/foundation/user-registration.tsx:64-77 | the second half of `handleRegister` applies `FinishRegister` |
| `UserRegistrationComponent.UserRegistration.HandleRegister` | components/foundation/user-registration.tsx:57-78 | the whole `handleRegister` is a no-op without a wallet, else `FinishRegister` after `BeginRegister` |
| `ErrorBoundaryComponent.DerivedFromError` | components/common/error-boundary.tsx:41-44 | `getDerivedStateFromError` sets `hasError` and the error, and leaves the info and the details flag |
| `ErrorBoundaryComponent.AfterCatch` | components/common/error-boundary.tsx:46-55 | `componentDidCatch` records the info and nothing else |
| `ErrorBoundaryComponent.Retry` | components/common/error-boundary.tsx:57-65 | `handleRetry` clears the error, the info and the details flag |
| `ErrorBoundaryComponent.ToggleDetails` | components/common/error-boundary.tsx:67-69 | `toggleErrorDetails` flips the details flag and nothing else |
| `ErrorBoundaryComponent.Details` | components/common/error-boundary.tsx:94-121 | the details section shows exactly when details are enabled and an error is recorded; it is expanded as the flag says, and then shows the message, and the stack exactly when a non-empty one was reported |
| `ErrorBoundaryComponent.Render` | components/common/error-boundary.tsx:71-140 | `render` gives the children exactly when nothing was caught, else the fallback exactly when one is given, else the default card with its details section |
| `ErrorBoundaryComponent.RetryRendersChildren` | components/common/error-boundary.tsx:57-65 | a retry restores the initial state from any state, and the boundary renders its children again |
| `ErrorBoundaryComponent.ToggleTwice` | components/common/error-boundary.tsx:67-69 | two toggles are the identity |
| `ErrorBoundaryComponent.CaughtErrorRendering` | components/common/error-boundary.tsx:41-79 | after a child throws, the fallback replaces the children if given; otherwise the default card shows collapsed details exactly when details are enabled |
| `ErrorBoundaryComponent.ExpandedDetailsShowError` | components/common/error-boundary.tsx:94-121 | expanding the details of a caught error shows its message, and the component stack when a non-empty one was reported |
| `ErrorBoundaryComponent.ErrorBoundary.constructor` | components/common/error-boundary.tsx:31-39 | the boundary starts with no error, no info and the details collapsed |
| `ErrorBoundaryComponent.ErrorBoundary.ApplyDerivedStateFromError` | components/common/error-boundary.tsx:41-44 | merging the derived state applies `DerivedFromError` |
| `ErrorBoundaryComponent.ErrorBoundary.ComponentDidCatch` | components/common/error-boundary.tsx:46-55 | the info is recorded, and `onError` is called with the error and the info exactly when it was passed |
| `ErrorBoundaryComponent.ErrorBoundary.HandleRetry` | components/common/error-boundary.tsx:57-65 | the state after a retry is `Retry` of the old state |
| `ErrorBoundaryComponent.ErrorBoundary.ToggleErrorDetails` | components/common/error-boundary.tsx:67-69 | the state after a toggle is `ToggleDetails` of the old state |
| `ErrorBoundaryComponent.ErrorBoundary.RenderNow` | components/common/error-boundary.tsx:71-141 | the component renders its children exactly when nothing was caught |

## Left out

- `LeoTypes.ParseU64`, `ParseU32`, `ParseU8` read only an optional minus sign followed by digits. For other text the model gives no value. JavaScript's `BigInt` throws on such text (and reads `""` as 0), and `parseInt` reads a digit prefix or gives `NaN`.
- `LeoTypes.U32RoundTrip` and `LeoTypes.U8RoundTrip` hold for every integer. `parseInt` returns a double, which is exact only up to 2^53. The model does not check that u32 and u8 values are in range, and neither does the source.
- `formatBalance` (stores/wallet-store.ts) divides a `Number` and formats with `toFixed`, which is floating point. It is not part of this model.
- `Foundation.AddTest` adds unbounded integers. JavaScript numbers are doubles, so large or fractional arguments round.
- `ProtocolStatusComponent.FormatVersion` takes a non-negative version. Dafny's `/` and `%` agree with `Math.floor` and JavaScript's `%` only there.
- The latest block is printed with `toLocaleString`, which depends on the locale. That text is not modelled. The status keeps the number.
- `Math.random` hex digits, notification ids and timestamps are inputs. The mock wallet's `delay` calls and the notification timer are left out. `AppStore.Store.AddNotification` returns the delay after which the caller removes the entry, instead of scheduling it.
- `setTheme` also edits the document's class list, which is not modelled. Browser storage is reduced to `Partialize`/`Rehydrate`.
- `WalletStore.Store.Connect`: the two listeners a successful `connect` subscribes on the adapter are not registered in the model. A fresh pair is added on every connect, and the source never removes them. The effect of the `disconnect` listener is modelled as `OnAdapterDisconnected`. The `accountChange` listener awaits two more adapter calls and is left out with the rest of the async interleaving.
- Each store action and component handler runs atomically, or in two halves split at its await. Concurrent `connect` calls and stale callbacks are not modelled.
- `WalletAdapter.ListenerRegistry.Emit` returns the callbacks it calls in the order it calls them. It does not run them. The order in which a JavaScript `Set` visits its callbacks is insertion order. The model promises only that each subscriber is called once.
- The wallet registry and the store know an adapter as a `WalletRef`: its identity, name and availability. The store's registry is a constructor parameter; the shipped build passes `AvailableWallets`. The adapter behind a reference is the mock wallet model, and the store receives the adapter's results as settled outcomes.
- `ErrorBoundaryComponent.Render` treats a falsy `fallback` (`null`, `""`, `0`, `false`) as absent. React nodes are opaque identities. The "Go Home" button's navigation and the `console.error` logging are left out.
- `UserRegistrationComponent.AddressLabel` states the exact length for every address, but the characters only for addresses of at least 10 (head and `...`) and at least 6 (tail). For shorter addresses the overlapping slices are not described further.
- The foundation helpers see `getLatestHeight` and `getProgram` as settled outcomes. `lib/aleo/client.ts`, which wraps the Aleo SDK, is not part of this model. `getProgram`'s result is reduced to its truthiness.
- `pingContract` never throws, since every await inside it is caught. `GetProtocolInfo` therefore takes the ping's inputs, and its catch branch covers only a throwing height query.
