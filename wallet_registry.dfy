/** The wallet registry: the constant list of adapters the front end offers,
    looked up by name and filtered by availability. */
module WalletRegistry {
  import opened JsValues
  import MockWalletAdapter

  /** What the registry and the wallet store know of an adapter. `id` stands
      for the adapter object's identity, which `===` compares; `available`
      is what its `isAvailable()` returns. */
  datatype WalletRef = WalletRef(id: nat, name: string, available: bool)

  /** The `mockWallet` singleton. */
  const MockWalletRef: WalletRef :=
    WalletRef(0, MockWalletAdapter.MockWalletName, MockWalletAdapter.MockWalletAvailable)

  /** `availableWallets` as shipped: the mock wallet alone. */
  const AvailableWallets: seq<WalletRef> := [MockWalletRef]

  /** `wallets.find((w) => w.name === name)`: the first wallet with that name. */
  function FindByName(wallets: seq<WalletRef>, name: string): (r: Option<WalletRef>)
    ensures r.None? <==> forall w :: w in wallets ==> w.name != name
    ensures r.Some? ==> exists i :: 0 <= i < |wallets| && wallets[i] == r.value && r.value.name == name
                                    && forall j :: 0 <= j < i ==> wallets[j].name != name
  {
    if wallets == [] then None
    else if wallets[0].name == name then
      Some(wallets[0])
    else
      var rest := FindByName(wallets[1..], name);
      assert rest.Some? ==> exists i :: 1 <= i < |wallets| && wallets[i] == rest.value && rest.value.name == name
                                        && forall j :: 0 <= j < i ==> wallets[j].name != name
      by {
        if rest.Some? {
          var k :| 0 <= k < |wallets[1..]| && wallets[1..][k] == rest.value && rest.value.name == name
                   && forall j :: 0 <= j < k ==> wallets[1..][j].name != name;
          assert wallets[k + 1] == rest.value;
          assert forall j :: 0 <= j < k + 1 ==> wallets[j].name != name by {
            forall j | 0 <= j < k + 1 ensures wallets[j].name != name {
              if j > 0 { assert wallets[j] == wallets[1..][j - 1]; }
            }
          }
        }
      }
      rest
  }

  /** `wallets` keeps the elements of `sub` in their order. */
  predicate IsSubsequence(sub: seq<WalletRef>, wallets: seq<WalletRef>) {
    if sub == [] then true
    else if wallets == [] then false
    else if sub[0] == wallets[0] then IsSubsequence(sub[1..], wallets[1..])
    else IsSubsequence(sub, wallets[1..])
  }

  /** `wallets.filter((w) => w.isAvailable())`. */
  function FilterAvailable(wallets: seq<WalletRef>): (r: seq<WalletRef>)
    ensures forall w :: w in r <==> w in wallets && w.available
    ensures IsSubsequence(r, wallets)
    ensures forall w :: multiset(r)[w] == if w.available then multiset(wallets)[w] else 0
  {
    if wallets == [] then []
    else
      assert wallets == [wallets[0]] + wallets[1..];
      if wallets[0].available then [wallets[0]] + FilterAvailable(wallets[1..])
      else FilterAvailable(wallets[1..])
  }

  /** Filtering works element by element: filtering a concatenation is
      concatenating the filtered parts, so every copy keeps its place. */
  lemma {:induction false} FilterAvailableConcat(a: seq<WalletRef>, b: seq<WalletRef>)
    ensures FilterAvailable(a + b) == FilterAvailable(a) + FilterAvailable(b)
  {
    if a != [] {
      assert (a + b)[0] == a[0];
      assert (a + b)[1..] == a[1..] + b;
      FilterAvailableConcat(a[1..], b);
    } else {
      assert a + b == b;
    }
  }

  /** `getWalletByName(name)` over the shipped registry. */
  function GetWalletByName(name: string): (r: Option<WalletRef>)
    ensures r.Some? ==> r.value in AvailableWallets && r.value.name == name
    ensures r.None? <==> forall w :: w in AvailableWallets ==> w.name != name
  {
    FindByName(AvailableWallets, name)
  }

  /** `getAvailableWallets()` over the shipped registry. */
  function GetAvailableWallets(): (r: seq<WalletRef>)
    ensures forall w :: w in r <==> w in AvailableWallets && w.available
    ensures |r| <= |AvailableWallets|
  {
    FilterAvailable(AvailableWallets)
  }

  /** With the shipped registry, the mock wallet is found by its name and is
      the only wallet offered. */
  lemma ShippedRegistry()
    ensures GetWalletByName("Mock Wallet") == Some(MockWalletRef)
    ensures GetAvailableWallets() == [MockWalletRef]
    ensures forall name :: name != "Mock Wallet" ==> GetWalletByName(name).None?
  {
  }
}
