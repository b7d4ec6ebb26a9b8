/** The protocol status card: the state it keeps (the last status and a
    loading flag), how a finished check becomes a status, and the pure
    display rules (version text, badge variants, when the error shows). */
module ProtocolStatusComponent {
  import opened JsValues
  import Decimal
  import Foundation

  /** What the card shows about the protocol and the network. */
  datatype StatusData = StatusData(
    contractConnected: bool,
    contractVersion: int,
    networkConnected: bool,
    latestBlock: Option<int>,
    error: Option<string>)

  datatype View = View(status: Option<StatusData>, loading: bool)

  /** Nothing known yet, and the first check about to run. */
  const InitialView: View := View(None, true)

  const CheckFailedMessage: string := "Unable to connect to network. Please try again."

  /** The status after `getProtocolInfo()` settles: copied from the info it
      returns, or a disconnected status with a fixed message when it throws. */
  function CheckedStatus(outcome: Settled<Foundation.ProtocolInfo>): (r: StatusData)
    ensures outcome.Fulfilled? ==>
              && r.contractConnected == outcome.value.deployed
              && r.contractVersion == outcome.value.version
              && (r.networkConnected <==> outcome.value.networkHeight.Some?)
              && r.latestBlock == outcome.value.networkHeight
              && r.error == outcome.value.error
    ensures outcome.Rejected? ==>
              r == StatusData(false, 0, false, None, Some(CheckFailedMessage))
  {
    match outcome
    case Fulfilled(info) =>
      StatusData(info.deployed, info.version, info.networkHeight.Some?, info.networkHeight, info.error)
    case Rejected(_) =>
      StatusData(false, 0, false, None, Some(CheckFailedMessage))
  }

  /** The loading card with a skeleton shows only before the first status arrives. */
  predicate ShowsSkeleton(v: View)
    ensures ShowsSkeleton(v) <==> v == InitialView
  {
    v.loading && v.status.None?
  }

  datatype BadgeVariant = Default | Secondary | Outline | Destructive

  /** The network badge: `default` when connected, else `destructive`. */
  function NetworkBadge(status: Option<StatusData>): (r: BadgeVariant)
    ensures r == Default <==> status.Some? && status.value.networkConnected
    ensures r != Default ==> r == Destructive
  {
    if status.Some? && status.value.networkConnected then Default else Destructive
  }

  /** The contract badge: `default` when the contract is connected, else
      `secondary` when at least the network is, else `outline`. */
  function ContractBadge(status: Option<StatusData>): (r: BadgeVariant)
    ensures r == Default <==> status.Some? && status.value.contractConnected
    ensures r == Secondary <==> status.Some? && !status.value.contractConnected && status.value.networkConnected
    ensures r == Outline <==> status.None? || (!status.value.contractConnected && !status.value.networkConnected)
  {
    if status.Some? && status.value.contractConnected then Default
    else if status.Some? && status.value.networkConnected then Secondary
    else Outline
  }

  /** The error box shows when the status carries a non-empty error and the
      contract is not connected. */
  predicate ShowsError(status: Option<StatusData>)
    ensures ShowsError(status) ==> status.Some? && ContractBadge(status) != Default && Truthy(status.value.error)
  {
    status.Some? && Truthy(status.value.error) && !status.value.contractConnected
  }

  /** `formatVersion`: `N/A` for 0, else `v<major>.<minor>` where the
      version packs major, minor and patch as `major * 10000 + minor * 100 + patch`. */
  function FormatVersion(version: nat): (r: string)
    ensures version == 0 <==> r == "N/A"
    ensures version != 0 ==> |r| > 0 && r[0] == 'v'
  {
    if version == 0 then "N/A"
    else "v" + Decimal.FromNat(version / 10000) + "." + Decimal.FromNat((version % 10000) / 100)
  }

  /** Major and minor read off the release number `version / 100`. */
  lemma VersionParts(version: nat)
    ensures version / 10000 == (version / 100) / 100
    ensures (version % 10000) / 100 == (version / 100) % 100
  {
    var q := version / 100;
    var a, b, p := q / 100, q % 100, version % 100;
    assert q == 100 * a + b && version == 100 * q + p;
    assert version == 10000 * a + (100 * b + p);
  }

  /** Two texts `a.b` and `c.d` with digit-only `a` and `c` split at the
      same dot. */
  lemma DotSplit(a: string, b: string, c: string, d: string)
    requires Decimal.AllDigits(a) && Decimal.AllDigits(c)
    requires a + "." + b == c + "." + d
    ensures a == c && b == d
  {
    var s := a + "." + b;
    assert s[|a|] == '.';
    assert s[|c|] == '.';
    assert forall i :: 0 <= i < |a| ==> s[i] == a[i] && s[i] != '.';
    assert forall i :: 0 <= i < |c| ==> s[i] == c[i] && s[i] != '.';
    assert |a| == |c|;
    assert a == s[..|a|];
    assert c == s[..|c|];
    assert b == s[|a| + 1..];
    assert d == (c + "." + d)[|c| + 1..];
  }

  /** The shipped protocol version 10000 reads `v1.0`. */
  lemma FormatProtocolVersion()
    ensures FormatVersion(Foundation.ProtocolVersion) == "v1.0"
  {
    assert Decimal.FromNat(1) == "1";
    assert Decimal.FromNat(0) == "0";
  }

  /** The patch (the last two digits) never shows. */
  lemma FormatVersionIgnoresPatch(v: nat, w: nat)
    requires v != 0 && w != 0 && v / 100 == w / 100
    ensures FormatVersion(v) == FormatVersion(w)
  {
    VersionParts(v);
    VersionParts(w);
  }

  /** Major and minor always show: two non-zero versions that print alike
      share their release number. */
  lemma FormatVersionShowsRelease(v: nat, w: nat)
    requires v != 0 && w != 0 && FormatVersion(v) == FormatVersion(w)
    ensures v / 100 == w / 100
  {
    var majorV, minorV := Decimal.FromNat(v / 10000), Decimal.FromNat((v % 10000) / 100);
    var majorW, minorW := Decimal.FromNat(w / 10000), Decimal.FromNat((w % 10000) / 100);
    assert majorV + "." + minorV == FormatVersion(v)[1..];
    assert majorW + "." + minorW == FormatVersion(w)[1..];
    DotSplit(majorV, minorV, majorW, minorW);
    Decimal.FromNatInjective(v / 10000, w / 10000);
    Decimal.FromNatInjective((v % 10000) / 100, (w % 10000) / 100);
    VersionParts(v);
    VersionParts(w);
  }

  /** Two versions print alike exactly when both are 0, or both are
      non-zero and agree on everything but the patch. */
  lemma FormatVersionEquality(v: nat, w: nat)
    ensures FormatVersion(v) == FormatVersion(w) <==> (v == 0 <==> w == 0) && v / 100 == w / 100
  {
    if v != 0 && w != 0 {
      if FormatVersion(v) == FormatVersion(w) {
        FormatVersionShowsRelease(v, w);
      }
      if v / 100 == w / 100 {
        FormatVersionIgnoresPatch(v, w);
      }
    }
  }

  /** A status from a finished check is consistent: a connected contract
      reads `v1.0` and never shows the error box; a contract that is not
      connected reads `N/A`. */
  lemma CheckedStatusDisplay(pingHeight: Settled<Option<int>>, program: Settled<bool>,
                             height: Settled<Option<int>>, thrown: Option<string>, threw: bool)
    ensures var outcome := if threw then Rejected(thrown) else Fulfilled(Foundation.GetProtocolInfo(pingHeight, program, height));
            var status := CheckedStatus(outcome);
            && status.contractVersion >= 0
            && (status.contractConnected ==> FormatVersion(status.contractVersion) == "v1.0" && !ShowsError(Some(status)))
            && (!status.contractConnected ==> FormatVersion(status.contractVersion) == "N/A")
            && (status.contractConnected ==> ContractBadge(Some(status)) == Default)
  {
    Foundation.ProtocolInfoConsistent(pingHeight, program, height);
    FormatProtocolVersion();
  }

  class ProtocolStatus {
    var status: Option<StatusData>
    var loading: bool

    function Snapshot(): View
      reads this
    {
      View(status, loading)
    }

    constructor ()
      ensures Snapshot() == InitialView && ShowsSkeleton(Snapshot())
    {
      status := None;
      loading := true;
    }

    /** The first half of `checkStatus`: `setLoading(true)` before the await;
        the previous status stays on screen. */
    method BeginCheck()
      modifies this
      ensures Snapshot() == old(Snapshot()).(loading := true)
    {
      loading := true;
    }

    /** The second half: the settled `getProtocolInfo()` becomes the status,
        and `finally` clears the flag whatever the outcome. */
    method CompleteCheck(outcome: Settled<Foundation.ProtocolInfo>)
      modifies this
      ensures Snapshot() == View(Some(CheckedStatus(outcome)), false)
      ensures !ShowsSkeleton(Snapshot())
    {
      status := Some(CheckedStatus(outcome));
      loading := false;
    }

    /** `checkStatus()` run to completion. */
    method CheckStatus(outcome: Settled<Foundation.ProtocolInfo>)
      modifies this
      ensures Snapshot() == View(Some(CheckedStatus(outcome)), false)
    {
      BeginCheck();
      CompleteCheck(outcome);
    }
  }
}
