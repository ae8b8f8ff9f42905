/**
 * The referral panel: when the account's link may be shown, what the link box
 * says, and the copy button's checks, clipboard write and `copied` flag.
 */
module Referral {
  import opened Wrappers
  import opened Effects
  import InfuraApi

  const Disabled: string := "Referral feature is disabled"
  const NoWallet: string := "Wallet not connected!"
  const NotInvested: string := "You will get your ref link after investing"
  const Locked: string := "Invest to unlock your referral link"
  const Copied: string := "Referral link copied!"
  const CopiedResetMs: nat := 1300

  /** `value || fallback` for an environment setting. */
  function Setting(value: Option<string>, fallback: string): (r: string)
    ensures Truthy(value) ==> r == value.value
    ensures !Truthy(value) ==> r == fallback
  {
    if Truthy(value) then value.value else fallback
  }

  /** The panel's configuration: the referral switch and the two privileged addresses. */
  datatype Config = Config(refSwitch: string, projectAddress: string, adminAddress: string)

  /** The configuration from the environment: the switch defaults to "true", the addresses to "". */
  function ConfigOf(refSwitch: Option<string>, projectAddress: Option<string>, adminAddress: Option<string>)
    : (c: Config)
    ensures Truthy(refSwitch) ==> c.refSwitch == refSwitch.value
    ensures !Truthy(refSwitch) ==> c.refSwitch == "true"
    ensures Truthy(projectAddress) ==> c.projectAddress == projectAddress.value
    ensures !Truthy(projectAddress) ==> c.projectAddress == ""
    ensures Truthy(adminAddress) ==> c.adminAddress == adminAddress.value
    ensures !Truthy(adminAddress) ==> c.adminAddress == ""
  {
    Config(Setting(refSwitch, "true"), Setting(projectAddress, ""), Setting(adminAddress, ""))
  }

  /**
   * The feature is on unless the switch is set to something other than "true":
   * an unset or empty setting leaves it on.
   */
  lemma SwitchDefaultsOn(refSwitch: Option<string>, projectAddress: Option<string>, adminAddress: Option<string>)
    ensures SwitchOn(ConfigOf(refSwitch, projectAddress, adminAddress)) <==>
              !Truthy(refSwitch) || refSwitch.value == "true"
  {}

  predicate SwitchOn(c: Config) {
    c.refSwitch == "true"
  }

  /**
   * `canShowLink`: the switch is on, an address is present, and it is the
   * project's or the admin's address or the account has deposits.
   */
  predicate CanShowLink(c: Config, address: Option<string>, userTotalDeposits: Option<real>) {
    && SwitchOn(c)
    && Truthy(address)
    && (address.value == c.projectAddress || address.value == c.adminAddress || userTotalDeposits.GetOr(0.0) > 0.0)
  }

  /** `${window.location.origin}/?ref=${address}`, which reads "undefined" without an address. */
  function LinkOf(origin: string, address: Option<string>): string {
    InfuraApi.ReferralLink(origin, if address.Some? then address.value else "undefined")
  }

  /** The link box's text. */
  function LinkText(c: Config, address: Option<string>, userTotalDeposits: Option<real>, origin: string): string {
    if CanShowLink(c, address, userTotalDeposits) then LinkOf(origin, address)
    else if !SwitchOn(c) then Disabled
    else Locked
  }

  /**
   * The box shows the account's own link exactly when `canShowLink` holds;
   * otherwise it says the feature is disabled when the switch is off, and asks
   * for an investment when it is on.
   */
  lemma LinkTextCases(c: Config, address: Option<string>, userTotalDeposits: Option<real>, origin: string)
    ensures var t := LinkText(c, address, userTotalDeposits, origin);
      && (CanShowLink(c, address, userTotalDeposits) ==> t == origin + "/?ref=" + address.value)
      && (!CanShowLink(c, address, userTotalDeposits) ==> t != origin + "/?ref=" + address.GetOr(""))
      && (!SwitchOn(c) ==> t == Disabled)
      && (SwitchOn(c) && !CanShowLink(c, address, userTotalDeposits) ==> t == Locked)
  {
    var t := LinkText(c, address, userTotalDeposits, origin);
    if !CanShowLink(c, address, userTotalDeposits) {
      var link := origin + "/?ref=" + address.GetOr("");
      assert link[|origin|] == '/';
      assert forall i :: 0 <= i < |t| ==> t[i] != '/';
    }
  }

  /** The copy button's success path through the given channel. */
  function CopySucceeded(link: string, channel: CopyChannel): seq<UiEffect> {
    [CopyToClipboard(link, channel), ScheduleCopiedReset(CopiedResetMs), ShowAlert(SuccessAlert(Copied))]
  }

  /**
   * `handleCopyClick`: the connect modal when disconnected, else the first failing
   * check's alert, else the copy, through the clipboard API or, when that rejects
   * (`clipboardFails`), through the `execCommand` fallback.
   */
  function CopyClick(c: Config, isConnected: bool, hasConnectModal: bool, address: Option<string>,
                     userTotalDeposits: Option<real>, origin: string, clipboardFails: bool): seq<UiEffect>
  {
    if !isConnected then (if hasConnectModal then [OpenConnectModal] else [])
    else if !SwitchOn(c) then [ShowAlert(FailedAlert(Disabled))]
    else if !Truthy(address) then [ShowAlert(FailedAlert(NoWallet))]
    else if !CanShowLink(c, address, userTotalDeposits) then [ShowAlert(FailedAlert(NotInvested))]
    else CopySucceeded(LinkOf(origin, address), if clipboardFails then ExecCommandFallback else ClipboardApi)
  }

  /** A click copies exactly when connected with a link to show. */
  predicate Copies(effects: seq<UiEffect>) {
    exists i :: 0 <= i < |effects| && effects[i].CopyToClipboard?
  }

  /** The `copied` flag of the copy button. */
  class CopyButton {
    var copied: bool

    constructor ()
      ensures !copied
    {
      copied := false;
    }

    method HandleCopyClick(c: Config, isConnected: bool, hasConnectModal: bool, address: Option<string>,
                           userTotalDeposits: Option<real>, origin: string, clipboardFails: bool)
      returns (effects: seq<UiEffect>)
      modifies this
      ensures effects == CopyClick(c, isConnected, hasConnectModal, address, userTotalDeposits, origin, clipboardFails)
      ensures copied == (old(copied) || Copies(effects))
    {
      if !isConnected {
        effects := if hasConnectModal then [OpenConnectModal] else [];
        return;
      }
      if !SwitchOn(c) {
        effects := [ShowAlert(FailedAlert(Disabled))];
        return;
      }
      if !Truthy(address) {
        effects := [ShowAlert(FailedAlert(NoWallet))];
        return;
      }
      if !CanShowLink(c, address, userTotalDeposits) {
        effects := [ShowAlert(FailedAlert(NotInvested))];
        return;
      }
      var link := LinkOf(origin, address);
      var channel := if clipboardFails then ExecCommandFallback else ClipboardApi;
      copied := true;
      effects := CopySucceeded(link, channel);
      assert effects[0].CopyToClipboard?;
    }

    /** The scheduled timeout firing. */
    method CopiedTimerElapsed()
      modifies this
      ensures !copied
    {
      copied := false;
    }
  }

  /**
   * The copy happens exactly when connected with a link to show; it copies the
   * text the link box shows, and both channels then schedule the same reset and
   * show the same single success alert. Every other click shows at most one
   * alert, that of the first failing check.
   */
  lemma CopyClickOutcomes(c: Config, isConnected: bool, hasConnectModal: bool, address: Option<string>,
                          userTotalDeposits: Option<real>, origin: string, clipboardFails: bool)
    ensures var r := CopyClick(c, isConnected, hasConnectModal, address, userTotalDeposits, origin, clipboardFails);
      && AlertCount(r) <= 1
      && (!isConnected ==> r == (if hasConnectModal then [OpenConnectModal] else []))
      && (Copies(r) <==> isConnected && CanShowLink(c, address, userTotalDeposits))
      && (Copies(r) ==>
            && r[0] == CopyToClipboard(LinkText(c, address, userTotalDeposits, origin), r[0].channel)
            && r[1..] == [ScheduleCopiedReset(1300), ShowAlert(SuccessAlert("Referral link copied!"))])
      && (isConnected && !SwitchOn(c) ==> r == [ShowAlert(FailedAlert(Disabled))])
      && (isConnected && SwitchOn(c) && !Truthy(address) ==> r == [ShowAlert(FailedAlert(NoWallet))])
      && (isConnected && SwitchOn(c) && Truthy(address) && !CanShowLink(c, address, userTotalDeposits) ==>
            r == [ShowAlert(FailedAlert(NotInvested))])
  {
    var r := CopyClick(c, isConnected, hasConnectModal, address, userTotalDeposits, origin, clipboardFails);
    if isConnected && CanShowLink(c, address, userTotalDeposits) {
      assert r[0].CopyToClipboard?;
      assert r[1..] == [ScheduleCopiedReset(1300), ShowAlert(SuccessAlert("Referral link copied!"))];
      assert r[1..][1..] == [ShowAlert(SuccessAlert("Referral link copied!"))];
      assert r[1..][1..][1..] == [];
      assert AlertCount(r[1..][1..]) == 1;
      assert AlertCount(r) == AlertCount(r[1..]) == AlertCount(r[1..][1..]);
    } else {
      assert forall i | 0 <= i < |r| :: !r[i].CopyToClipboard?;
    }
  }

  /** The copied link never reads "undefined": a copy needs an address. */
  lemma CopiedLinkHasAddress(c: Config, isConnected: bool, hasConnectModal: bool, address: Option<string>,
                             userTotalDeposits: Option<real>, origin: string, clipboardFails: bool)
    requires Copies(CopyClick(c, isConnected, hasConnectModal, address, userTotalDeposits, origin, clipboardFails))
    ensures Truthy(address)
    ensures CopyClick(c, isConnected, hasConnectModal, address, userTotalDeposits, origin, clipboardFails)[0].text
            == origin + "/?ref=" + address.value
  {
    CopyClickOutcomes(c, isConnected, hasConnectModal, address, userTotalDeposits, origin, clipboardFails);
  }
}
