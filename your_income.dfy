/**
 * The income panel's ROI withdrawal: its own check sequence ending in one
 * `withdrawROI` call, the button's disabled rule, and the `toastShown` flag that
 * makes a successful receipt notify once until the receipt stops being successful.
 */
module YourIncome {
  import opened Wrappers
  import opened Numbers
  import opened Effects

  const NoFunds: string := "No funds available for withdrawal."
  const WrongNetworkActive: string := "Wrong network active."
  const BalanceLow: string := "Contract balance is low"
  const WithdrawErrorText: string := "Something went wrong. Please try again."

  /** `data?.userAvailableROI ?? 0`. */
  function AvailableROI(userAvailableROI: Option<real>): real {
    userAvailableROI.GetOr(0.0)
  }

  /** The withdraw button's `disabled` rule. */
  predicate WithdrawDisabled(userAvailableROI: Option<real>) {
    AvailableROI(userAvailableROI) == 0.0
  }

  /**
   * `currentChainId !== parseInt(EXPECTED_CHAIN_ID)`, where the expected id is
   * the configured chain's id rendered by `toString`.
   */
  predicate WrongNetwork(currentChainId: int, expectedChainId: nat) {
    var parsed := ParseIntPrefix(NatToString(expectedChainId));
    !(parsed.Some? && parsed.value == currentChainId)
  }

  /** Rendering and re-parsing the expected id loses nothing: the check is plain inequality. */
  lemma WrongNetworkIffDifferent(currentChainId: int, expectedChainId: nat)
    ensures WrongNetwork(currentChainId, expectedChainId) <==> currentChainId != expectedChainId
  {
    ParsersReadRendering(expectedChainId);
  }

  /** The call the panel hands to the wallet: `withdrawROI`, with no `args` key and no value. */
  const WithdrawROICall: ContractCall := ContractCall("withdrawROI", None, None)

  /**
   * `handleWithdraw`: the connect modal when disconnected, else the first failing
   * check's alert, else the `withdrawROI` call. `currentChainId` is what
   * `getCurrentChainId` resolved to, and anything thrown (`writeThrows`) is
   * caught and only logged.
   */
  function HandleWithdraw(isConnected: bool, hasConnectModal: bool, userAvailableROI: Option<real>,
                          contractBalance: real, currentChainId: int, expectedChainId: nat,
                          writeThrows: bool): seq<UiEffect>
  {
    if !isConnected then (if hasConnectModal then [OpenConnectModal] else [])
    else if AvailableROI(userAvailableROI) == 0.0 then [ShowAlert(FailedAlert(NoFunds))]
    else if WrongNetwork(currentChainId, expectedChainId) then [ShowAlert(FailedAlert(WrongNetworkActive))]
    else if AvailableROI(userAvailableROI) > contractBalance then [ShowAlert(FailedAlert(BalanceLow))]
    else if writeThrows then []
    else [WriteContract(WithdrawROICall)]
  }

  /**
   * A click without a wallet only opens the connect modal. The panel writes
   * `withdrawROI` exactly when connected, with funds, on the
   * expected chain and within the contract balance; every other path shows at
   * most one alert, the one of the first failing check, and a thrown error shows
   * nothing.
   */
  lemma HandleWithdrawOutcomes(isConnected: bool, hasConnectModal: bool, userAvailableROI: Option<real>,
                               contractBalance: real, currentChainId: int, expectedChainId: nat, writeThrows: bool)
    ensures var r := HandleWithdraw(isConnected, hasConnectModal, userAvailableROI, contractBalance,
                                    currentChainId, expectedChainId, writeThrows);
            var roi := AvailableROI(userAvailableROI);
      && AlertCount(r) <= 1
      && (!isConnected ==> r == (if hasConnectModal then [OpenConnectModal] else []))
      && (Writes(r) <==> isConnected && roi != 0.0 && currentChainId == expectedChainId
                          && roi <= contractBalance && !writeThrows)
      && (Writes(r) ==> r == [WriteContract(ContractCall("withdrawROI", None, None))])
      && (isConnected && roi == 0.0 ==> r == [ShowAlert(FailedAlert(NoFunds))])
      && (isConnected && roi != 0.0 && currentChainId != expectedChainId ==>
            r == [ShowAlert(FailedAlert(WrongNetworkActive))])
      && (isConnected && roi != 0.0 && currentChainId == expectedChainId && roi > contractBalance ==>
            r == [ShowAlert(FailedAlert(BalanceLow))])
      && ((isConnected && roi != 0.0 && currentChainId == expectedChainId && roi <= contractBalance
           && writeThrows) ==> r == [])
  {
    WrongNetworkIffDifferent(currentChainId, expectedChainId);
    var r := HandleWithdraw(isConnected, hasConnectModal, userAvailableROI, contractBalance,
                            currentChainId, expectedChainId, writeThrows);
    if Writes(r) {
      var i :| 0 <= i < |r| && r[i].WriteContract?;
    }
    if isConnected && AvailableROI(userAvailableROI) != 0.0 && currentChainId == expectedChainId
       && AvailableROI(userAvailableROI) <= contractBalance && !writeThrows {
      assert r[0].WriteContract?;
    }
  }

  /**
   * The disabled button and the "no funds" check agree: for a connected wallet
   * the handler stops at the funds check exactly when the button is disabled, and
   * the funds check comes before the network check.
   */
  lemma DisabledIffNoFunds(hasConnectModal: bool, userAvailableROI: Option<real>, contractBalance: real,
                           currentChainId: int, expectedChainId: nat, writeThrows: bool)
    ensures HandleWithdraw(true, hasConnectModal, userAvailableROI, contractBalance, currentChainId,
                           expectedChainId, writeThrows) == [ShowAlert(FailedAlert(NoFunds))]
            <==> WithdrawDisabled(userAvailableROI)
  {}

  /** `successLink`: the configured transaction URL (or "") followed by the hash. */
  function SuccessLink(transactionUrl: Option<string>, hash: string): (r: string)
    ensures |r| >= |hash| && r[|r| - |hash|..] == hash
    ensures r[..|r| - |hash|] == transactionUrl.GetOr("")
  {
    transactionUrl.GetOr("") + hash
  }

  /** Under one configured URL, distinct hashes give distinct links. */
  lemma SuccessLinkInjective(transactionUrl: Option<string>, h1: string, h2: string)
    requires SuccessLink(transactionUrl, h1) == SuccessLink(transactionUrl, h2)
    ensures h1 == h2
  {
    var u := transactionUrl.GetOr("");
    assert h1 == (u + h1)[|u|..];
    assert h2 == (u + h2)[|u|..];
  }

  function ToastText(link: string): string {
    "Your withdrawal has been processed successfully. \n    <br>To view the transaction <a href="
    + link + " target=\"_blank\">click here</a>."
  }

  /** One observation of the withdrawal's receipt: `isTransactionSuccess` and `hash`. */
  datatype Receipt = Receipt(isSuccess: bool, hash: Option<string>)

  /** The guard of the toast effect. */
  predicate ToastFires(toastShown: bool, receipt: Receipt) {
    receipt.isSuccess && Truthy(receipt.hash) && !toastShown
  }

  /** `toastShown` once both effects have run on an observation. */
  function ToastAfter(toastShown: bool, receipt: Receipt): (r: bool)
    ensures !receipt.isSuccess ==> !r
    ensures receipt.isSuccess ==> (r <==> toastShown || Truthy(receipt.hash))
  {
    if !receipt.isSuccess then false
    else if ToastFires(toastShown, receipt) then true
    else toastShown
  }

  /** What the toast effect does on an observation: refetch, then the success alert. */
  function ToastEffects(toastShown: bool, receipt: Receipt, transactionUrl: Option<string>): (r: seq<UiEffect>)
    ensures ToastFires(toastShown, receipt) ==>
              r == [Refetch, ShowAlert(SuccessAlert(ToastText(SuccessLink(transactionUrl, receipt.hash.value))))]
    ensures !ToastFires(toastShown, receipt) ==> r == []
  {
    if ToastFires(toastShown, receipt)
    then [Refetch, ShowAlert(SuccessAlert(ToastText(SuccessLink(transactionUrl, receipt.hash.value))))]
    else []
  }

  /** The `toastShown` state of the panel and its two receipt effects. */
  class WithdrawToast {
    var toastShown: bool

    constructor ()
      ensures !toastShown
    {
      toastShown := false;
    }

    /** Both receipt effects, in their order, for one observation. */
    method OnReceipt(receipt: Receipt, transactionUrl: Option<string>) returns (effects: seq<UiEffect>)
      modifies this
      ensures toastShown == ToastAfter(old(toastShown), receipt)
      ensures effects == ToastEffects(old(toastShown), receipt, transactionUrl)
    {
      effects := [];
      if receipt.isSuccess && Truthy(receipt.hash) && !toastShown {
        effects := [Refetch, ShowAlert(SuccessAlert(ToastText(SuccessLink(transactionUrl, receipt.hash.value))))];
        toastShown := true;
      }
      if !receipt.isSuccess {
        toastShown := false;
      }
    }
  }

  /** The number of toasts over successive observations. */
  function Toasts(toastShown: bool, observed: seq<Receipt>): nat
    decreases |observed|
  {
    if observed == [] then 0
    else (if ToastFires(toastShown, observed[0]) then 1 else 0) + Toasts(ToastAfter(toastShown, observed[0]), observed[1..])
  }

  lemma {:induction false} NoToastOnceShown(observed: seq<Receipt>)
    requires forall i :: 0 <= i < |observed| ==> observed[i].isSuccess
    ensures Toasts(true, observed) == 0
    decreases |observed|
  {
    if observed != [] {
      NoToastOnceShown(observed[1..]);
    }
  }

  /**
   * While the receipt stays successful, the toast shows at most once, and exactly
   * once when it had not shown and some observation carries a hash.
   */
  lemma {:induction false} ToastAtMostOncePerSuccess(toastShown: bool, observed: seq<Receipt>)
    requires forall i :: 0 <= i < |observed| ==> observed[i].isSuccess
    ensures Toasts(toastShown, observed) <= 1
    ensures Toasts(toastShown, observed) == 1 <==>
              !toastShown && exists i :: 0 <= i < |observed| && Truthy(observed[i].hash)
    decreases |observed|
  {
    if observed != [] {
      var next := ToastAfter(toastShown, observed[0]);
      if ToastFires(toastShown, observed[0]) {
        NoToastOnceShown(observed[1..]);
      } else {
        ToastAtMostOncePerSuccess(next, observed[1..]);
        if exists i :: 0 <= i < |observed| && Truthy(observed[i].hash) {
          var i :| 0 <= i < |observed| && Truthy(observed[i].hash);
          if !toastShown {
            assert i != 0;
            assert Truthy(observed[1..][i - 1].hash);
          }
        }
        if exists j :: 0 <= j < |observed[1..]| && Truthy(observed[1..][j].hash) {
          var j :| 0 <= j < |observed[1..]| && Truthy(observed[1..][j].hash);
          assert Truthy(observed[j + 1].hash);
        }
      }
    }
  }

  /** An observation that is not a success re-arms the guard: the next successful receipt with a hash toasts. */
  lemma ToastRearms(toastShown: bool, failed: Receipt, next: Receipt)
    requires !failed.isSuccess && next.isSuccess && Truthy(next.hash)
    ensures Toasts(toastShown, [failed, next]) == 1
  {
    assert [failed, next][1..] == [next];
    assert ToastAfter(toastShown, failed) == false;
    assert Toasts(true, []) == 0;
    assert Toasts(false, [next]) == 1 + Toasts(true, []) by {
      assert [next][1..] == [];
    }
  }

  /** The error effect of the panel's write: one fixed failed alert. */
  function WithdrawErrorEffects(hasError: bool): (r: seq<UiEffect>)
    ensures hasError ==> r == [ShowAlert(FailedAlert("Something went wrong. Please try again."))]
    ensures !hasError ==> r == []
  {
    if hasError then [ShowAlert(FailedAlert(WithdrawErrorText))] else []
  }
}
