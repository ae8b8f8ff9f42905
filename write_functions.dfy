/**
 * The transaction hooks: the ordered pre-submission checks, the deposit,
 * withdraw and claim handlers with the state record each hook keeps, and the
 * success effects whose `alertShown` guard makes a submission notify once.
 *
 * The wallet's hook outputs are inputs: the chain id `getCurrentChainId`
 * resolves to, the receipt's `isSuccess`, and whether `writeContract` throws.
 */
module WriteFunctions {
  import opened Wrappers
  import opened Numbers
  import opened Effects

  // ---------------------------------------------------------------------------
  // Amounts and the template text of the minimum

  /** The text of an amount input: empty, a decimal number, or text `Number` reads as NaN. */
  datatype AmountText = Blank | Decimal(value: real) | Malformed

  /** `Number(amount)`: the empty text is 0, a malformed text NaN (None). */
  function AmountValue(amount: AmountText): (r: Option<real>)
    ensures r.None? <==> amount.Malformed?
    ensures amount.Blank? ==> r == Some(0.0)
    ensures amount.Decimal? ==> r == Some(amount.value)
  {
    match amount
    case Blank => Some(0.0)
    case Decimal(v) => Some(v)
    case Malformed => None
  }

  /** The characters `String.prototype.trim` removes. */
  predicate IsJsSpace(c: char) {
    c in {' ', '\t', '\n', '\r', '\U{000B}', '\U{000C}', '\U{00A0}', '\U{1680}', '\U{2000}', '\U{2001}',
          '\U{2002}', '\U{2003}', '\U{2004}', '\U{2005}', '\U{2006}', '\U{2007}', '\U{2008}', '\U{2009}',
          '\U{200A}', '\U{2028}', '\U{2029}', '\U{202F}', '\U{205F}', '\U{3000}', '\U{FEFF}'}
  }

  function TrimEnd(s: string): (r: string)
    ensures r <= s
    ensures r == [] || !IsJsSpace(r[|r| - 1])
    ensures forall i :: |r| <= i < |s| ==> IsJsSpace(s[i])
  {
    if s != [] && IsJsSpace(s[|s| - 1]) then TrimEnd(s[..|s| - 1]) else s
  }

  function TrimStart(s: string): (r: string)
    ensures |r| <= |s| && r == s[|s| - |r|..]
    ensures r == [] || !IsJsSpace(r[0])
    ensures forall i :: 0 <= i < |s| - |r| ==> IsJsSpace(s[i])
  {
    if s != [] && IsJsSpace(s[0]) then TrimStart(s[1..]) else s
  }

  /** Trimming keeps a prefix that ends in a character other than white space. */
  lemma TrimKeepsLeadingWord(s: string, k: nat)
    requires k <= |s| && forall i :: 0 <= i < k ==> !IsJsSpace(s[i])
    requires k > 0
    ensures |Trim(s)| >= k && Trim(s)[..k] == s[..k]
  {
    var e := TrimEnd(s);
    assert !IsJsSpace(s[k - 1]);
    assert |e| >= k;
    assert e[..k] == s[..k];
    assert TrimStart(e) == e;
  }

  /** `s.trim()`. */
  function Trim(s: string): string {
    TrimStart(TrimEnd(s))
  }

  /**
   * `` `Min ${minAmount} ${symbol || ""}`.trim() ``, where `minText` is the text
   * the template literal gives `minAmount`.
   */
  function MinMessage(minText: string, symbol: Option<string>): (r: string)
    ensures |r| >= 3 && r[..3] == "Min"
  {
    var t := "Min " + minText + " " + (if Truthy(symbol) then symbol.value else "");
    TrimKeepsLeadingWord(t, 3);
    Trim("Min " + minText + " " + (if Truthy(symbol) then symbol.value else ""))
  }

  /**
   * With a symbol, the message is "Min <min> <symbol>"; without one the trailing
   * space is trimmed and it is "Min <min>" (for a minimum and a symbol that do not
   * end in white space, as a rendered number does not).
   */
  lemma {:induction false} MinMessageShape(minText: string, symbol: Option<string>)
    requires minText != [] && !IsJsSpace(minText[|minText| - 1])
    requires Truthy(symbol) ==> !IsJsSpace(symbol.value[|symbol.value| - 1])
    ensures Truthy(symbol) ==> MinMessage(minText, symbol) == "Min " + minText + " " + symbol.value
    ensures !Truthy(symbol) ==> MinMessage(minText, symbol) == "Min " + minText
  {
    var sym := if Truthy(symbol) then symbol.value else "";
    var s := "Min " + minText + " " + sym;
    if Truthy(symbol) {
      assert s[|s| - 1] == sym[|sym| - 1];
      assert TrimEnd(s) == s;
    } else {
      assert s[..|s| - 1] == "Min " + minText;
      assert TrimEnd(s) == TrimEnd("Min " + minText);
      assert ("Min " + minText)[|"Min " + minText| - 1] == minText[|minText| - 1];
      assert TrimEnd(s) == "Min " + minText;
    }
    assert !IsJsSpace(TrimEnd(s)[0]);
  }

  // ---------------------------------------------------------------------------
  // validateTransaction

  /**
   * `chainId && expectedChainId && chainId !== Number(expectedChainId)`: the check
   * applies only when both are truthy (a chain id of 0 is falsy).
   */
  predicate ChainMismatch(chainId: Option<int>, expectedChainId: string) {
    && chainId.Some? && chainId.value != 0
    && expectedChainId != ""
    && !(NumberOfDigits(expectedChainId).Some? && NumberOfDigits(expectedChainId).value == chainId.value)
  }

  /** `!value || value < minAmount` on `value = Number(amount)`: NaN and 0 are falsy. */
  predicate AmountRejected(amount: AmountText, minAmount: real) {
    var v := AmountValue(amount);
    v.None? || v.value == 0.0 || v.value < minAmount
  }

  /**
   * An empty or malformed amount is always rejected, whatever the minimum; a
   * decimal one exactly when it is 0 or below the minimum.
   */
  lemma AmountRejectedCases(minAmount: real, v: real)
    ensures AmountRejected(Blank, minAmount) && AmountRejected(Malformed, minAmount)
    ensures AmountRejected(Decimal(v), minAmount) <==> v == 0.0 || v < minAmount
  {}

  datatype ValidationError = NotConnected | WrongNetwork | BelowMinimum(message: string) | InsufficientBalance

  /** The `error` text of a failed validation. */
  function ErrorText(e: ValidationError): string {
    match e
    case NotConnected => "Wallet not connected"
    case WrongNetwork => "Wrong network"
    case BelowMinimum(message) => message
    case InsufficientBalance => "Insufficient balance"
  }

  /** `validation.error || "Validation failed"`. */
  function FailureText(e: ValidationError): string {
    if ErrorText(e) == "" then "Validation failed" else ErrorText(e)
  }

  datatype Validation = Valid | Invalid(error: ValidationError)

  /**
   * `validateTransaction`: four checks in order, the first that fails decides the
   * error; an amount passes when it is a non-zero number between the minimum and
   * the wallet balance.
   */
  function ValidateTransaction(isConnected: bool, chainId: Option<int>, expectedChainId: string,
                               walletBalance: real, amount: AmountText, minAmount: real, minText: string,
                               symbol: Option<string>): (r: Validation)
    ensures r == Invalid(NotConnected) <==> !isConnected
    ensures r == Invalid(WrongNetwork) <==> isConnected && ChainMismatch(chainId, expectedChainId)
    ensures r.Invalid? && r.error.BelowMinimum? <==>
              isConnected && !ChainMismatch(chainId, expectedChainId) && AmountRejected(amount, minAmount)
    ensures r.Invalid? && r.error.BelowMinimum? ==> r.error.message == MinMessage(minText, symbol)
    ensures r == Invalid(InsufficientBalance) <==>
              && isConnected && !ChainMismatch(chainId, expectedChainId) && !AmountRejected(amount, minAmount)
              && AmountValue(amount).value > walletBalance
    ensures r == Valid <==>
              && isConnected && !ChainMismatch(chainId, expectedChainId)
              && AmountValue(amount).Some? && AmountValue(amount).value != 0.0
              && minAmount <= AmountValue(amount).value <= walletBalance
  {
    if !isConnected then Invalid(NotConnected)
    else if ChainMismatch(chainId, expectedChainId) then Invalid(WrongNetwork)
    else if AmountRejected(amount, minAmount) then Invalid(BelowMinimum(MinMessage(minText, symbol)))
    else if AmountValue(amount).value > walletBalance then Invalid(InsufficientBalance)
    else Valid
  }

  /** A validated amount is positive whenever the minimum is not negative. */
  lemma ValidAmountPositive(isConnected: bool, chainId: Option<int>, expectedChainId: string,
                            walletBalance: real, amount: AmountText, minAmount: real, minText: string,
                            symbol: Option<string>)
    requires minAmount >= 0.0
    requires ValidateTransaction(isConnected, chainId, expectedChainId, walletBalance, amount, minAmount,
                                 minText, symbol) == Valid
    ensures amount.Decimal? && 0.0 < amount.value <= walletBalance
  {}

  /** Every error `validateTransaction` returns has a text, so the fallback text never shows. */
  lemma ValidationErrorsHaveText(isConnected: bool, chainId: Option<int>, expectedChainId: string,
                                 walletBalance: real, amount: AmountText, minAmount: real, minText: string,
                                 symbol: Option<string>)
    requires ValidateTransaction(isConnected, chainId, expectedChainId, walletBalance, amount, minAmount,
                                 minText, symbol).Invalid?
    ensures var e := ValidateTransaction(isConnected, chainId, expectedChainId, walletBalance, amount, minAmount,
                                         minText, symbol).error;
      FailureText(e) == ErrorText(e) != ""
  {}

  /** A configured chain id that is the rendering of the wallet's chain id never mismatches. */
  lemma SameChainNeverMismatches(chainId: nat)
    ensures !ChainMismatch(Some(chainId), NatToString(chainId))
  {
    ParsersReadRendering(chainId);
  }

  // ---------------------------------------------------------------------------
  // The hook state records and what a handler produces

  /**
   * `TransactionState` with the hook's own selection: the plan id of a deposit,
   * the kind of a withdrawal, nothing for a claim.
   */
  datatype TxState<S> = TxState(selection: S, amount: AmountText, alertShown: bool, processingId: Option<string>)

  /** The state a handler leaves and the effects it performed, in order. */
  datatype Handled<S> = Handled(state: TxState<S>, effects: seq<UiEffect>)

  /**
   * What `await getCurrentChainId?.()` gave a handler: a value, which is undefined
   * when no query function was passed, or a rejection. The hooks await it outside
   * their `try`, so a rejection abandons the handler with no alert and no state change.
   */
  datatype ChainQuery = Resolved(chainId: Option<int>) | Rejected

  /** `openConnectModal?.()`: nothing when the modal hook gave no function. */
  function ConnectModalEffects(hasConnectModal: bool): seq<UiEffect> {
    if hasConnectModal then [OpenConnectModal] else []
  }

  function Failed(text: string): UiEffect {
    ShowAlert(FailedAlert(text))
  }

  /** A template literal's text for an environment value that may be undefined. */
  function EnvText(value: Option<string>): string {
    match value
    case Some(v) => v
    case None => "undefined"
  }

  /** The success alert of the deposit and withdraw hooks, linking the configured URL. */
  function SuccessText(headline: string, withdrawUrl: Option<string>): string {
    headline + " successful<br/>\n         <a target=\"_blank\" href=\"" + EnvText(withdrawUrl)
    + "\">\n         View Transaction</a>"
  }

  /** The guard of the deposit and withdraw success effects. */
  predicate NotifiesOnSuccess<S>(s: TxState<S>, isSuccess: bool) {
    isSuccess && !s.alertShown
  }

  /** The state the deposit and withdraw success effects leave. */
  function AfterSuccess<S>(s: TxState<S>, isSuccess: bool): (r: TxState<S>)
    ensures NotifiesOnSuccess(s, isSuccess) ==> r == s.(alertShown := true, processingId := None)
    ensures !NotifiesOnSuccess(s, isSuccess) ==> r == s
  {
    if NotifiesOnSuccess(s, isSuccess) then s.(alertShown := true, processingId := None) else s
  }

  /** What the deposit and withdraw success effects do: refetch, then one success alert. */
  function SuccessEffects<S>(s: TxState<S>, isSuccess: bool, text: string): (r: seq<UiEffect>)
    ensures NotifiesOnSuccess(s, isSuccess) ==> r == [Refetch, ShowAlert(SuccessAlert(text))]
    ensures !NotifiesOnSuccess(s, isSuccess) ==> r == []
  {
    if NotifiesOnSuccess(s, isSuccess) then [Refetch, ShowAlert(SuccessAlert(text))] else []
  }

  /** The number of success notifications over successive observations of `isSuccess`. */
  function SuccessNotices<S>(s: TxState<S>, observed: seq<bool>): nat
    decreases |observed|
  {
    if observed == [] then 0
    else (if NotifiesOnSuccess(s, observed[0]) then 1 else 0) + SuccessNotices(AfterSuccess(s, observed[0]), observed[1..])
  }

  lemma {:induction false} NoNoticeOnceShown<S>(s: TxState<S>, observed: seq<bool>)
    requires s.alertShown
    ensures SuccessNotices(s, observed) == 0
    decreases |observed|
  {
    if observed != [] {
      NoNoticeOnceShown(AfterSuccess(s, observed[0]), observed[1..]);
    }
  }

  /**
   * The `alertShown` guard: over any run of receipt observations, a submission
   * notifies at most once, and exactly once when it was not yet notified and some
   * observation is a success.
   */
  lemma {:induction false} NoticeAtMostOnce<S>(s: TxState<S>, observed: seq<bool>)
    ensures SuccessNotices(s, observed) <= 1
    ensures SuccessNotices(s, observed) == 1 <==> !s.alertShown && true in observed
    decreases |observed|
  {
    if observed != [] {
      var next := AfterSuccess(s, observed[0]);
      if NotifiesOnSuccess(s, observed[0]) {
        NoNoticeOnceShown(next, observed[1..]);
      } else {
        NoticeAtMostOnce(next, observed[1..]);
        assert true in observed <==> observed[0] || true in observed[1..] by {
          assert observed == [observed[0]] + observed[1..];
        }
      }
    }
  }

  // ---------------------------------------------------------------------------
  // useDeposit

  type DepositState = TxState<Option<nat>>

  const InitialDeposit: DepositState := TxState(None, Blank, false, None)

  /** The `processingId` of a deposit into plan `planId`. */
  function PlanProcessingId(planId: nat): (r: string)
    ensures |r| > 5 && r[..5] == "plan-" && r[5..] == NatToString(planId)
  {
    "plan-" + NatToString(planId)
  }

  /** Distinct plans have distinct processing ids. */
  lemma PlanProcessingIdInjective(a: nat, b: nat)
    requires PlanProcessingId(a) == PlanProcessingId(b)
    ensures a == b
  {
    assert PlanProcessingId(a)[5..] == PlanProcessingId(b)[5..];
    NatToStringInjective(a, b);
  }

  /** The call `handleDeposit` hands to the wallet. */
  function InvestCall(referrer: Option<string>, planId: nat, amount: real): ContractCall {
    ContractCall("invest", Some([AddressArg(referrer), UintArg(planId)]), Some(amount))
  }

  /**
   * `handleDeposit` on the hook state `s`, where `referrer` is what `getReferrer?.()`
   * returned, `chain` what the awaited `getCurrentChainId?.()` gave, and `writeThrows`
   * whether `writeContract` threw.
   */
  function DepositStep(s: DepositState, planId: nat, walletBalance: real, minDeposit: real, minText: string,
                       symbol: string, isConnected: bool, referrer: Option<string>, chain: ChainQuery,
                       expectedChainId: Option<string>, hasConnectModal: bool, writeThrows: bool): Handled<Option<nat>>
  {
    if !isConnected then Handled(s, ConnectModalEffects(hasConnectModal))
    else if chain.Rejected? then Handled(s, [])
    else
      var validation := ValidateTransaction(isConnected, chain.chainId, expectedChainId.GetOr(""), walletBalance, s.amount,
                                            minDeposit, minText, Some(symbol));
      if validation.Invalid? then Handled(s, [Failed(FailureText(validation.error))])
      else
        var submitted := s.(alertShown := false, processingId := Some(PlanProcessingId(planId)));
        if writeThrows then Handled(submitted.(processingId := None), [Failed("Failed to process investment")])
        else Handled(submitted, [WriteContract(InvestCall(referrer, planId, AmountValue(s.amount).value))])
  }

  class DepositHook {
    var state: DepositState

    constructor ()
      ensures state == InitialDeposit
    {
      state := InitialDeposit;
    }

    method HandleDeposit(planId: nat, walletBalance: real, minDeposit: real, minText: string, symbol: string,
                         isConnected: bool, referrer: Option<string>, chain: ChainQuery,
                         expectedChainId: Option<string>, hasConnectModal: bool, writeThrows: bool)
      returns (effects: seq<UiEffect>)
      modifies this
      ensures Handled(state, effects) == DepositStep(old(state), planId, walletBalance, minDeposit, minText, symbol,
                                                     isConnected, referrer, chain, expectedChainId,
                                                     hasConnectModal, writeThrows)
    {
      if !isConnected {
        effects := ConnectModalEffects(hasConnectModal);
        return;
      }
      if chain.Rejected? {
        effects := [];
        return;
      }
      var validation := ValidateTransaction(isConnected, chain.chainId, expectedChainId.GetOr(""), walletBalance,
                                            state.amount, minDeposit, minText, Some(symbol));
      if validation.Invalid? {
        effects := [Failed(FailureText(validation.error))];
        return;
      }
      var amount := AmountValue(state.amount).value;
      state := state.(alertShown := false, processingId := Some(PlanProcessingId(planId)));
      if writeThrows {
        effects := [Failed("Failed to process investment")];
        state := state.(processingId := None);
      } else {
        effects := [WriteContract(InvestCall(referrer, planId, amount))];
      }
    }

    /** The success effect, run with the receipt's current `isSuccess`. */
    method OnSuccess(isSuccess: bool, withdrawUrl: Option<string>) returns (effects: seq<UiEffect>)
      modifies this
      ensures state == AfterSuccess(old(state), isSuccess)
      ensures effects == SuccessEffects(old(state), isSuccess, SuccessText("Investment", withdrawUrl))
    {
      effects := [];
      if isSuccess && !state.alertShown {
        effects := [Refetch, ShowAlert(SuccessAlert(SuccessText("Investment", withdrawUrl)))];
        state := state.(alertShown := true, processingId := None);
      }
    }
  }

  /**
   * `handleDeposit` writes `invest` exactly when connected, the validation passes
   * and the write does not throw; then it carries [referrer, planId] and the typed
   * amount, and the state is armed for one success notice on plan `planId`.
   */
  lemma DepositOutcomes(s: DepositState, planId: nat, walletBalance: real, minDeposit: real, minText: string,
                        symbol: string, isConnected: bool, referrer: Option<string>, chain: ChainQuery,
                        expectedChainId: Option<string>, hasConnectModal: bool, writeThrows: bool)
    ensures var h := DepositStep(s, planId, walletBalance, minDeposit, minText, symbol, isConnected, referrer, chain,
                                 expectedChainId, hasConnectModal, writeThrows);
      && (!isConnected ==> h.state == s && h.effects == ConnectModalEffects(hasConnectModal))
      && (isConnected && chain.Rejected? ==> h.state == s && h.effects == [])
      && (Writes(h.effects) <==>
            && isConnected && chain.Resolved?
            && ValidateTransaction(isConnected, chain.chainId, expectedChainId.GetOr(""), walletBalance, s.amount,
                                   minDeposit, minText, Some(symbol)) == Valid
            && !writeThrows)
      && (Writes(h.effects) ==>
            && h.state == s.(alertShown := false, processingId := Some(PlanProcessingId(planId)))
            && h.effects == [WriteContract(ContractCall("invest", Some([AddressArg(referrer), UintArg(planId)]),
                                                        Some(s.amount.value)))])
      && (isConnected && chain.Resolved? ==>
            var v := ValidateTransaction(isConnected, chain.chainId, expectedChainId.GetOr(""), walletBalance, s.amount,
                                         minDeposit, minText, Some(symbol));
            && (v.Invalid? ==> h.state == s && h.effects == [Failed(FailureText(v.error))])
            && (v == Valid && writeThrows ==>
                  && h.state == s.(alertShown := false, processingId := None)
                  && h.effects == [Failed("Failed to process investment")]))
  {
    var h := DepositStep(s, planId, walletBalance, minDeposit, minText, symbol, isConnected, referrer, chain,
                         expectedChainId, hasConnectModal, writeThrows);
    if && isConnected && chain.Resolved?
       && ValidateTransaction(isConnected, chain.chainId, expectedChainId.GetOr(""), walletBalance, s.amount,
                              minDeposit, minText, Some(symbol)) == Valid
       && !writeThrows {
      assert h.effects[0].WriteContract?;
    } else {
      assert forall i | 0 <= i < |h.effects| :: !h.effects[i].WriteContract?;
    }
  }

  /** After a submission is handed to the wallet, the next successful receipt notifies exactly once. */
  lemma DepositNotifiesOnce(s: DepositState, planId: nat, walletBalance: real, minDeposit: real, minText: string,
                            symbol: string, isConnected: bool, referrer: Option<string>, chain: ChainQuery,
                            expectedChainId: Option<string>, hasConnectModal: bool, writeThrows: bool,
                            observed: seq<bool>)
    requires Writes(DepositStep(s, planId, walletBalance, minDeposit, minText, symbol, isConnected, referrer, chain,
                                expectedChainId, hasConnectModal, writeThrows).effects)
    ensures var h := DepositStep(s, planId, walletBalance, minDeposit, minText, symbol, isConnected, referrer,
                                 chain, expectedChainId, hasConnectModal, writeThrows);
      SuccessNotices(h.state, observed) == (if true in observed then 1 else 0)
  {
    DepositOutcomes(s, planId, walletBalance, minDeposit, minText, symbol, isConnected, referrer, chain,
                    expectedChainId, hasConnectModal, writeThrows);
    var h := DepositStep(s, planId, walletBalance, minDeposit, minText, symbol, isConnected, referrer, chain,
                         expectedChainId, hasConnectModal, writeThrows);
    NoticeAtMostOnce(h.state, observed);
  }

  // ---------------------------------------------------------------------------
  // useWithdraw

  datatype WithdrawKind = Roi | Rewards | Referral

  type WithdrawState = TxState<Option<WithdrawKind>>

  const InitialWithdraw: WithdrawState := TxState(None, Blank, false, None)

  /** The key of a withdraw kind, as the handler's `withdrawType` string. */
  function KindName(kind: WithdrawKind): string {
    match kind
    case Roi => "roi"
    case Rewards => "rewards"
    case Referral => "referral"
  }

  /** `functionNameMap`: the contract function a withdraw kind calls. */
  function FunctionNameMap(kind: WithdrawKind): string {
    match kind
    case Roi => "withdrawDividends"
    case Rewards => "withdrawRewards"
    case Referral => "withdrawReferralBonus"
  }

  /** The three kinds call three distinct contract functions, and have distinct processing ids. */
  lemma WithdrawKindsDistinct(a: WithdrawKind, b: WithdrawKind)
    ensures FunctionNameMap(a) == FunctionNameMap(b) <==> a == b
    ensures KindName(a) + "-withdraw" == KindName(b) + "-withdraw" <==> a == b
  {
    if KindName(a) + "-withdraw" == KindName(b) + "-withdraw" {
      assert KindName(a) == (KindName(a) + "-withdraw")[..|KindName(a) + "-withdraw"| - 9];
      assert KindName(b) == (KindName(b) + "-withdraw")[..|KindName(b) + "-withdraw"| - 9];
    }
  }

  /** `handleWithdraw` of the withdraw hook: no balance check, only the connection and network. */
  function WithdrawStep(s: WithdrawState, kind: WithdrawKind, isConnected: bool, chain: ChainQuery,
                        expectedChainId: Option<string>, hasConnectModal: bool, writeThrows: bool)
    : Handled<Option<WithdrawKind>>
  {
    if !isConnected then Handled(s, ConnectModalEffects(hasConnectModal))
    else if chain.Rejected? then Handled(s, [])
    else if ChainMismatch(chain.chainId, expectedChainId.GetOr("")) then Handled(s, [Failed("Wrong network")])
    else
      var submitted := s.(alertShown := false, processingId := Some(KindName(kind) + "-withdraw"),
                          selection := Some(kind));
      if writeThrows then Handled(submitted.(processingId := None), [Failed("Failed to process withdrawal")])
      else Handled(submitted, [WriteContract(ContractCall(FunctionNameMap(kind), Some([]), None))])
  }

  class WithdrawHook {
    var state: WithdrawState

    constructor ()
      ensures state == InitialWithdraw
    {
      state := InitialWithdraw;
    }

    method HandleWithdraw(kind: WithdrawKind, isConnected: bool, chain: ChainQuery, expectedChainId: Option<string>,
                          hasConnectModal: bool, writeThrows: bool)
      returns (effects: seq<UiEffect>)
      modifies this
      ensures Handled(state, effects) == WithdrawStep(old(state), kind, isConnected, chain, expectedChainId,
                                                      hasConnectModal, writeThrows)
    {
      if !isConnected {
        effects := ConnectModalEffects(hasConnectModal);
        return;
      }
      if chain.Rejected? {
        effects := [];
        return;
      }
      if ChainMismatch(chain.chainId, expectedChainId.GetOr("")) {
        effects := [Failed("Wrong network")];
        return;
      }
      state := state.(alertShown := false, processingId := Some(KindName(kind) + "-withdraw"), selection := Some(kind));
      if writeThrows {
        effects := [Failed("Failed to process withdrawal")];
        state := state.(processingId := None);
      } else {
        effects := [WriteContract(ContractCall(FunctionNameMap(kind), Some([]), None))];
      }
    }

    method OnSuccess(isSuccess: bool, withdrawUrl: Option<string>) returns (effects: seq<UiEffect>)
      modifies this
      ensures state == AfterSuccess(old(state), isSuccess)
      ensures effects == SuccessEffects(old(state), isSuccess, SuccessText("Withdrawal", withdrawUrl))
    {
      effects := [];
      if isSuccess && !state.alertShown {
        effects := [Refetch, ShowAlert(SuccessAlert(SuccessText("Withdrawal", withdrawUrl)))];
        state := state.(alertShown := true, processingId := None);
      }
    }
  }

  /**
   * `handleWithdraw` writes exactly when connected on the expected network and the
   * write does not throw, calling the kind's function with no arguments; a network
   * mismatch aborts it with one "Wrong network" alert and no state change.
   */
  lemma WithdrawOutcomes(s: WithdrawState, kind: WithdrawKind, isConnected: bool, chain: ChainQuery,
                         expectedChainId: Option<string>, hasConnectModal: bool, writeThrows: bool)
    ensures var h := WithdrawStep(s, kind, isConnected, chain, expectedChainId, hasConnectModal, writeThrows);
      && (!isConnected ==> h.state == s && h.effects == ConnectModalEffects(hasConnectModal))
      && (isConnected && chain.Rejected? ==> h.state == s && h.effects == [])
      && (Writes(h.effects) <==>
            isConnected && chain.Resolved? && !ChainMismatch(chain.chainId, expectedChainId.GetOr("")) && !writeThrows)
      && (Writes(h.effects) ==>
            && h.effects == [WriteContract(ContractCall(FunctionNameMap(kind), Some([]), None))]
            && h.state == s.(alertShown := false, processingId := Some(KindName(kind) + "-withdraw"),
                             selection := Some(kind)))
      && (isConnected && chain.Resolved? && ChainMismatch(chain.chainId, expectedChainId.GetOr("")) ==>
            h.state == s && h.effects == [ShowAlert(FailedAlert("Wrong network"))])
      && (isConnected && chain.Resolved? && !ChainMismatch(chain.chainId, expectedChainId.GetOr("")) && writeThrows ==>
            && h.state == s.(alertShown := false, processingId := None, selection := Some(kind))
            && h.effects == [ShowAlert(FailedAlert("Failed to process withdrawal"))])
  {
    var h := WithdrawStep(s, kind, isConnected, chain, expectedChainId, hasConnectModal, writeThrows);
    if isConnected && chain.Resolved? && !ChainMismatch(chain.chainId, expectedChainId.GetOr("")) && !writeThrows {
      assert h.effects[0].WriteContract?;
    } else {
      assert forall i | 0 <= i < |h.effects| :: !h.effects[i].WriteContract?;
    }
  }

  // ---------------------------------------------------------------------------
  // useClaimRewards

  type ClaimState = TxState<()>

  const InitialClaim: ClaimState := TxState((), Blank, false, None)

  /** `handleClaim`: the same guards as the withdraw hook, then `claimRewards`. */
  function ClaimStep(s: ClaimState, isConnected: bool, chain: ChainQuery, expectedChainId: Option<string>,
                     hasConnectModal: bool, writeThrows: bool): Handled<()>
  {
    if !isConnected then Handled(s, ConnectModalEffects(hasConnectModal))
    else if chain.Rejected? then Handled(s, [])
    else if ChainMismatch(chain.chainId, expectedChainId.GetOr("")) then Handled(s, [Failed("Wrong network")])
    else
      var submitted := s.(alertShown := false, processingId := Some("claim-rewards"));
      if writeThrows then Handled(submitted.(processingId := None), [Failed("Failed to claim rewards")])
      else Handled(submitted, [WriteContract(ContractCall("claimRewards", Some([]), None))])
  }

  /** The claim hook's success effect: it marks the state on every success and notifies nothing. */
  function ClaimAfterSuccess(s: ClaimState, isSuccess: bool): (r: ClaimState)
    ensures isSuccess ==> r == s.(alertShown := true, processingId := None)
    ensures !isSuccess ==> r == s
  {
    if isSuccess then s.(alertShown := true, processingId := None) else s
  }

  class ClaimHook {
    var state: ClaimState

    constructor ()
      ensures state == InitialClaim
    {
      state := InitialClaim;
    }

    method HandleClaim(isConnected: bool, chain: ChainQuery, expectedChainId: Option<string>,
                       hasConnectModal: bool, writeThrows: bool)
      returns (effects: seq<UiEffect>)
      modifies this
      ensures Handled(state, effects) == ClaimStep(old(state), isConnected, chain, expectedChainId,
                                                   hasConnectModal, writeThrows)
    {
      if !isConnected {
        effects := ConnectModalEffects(hasConnectModal);
        return;
      }
      if chain.Rejected? {
        effects := [];
        return;
      }
      if ChainMismatch(chain.chainId, expectedChainId.GetOr("")) {
        effects := [Failed("Wrong network")];
        return;
      }
      state := state.(alertShown := false, processingId := Some("claim-rewards"));
      if writeThrows {
        effects := [Failed("Failed to claim rewards")];
        state := state.(processingId := None);
      } else {
        effects := [WriteContract(ContractCall("claimRewards", Some([]), None))];
      }
    }

    method OnSuccess(isSuccess: bool)
      modifies this
      ensures state == ClaimAfterSuccess(old(state), isSuccess)
    {
      if isSuccess {
        state := state.(alertShown := true, processingId := None);
      }
    }
  }

  /** A claim writes exactly when connected on the expected network and the write does not throw. */
  lemma ClaimOutcomes(s: ClaimState, isConnected: bool, chain: ChainQuery, expectedChainId: Option<string>,
                      hasConnectModal: bool, writeThrows: bool)
    ensures var h := ClaimStep(s, isConnected, chain, expectedChainId, hasConnectModal, writeThrows);
      && (!isConnected ==> h.state == s && h.effects == ConnectModalEffects(hasConnectModal))
      && (isConnected && chain.Rejected? ==> h.state == s && h.effects == [])
      && (Writes(h.effects) <==>
            isConnected && chain.Resolved? && !ChainMismatch(chain.chainId, expectedChainId.GetOr("")) && !writeThrows)
      && (Writes(h.effects) ==>
            && h.effects == [WriteContract(ContractCall("claimRewards", Some([]), None))]
            && h.state == s.(alertShown := false, processingId := Some("claim-rewards")))
      && (isConnected && chain.Resolved? && ChainMismatch(chain.chainId, expectedChainId.GetOr("")) ==>
            h.state == s && h.effects == [ShowAlert(FailedAlert("Wrong network"))])
      && (isConnected && chain.Resolved? && !ChainMismatch(chain.chainId, expectedChainId.GetOr("")) && writeThrows ==>
            && h.state == s.(alertShown := false, processingId := None)
            && h.effects == [ShowAlert(FailedAlert("Failed to claim rewards"))])
      && AlertCount(h.effects) <= 1
  {
    var h := ClaimStep(s, isConnected, chain, expectedChainId, hasConnectModal, writeThrows);
    if isConnected && chain.Resolved? && !ChainMismatch(chain.chainId, expectedChainId.GetOr("")) && !writeThrows {
      assert h.effects[0].WriteContract?;
    } else {
      assert forall i | 0 <= i < |h.effects| :: !h.effects[i].WriteContract?;
    }
  }

  // ---------------------------------------------------------------------------
  // useTransactionHandler

  /** The error effect of the shared handler: one failed alert naming the transaction. */
  function ErrorEffects(transactionName: string, hasError: bool): (r: seq<UiEffect>)
    ensures hasError ==> r == [ShowAlert(FailedAlert(transactionName + " failed"))]
    ensures !hasError ==> r == []
  {
    if hasError then [Failed(transactionName + " failed")] else []
  }

  /** The error alert names its transaction: two transactions never share one. */
  lemma ErrorAlertNamesTransaction(a: string, b: string)
    requires ErrorEffects(a, true) == ErrorEffects(b, true)
    ensures a == b
  {
    assert a + " failed" == b + " failed";
    assert a == (a + " failed")[..|a|];
    assert b == (b + " failed")[..|b|];
  }
}
