/**
 * The packages panel: the plan table, the referrer taken from the page's `ref`
 * parameter, the ROI preview, the minimum deposit, and which plan shows as
 * active and as processing given the deposit hook's state.
 */
module Deposit {
  import opened Wrappers
  import opened Numbers
  import opened Effects
  import opened WriteFunctions

  /** A package; `givewayBonus` is present only on the bonus plans. */
  datatype Plan = Plan(id: nat, name: string, dailyEarnings: real, totalROI: real, duration: nat,
                       givewayBonus: Option<nat>)

  const Plans: seq<Plan> := [
    Plan(0, "SAVINGS", 12.6, 151.2, 12, None),
    Plan(1, "CLASSICS", 10.5, 189.0, 18, None),
    Plan(2, "PREMIUM", 9.7, 242.5, 25, None),
    Plan(3, "SILVER", 13.3, 159.6, 12, Some(1)),
    Plan(4, "GOLD", 11.6, 208.8, 18, Some(2)),
    Plan(5, "PLATINUM", 11.3, 282.5, 25, Some(3))
  ]

  /**
   * Six plans whose ids are their positions; only ids 3 to 5 carry a giveaway
   * bonus, of 1, 2 and 3; every plan's total ROI is its daily rate over its duration.
   */
  lemma PlansTable()
    ensures |Plans| == 6
    ensures forall i :: 0 <= i < |Plans| ==> Plans[i].id == i
    ensures forall i :: 0 <= i < |Plans| ==> (Plans[i].givewayBonus.Some? <==> i >= 3)
    ensures forall i :: 3 <= i < |Plans| ==> Plans[i].givewayBonus == Some(i - 2)
    ensures forall i :: 0 <= i < |Plans| ==> Plans[i].totalROI == Plans[i].dailyEarnings * (Plans[i].duration as real)
  {}

  /** `ref?.startsWith("0x") && ref.length === 42`. */
  predicate AcceptedReferrer(ref: Option<string>) {
    ref.Some? && |ref.value| == 42 && ref.value[..2] == "0x"
  }

  /** `getReferrer`: the page's `ref` parameter when it looks like an address, else the fallback. */
  function GetReferrer(ref: Option<string>, fallbackReferrer: Option<string>): (r: Option<string>)
    ensures AcceptedReferrer(ref) ==> r == ref
    ensures !AcceptedReferrer(ref) ==> r == fallbackReferrer
  {
    if AcceptedReferrer(ref) then ref else fallbackReferrer
  }

  /** The referrer passed on is either the fallback or a 42-character "0x" string. */
  lemma ReferrerShape(ref: Option<string>, fallbackReferrer: Option<string>)
    ensures var r := GetReferrer(ref, fallbackReferrer);
      r == fallbackReferrer || (r.Some? && |r.value| == 42 && r.value[..2] == "0x")
  {}

  /**
   * `Number(import.meta.env.VITE_APP_DEPOSIT_MIN_DEPOSIT || 0)`: an unset or empty
   * setting is 0, and a setting `Number` cannot read is NaN (None).
   */
  function MinDeposit(setting: Option<AmountText>): (r: Option<real>)
    ensures setting.None? ==> r == Some(0.0)
    ensures setting.Some? ==> r == AmountValue(setting.value)
  {
    match setting
    case None => Some(0.0)
    case Some(text) => AmountValue(text)
  }

  /**
   * `calculateROI`: the amount times the plan's total ROI over 100, to 2 decimals;
   * an empty amount counts as 0 and a malformed one gives NaN (None).
   */
  function CalculateROI(amount: AmountText, plan: Plan): (r: Option<real>)
    ensures r.None? <==> amount.Malformed?
    ensures amount.Blank? ==> r == Some(0.0)
    ensures r.Some? ==>
              var exact := AmountValue(amount).value * plan.totalROI / 100.0;
              HasDecimals(r.value, 2) && -0.5 <= (r.value - exact) * (Pow10(2) as real) <= 0.5
  {
    match AmountValue(amount)
    case None => None
    case Some(v) =>
      if v == 0.0 then
        RoundToZero(2);
        Some(RoundTo(0.0, 2))
      else Some(RoundTo(v * plan.totalROI / 100.0, 2))
  }

  /** `deposit.planId === plan.id`. */
  predicate IsActive(s: DepositState, planId: nat) {
    s.selection == Some(planId)
  }

  /** The card's processing indicator. */
  predicate IsProcessing(s: DepositState, planId: nat, isPending: bool, isLoading: bool) {
    s.processingId == Some(PlanProcessingId(planId)) && (isPending || isLoading)
  }

  /** At most one card shows as processing. */
  lemma AtMostOneProcessing(s: DepositState, a: nat, b: nat, isPending: bool, isLoading: bool)
    requires IsProcessing(s, a, isPending, isLoading) && IsProcessing(s, b, isPending, isLoading)
    ensures a == b
  {
    PlanProcessingIdInjective(a, b);
  }

  /** A card processes only while the transaction is pending or its receipt loading. */
  lemma ProcessingNeedsActivity(s: DepositState, planId: nat)
    ensures !IsProcessing(s, planId, false, false)
  {}

  /** The card's input value: the typed amount on the active card, empty elsewhere. */
  function DisplayedAmount(s: DepositState, planId: nat): AmountText {
    if IsActive(s, planId) then s.amount else Blank
  }

  /** The card's ROI preview: that of its displayed amount, 0 on an inactive card. */
  function PreviewROI(s: DepositState, plan: Plan): Option<real> {
    CalculateROI(if IsActive(s, plan.id) then s.amount else Blank, plan)
  }

  /** The input's `onChange`: select the card's plan and store the typed amount. */
  function AmountInput(s: DepositState, planId: nat, amount: AmountText): DepositState {
    s.(selection := Some(planId), amount := amount)
  }

  method OnAmountInput(hook: DepositHook, planId: nat, amount: AmountText)
    modifies hook
    ensures hook.state == AmountInput(old(hook.state), planId, amount)
  {
    hook.state := hook.state.(selection := Some(planId), amount := amount);
  }

  /**
   * After typing into a card, that card alone is active and shows the amount;
   * every other card shows an empty input and a zero preview; the notification
   * flags are untouched.
   */
  lemma AfterInput(s: DepositState, planId: nat, amount: AmountText, other: Plan)
    requires other.id != planId
    ensures var t := AmountInput(s, planId, amount);
      && IsActive(t, planId) && DisplayedAmount(t, planId) == amount
      && !IsActive(t, other.id) && DisplayedAmount(t, other.id) == Blank
      && PreviewROI(t, other) == Some(0.0)
      && t.alertShown == s.alertShown && t.processingId == s.processingId
  {}

  /**
   * Every card's button submits the hook's one amount: pressing the button of a
   * card that is not active still invests the amount typed into the active card.
   */
  lemma InactiveCardInvestsTypedAmount(s: DepositState, planId: nat, walletBalance: real, minDeposit: real,
                                       minText: string, symbol: string, referrer: Option<string>,
                                       chain: Option<int>, expectedChainId: Option<string>)
    requires !IsActive(s, planId) && s.selection.Some?
    requires ValidateTransaction(true, chain, expectedChainId.GetOr(""), walletBalance, s.amount, minDeposit,
                                 minText, Some(symbol)) == Valid
    ensures DisplayedAmount(s, planId) == Blank
    ensures DepositStep(s, planId, walletBalance, minDeposit, minText, symbol, true, referrer, Resolved(chain),
                        expectedChainId, true, false).effects
            == [WriteContract(InvestCall(referrer, planId, s.amount.value))]
  {}
}
