/**
 * The snapshot aggregator (`fetchContractData`): four global reads that must all
 * succeed, then, for a connected address, seven groups of per-account reads that
 * succeed or fail one group at a time, then three derived values.
 *
 * Every remote read is an input: `Some(value)` when the contract call resolved,
 * `None` when it rejected. Amounts arrive as 18-decimal wei (`nat`) and are stored
 * in whole units (`real`); counts and the checkpoint are stored as plain integers.
 */
module InfuraApi {
  import opened Wrappers
  import opened Numbers

  /** The `ContractData` record; an optional field of the source is an `Option` here. */
  datatype ContractData = ContractData(
    contractBalance: real,
    totalStaked: real,
    totalUsers: int,
    totalRefReward: real,
    checkpoint: Option<int>,
    referrer: Option<string>,
    directedReferralsCount: Option<int>,
    qualifiedReferralsCount: Option<int>,
    userDownlineCount: Option<seq<int>>,
    userAvailable: Option<real>,
    userAvailableROI: Option<real>,
    userAvailableRewards: Option<real>,
    userReferralBonus: Option<real>,
    userReferralTotalBonus: Option<real>,
    userReferralWithdrawn: Option<real>,
    userDepositBonus: Option<real>,
    userTotalDepositBonus: Option<real>,
    userGiveawayBonus: Option<real>,
    userTotalGiveawayBonus: Option<real>,
    userLockedROI: Option<real>,
    userTotalDeposits: real,
    UserActualDividends: Option<real>,
    userProfit: real,
    referralLink: string,
    totalROIWithdrawn: Option<real>,
    totalRewardsWithdrawn: Option<real>)

  /** The four global reads, joined by one `Promise.all`. */
  datatype GlobalReads = GlobalReads(
    contractBalance: Option<nat>, totalStaked: Option<nat>, totalUsers: Option<nat>, totalRefBonus: Option<nat>)
  {
    predicate Ok() {
      contractBalance.Some? && totalStaked.Some? && totalUsers.Some? && totalRefBonus.Some?
    }
  }

  /** Group 1: checkpoint, referrer, direct and qualified referral counts, total deposits. */
  datatype CoreReads = CoreReads(
    checkpoint: Option<nat>, referrer: Option<string>, directReferrals: Option<nat>,
    qualifiedDirects: Option<nat>, totalDeposits: Option<nat>)
  {
    predicate Ok() {
      checkpoint.Some? && referrer.Some? && directReferrals.Some? && qualifiedDirects.Some? && totalDeposits.Some?
    }
  }

  /** Group 2: available balance, available ROI, available rewards, actual dividends. */
  datatype BalanceReads = BalanceReads(
    available: Option<nat>, availableROI: Option<nat>, availableRewards: Option<nat>, actualDividends: Option<nat>)
  {
    predicate Ok() {
      available.Some? && availableROI.Some? && availableRewards.Some? && actualDividends.Some?
    }
  }

  /** Group 3: referral bonus available, total and withdrawn. */
  datatype ReferralReads = ReferralReads(bonus: Option<nat>, totalBonus: Option<nat>, withdrawn: Option<nat>)
  {
    predicate Ok() {
      bonus.Some? && totalBonus.Some? && withdrawn.Some?
    }
  }

  /** Groups 4 to 6: two amounts read together (deposit bonus, giveaway bonus, withdrawal totals). */
  datatype PairReads = PairReads(first: Option<nat>, second: Option<nat>)
  {
    predicate Ok() {
      first.Some? && second.Some?
    }
  }

  /** Every per-account read; group 7 is the per-level downline array. */
  datatype AccountReads = AccountReads(
    core: CoreReads,
    balances: BalanceReads,
    referral: ReferralReads,
    depositBonus: PairReads,
    giveawayBonus: PairReads,
    withdrawn: PairReads,
    downline: Option<seq<nat>>)

  /** Reads that were never issued, for a call without an address. */
  const Unread := AccountReads(
    CoreReads(None, None, None, None, None),
    BalanceReads(None, None, None, None),
    ReferralReads(None, None, None),
    PairReads(None, None), PairReads(None, None), PairReads(None, None),
    None)

  /** `${origin}/?ref=${address}`. */
  function ReferralLink(origin: string, address: string): string {
    origin + "/?ref=" + address
  }

  /** `downlineCount.map(count => Number(count.toString()))`. */
  function DownlineCounts(raw: seq<nat>): (r: seq<int>)
    ensures |r| == |raw|
    ensures forall i :: 0 <= i < |r| ==> r[i] == raw[i]
  {
    seq(|raw|, i requires 0 <= i < |raw| => raw[i] as int)
  }

  /**
   * `userProfit`: the dividends as a percentage of the deposits, to 2 decimals, when
   * the deposits are positive and the dividends are present and not zero; else 0.
   */
  function Profit(deposits: real, dividends: Option<real>): (r: real)
    ensures !(deposits > 0.0 && dividends.Some? && dividends.value != 0.0) ==> r == 0.0
    ensures deposits > 0.0 && dividends.Some? && dividends.value != 0.0 ==>
      HasDecimals(r, 2) && -0.5 <= (r - dividends.value / deposits * 100.0) * 100.0 <= 0.5
  {
    if deposits > 0.0 && dividends.Some? && dividends.value != 0.0
    then RoundTo(dividends.value / deposits * 100.0, 2)
    else 0.0
  }

  /** `userLockedROI`: dividends minus available ROI, absent values counting 0, to 4 decimals. */
  function LockedROI(dividends: Option<real>, availableROI: Option<real>): (r: real)
    ensures HasDecimals(r, 4)
    ensures -0.5 <= (r - (dividends.GetOr(0.0) - availableROI.GetOr(0.0))) * 10000.0 <= 0.5
  {
    RoundTo(dividends.GetOr(0.0) - availableROI.GetOr(0.0), 4)
  }

  /** An amount read, scaled, when its group succeeded; absent otherwise. */
  function Scaled(groupOk: bool, read: Option<nat>): Option<real>
    requires groupOk ==> read.Some?
  {
    if groupOk then Some(WeiToEther(read.value)) else None
  }

  /** A stored amount is its wei read in whole units. */
  predicate ScaledFrom(field: Option<real>, read: Option<nat>) {
    field.Some? && read.Some? && field.value * WeiPerUnit == read.value as real
  }

  /** A count read, unscaled, when its group succeeded; absent otherwise. */
  function Counted(groupOk: bool, read: Option<nat>): Option<int>
    requires groupOk ==> read.Some?
  {
    if groupOk then Some(read.value as int) else None
  }

  /**
   * What `fetchContractData(address)` resolves to, field by field: None when it
   * rejects (some global read failed); otherwise every account field is set from
   * its group's reads exactly when an address is given and that whole group
   * succeeded, and the derived fields follow from the account fields.
   */
  function Snapshot(globals: GlobalReads, address: Option<string>, userReads: AccountReads, origin: string): Option<ContractData>
  {
    if !globals.Ok() then None
    else
      var account := Truthy(address);
      var core := account && userReads.core.Ok();
      var balances := account && userReads.balances.Ok();
      var referral := account && userReads.referral.Ok();
      var deposit := account && userReads.depositBonus.Ok();
      var giveaway := account && userReads.giveawayBonus.Ok();
      var withdrawn := account && userReads.withdrawn.Ok();
      var downline := account && userReads.downline.Some?;
      var deposits := if core then WeiToEther(userReads.core.totalDeposits.value) else 0.0;
      var dividends := Scaled(balances, userReads.balances.actualDividends);
      var availableROI := Scaled(balances, userReads.balances.availableROI);
      Some(ContractData(
        contractBalance := WeiToEther(globals.contractBalance.value),
        totalStaked := WeiToEther(globals.totalStaked.value),
        totalUsers := globals.totalUsers.value,
        totalRefReward := WeiToEther(globals.totalRefBonus.value),
        checkpoint := Counted(core, userReads.core.checkpoint),
        referrer := if core then userReads.core.referrer else None,
        directedReferralsCount := Counted(core, userReads.core.directReferrals),
        qualifiedReferralsCount := Counted(core, userReads.core.qualifiedDirects),
        userDownlineCount := if downline then Some(DownlineCounts(userReads.downline.value)) else None,
        userAvailable := Scaled(balances, userReads.balances.available),
        userAvailableROI := availableROI,
        userAvailableRewards := Scaled(balances, userReads.balances.availableRewards),
        userReferralBonus := Scaled(referral, userReads.referral.bonus),
        userReferralTotalBonus := Scaled(referral, userReads.referral.totalBonus),
        userReferralWithdrawn := Scaled(referral, userReads.referral.withdrawn),
        userDepositBonus := Scaled(deposit, userReads.depositBonus.first),
        userTotalDepositBonus := Scaled(deposit, userReads.depositBonus.second),
        userGiveawayBonus := Scaled(giveaway, userReads.giveawayBonus.first),
        userTotalGiveawayBonus := Scaled(giveaway, userReads.giveawayBonus.second),
        userLockedROI := Some(LockedROI(dividends, availableROI)),
        userTotalDeposits := deposits,
        UserActualDividends := dividends,
        userProfit := Profit(deposits, dividends),
        referralLink := if account then ReferralLink(origin, address.value) else "",
        totalROIWithdrawn := Scaled(withdrawn, userReads.withdrawn.first),
        totalRewardsWithdrawn := Scaled(withdrawn, userReads.withdrawn.second)))
  }

  /**
   * `fetchContractData`: the record is built from the global reads, then each
   * account group that succeeds writes its fields into it, then the derived fields
   * are computed from what the groups left and written back.
   */
  method FetchContractData(globals: GlobalReads, address: Option<string>, userReads: AccountReads, origin: string)
    returns (result: Option<ContractData>)
    ensures result == Snapshot(globals, address, userReads, origin)
  {
    if !(globals.contractBalance.Some? && globals.totalStaked.Some? && globals.totalUsers.Some? && globals.totalRefBonus.Some?) {
      // Promise.all rejects; the outer catch rethrows.
      return None;
    }
    ghost var spec := Snapshot(globals, address, userReads, origin).value;
    var referralLink := "";
    var data := ContractData(
      contractBalance := WeiToEther(globals.contractBalance.value),
      totalStaked := WeiToEther(globals.totalStaked.value),
      totalUsers := globals.totalUsers.value,
      totalRefReward := WeiToEther(globals.totalRefBonus.value),
      checkpoint := None, referrer := None, directedReferralsCount := None, qualifiedReferralsCount := None,
      userDownlineCount := None, userAvailable := None, userAvailableROI := None, userAvailableRewards := None,
      userReferralBonus := None, userReferralTotalBonus := None, userReferralWithdrawn := None,
      userDepositBonus := None, userTotalDepositBonus := None, userGiveawayBonus := None, userTotalGiveawayBonus := None,
      userLockedROI := Some(0.0), userTotalDeposits := 0.0, UserActualDividends := None, userProfit := 0.0,
      referralLink := "", totalROIWithdrawn := None, totalRewardsWithdrawn := None);

    if Truthy(address) {
      var c := userReads.core;
      if c.checkpoint.Some? && c.referrer.Some? && c.directReferrals.Some? && c.qualifiedDirects.Some? && c.totalDeposits.Some? {
        data := data.(
          checkpoint := Some(c.checkpoint.value as int),
          referrer := Some(c.referrer.value),
          directedReferralsCount := Some(c.directReferrals.value as int),
          qualifiedReferralsCount := Some(c.qualifiedDirects.value as int),
          userTotalDeposits := WeiToEther(c.totalDeposits.value));
      }
      var b := userReads.balances;
      if b.available.Some? && b.availableROI.Some? && b.availableRewards.Some? && b.actualDividends.Some? {
        data := data.(
          userAvailable := Some(WeiToEther(b.available.value)),
          userAvailableROI := Some(WeiToEther(b.availableROI.value)),
          userAvailableRewards := Some(WeiToEther(b.availableRewards.value)),
          UserActualDividends := Some(WeiToEther(b.actualDividends.value)));
      }
      var rf := userReads.referral;
      if rf.bonus.Some? && rf.totalBonus.Some? && rf.withdrawn.Some? {
        data := data.(
          userReferralBonus := Some(WeiToEther(rf.bonus.value)),
          userReferralTotalBonus := Some(WeiToEther(rf.totalBonus.value)),
          userReferralWithdrawn := Some(WeiToEther(rf.withdrawn.value)));
      }
      var d := userReads.depositBonus;
      if d.first.Some? && d.second.Some? {
        data := data.(
          userDepositBonus := Some(WeiToEther(d.first.value)),
          userTotalDepositBonus := Some(WeiToEther(d.second.value)));
      }
      var gv := userReads.giveawayBonus;
      if gv.first.Some? && gv.second.Some? {
        data := data.(
          userGiveawayBonus := Some(WeiToEther(gv.first.value)),
          userTotalGiveawayBonus := Some(WeiToEther(gv.second.value)));
      }
      var w := userReads.withdrawn;
      if w.first.Some? && w.second.Some? {
        data := data.(
          totalROIWithdrawn := Some(WeiToEther(w.first.value)),
          totalRewardsWithdrawn := Some(WeiToEther(w.second.value)));
      }
      if userReads.downline.Some? {
        data := data.(userDownlineCount := Some(DownlineCounts(userReads.downline.value)));
      }
      referralLink := origin + "/?ref=" + address.value;
    }
    assert data.(userProfit := spec.userProfit, referralLink := spec.referralLink, userLockedROI := spec.userLockedROI) == spec;

    var userProfit := Profit(data.userTotalDeposits, data.UserActualDividends);
    data := data.(userProfit := userProfit, referralLink := referralLink);
    data := data.(userLockedROI := Some(LockedROI(data.UserActualDividends, data.userAvailableROI)));
    return Some(data);
  }

  // ---------------------------------------------------------------------------
  // Properties of the snapshot

  /** The call rejects exactly when one of the four global reads fails. */
  lemma SnapshotFailsIffGlobalFails(globals: GlobalReads, address: Option<string>, userReads: AccountReads, origin: string)
    ensures Snapshot(globals, address, userReads, origin).None? <==> !globals.Ok()
  {}

  /** The global fields are the four global reads, amounts scaled and the user count as is. */
  lemma SnapshotGlobals(globals: GlobalReads, address: Option<string>, userReads: AccountReads, origin: string)
    requires globals.Ok()
    ensures var d := Snapshot(globals, address, userReads, origin).value;
      && d.contractBalance * WeiPerUnit == globals.contractBalance.value as real
      && d.totalStaked * WeiPerUnit == globals.totalStaked.value as real
      && d.totalUsers == globals.totalUsers.value
      && d.totalRefReward * WeiPerUnit == globals.totalRefBonus.value as real
  {}

  /**
   * Without an address no account read is consulted: every account field is absent
   * except the four the initial record sets, deposits 0, profit 0, link "" and
   * locked ROI 0.
   */
  lemma {:induction false} SnapshotWithoutAddress(globals: GlobalReads, address: Option<string>, userReads: AccountReads, origin: string)
    requires globals.Ok() && !Truthy(address)
    ensures Snapshot(globals, address, userReads, origin) == Snapshot(globals, None, Unread, "")
    ensures var d := Snapshot(globals, address, userReads, origin).value;
      && d.checkpoint.None? && d.referrer.None? && d.directedReferralsCount.None? && d.qualifiedReferralsCount.None?
      && d.userDownlineCount.None? && d.userAvailable.None? && d.userAvailableROI.None? && d.userAvailableRewards.None?
      && d.userReferralBonus.None? && d.userReferralTotalBonus.None? && d.userReferralWithdrawn.None?
      && d.userDepositBonus.None? && d.userTotalDepositBonus.None? && d.userGiveawayBonus.None?
      && d.userTotalGiveawayBonus.None? && d.UserActualDividends.None?
      && d.totalROIWithdrawn.None? && d.totalRewardsWithdrawn.None?
      && d.userTotalDeposits == 0.0 && d.userProfit == 0.0 && d.referralLink == "" && d.userLockedROI == Some(0.0)
  {
    RoundToZero(4);
    assert 0.0 / (Pow10(4) as real) == 0.0;
  }

  /**
   * Each group is all-or-nothing: with an address, all of a group's fields are set
   * when all of its userReads succeeded, and all are absent (deposits 0) otherwise.
   */
  lemma SnapshotGroupsAtomic(globals: GlobalReads, address: Option<string>, userReads: AccountReads, origin: string)
    requires globals.Ok() && Truthy(address)
    ensures var d := Snapshot(globals, address, userReads, origin).value;
      && (userReads.core.Ok() ==>
            d.checkpoint == Some(userReads.core.checkpoint.value as int)
            && d.referrer == userReads.core.referrer
            && d.directedReferralsCount == Some(userReads.core.directReferrals.value as int)
            && d.qualifiedReferralsCount == Some(userReads.core.qualifiedDirects.value as int)
            && d.userTotalDeposits * WeiPerUnit == userReads.core.totalDeposits.value as real)
      && (!userReads.core.Ok() ==>
            d.checkpoint.None? && d.referrer.None? && d.directedReferralsCount.None?
            && d.qualifiedReferralsCount.None? && d.userTotalDeposits == 0.0)
      && (d.userAvailable.Some? == d.userAvailableROI.Some? == d.userAvailableRewards.Some?
            == d.UserActualDividends.Some? == userReads.balances.Ok())
      && (d.userReferralBonus.Some? == d.userReferralTotalBonus.Some? == d.userReferralWithdrawn.Some?
            == userReads.referral.Ok())
      && (d.userDepositBonus.Some? == d.userTotalDepositBonus.Some? == userReads.depositBonus.Ok())
      && (d.userGiveawayBonus.Some? == d.userTotalGiveawayBonus.Some? == userReads.giveawayBonus.Ok())
      && (d.totalROIWithdrawn.Some? == d.totalRewardsWithdrawn.Some? == userReads.withdrawn.Ok())
      && (d.userDownlineCount.Some? == userReads.downline.Some?)
      && (userReads.balances.Ok() ==>
            && ScaledFrom(d.userAvailable, userReads.balances.available)
            && ScaledFrom(d.userAvailableROI, userReads.balances.availableROI)
            && ScaledFrom(d.userAvailableRewards, userReads.balances.availableRewards)
            && ScaledFrom(d.UserActualDividends, userReads.balances.actualDividends))
      && (userReads.referral.Ok() ==>
            && ScaledFrom(d.userReferralBonus, userReads.referral.bonus)
            && ScaledFrom(d.userReferralTotalBonus, userReads.referral.totalBonus)
            && ScaledFrom(d.userReferralWithdrawn, userReads.referral.withdrawn))
      && (userReads.depositBonus.Ok() ==>
            && ScaledFrom(d.userDepositBonus, userReads.depositBonus.first)
            && ScaledFrom(d.userTotalDepositBonus, userReads.depositBonus.second))
      && (userReads.giveawayBonus.Ok() ==>
            && ScaledFrom(d.userGiveawayBonus, userReads.giveawayBonus.first)
            && ScaledFrom(d.userTotalGiveawayBonus, userReads.giveawayBonus.second))
      && (userReads.withdrawn.Ok() ==>
            && ScaledFrom(d.totalROIWithdrawn, userReads.withdrawn.first)
            && ScaledFrom(d.totalRewardsWithdrawn, userReads.withdrawn.second))
  {}

  /**
   * No cross-group contamination: a group's fields depend on that group's userReads
   * only, so changing what one group's userReads return changes no other group's fields.
   */
  lemma SnapshotGroupsIndependent(globals: GlobalReads, address: Option<string>, r1: AccountReads, r2: AccountReads, origin: string)
    requires globals.Ok()
    ensures var d1, d2 := Snapshot(globals, address, r1, origin).value, Snapshot(globals, address, r2, origin).value;
      && (r1.core == r2.core ==>
            d1.checkpoint == d2.checkpoint && d1.referrer == d2.referrer
            && d1.directedReferralsCount == d2.directedReferralsCount
            && d1.qualifiedReferralsCount == d2.qualifiedReferralsCount
            && d1.userTotalDeposits == d2.userTotalDeposits)
      && (r1.balances == r2.balances ==>
            d1.userAvailable == d2.userAvailable && d1.userAvailableROI == d2.userAvailableROI
            && d1.userAvailableRewards == d2.userAvailableRewards && d1.UserActualDividends == d2.UserActualDividends
            && d1.userLockedROI == d2.userLockedROI)
      && (r1.referral == r2.referral ==>
            d1.userReferralBonus == d2.userReferralBonus && d1.userReferralTotalBonus == d2.userReferralTotalBonus
            && d1.userReferralWithdrawn == d2.userReferralWithdrawn)
      && (r1.depositBonus == r2.depositBonus ==>
            d1.userDepositBonus == d2.userDepositBonus && d1.userTotalDepositBonus == d2.userTotalDepositBonus)
      && (r1.giveawayBonus == r2.giveawayBonus ==>
            d1.userGiveawayBonus == d2.userGiveawayBonus && d1.userTotalGiveawayBonus == d2.userTotalGiveawayBonus)
      && (r1.withdrawn == r2.withdrawn ==>
            d1.totalROIWithdrawn == d2.totalROIWithdrawn && d1.totalRewardsWithdrawn == d2.totalRewardsWithdrawn)
      && (r1.downline == r2.downline ==> d1.userDownlineCount == d2.userDownlineCount)
      && (r1.core == r2.core && r1.balances == r2.balances ==> d1.userProfit == d2.userProfit)
      && d1.referralLink == d2.referralLink
      && d1.contractBalance == d2.contractBalance && d1.totalStaked == d2.totalStaked
      && d1.totalUsers == d2.totalUsers && d1.totalRefReward == d2.totalRefReward
  {}

  /** With an address the link is origin + "/?ref=" + address, whatever the groups did. */
  lemma SnapshotReferralLink(globals: GlobalReads, address: Option<string>, userReads: AccountReads, origin: string)
    requires globals.Ok() && Truthy(address)
    ensures Snapshot(globals, address, userReads, origin).value.referralLink == origin + "/?ref=" + address.value
  {}

  /** The downline array keeps the contract's length and converts element by element. */
  lemma SnapshotDownline(globals: GlobalReads, address: Option<string>, userReads: AccountReads, origin: string)
    requires globals.Ok() && Truthy(address) && userReads.downline.Some?
    ensures var counts := Snapshot(globals, address, userReads, origin).value.userDownlineCount.value;
      && |counts| == |userReads.downline.value|
      && forall i :: 0 <= i < |counts| ==> counts[i] == userReads.downline.value[i]
  {}

  /** With no deposits recorded the profit is 0, whatever the dividends. */
  lemma SnapshotProfitWithoutDeposits(globals: GlobalReads, address: Option<string>, userReads: AccountReads, origin: string)
    requires globals.Ok()
    requires Snapshot(globals, address, userReads, origin).value.userTotalDeposits == 0.0
    ensures Snapshot(globals, address, userReads, origin).value.userProfit == 0.0
  {}

  /** 10 units of dividends with 3 units of ROI available lock exactly 7 units. */
  lemma {:induction false} LockedROIExample()
    ensures LockedROI(Some(10.0), Some(3.0)) == 7.0
  {
    RoundToExact(70000, 4);
    assert 70000 as real / (Pow10(4) as real) == 7.0;
  }
}
