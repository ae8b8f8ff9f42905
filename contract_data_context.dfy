/**
 * The snapshot store of the React context provider: the `data`, `loading` and
 * `error` state, the two overlay refreshes that merge a fetched snapshot into
 * it, the reset on disconnect, and the dispatch rules that decide which of them
 * run when the connection changes or a refetch is requested.
 *
 * Each refresh calls the aggregator with the remote reads it would receive;
 * when the aggregator rejects, `thrown` is the value it threw.
 */
module ContractDataContext {
  import opened Wrappers
  import opened InfuraApi

  const ZeroAddress: string := "0x0000000000000000000000000000000000000000"

  /** `initialData`. */
  const InitialData: ContractData := ContractData(
    contractBalance := 0.0, totalStaked := 0.0, totalUsers := 0, totalRefReward := 0.0,
    checkpoint := Some(0), referrer := Some(ZeroAddress),
    directedReferralsCount := Some(0), qualifiedReferralsCount := Some(0), userDownlineCount := Some([]),
    userAvailable := Some(0.0), userAvailableROI := Some(0.0), userAvailableRewards := Some(0.0),
    userReferralBonus := Some(0.0), userReferralTotalBonus := Some(0.0), userReferralWithdrawn := Some(0.0),
    userDepositBonus := Some(0.0), userTotalDepositBonus := Some(0.0),
    userGiveawayBonus := Some(0.0), userTotalGiveawayBonus := Some(0.0),
    userLockedROI := Some(0.0), userTotalDeposits := 0.0, UserActualDividends := Some(0.0), userProfit := 0.0,
    referralLink := "", totalROIWithdrawn := Some(0.0), totalRewardsWithdrawn := Some(0.0))

  /** What a rejected fetch threw: an `Error` instance with its message, or any other value. */
  datatype Thrown = ErrorInstance(message: string) | OtherValue

  /** `err instanceof Error ? err.message : fallback`. */
  function ErrorMessage(thrown: Thrown, fallback: string): string {
    match thrown
    case ErrorInstance(message) => message
    case OtherValue => fallback
  }

  const GlobalFetchFallback: string := "Unknown error fetching contract data"
  const UserFetchFallback: string := "Unknown error fetching user data"

  /** a and b agree on the four global fields. */
  predicate SameGlobals(a: ContractData, b: ContractData) {
    && a.contractBalance == b.contractBalance
    && a.totalStaked == b.totalStaked
    && a.totalUsers == b.totalUsers
    && a.totalRefReward == b.totalRefReward
  }

  /** a and b agree on every account field except the referrer. */
  predicate SameAccountFieldsButReferrer(a: ContractData, b: ContractData) {
    && a.checkpoint == b.checkpoint
    && a.directedReferralsCount == b.directedReferralsCount
    && a.qualifiedReferralsCount == b.qualifiedReferralsCount
    && a.userDownlineCount == b.userDownlineCount
    && a.userAvailable == b.userAvailable
    && a.userAvailableROI == b.userAvailableROI
    && a.userAvailableRewards == b.userAvailableRewards
    && a.userReferralBonus == b.userReferralBonus
    && a.userReferralTotalBonus == b.userReferralTotalBonus
    && a.userReferralWithdrawn == b.userReferralWithdrawn
    && a.userDepositBonus == b.userDepositBonus
    && a.userTotalDepositBonus == b.userTotalDepositBonus
    && a.userGiveawayBonus == b.userGiveawayBonus
    && a.userTotalGiveawayBonus == b.userTotalGiveawayBonus
    && a.userLockedROI == b.userLockedROI
    && a.userTotalDeposits == b.userTotalDeposits
    && a.UserActualDividends == b.UserActualDividends
    && a.userProfit == b.userProfit
    && a.referralLink == b.referralLink
    && a.totalROIWithdrawn == b.totalROIWithdrawn
    && a.totalRewardsWithdrawn == b.totalRewardsWithdrawn
  }

  /** a and b agree on every account field. */
  predicate SameAccountFields(a: ContractData, b: ContractData) {
    SameAccountFieldsButReferrer(a, b) && a.referrer == b.referrer
  }

  /** The global fields and the account fields between them are the whole record. */
  lemma FieldsDetermineRecord(a: ContractData, b: ContractData)
    requires SameGlobals(a, b) && SameAccountFields(a, b)
    ensures a == b
  {}

  /** The `setData` updater of `fetchContractOnlyData`: the four global fields from the fetch. */
  function OverlayGlobals(prev: ContractData, fetched: ContractData): (r: ContractData)
    ensures SameGlobals(r, fetched) && SameAccountFields(r, prev)
  {
    prev.(
      contractBalance := fetched.contractBalance,
      totalStaked := fetched.totalStaked,
      totalUsers := fetched.totalUsers,
      totalRefReward := fetched.totalRefReward)
  }

  /** The `setData` updater of `fetchUserData`: the listed account fields from the fetch. */
  function OverlayUser(prev: ContractData, fetched: ContractData): (r: ContractData)
    ensures SameGlobals(r, prev) && SameAccountFields(r, fetched)
  {
    prev.(
      userAvailable := fetched.userAvailable,
      userAvailableROI := fetched.userAvailableROI,
      userAvailableRewards := fetched.userAvailableRewards,
      userReferralBonus := fetched.userReferralBonus,
      userReferralTotalBonus := fetched.userReferralTotalBonus,
      userReferralWithdrawn := fetched.userReferralWithdrawn,
      qualifiedReferralsCount := fetched.qualifiedReferralsCount,
      userTotalDeposits := fetched.userTotalDeposits,
      userProfit := fetched.userProfit,
      referralLink := fetched.referralLink,
      checkpoint := fetched.checkpoint,
      referrer := fetched.referrer,
      directedReferralsCount := fetched.directedReferralsCount,
      UserActualDividends := fetched.UserActualDividends,
      userLockedROI := fetched.userLockedROI,
      userDepositBonus := fetched.userDepositBonus,
      userTotalDepositBonus := fetched.userTotalDepositBonus,
      userGiveawayBonus := fetched.userGiveawayBonus,
      userTotalGiveawayBonus := fetched.userTotalGiveawayBonus,
      totalROIWithdrawn := fetched.totalROIWithdrawn,
      totalRewardsWithdrawn := fetched.totalRewardsWithdrawn,
      userDownlineCount := fetched.userDownlineCount)
  }

  /** The `setData` updater of `resetUserData`: account fields to 0, "" or [], referrer kept. */
  function ResetUser(prev: ContractData): (r: ContractData)
    ensures SameGlobals(r, prev) && r.referrer == prev.referrer
    ensures SameAccountFieldsButReferrer(r, InitialData)
  {
    prev.(
      userAvailable := Some(0.0),
      userAvailableROI := Some(0.0),
      userAvailableRewards := Some(0.0),
      userReferralBonus := Some(0.0),
      userReferralTotalBonus := Some(0.0),
      qualifiedReferralsCount := Some(0),
      userReferralWithdrawn := Some(0.0),
      userTotalDeposits := 0.0,
      userProfit := 0.0,
      referralLink := "",
      checkpoint := Some(0),
      directedReferralsCount := Some(0),
      UserActualDividends := Some(0.0),
      userLockedROI := Some(0.0),
      userDepositBonus := Some(0.0),
      userTotalDepositBonus := Some(0.0),
      userGiveawayBonus := Some(0.0),
      userTotalGiveawayBonus := Some(0.0),
      totalROIWithdrawn := Some(0.0),
      totalRewardsWithdrawn := Some(0.0),
      userDownlineCount := Some([]))
  }

  /** The provider's three pieces of state. */
  datatype StoreState = StoreState(data: ContractData, loading: bool, error: Option<string>)

  /** `fetchContractOnlyData`, from the state before to the state once it has settled. */
  function FetchGlobalStep(s: StoreState, globals: GlobalReads, thrown: Thrown): StoreState {
    match Snapshot(globals, None, Unread, "")
    case Some(fetched) => StoreState(OverlayGlobals(s.data, fetched), false, None)
    case None => StoreState(s.data, false, Some(ErrorMessage(thrown, GlobalFetchFallback)))
  }

  /** `fetchUserData` for the current `address`, once it has settled. */
  function FetchUserStep(s: StoreState, address: Option<string>, globals: GlobalReads, userReads: AccountReads,
                         origin: string, thrown: Thrown): StoreState
  {
    if !Truthy(address) then s
    else match Snapshot(globals, address, userReads, origin)
      case Some(fetched) => StoreState(OverlayUser(s.data, fetched), false, None)
      case None => StoreState(s.data, false, Some(ErrorMessage(thrown, UserFetchFallback)))
  }

  /** `resetUserData`. */
  function ResetStep(s: StoreState): StoreState {
    s.(data := ResetUser(s.data), error := None)
  }

  /** A user refresh runs on a connection change only when connected with an address; otherwise a reset. */
  predicate UserRefreshRuns(isConnected: bool, address: Option<string>) {
    isConnected && Truthy(address)
  }

  /** The effect on `[isConnected, address]`. */
  function ConnectionStep(s: StoreState, isConnected: bool, address: Option<string>, globals: GlobalReads,
                          userReads: AccountReads, origin: string, thrown: Thrown): StoreState
  {
    if UserRefreshRuns(isConnected, address) then FetchUserStep(s, address, globals, userReads, origin, thrown)
    else ResetStep(s)
  }

  /**
   * `refetchData`: a user refresh when connected with an address, then a global
   * refresh. The two calls read the contract separately, so each has its own reads.
   */
  function RefetchStep(s: StoreState, isConnected: bool, address: Option<string>,
                       userGlobals: GlobalReads, userReads: AccountReads, origin: string, userThrown: Thrown,
                       globals: GlobalReads, thrown: Thrown): StoreState
  {
    var afterUser := if UserRefreshRuns(isConnected, address)
                     then FetchUserStep(s, address, userGlobals, userReads, origin, userThrown)
                     else s;
    FetchGlobalStep(afterUser, globals, thrown)
  }

  /** The provider component's state, updated by its setters. */
  class ContractDataStore {
    var data: ContractData
    var loading: bool
    var error: Option<string>

    function State(): StoreState
      reads this
    {
      StoreState(data, loading, error)
    }

    constructor ()
      ensures State() == StoreState(InitialData, true, None)
    {
      data := InitialData;
      loading := true;
      error := None;
    }

    method FetchContractOnlyData(globals: GlobalReads, thrown: Thrown)
      modifies this
      ensures State() == FetchGlobalStep(old(State()), globals, thrown)
    {
      loading := true;
      error := None;
      var fetched := FetchContractData(globals, None, Unread, "");
      if fetched.Some? {
        data := OverlayGlobals(data, fetched.value);
      } else {
        error := Some(ErrorMessage(thrown, GlobalFetchFallback));
      }
      loading := false;
    }

    method FetchUserData(address: Option<string>, globals: GlobalReads, userReads: AccountReads,
                         origin: string, thrown: Thrown)
      modifies this
      ensures State() == FetchUserStep(old(State()), address, globals, userReads, origin, thrown)
    {
      if !Truthy(address) {
        return;
      }
      loading := true;
      error := None;
      var fetched := FetchContractData(globals, address, userReads, origin);
      if fetched.Some? {
        data := OverlayUser(data, fetched.value);
      } else {
        error := Some(ErrorMessage(thrown, UserFetchFallback));
      }
      loading := false;
    }

    method ResetUserData()
      modifies this
      ensures State() == ResetStep(old(State()))
    {
      data := ResetUser(data);
      error := None;
    }

    /** The effect that runs when `isConnected` or `address` changes. */
    method OnConnectionChange(isConnected: bool, address: Option<string>, globals: GlobalReads,
                              userReads: AccountReads, origin: string, thrown: Thrown)
      modifies this
      ensures State() == ConnectionStep(old(State()), isConnected, address, globals, userReads, origin, thrown)
    {
      if isConnected && Truthy(address) {
        FetchUserData(address, globals, userReads, origin, thrown);
      } else {
        ResetUserData();
      }
    }

    method RefetchData(isConnected: bool, address: Option<string>,
                       userGlobals: GlobalReads, userReads: AccountReads, origin: string, userThrown: Thrown,
                       globals: GlobalReads, thrown: Thrown)
      modifies this
      ensures State() == RefetchStep(old(State()), isConnected, address, userGlobals, userReads, origin, userThrown,
                                     globals, thrown)
    {
      if isConnected && Truthy(address) {
        FetchUserData(address, userGlobals, userReads, origin, userThrown);
      }
      FetchContractOnlyData(globals, thrown);
    }
  }

  // ---------------------------------------------------------------------------
  // Properties of the store

  /** The initial snapshot: zeros, the zero-address referrer, no downline and no link. */
  lemma InitialDataDefaults()
    ensures InitialData.contractBalance == InitialData.totalStaked == InitialData.totalRefReward == 0.0
    ensures InitialData.totalUsers == 0
    ensures InitialData.referrer == Some(ZeroAddress)
    ensures InitialData.userDownlineCount == Some([]) && InitialData.referralLink == ""
    ensures InitialData.userTotalDeposits == InitialData.userProfit == 0.0
    ensures InitialData.checkpoint == InitialData.directedReferralsCount == InitialData.qualifiedReferralsCount == Some(0)
  {}

  /**
   * A global refresh that succeeds overwrites exactly the four global fields with
   * the fetched ones and clears the error; one that fails keeps the data and
   * records the message. Either way loading ends false.
   */
  lemma GlobalRefreshFrame(s: StoreState, globals: GlobalReads, thrown: Thrown)
    ensures var t := FetchGlobalStep(s, globals, thrown);
      && !t.loading
      && SameAccountFields(t.data, s.data)
      && (globals.Ok() ==> t.error.None? && SameGlobals(t.data, Snapshot(globals, None, Unread, "").value))
      && (!globals.Ok() ==> t.data == s.data && t.error == Some(ErrorMessage(thrown, GlobalFetchFallback)))
  {}

  /** Without an address the user refresh changes nothing at all. */
  lemma UserRefreshWithoutAddress(s: StoreState, address: Option<string>, globals: GlobalReads,
                                  userReads: AccountReads, origin: string, thrown: Thrown)
    requires !Truthy(address)
    ensures FetchUserStep(s, address, globals, userReads, origin, thrown) == s
  {}

  /**
   * With an address the user refresh leaves the global fields alone; on success it
   * takes every account field from the fetch, on failure it keeps the data and
   * records the message. Either way loading ends false.
   */
  lemma UserRefreshFrame(s: StoreState, address: Option<string>, globals: GlobalReads,
                         userReads: AccountReads, origin: string, thrown: Thrown)
    requires Truthy(address)
    ensures var t := FetchUserStep(s, address, globals, userReads, origin, thrown);
      && !t.loading
      && SameGlobals(t.data, s.data)
      && (globals.Ok() ==> t.error.None? && SameAccountFields(t.data, Snapshot(globals, address, userReads, origin).value))
      && (!globals.Ok() ==> t.data == s.data && t.error == Some(ErrorMessage(thrown, UserFetchFallback)))
  {}

  /**
   * A group that fails during a user refresh is not retained: its fields become
   * absent in the store, whatever they held (shown for the core group, whose
   * deposits become 0, and the balances group).
   */
  lemma FailedGroupOverlaidAsAbsent(s: StoreState, address: Option<string>, globals: GlobalReads,
                                    userReads: AccountReads, origin: string, thrown: Thrown)
    requires Truthy(address) && globals.Ok()
    ensures var t := FetchUserStep(s, address, globals, userReads, origin, thrown).data;
      && (!userReads.core.Ok() ==>
            t.checkpoint.None? && t.referrer.None? && t.directedReferralsCount.None?
            && t.qualifiedReferralsCount.None? && t.userTotalDeposits == 0.0 && t.userProfit == 0.0)
      && (!userReads.balances.Ok() ==>
            t.userAvailable.None? && t.userAvailableROI.None? && t.userAvailableRewards.None?
            && t.UserActualDividends.None? && t.userProfit == 0.0)
  {}

  /**
   * The reset puts every account field but the referrer back to its initial value,
   * clears the error, and leaves the global fields, the referrer and loading alone.
   */
  lemma ResetRestoresInitial(s: StoreState)
    ensures var t := ResetStep(s);
      && t.data == OverlayGlobals(InitialData.(referrer := s.data.referrer), s.data)
      && t.error.None? && t.loading == s.loading
  {}

  /** The two overlays touch disjoint fields, so their order does not matter. */
  lemma OverlaysCommute(prev: ContractData, global: ContractData, user: ContractData)
    ensures OverlayGlobals(OverlayUser(prev, user), global) == OverlayUser(OverlayGlobals(prev, global), user)
  {}

  /**
   * On a connection change: connected with an address, the account fields come
   * from the fetch (when it succeeds); otherwise they are reset. The global fields
   * are never touched.
   */
  lemma ConnectionDispatch(s: StoreState, isConnected: bool, address: Option<string>, globals: GlobalReads,
                           userReads: AccountReads, origin: string, thrown: Thrown)
    ensures var t := ConnectionStep(s, isConnected, address, globals, userReads, origin, thrown);
      && SameGlobals(t.data, s.data)
      && (UserRefreshRuns(isConnected, address) && globals.Ok() ==>
            SameAccountFields(t.data, Snapshot(globals, address, userReads, origin).value))
      && (!UserRefreshRuns(isConnected, address) ==>
            SameAccountFieldsButReferrer(t.data, InitialData) && t.data.referrer == s.data.referrer && t.error.None?)
  {}

  /**
   * `refetchData` always refreshes the global fields, and changes the account
   * fields only when connected with an address.
   */
  lemma RefetchDispatch(s: StoreState, isConnected: bool, address: Option<string>,
                        userGlobals: GlobalReads, userReads: AccountReads, origin: string, userThrown: Thrown,
                        globals: GlobalReads, thrown: Thrown)
    ensures var t := RefetchStep(s, isConnected, address, userGlobals, userReads, origin, userThrown, globals, thrown);
      && !t.loading
      && (globals.Ok() ==> SameGlobals(t.data, Snapshot(globals, None, Unread, "").value))
      && (!globals.Ok() ==> SameGlobals(t.data, s.data))
      && (!UserRefreshRuns(isConnected, address) ==> SameAccountFields(t.data, s.data))
      && (UserRefreshRuns(isConnected, address) && userGlobals.Ok() ==>
            SameAccountFields(t.data, Snapshot(userGlobals, address, userReads, origin).value))
  {}
}
