# stakebnb front end: decision and state logic in Dafny

This project models the logic beneath the rendering of the stakebnb React front end, which serves an on-chain staking contract. It covers:

- the chain-selector tables;
- the assembly of the contract snapshot from remote reads, as groups that succeed or fail independently;
- the context store, which merges a snapshot into its state by overlay, resets on disconnect and dispatches refreshes;
- the transaction hooks: ordered validation, the `alertShown` once-only success notice, and the mapping from withdraw kind to contract function;
- the component rules for ROI withdrawal, deposit, referral and the connection alert.

Remote reads and wallet hook outputs are plain inputs. A read that may fail is an `Option`. Amounts are exact: wei is a `nat`, and whole units are `real`. A handler returns the side effects it performs, in order, as a `seq<UiEffect>` (alerts, the connect modal, contract writes, refetches, clipboard writes). State that React keeps in `useState` or `useRef` is a field of a class. The class's methods are proved against pure step functions, and the properties are lemmas about those functions.

Module layout:

- one module per source file: `ProviderUtils`, `InfuraApi`, `ContractDataContext`, `WriteFunctions`, `YourIncome`, `Deposit`, `Referral`, `WalletConnect`;
- `Wrappers`, for `Option`, `Result` and JavaScript truthiness;
- `Numbers`, for wei scaling, `toFixed`-style rounding, decimal rendering and parsing;
- `Effects`, for the UI effect values.

## Model

| member | source | states |
|---|---|---|
| ProviderUtils.GetNetwork | src/utils/ProviderUtils.ts:30-52 | succeeds on exactly the eight selectors; any other selector fails with "Unsupported chain ID: " followed by the selector |
| ProviderUtils.GetWalletSymbol | src/utils/ProviderUtils.ts:54-70 | succeeds on exactly the eight selectors with a non-empty symbol; otherwise the same failure message |
| ProviderUtils.GetWalletChainId | src/utils/ProviderUtils.ts:72-88 | succeeds on exactly the eight selectors with a positive chain id; otherwise the same failure message |
| ProviderUtils.ChainIdsAsListed | src/utils/ProviderUtils.ts:74-83 | bsc→56, bscTestnet→97, polygon→137, polygonAmoy→80002, avax→43114, avaxFuji→43113, sonic→146, sonicTestnet→57054 |
| ProviderUtils.SymbolsAsListed | src/utils/ProviderUtils.ts:56-65 | bsc/bscTestnet→BNB, polygon/polygonAmoy→POL, avax/avaxFuji→AVAX, sonic/sonicTestnet→S |
| ProviderUtils.LookupsAgreeOnDomain | src/utils/ProviderUtils.ts:32-50 | the three lookups accept the same selectors and fail with the same message |
| ProviderUtils.ChainIdsDistinct | src/utils/ProviderUtils.ts:74-83 | distinct selectors have distinct chain ids, so a mainnet and its testnet differ |
| ProviderUtils.NetworksDistinct | src/utils/ProviderUtils.ts:32-48 | distinct selectors resolve to distinct chains |
| ProviderUtils.SymbolSharedWithinPair | src/utils/ProviderUtils.ts:56-65 | two selectors share a symbol iff they are the mainnet and testnet of one family |
| Numbers.WeiToEther | src/utils/infuraApi.ts:59-62 | the whole-unit amount times 10^18 is the wei amount; it is never negative |
| Numbers.RoundTo | src/utils/infuraApi.ts:181 | the result has at most the given number of decimals and lies within half a unit of the last place of the exact value |
| Numbers.RoundToExact | src/utils/infuraApi.ts:187 | a value that already has the given decimals is left unchanged by rounding |
| Numbers.NatToString | src/utils/writeFunctions.ts:150 | the decimal rendering is non-empty, all digits, and one character long iff the number is below 10 |
| Numbers.DigitsValueOfNatToString | src/utils/writeFunctions.ts:150 | reading a rendering back gives the number rendered |
| Numbers.NatToStringInjective | src/utils/writeFunctions.ts:150 | distinct numbers have distinct renderings |
| Numbers.NumberOfDigits | src/utils/writeFunctions.ts:59 | `Number` of a configured chain id: defined iff the text is all digits, and the rendering of n reads as n |
| Numbers.ParseIntPrefix | src/components/YourIncome/index.tsx:82 | `parseInt`: NaN iff the text does not start with a digit |
| Numbers.ParsersReadRendering | src/components/YourIncome/index.tsx:26 | both parsers read the `toString` rendering of a chain id back as that id |
| InfuraApi.DownlineCounts | src/utils/infuraApi.ts:170-173 | same length as the contract's array, converted element by element |
| InfuraApi.Profit | src/utils/infuraApi.ts:179-184 | 0 unless deposits > 0 and dividends are present and non-zero; otherwise dividends / deposits × 100, rounded to 2 decimals |
| InfuraApi.LockedROI | src/utils/infuraApi.ts:186-187 | dividends minus available ROI, with absent values taken as 0, rounded to 4 decimals |
| InfuraApi.FetchContractData | src/utils/infuraApi.ts:43-194 | the record built group by group equals the closed form `Snapshot`: None when a global read fails; otherwise each group is set iff all its reads succeed, followed by the derived profit, locked ROI and link |
| InfuraApi.SnapshotFailsIffGlobalFails | src/utils/infuraApi.ts:49-54 | the call fails exactly when one of the four global reads fails |
| InfuraApi.SnapshotGlobals | src/utils/infuraApi.ts:58-62 | global amounts are scaled from wei; the user count is unscaled |
| InfuraApi.SnapshotWithoutAddress | src/utils/infuraApi.ts:58-69 | with no address the account reads are ignored: every account field is absent except deposits 0, profit 0, link "" and locked ROI 0 |
| InfuraApi.SnapshotGroupsAtomic | src/utils/infuraApi.ts:69-174 | each group's fields are all set when every read of the group succeeded, and all absent otherwise (deposits 0); every amount of a successful group is its wei read in whole units; counts and the checkpoint are unscaled |
| InfuraApi.SnapshotGroupsIndependent | src/utils/infuraApi.ts:70-174 | a group's fields depend on that group's reads alone |
| InfuraApi.SnapshotReferralLink | src/utils/infuraApi.ts:176-185 | with an address the link is origin + "/?ref=" + address, whatever the groups did |
| InfuraApi.SnapshotDownline | src/utils/infuraApi.ts:169-174 | the downline array has the contract's length and its values |
| InfuraApi.SnapshotProfitWithoutDeposits | src/utils/infuraApi.ts:179-182 | no deposits means profit 0 |
| InfuraApi.LockedROIExample | src/utils/infuraApi.ts:186-187 | dividends 10 and available ROI 3 lock exactly 7 |
| ContractDataContext.OverlayGlobals | src/components/context/ContractDataContext.tsx:98-104 | takes the four global fields from the fetch and keeps every account field |
| ContractDataContext.OverlayUser | src/components/context/ContractDataContext.tsx:122-146 | takes every account field, referrer included, from the fetch and keeps the four global fields |
| ContractDataContext.ResetUser | src/components/context/ContractDataContext.tsx:156-180 | keeps the global fields and the referrer; every other account field gets its initial value |
| ContractDataContext.FieldsDetermineRecord | src/components/context/ContractDataContext.tsx:51-78 | the global fields and the account fields together are the whole record |
| ContractDataContext.ContractDataStore.constructor | src/components/context/ContractDataContext.tsx:88-90 | starts with the initial data, loading true and no error |
| ContractDataContext.ContractDataStore.FetchContractOnlyData | src/components/context/ContractDataContext.tsx:93-114 | the new state is the global refresh step of the old: overlay on success, message on failure, loading false |
| ContractDataContext.ContractDataStore.FetchUserData | src/components/context/ContractDataContext.tsx:116-154 | the new state is the user refresh step of the old: no-op without an address |
| ContractDataContext.ContractDataStore.ResetUserData | src/components/context/ContractDataContext.tsx:156-182 | the new state is the reset step of the old |
| ContractDataContext.ContractDataStore.OnConnectionChange | src/components/context/ContractDataContext.tsx:188-194 | the user refresh when connected with an address, else the reset |
| ContractDataContext.ContractDataStore.RefetchData | src/components/context/ContractDataContext.tsx:208-213 | the user refresh when connected with an address, then always the global refresh |
| ContractDataContext.InitialDataDefaults | src/components/context/ContractDataContext.tsx:51-78 | numeric fields 0, referrer the zero address, downline [], link "" |
| ContractDataContext.GlobalRefreshFrame | src/components/context/ContractDataContext.tsx:93-114 | on success exactly the four global fields change and the error clears; on failure the data is unchanged and the message is recorded; loading ends false |
| ContractDataContext.UserRefreshWithoutAddress | src/components/context/ContractDataContext.tsx:117 | with no address the user refresh changes nothing |
| ContractDataContext.UserRefreshFrame | src/components/context/ContractDataContext.tsx:118-153 | the global fields are untouched; on success the account fields are the fetched ones; on failure the data is unchanged and the message is recorded |
| ContractDataContext.FailedGroupOverlaidAsAbsent | src/components/context/ContractDataContext.tsx:122-146 | a failed group's fields become absent in the store; they are not retained |
| ContractDataContext.ResetRestoresInitial | src/components/context/ContractDataContext.tsx:156-182 | reset = the initial data with the referrer and the global fields carried over; error cleared, loading untouched |
| ContractDataContext.OverlaysCommute | src/components/context/ContractDataContext.tsx:98-146 | the two overlays touch disjoint fields, so their order does not matter |
| ContractDataContext.ConnectionDispatch | src/components/context/ContractDataContext.tsx:188-194 | connected with an address: account fields from the fetch; otherwise reset; global fields never change |
| ContractDataContext.RefetchDispatch | src/components/context/ContractDataContext.tsx:208-213 | the global fields take the fetched ones when the global fetch succeeds and are kept otherwise; the account fields change only when connected with an address |
| WriteFunctions.AmountValue | src/utils/writeFunctions.ts:62 | `Number(amount)`: empty text is 0, a decimal is its value, and malformed text is NaN |
| WriteFunctions.AmountRejectedCases | src/utils/writeFunctions.ts:62-64 | an empty or malformed amount is always rejected; a decimal one iff it is 0 or below the minimum |
| WriteFunctions.MinMessage | src/utils/writeFunctions.ts:64 | the trimmed minimum message always begins "Min" |
| WriteFunctions.MinMessageShape | src/utils/writeFunctions.ts:64 | "Min <min> <symbol>" with a symbol, "Min <min>" without one |
| WriteFunctions.ValidateTransaction | src/utils/writeFunctions.ts:47-70 | each error iff its check fails and every earlier check passes; valid iff connected, with no chain mismatch (an absent or zero chain id, or an empty expected id, is none), and the amount is a non-zero number between the minimum and the balance |
| WriteFunctions.ValidAmountPositive | src/utils/writeFunctions.ts:62-67 | with a non-negative minimum, a valid amount is a decimal in (0, balance] |
| WriteFunctions.ValidationErrorsHaveText | src/utils/writeFunctions.ts:143 | every error has a text, so "Validation failed" never shows |
| WriteFunctions.SameChainNeverMismatches | src/utils/writeFunctions.ts:59 | a configured id that renders the wallet's chain never mismatches |
| WriteFunctions.AfterSuccess | src/utils/writeFunctions.ts:99-113 | when the success guard fires: alertShown true and processingId null; otherwise no change |
| WriteFunctions.SuccessEffects | src/utils/writeFunctions.ts:99-113 | when the guard fires: refetch, then one success alert; otherwise nothing |
| WriteFunctions.NoticeAtMostOnce | src/utils/writeFunctions.ts:99-113 | over any receipt run: at most one notice, and exactly one iff not yet shown and some observation succeeds |
| WriteFunctions.PlanProcessingId | src/utils/writeFunctions.ts:150 | "plan-" followed by the id's rendering |
| WriteFunctions.PlanProcessingIdInjective | src/utils/writeFunctions.ts:150 | distinct plans have distinct processing ids |
| WriteFunctions.DepositHook.constructor | src/utils/writeFunctions.ts:89-94 | plan null, amount "", alertShown false, processingId null |
| WriteFunctions.DepositHook.HandleDeposit | src/utils/writeFunctions.ts:115-168 | the state and effects are those of the deposit step |
| WriteFunctions.DepositHook.OnSuccess | src/utils/writeFunctions.ts:99-113 | the state and effects are those of the guarded success step, with the investment text |
| WriteFunctions.DepositOutcomes | src/utils/writeFunctions.ts:126-167 | not connected: connect modal only. A rejected chain query: nothing at all. Invalid: one failed alert, state unchanged. `invest` is written iff connected, valid and not thrown, with args [referrer, planId] and the typed amount, after alertShown false and processingId "plan-<id>". On a throw: one failed alert and processingId null |
| WriteFunctions.DepositNotifiesOnce | src/utils/writeFunctions.ts:147-151 | after a written deposit, a receipt run notifies exactly once iff it contains a success |
| WriteFunctions.WithdrawKindsDistinct | src/utils/writeFunctions.ts:239-247 | the three kinds map to distinct functions and distinct processing ids |
| WriteFunctions.WithdrawHook.constructor | src/utils/writeFunctions.ts:192-197 | type null, amount "", alertShown false, processingId null |
| WriteFunctions.WithdrawHook.HandleWithdraw | src/utils/writeFunctions.ts:218-261 | the state and effects are those of the withdraw step |
| WriteFunctions.WithdrawHook.OnSuccess | src/utils/writeFunctions.ts:202-216 | the guarded success step, with the withdrawal text |
| WriteFunctions.WithdrawOutcomes | src/utils/writeFunctions.ts:225-260 | not connected: connect modal only, state unchanged. A rejected chain query: nothing at all. Writes iff connected, the chain query resolved, same network and not thrown; roi→withdrawDividends, rewards→withdrawRewards, referral→withdrawReferralBonus, args []; the state then has alertShown false, processingId "<kind>-withdraw" and the kind. Mismatch: one "Wrong network" alert, state unchanged. Throw: one failed alert and processingId null |
| WriteFunctions.ClaimAfterSuccess | src/utils/writeFunctions.ts:295-303 | every success sets alertShown true and processingId null |
| WriteFunctions.ClaimHook.constructor | src/utils/writeFunctions.ts:286-290 | amount "", alertShown false, processingId null |
| WriteFunctions.ClaimHook.HandleClaim | src/utils/writeFunctions.ts:305-340 | the state and effects are those of the claim step |
| WriteFunctions.ClaimHook.OnSuccess | src/utils/writeFunctions.ts:295-303 | the state is the claim success step; no alert and no refetch |
| WriteFunctions.ClaimOutcomes | src/utils/writeFunctions.ts:311-339 | not connected: connect modal only. A rejected chain query: nothing at all. Writes `claimRewards` iff connected, the chain query resolved, same network and not thrown, with alertShown false and processingId "claim-rewards". Mismatch: one "Wrong network" alert, state unchanged. Throw: one failed alert and processingId null. At most one alert |
| WriteFunctions.ErrorEffects | src/utils/writeFunctions.ts:36-40 | a write error gives exactly one failed alert, "<name> failed"; no error gives none |
| WriteFunctions.ErrorAlertNamesTransaction | src/utils/writeFunctions.ts:36-40 | two transactions never share an error alert |
| YourIncome.WrongNetworkIffDifferent | src/components/YourIncome/index.tsx:82 | with the expected id rendered and re-parsed, the check is plain inequality |
| YourIncome.HandleWithdrawOutcomes | src/components/YourIncome/index.tsx:71-98 | not connected: the connect modal only (or nothing without one); then no funds, then wrong network, then low contract balance, each with its alert; `withdrawROI` (no args key) is written iff all checks pass and nothing throws; at most one alert; a throw shows nothing |
| YourIncome.DisabledIffNoFunds | src/components/YourIncome/index.tsx:77-80 | for a connected wallet, the handler stops at the funds check iff the button is disabled |
| YourIncome.SuccessLink | src/components/YourIncome/index.tsx:50 | the link splits into the configured URL (or "") followed by the hash |
| YourIncome.SuccessLinkInjective | src/components/YourIncome/index.tsx:50 | under one configured URL, distinct hashes give distinct links |
| YourIncome.ToastAfter | src/components/YourIncome/index.tsx:56-69 | not successful: toastShown false; successful: toastShown stays, or becomes true when a hash is present |
| YourIncome.ToastEffects | src/components/YourIncome/index.tsx:56-65 | refetch, then the toast with the success link, exactly when successful with a hash and not yet shown |
| YourIncome.WithdrawToast.constructor | src/components/YourIncome/index.tsx:20 | toastShown starts false |
| YourIncome.WithdrawToast.OnReceipt | src/components/YourIncome/index.tsx:56-69 | both receipt effects in order: the flag and the effects are those of the toast step |
| YourIncome.ToastAtMostOncePerSuccess | src/components/YourIncome/index.tsx:56-65 | while the receipt stays successful: at most one toast, and exactly one iff not yet shown and some observation has a hash |
| YourIncome.ToastRearms | src/components/YourIncome/index.tsx:67-69 | a non-success observation re-arms the guard, so the next success with a hash toasts |
| YourIncome.WithdrawErrorEffects | src/components/YourIncome/index.tsx:100-104 | a write error gives exactly one failed alert, "Something went wrong. Please try again."; no error gives none |
| Deposit.PlansTable | src/components/Deposit/index.tsx:25-32 | six plans with ids 0–5; only 3–5 have a giveaway bonus, of 1, 2 and 3; total ROI = daily rate × duration |
| Deposit.GetReferrer | src/components/Deposit/index.tsx:53-56 | the `ref` parameter if it starts with "0x" and has length 42, else the fallback (also when `ref` is missing) |
| Deposit.ReferrerShape | src/components/Deposit/index.tsx:53-56 | the referrer is the fallback or a 42-character "0x" string |
| Deposit.MinDeposit | src/components/Deposit/index.tsx:13 | an unset setting gives 0; a set one is read as `Number` reads it |
| Deposit.CalculateROI | src/components/Deposit/index.tsx:58-59 | amount × total ROI / 100 to 2 decimals; empty counts as 0; malformed gives NaN |
| Deposit.AtMostOneProcessing | src/components/Deposit/index.tsx:80-81 | no two plans show as processing at once |
| Deposit.ProcessingNeedsActivity | src/components/Deposit/index.tsx:80-81 | a plan processes only while the transaction is pending or loading |
| Deposit.OnAmountInput | src/components/Deposit/index.tsx:121-123 | the hook state gets the card's plan and the typed amount, nothing else |
| Deposit.AfterInput | src/components/Deposit/index.tsx:120-130 | after typing, that card alone is active and shows the amount; the others show "" and a 0 preview; the flags are untouched |
| Deposit.InactiveCardInvestsTypedAmount | src/components/Deposit/index.tsx:147-161 | an inactive card's button still invests the amount typed into the active card |
| Referral.ConfigOf | src/components/Referral/index.tsx:14-16 | each setting is its value when that is a non-empty string; an unset or empty switch is "true" and an unset or empty address is "" |
| Referral.SwitchDefaultsOn | src/components/Referral/index.tsx:14 | the feature is on iff the switch is unset, empty or "true" |
| Referral.LinkTextCases | src/components/Referral/index.tsx:77-81 | the box shows origin + "/?ref=" + address iff `canShowLink`; otherwise "disabled" when the switch is off, else the invest prompt |
| Referral.CopyButton.constructor | src/components/Referral/index.tsx:19 | copied starts false |
| Referral.CopyButton.HandleCopyClick | src/components/Referral/index.tsx:28-61 | the effects are those of the copy click; copied becomes true iff a copy happened |
| Referral.CopyButton.CopiedTimerElapsed | src/components/Referral/index.tsx:48 | the timeout resets copied |
| Referral.CopyClickOutcomes | src/components/Referral/index.tsx:28-61 | not connected: the connect modal only; copies iff connected and `canShowLink`; the copied text is the displayed link; both channels then schedule the 1300 ms reset and one "Referral link copied!" alert; otherwise the first failing check's single alert |
| Referral.CopiedLinkHasAddress | src/components/Referral/index.tsx:37-46 | a copied link always contains a real address, never "undefined" |
| WalletConnect.ConnectionEffects | src/components/walletconnect/index.tsx:11-18 | one alert iff the value differs from the recorded one, naming the new state |
| WalletConnect.MessagesDistinct | src/components/walletconnect/index.tsx:14 | the "connected" and "disconnected" messages, which differ |
| WalletConnect.ConnectButtons.constructor | src/components/walletconnect/index.tsx:8 | the recorded value starts as the mount-time value, so mounting alerts nothing |
| WalletConnect.ConnectButtons.OnConnectedChange | src/components/walletconnect/index.tsx:11-18 | the effects are those of the connection step; afterwards the recorded value is the new one |
| WalletConnect.AlertsCountChanges | src/components/walletconnect/index.tsx:12-17 | over any run of values, the number of alerts equals the number of changes |
| WalletConnect.AlertsNameNewState | src/components/walletconnect/index.tsx:13-15 | the k-th alert of a run is the success alert naming the state of the k-th change, and those states alternate, the first opposite to the mount value |

## Left out

- Remote I/O: the ethers provider and contract calls, `investInPlan`, the `window.ethereum` requests, and the wagmi hooks `useWriteContract`, `useWaitForTransactionReceipt`, `useBalance` and `useChainId` are foreign calls. Their results are inputs: `Option` reads, hook outputs, a `writeThrows` flag. The chain query of the three transaction hooks is a `ChainQuery`, which may be `Rejected`.
- React scheduling: `Promise.all` concurrency, effect ordering across components, `useCallback` identity, overlapping refreshes from `refetchData`, and the one-second `setInterval` balance polling. Each handler or effect is one sequential step.
- The context's transaction-success effect (ContractDataContext.tsx:91, 197-202) is left out. Its receipt hook is called with no hash.
- The claim hook calls the shared transaction handler with two arguments (writeFunctions.ts:293), so its "failed" alert text would contain a function's source text. Its error alert is left out; the claim state is modelled as the code writes it.
- JavaScript numbers: floating point, `Number()` on arbitrary text and `parseEther` are left out. An amount's text is `Blank`, `Decimal(real)` or `Malformed`.
- Chain-id text: `NumberOfDigits` reads digit strings only, and treats white space, signs, hexadecimal and exponent forms as NaN. `ParseIntPrefix` reads the leading decimal digits only, without `parseInt`'s skipping of leading white space, its sign, or its "0x" prefix. The configured chain ids are only ever renderings of numbers, which both parsers read back exactly (`Numbers.ParsersReadRendering`), so nothing in the model depends on these forms.
- Deposit.AcceptedReferrer: `ref.length === 42` counts UTF-16 code units, but the model counts characters. They differ only for text outside the Basic Multilingual Plane, which no address contains.
- WriteFunctions.MinMessage: the text of `minAmount` inside the template literal is the caller-supplied `minText`, because JavaScript number-to-string rendering is not modelled.
- Deposit.MinDeposit: a setting that `Number` reads as NaN gives None, and NaN comparisons are not carried into validation.
- Numbers.RoundTo: `toFixed` is modelled as rounding halves away from zero on exact rationals. Binary floating-point rounding of `toFixed` is not modelled.
- The connect modal's absence (`openConnectModal?.()` being undefined) is the `hasConnectModal` flag.
- `walletConfig`, the ABI, the contract address, the alert helpers and all rendering and styling are library configuration or display.
- JavaScript `in` matching inherited keys in the symbol and chain-id tables: the tables are exact maps.
- The deposit and withdraw hooks' success alerts link the configured withdraw URL, not the transaction hash (src/utils/writeFunctions.ts:102-105); the model keeps that link.
- The user refresh overlays a failed group's fields as absent rather than keeping their previous values (src/components/context/ContractDataContext.tsx:122-146); the model does the same (`ContractDataContext.FailedGroupOverlaidAsAbsent`).
