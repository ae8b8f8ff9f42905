/**
 * What a handler or effect of the front end does to the outside world, as values:
 * a user-visible alert, the wallet's connect modal, a contract write handed to
 * the wallet, a snapshot refresh, a clipboard write. Handlers return the
 * sequence of these in the order the source performs them.
 */
module Effects {
  import opened Wrappers

  /** The two alert kinds of the alert helpers: success and failure, with their text. */
  datatype Notice = SuccessAlert(text: string) | FailedAlert(text: string)

  /** An argument of a contract call. */
  datatype CallArg = AddressArg(address: Option<string>) | UintArg(n: nat)

  /**
   * The object passed to wagmi's `writeContract`: the function name, the argument
   * list (None where the call object has no `args` key) and the attached value in
   * whole units of the native asset (None where no value is attached).
   */
  datatype ContractCall = ContractCall(functionName: string, args: Option<seq<CallArg>>, value: Option<real>)

  /** How a text reached the clipboard. */
  datatype CopyChannel = ClipboardApi | ExecCommandFallback

  datatype UiEffect =
    | OpenConnectModal
    | ShowAlert(notice: Notice)
    | WriteContract(call: ContractCall)
    | Refetch
    | CopyToClipboard(text: string, channel: CopyChannel)
    | ScheduleCopiedReset(delayMs: nat)

  /** Some effect of the sequence hands a call to the wallet. */
  predicate Writes(effects: seq<UiEffect>) {
    exists i :: 0 <= i < |effects| && effects[i].WriteContract?
  }

  /** The number of alerts in a sequence of effects. */
  function AlertCount(effects: seq<UiEffect>): nat {
    if effects == [] then 0
    else (if effects[0].ShowAlert? then 1 else 0) + AlertCount(effects[1..])
  }
}
