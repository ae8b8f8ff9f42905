/**
 * The connect button's edge-triggered alert: `wasConnected` records the last
 * connection state seen, and an alert fires only when a new value differs from it.
 */
module WalletConnect {
  import opened Effects

  /** The alert text for the new connection state. */
  function ConnectionMessage(isConnected: bool): string {
    "Your wallet has been " + (if isConnected then "connected" else "disconnected") + " successfully."
  }

  /** The effect's alerts on a new value, given the recorded one. */
  function ConnectionEffects(wasConnected: bool, isConnected: bool): (r: seq<UiEffect>)
    ensures |r| == (if wasConnected != isConnected then 1 else 0)
    ensures wasConnected != isConnected ==> r[0] == ShowAlert(SuccessAlert(ConnectionMessage(isConnected)))
  {
    if isConnected != wasConnected then [ShowAlert(SuccessAlert(ConnectionMessage(isConnected)))] else []
  }

  /** The two messages differ and each names its state. */
  lemma MessagesDistinct()
    ensures ConnectionMessage(true) == "Your wallet has been connected successfully."
    ensures ConnectionMessage(false) == "Your wallet has been disconnected successfully."
    ensures ConnectionMessage(true) != ConnectionMessage(false)
  {
    assert ConnectionMessage(true)[21] == 'c' && ConnectionMessage(false)[21] == 'd';
  }

  class ConnectButtons {
    var wasConnected: bool

    /** `useRef(isConnected)`: the first value seen is recorded, so mounting alerts nothing. */
    constructor (isConnected: bool)
      ensures wasConnected == isConnected
    {
      wasConnected := isConnected;
    }

    /** The effect on `[isConnected]`. */
    method OnConnectedChange(isConnected: bool) returns (effects: seq<UiEffect>)
      modifies this
      ensures effects == ConnectionEffects(old(wasConnected), isConnected)
      ensures wasConnected == isConnected
    {
      effects := [];
      if isConnected != wasConnected {
        effects := [ShowAlert(SuccessAlert(ConnectionMessage(isConnected)))];
        wasConnected := isConnected;
      }
    }
  }

  /** The alerts over successive values, starting from the recorded one. */
  function AlertsOver(wasConnected: bool, values: seq<bool>): seq<UiEffect>
    decreases |values|
  {
    if values == [] then []
    else ConnectionEffects(wasConnected, values[0]) + AlertsOver(values[0], values[1..])
  }

  /** The number of changes between consecutive entries. */
  function Flips(values: seq<bool>): nat
    decreases |values|
  {
    if |values| < 2 then 0
    else (if values[0] != values[1] then 1 else 0) + Flips(values[1..])
  }

  /**
   * Over any run of values after mounting with `initial`, one alert per change of
   * value and none for a repeat: the alerts number the changes in
   * [initial] + values.
   */
  lemma {:induction false} AlertsCountChanges(initial: bool, values: seq<bool>)
    ensures |AlertsOver(initial, values)| == Flips([initial] + values)
    decreases |values|
  {
    if values != [] {
      AlertsCountChanges(values[0], values[1..]);
      assert ([initial] + values)[1..] == [values[0]] + values[1..];
    }
  }

  /** The values a run changes to, in order: one entry per change of value. */
  function ChangedTo(wasConnected: bool, values: seq<bool>): seq<bool>
    decreases |values|
  {
    if values == [] then []
    else (if values[0] != wasConnected then [values[0]] else []) + ChangedTo(values[0], values[1..])
  }

  /**
   * The k-th alert of a run is the success alert naming the state of the k-th
   * change, and those states alternate, starting with the opposite of `initial`:
   * connected and disconnected alerts take turns.
   */
  lemma {:induction false} AlertsNameNewState(initial: bool, values: seq<bool>)
    ensures var c := ChangedTo(initial, values);
      && |AlertsOver(initial, values)| == |c|
      && (forall i :: 0 <= i < |c| ==> AlertsOver(initial, values)[i] == ShowAlert(SuccessAlert(ConnectionMessage(c[i]))))
      && (|c| > 0 ==> c[0] != initial)
      && (forall i :: 0 < i < |c| ==> c[i] != c[i - 1])
    decreases |values|
  {
    if values != [] {
      AlertsNameNewState(values[0], values[1..]);
      var rest := ChangedTo(values[0], values[1..]);
      var head := if values[0] != initial then [values[0]] else [];
      assert ChangedTo(initial, values) == head + rest;
      assert AlertsOver(initial, values) == ConnectionEffects(initial, values[0]) + AlertsOver(values[0], values[1..]);
    }
  }
}
