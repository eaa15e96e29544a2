/**
 * The reconnect policy applied to a `didDisconnectPeripheral` event: a stale
 * event is ignored; for the current peripheral a fixed set of CoreBluetooth
 * error codes means "out of range, ask to reconnect with no timeout" and every
 * other outcome means "disconnected".
 */
module Reconnect {
  import opened Wrappers
  import opened Gatt
  import opened ConnectionState

  /** The error passed to the delegate, split by its `NSError` domain. */
  datatype BleError =
    | CoreBluetoothError(code: int)    // domain CBErrorDomain, raw `CBError.Code`
    | OtherDomainError(code: int)      // any other domain, such as CBATTErrorDomain

  // Raw values of the `CBError.Code` cases the heuristic names.
  const CodeUnknown: int := 0
  const CodeConnectionTimeout: int := 6
  const CodePeripheralDisconnected: int := 7
  const CodeConnectionFailed: int := 10

  /** `outOfRangeHeuristics`. */
  const OutOfRangeHeuristics: set<int> :=
    {CodeUnknown, CodeConnectionTimeout, CodePeripheralDisconnected, CodeConnectionFailed}

  /** The heuristic's test: a CoreBluetooth error whose code is one of the four. */
  predicate IsOutOfRange(error: Option<BleError>)
  {
    error.Some? && error.value.CoreBluetoothError? && error.value.code in OutOfRangeHeuristics
  }

  datatype Reaction =
    | Ignore                  // another peripheral: the state is left alone
    | ReconnectWhenInRange    // `manager.connect(p)` and `.outOfRange(p)`
    | Terminal                // `.disconnected`

  /** What a disconnect event of peripheral `id` with `error` does in state `current`. */
  function OnDisconnect(current: StateBLE, id: Uuid, error: Option<BleError>): (r: Reaction)
    ensures r.Ignore? <==> !IsCurrent(current, id)
    ensures r.ReconnectWhenInRange? <==>
              IsCurrent(current, id) && error.Some? && error.value.CoreBluetoothError? &&
              error.value.code in {0, 6, 7, 10}
    ensures r.Terminal? <==>
              IsCurrent(current, id) &&
              (error.None? || error.value.OtherDomainError? || error.value.code !in {0, 6, 7, 10})
  {
    if !IsCurrent(current, id) then Ignore
    else if IsOutOfRange(error) then ReconnectWhenInRange
    else Terminal
  }

  /** A disconnect event is always ignored in the states that carry no peripheral. */
  lemma IdleStatesIgnoreDisconnect(current: StateBLE, id: Uuid, error: Option<BleError>)
    requires current.PoweredOff? || current.Disconnected? || current.Scanning?
    ensures OnDisconnect(current, id, error) == Ignore
  {
  }

  /** No error, which the source reads as a deliberate unpairing, is terminal for the current peripheral. */
  lemma NoErrorIsTerminal(current: StateBLE, p: Peripheral)
    requires current.CurrentPeripheral() == Some(p)
    ensures OnDisconnect(current, p.id, None) == Terminal
  {
  }
}
