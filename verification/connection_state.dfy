/**
 * The connection state machine's state value, `StateBLE`, shared by both
 * manager variants.
 *
 * A `Countdown` is a one-shot timer owned by the state value that holds it:
 * replacing the state releases the countdown and its `deinit` invalidates the
 * timer. Here a countdown is an identifier; the manager hands out a fresh one
 * for every countdown it arms, and a timer-fired event takes effect only while
 * the current state still holds that identifier.
 */
module ConnectionState {
  import opened Wrappers
  import opened Gatt

  type TimerId = nat

  datatype StateBLE =
    | PoweredOff
    | RestoringConnectingPeripheral(p: Peripheral)
    | RestoringConnectedPeripheral(p: Peripheral)
    | Disconnected
    | Scanning(countdown: TimerId)
    | Connecting(p: Peripheral, countdown: TimerId)
    | DiscoveringServices(p: Peripheral, countdown: TimerId)
    | DiscoveringCharacteristics(p: Peripheral, countdown: TimerId)
    | Connected(p: Peripheral)
    | OutOfRange(p: Peripheral)
  {
    /** `StateBLE.peripheral`: the peripheral the state is about, if any. */
    function CurrentPeripheral(): (r: Option<Peripheral>)
      ensures r.None? <==> (PoweredOff? || Disconnected? || Scanning?)
      ensures r.Some? ==> r.value == p
    {
      match this
      case PoweredOff => None
      case RestoringConnectingPeripheral(p) => Some(p)
      case RestoringConnectedPeripheral(p) => Some(p)
      case Disconnected => None
      case Scanning(_) => None
      case Connecting(p, _) => Some(p)
      case DiscoveringServices(p, _) => Some(p)
      case DiscoveringCharacteristics(p, _) => Some(p)
      case Connected(p) => Some(p)
      case OutOfRange(p) => Some(p)
    }

    /** The countdown the state value holds, if any. */
    function OwnedCountdown(): (r: Option<TimerId>)
      ensures r.Some? <==> (Scanning? || Connecting? || DiscoveringServices? || DiscoveringCharacteristics?)
      ensures r.Some? ==> r.value == countdown
    {
      match this
      case Scanning(t) => Some(t)
      case Connecting(_, t) => Some(t)
      case DiscoveringServices(_, t) => Some(t)
      case DiscoveringCharacteristics(_, t) => Some(t)
      case _ => None
    }
  }

  /**
   * The stale-event guard `state.peripheral?.identifier == peripheral.identifier`:
   * a Swift optional compared with a value, so false when the state has no peripheral.
   */
  predicate IsCurrent(s: StateBLE, id: Uuid)
  {
    s.CurrentPeripheral().Some? && s.CurrentPeripheral().value.id == id
  }

  /** Every countdown the state can hold was handed out before `next`. */
  predicate CountdownsBelow(s: StateBLE, next: TimerId)
  {
    s.OwnedCountdown().Some? ==> s.OwnedCountdown().value < next
  }

  /**
   * A transition from `before` to `after` that handed out countdowns from
   * `next` on: either the state was left as it was, or the new state holds no
   * countdown or a freshly armed one.
   */
  predicate ReleasesCountdown(before: StateBLE, after: StateBLE, next: TimerId)
  {
    after == before || after.OwnedCountdown().None? || after.OwnedCountdown().value >= next
  }

  /**
   * Replacing the state releases its countdown: once a transition replaced a
   * state, the countdown that state held is no longer owned, so its firing is
   * ignored.
   */
  lemma ReplacedCountdownIsReleased(before: StateBLE, after: StateBLE, next: TimerId)
    requires CountdownsBelow(before, next) && ReleasesCountdown(before, after, next)
    requires after != before && before.OwnedCountdown().Some?
    ensures after.OwnedCountdown() != before.OwnedCountdown()
  {
  }
}
