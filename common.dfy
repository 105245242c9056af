/** Definitions shared by the hub and the stage devices: Micro-Manager's
    return codes, the property-action kinds, the busy-window timer and the
    C++ cast from a floating-point value to `long`. */
module Common {

  // Micro-Manager's generic return codes.
  const DEVICE_OK: int := 0
  const DEVICE_ERR: int := 1
  const DEVICE_UNSUPPORTED_COMMAND: int := 11

  // Codes defined by the adapter's own headers.
  const ERR_NO_PORT_SET: int := 108
  const ERR_STAGE_MOVING: int := 110
  const ERR_SCOPE_NOT_ACTIVE: int := 10012

  datatype Option<+T> = None | Some(value: T)

  /** Why the host calls a property handler. Micro-Manager has more kinds
      than these two; every handler here ignores the others. */
  datatype ActionType = BeforeGet | AfterSet | OtherAction

  /** A busy window: it started at `startMs` and lasts `intervalMs`
      milliseconds. */
  datatype Timer = Timer(startMs: real, intervalMs: int) {
    /** The window has expired once strictly more than its interval has
        elapsed since it started. */
    predicate Expired(nowMs: real) {
      nowMs - startMs > intervalMs as real
    }
  }

  /** A C++ cast `(long) r`: the fractional part is dropped, rounding toward
      zero. The 64-bit range of `long` is not modelled. */
  function Trunc(r: real): (n: int)
    ensures 0.0 <= r ==> 0 <= n && n as real <= r < n as real + 1.0
    ensures r < 0.0 ==> n <= 0 && n as real - 1.0 < r <= n as real
  {
    if r >= 0.0 then r.Floor else -((-r).Floor)
  }

  /** Truncation leaves a whole number unchanged. */
  lemma TruncOfWhole(k: int)
    ensures Trunc(k as real) == k
  {
  }
}
