/** Machine integers, return codes and small predicates shared by the modules. */
module Common {

  /** `unsigned char` and `unsigned int` of the 16-bit DOS target. */
  type byte = x: int | 0 <= x < 0x100
  type word = x: int | 0 <= x < 0x1_0000

  datatype Option<+T> = None | Some(value: T)

  /** Return codes of the handlers and of the asynchronous routines. */
  datatype Status =
    | NoError
    | Error
    | AsyncDone
    | HardwareBlocked
    | ControlOutOfRange

  /** Operating mode of the front end. */
  datatype Mode = Operational | Troubleshooting | Maintenance | Simulation

  /** Reply of an asynchronous timer; `NotExpired` covers both "running" and "not running". */
  datatype TimerReply = TimerError | Expired | NotExpired

  /** Marker values stored where no measurement is available. */
  const FLOAT_ERROR: real := -1.0
  const FLOAT_UNINIT: real := -2.0

  /** The sanity window and threshold test applied to cryostat temperatures. */
  predicate BelowMax(t: real, max: real) {
    t != FLOAT_ERROR && t != FLOAT_UNINIT && 0.0 < t < 350.0 && t < max
  }
}
