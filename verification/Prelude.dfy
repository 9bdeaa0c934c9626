/** Time, options and results shared by the simulator and the replay verifier. */
module Prelude {

  /** A `Duration` (or an `Instant` counted from the start of the simulation), in seconds. */
  type Duration = t: real | 0.0 <= t witness 0.0

  datatype Option<+T> = None | Some(value: T)

  datatype Result<+T, +E> = Ok(value: T) | Err(error: E)

  function Max(a: nat, b: nat): nat {
    if a < b then b else a
  }

  function MaxTime(a: real, b: real): real {
    if a < b then b else a
  }
}
