/** Option and Result, the two failure-carrying shapes used throughout the model. */
module Wrappers {

  datatype Option<+T> = None | Some(value: T)

  /** A Python call that either returns a value or raises. */
  datatype Result<+T, +E> = Ok(value: T) | Err(error: E)
}

/** Points in time. Python `datetime` values become integer microseconds on one
    common time line; time zones and formatting are not modelled. */
module Time {

  type Instant = int

  const MicrosPerDay: int := 86_400_000_000
}
