/** Types shared by every module: optional values, results and the clock. */
module Prelude {
  datatype Option<+T> = None | Some(value: T)

  datatype Result<+T, +E> = Ok(value: T) | Err(error: E)

  /** Microseconds since the epoch, the resolution the database keeps. */
  type Instant = int

  const SECOND: int := 1_000_000
  const MINUTE: int := 60 * SECOND

  /** Whole seconds since the epoch, rounded down, as JWT numeric dates are. */
  function Timestamp(t: Instant): int {
    t / SECOND
  }

  function AtSecond(s: int): Instant {
    s * SECOND
  }

  lemma TimestampMonotone(a: Instant, b: Instant)
    requires a <= b
    ensures Timestamp(a) <= Timestamp(b)
  {
  }
}
