/** A `struct timespec` as the tone loops use it: seconds and nanoseconds,
    updated in place. The clock itself (clock_gettime, clock_nanosleep) is
    not modelled; a reading is a value handed to the model. */
module Clock {
  import opened CInt

  const NANOS_PER_SEC: int := 1_000_000_000
  const NANOS_PER_US: int := 1000

  /** A clock reading or deadline as a pair, for recording what the loops
      pass to clock_nanosleep. */
  type Instant = (int, int)

  /** Nanoseconds since the clock's epoch denoted by a (seconds, nanoseconds) pair. */
  function InstantNanos(t: Instant): int {
    t.0 * NANOS_PER_SEC + t.1
  }

  /** The nanosecond field lies in [0, 1e9), as POSIX requires of a deadline. */
  predicate Normalized(t: Instant) {
    0 <= t.1 < NANOS_PER_SEC
  }

  /** The largest microsecond count `us` for which `tv_nsec + 1000 * us` still
      fits the 32-bit `long` `tv_nsec` whatever normalised value it held. */
  const MAX_STEP_US: int := (INT_MAX - (NANOS_PER_SEC - 1)) / NANOS_PER_US

  class Timespec {
    var tvSec: int
    var tvNsec: int

    constructor (t: Instant)
      ensures tvSec == t.0 && tvNsec == t.1
    {
      tvSec, tvNsec := t.0, t.1;
    }

    function Value(): Instant
      reads this
    {
      (tvSec, tvNsec)
    }

    /** add_to_timespec: add `us` microseconds, carrying whole seconds out of
        the nanosecond field with C's truncating `/` and `%`. */
    method AddToTimespec(us: int)
      requires InInt(us * NANOS_PER_US) && InInt(tvNsec + us * NANOS_PER_US)
      modifies this
      ensures InstantNanos(Value()) == InstantNanos(old(Value())) + us * NANOS_PER_US
      ensures old(tvNsec) + us * NANOS_PER_US >= 0 ==> Normalized(Value())
    {
      tvNsec := tvNsec + us * NANOS_PER_US;
      tvSec := tvSec + Div(tvNsec, NANOS_PER_SEC);
      tvNsec := Mod(tvNsec, NANOS_PER_SEC);
    }
  }
}
