/** Shared value types: optional values, checked results and timestamps. */
module Common {

  datatype Option<+T> = None | Some(value: T)

  datatype Result<+T, +E> = Ok(value: T) | Err(error: E)

  /** A finite, non-negative timestamp or duration in seconds. */
  type Time = t: real | 0.0 <= t witness 0.0

  function Later(a: Time, b: Time): Time {
    if a < b then b else a
  }

  /** A delay doubled n times. */
  function Doubled(delay: Time, n: nat): Time {
    if n == 0 then delay else 2.0 * Doubled(delay, n - 1)
  }

  /** A delay that doubles up to a cap. */
  function Capped(delay: Time, n: nat, cap: Time): Time {
    if Doubled(delay, n) < cap then Doubled(delay, n) else cap
  }

  /** Each further retry waits twice as long as the one before, until the cap. */
  lemma {:induction false} CappedDoubles(delay: Time, n: nat, m: nat, cap: Time)
    requires n <= m
    ensures Capped(delay, m + 1, cap) == if 2.0 * Capped(delay, m, cap) < cap then 2.0 * Capped(delay, m, cap) else cap
    ensures Capped(delay, n, cap) <= Capped(delay, m, cap) <= cap
  {
    if n < m {
      CappedDoubles(delay, n, m - 1, cap);
    }
  }

  lemma {:induction false} SubsetSize<T>(a: set<T>, b: set<T>)
    requires a <= b
    ensures |a| <= |b|
    decreases a
  {
    if a != {} {
      var x :| x in a;
      SubsetSize(a - {x}, b - {x});
    }
  }

  /** Visiting one more element leaves fewer to visit. */
  lemma Shrinks<T>(all: set<T>, visiting: set<T>, n: T)
    requires n in all && n !in visiting
    ensures |all - (visiting + {n})| < |all - visiting|
  {
    assert all - visiting == (all - (visiting + {n})) + {n};
  }
}
