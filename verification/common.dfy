/** Datatypes and units shared by every module. */
module Common {

  datatype Option<+T> = None | Some(value: T)

  datatype Tag = Tag(key: string, value: string)

  /** Durations and instants are whole nanoseconds, as in Go's time package. */
  const SECOND: int := 1_000_000_000
  const MINUTE: int := 60 * SECOND

  function Min(a: int, b: int): int {
    if a <= b then a else b
  }

  function Max(a: int, b: int): int {
    if a >= b then a else b
  }

  /** One more than the quotient, times the divisor, exceeds the dividend. */
  lemma MoreThanQuotient(n: nat, k: nat, b: nat)
    requires b >= 1 && n >= k / b + 1
    ensures n * b > k
  {
    assert (k / b + 1) * b <= n * b;
    assert k / b * b + k % b == k;
  }
}
