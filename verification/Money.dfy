/** Money and rounding.

An amount is measured in cents. A `real` is an amount as a caller supplies it
or as a service computes it; an `int` is an amount as a numeric(18,2) column
stores it. The tolerance 0.005 of the source is half a cent here. */
module Money {
  const TOLERANCE := 0.5

  datatype Option<+T> = None | Some(value: T)

  datatype Error = NotFound | Conflict | BadRequest

  datatype Result<+T> = Ok(value: T) | Err(error: Error)

  function Abs(x: real): real {
    if x < 0.0 then -x else x
  }

  function IntAbs(n: int): nat {
    if n < 0 then -n else n
  }

  function Min(x: real, y: real): real {
    if x <= y then x else y
  }

  function MinInt(x: int, y: int): int {
    if x <= y then x else y
  }

  /** Math.round on an amount in cents: half goes up (ECMA-262, section 21.3.2.28). */
  function RoundHalfUp(x: real): (n: int)
    ensures n as real - 0.5 <= x < n as real + 0.5
  {
    (x + 0.5).Floor
  }

  /** What a numeric(18,2) column keeps of x: half goes away from zero. */
  function Store(x: real): (n: int)
    ensures Abs(n as real - x) <= 0.5
    ensures x == 0.0 ==> n == 0
    ensures x >= 0.0 ==> n >= 0
    ensures x <= 0.0 ==> n <= 0
  {
    if x >= 0.0 then (x + 0.5).Floor else -((-x + 0.5).Floor)
  }

  predicate WholeCents(x: real) {
    x == x.Floor as real
  }

  /** x lies exactly between two cents. */
  predicate HalfCent(x: real) {
    x - x.Floor as real == 0.5
  }

  /** Rounding is determined by its two bounds. */
  lemma RoundHalfUpIs(x: real, n: int)
    requires n as real - 0.5 <= x < n as real + 0.5
    ensures RoundHalfUp(x) == n
  {
  }

  lemma FloorIs(x: real, n: int)
    requires n as real <= x < (n + 1) as real
    ensures x.Floor == n
  {
  }

  lemma StoreWhole(n: int)
    ensures Store(n as real) == n && RoundHalfUp(n as real) == n
  {
  }

  lemma StoreMonotone(x: real, y: real)
    requires x <= y
    ensures Store(x) <= Store(y)
  {
  }

  lemma StoreOdd(x: real)
    ensures Store(-x) == -Store(x)
  {
  }
}
