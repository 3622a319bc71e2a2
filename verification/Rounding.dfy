/** Rounding to the nearest integer, ties to even, as Python's `round` does on exact values. */
module Rounding {

  function Abs(x: real): real {
    if x < 0.0 then -x else x
  }

  function RoundHalfEven(x: real): int {
    var below := x.Floor;
    var rest := x - below as real;
    if rest < 0.5 || (rest == 0.5 && below % 2 == 0) then below else below + 1
  }

  /** Rounding picks a nearest integer, and the even one of two. */
  lemma RoundIsNearest(x: real, n: int)
    ensures Abs(RoundHalfEven(x) as real - x) <= 0.5
    ensures Abs(RoundHalfEven(x) as real - x) <= Abs(n as real - x)
    ensures n != RoundHalfEven(x) && Abs(n as real - x) == Abs(RoundHalfEven(x) as real - x) ==>
              RoundHalfEven(x) % 2 == 0
  {
    var below := x.Floor;
    assert below as real <= x < below as real + 1.0;
    if n <= below {
      assert n as real <= below as real;
    } else {
      assert n as real >= below as real + 1.0;
    }
  }

  lemma RoundIsMonotone(x: real, y: real)
    requires x <= y
    ensures RoundHalfEven(x) <= RoundHalfEven(y)
  {
    assert x.Floor <= y.Floor;
  }

  lemma RoundOfInteger(n: int)
    ensures RoundHalfEven(n as real) == n
  {
    assert (n as real).Floor == n;
  }

  const MICROS_PER_CENT: int := 10_000

  /** An amount of money given in units, as micros: `round(amount * 1_000_000)`. */
  function UnitsToMicros(amount: real): int {
    RoundHalfEven(amount * 1_000_000.0)
  }

  /** Micros as cents: `round(micros / 1_000_000, 2)`, counted in cents. */
  function MicrosToCents(micros: int): int {
    RoundHalfEven(micros as real / 10_000.0)
  }

  function CentsToUnits(cents: int): real {
    cents as real / 100.0
  }

  /** Sending an amount in cents and reading it back gives the same amount. */
  lemma CentsSurviveMicros(cents: int)
    ensures UnitsToMicros(CentsToUnits(cents)) == cents * MICROS_PER_CENT
    ensures MicrosToCents(UnitsToMicros(CentsToUnits(cents))) == cents
  {
    assert CentsToUnits(cents) * 1_000_000.0 == (cents * MICROS_PER_CENT) as real;
    RoundOfInteger(cents * MICROS_PER_CENT);
    assert (cents * MICROS_PER_CENT) as real / 10_000.0 == cents as real;
    RoundOfInteger(cents);
  }
}
