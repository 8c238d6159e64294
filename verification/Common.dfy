/** Small shared vocabulary: optional values and rounding. */
module Common {
  datatype Option<+T> = None | Some(value: T)

  /** Rounds to the nearest integer and sends ties to the even neighbour, which
      is what Python's `round` and numpy's `rint` do. */
  function RoundHalfEven(x: real): (n: int)
    ensures -0.5 <= x - n as real <= 0.5
    ensures x - n as real == 0.5 || x - n as real == -0.5 ==> n % 2 == 0
  {
    var low := x.Floor;
    var rest := x - low as real;
    if rest < 0.5 then low
    else if rest > 0.5 then low + 1
    else if low % 2 == 0 then low else low + 1
  }

  /** The two bounds in the contract of `RoundHalfEven` leave one candidate. */
  lemma RoundHalfEvenUnique(x: real, n: int)
    requires -0.5 <= x - n as real <= 0.5
    requires x - n as real == 0.5 || x - n as real == -0.5 ==> n % 2 == 0
    ensures RoundHalfEven(x) == n
  {
    var m := RoundHalfEven(x);
    assert -1.0 <= (m - n) as real <= 1.0;
    assert m == n + 1 ==> x - n as real == 0.5 && x - m as real == -0.5;
    assert m == n - 1 ==> x - n as real == -0.5 && x - m as real == 0.5;
  }
}
