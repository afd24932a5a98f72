/** Amounts as exact reals, and rounding half to even at six decimals. */
module Money {
  const SCALE: real := 1000000.0

  /** Half a unit of the sixth decimal. */
  const HALF_UNIT: real := 0.0000005

  function Abs(x: real): (r: real)
    ensures r >= 0.0 && (r == x || r == -x)
  {
    if x < 0.0 then -x else x
  }

  function AtRate(amount: real, rate: real): real {
    amount * rate
  }

  /** The integer nearest to `y`, the even one when two are equally near. */
  function RoundToInt(y: real): (n: int)
    ensures y - 0.5 <= n as real <= y + 0.5
    ensures n as real == y - 0.5 || n as real == y + 0.5 ==> n % 2 == 0
  {
    var f := y.Floor;
    if y - f as real < 0.5 then f
    else if y - f as real > 0.5 then f + 1
    else if f % 2 == 0 then f
    else f + 1
  }

  /** Python's `round(x, 6)`. */
  function Round6(x: real): (r: real)
    ensures Abs(r - x) <= HALF_UNIT
  {
    RoundToInt(x * SCALE) as real / SCALE
  }

  /** Nearness and the even rule determine the rounded integer. */
  lemma RoundToIntUnique(y: real, n: int)
    requires y - 0.5 <= n as real <= y + 0.5
    requires n as real == y - 0.5 || n as real == y + 0.5 ==> n % 2 == 0
    ensures RoundToInt(y) == n
  {
    var m := RoundToInt(y);
    assert m - 1 <= n <= m + 1;
  }

  lemma Round6Zero()
    ensures Round6(0.0) == 0.0
  {
  }
}
