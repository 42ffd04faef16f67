/** The two rounding modes the services use, on amounts in paise: the exact
    amount is a real number of paise and the rounded one a whole number. */
module Rounding {

  /** decimal.js's default mode and JavaScript's `toFixed`: ties go away from zero. */
  function HalfUp(x: real): int {
    if x >= 0.0 then (x + 0.5).Floor else -(-x + 0.5).Floor
  }

  /** `Decimal.ROUND_HALF_EVEN`: ties go to the even neighbour. */
  function HalfEven(x: real): int {
    var below := x.Floor;
    var rest := x - below as real;
    if rest < 0.5 || (rest == 0.5 && below % 2 == 0) then below else below + 1
  }

  /** It is exactly the nearest whole number, of two equally near the one away from zero. */
  lemma {:induction false} HalfUpNearest(x: real, n: int)
    ensures n == HalfUp(x) <==>
            && -0.5 <= n as real - x <= 0.5
            && (n as real - x == 0.5 ==> x >= 0.0) && (n as real - x == -0.5 ==> x <= 0.0)
  {
    var up, down := (x + 0.5).Floor, (-x + 0.5).Floor;
    assert up as real <= x + 0.5 < up as real + 1.0 && down as real <= -x + 0.5 < down as real + 1.0;
    if x >= 0.0 {
      Between(x + 0.5, n);
    } else {
      Between(-x + 0.5, -n);
    }
  }

  lemma {:induction false} Between(x: real, n: int)
    ensures n == x.Floor <==> n as real <= x < n as real + 1.0
  {}

  lemma {:induction false} HalfUpMonotone(x: real, y: real)
    requires x <= y
    ensures HalfUp(x) <= HalfUp(y)
  {}

  lemma {:induction false} HalfUpWhole(n: int)
    ensures HalfUp(n as real) == n
  {}

  /** Whole paise pass through the rounding of a non-negative rest. */
  lemma {:induction false} HalfUpShift(n: nat, x: real)
    requires x >= 0.0
    ensures HalfUp(n as real + x) == n + HalfUp(x)
  {
    assert (n as real + x + 0.5).Floor == n + (x + 0.5).Floor;
  }

  /** Half-even rounding picks the nearest whole number, and of two equally near the even one. */
  lemma {:induction false} HalfEvenNearest(x: real, n: int)
    ensures n == HalfEven(x) <==>
        -0.5 < n as real - x < 0.5 || ((n as real - x == 0.5 || n as real - x == -0.5) && n % 2 == 0)
  {
    var below := x.Floor;
    if n != below && n != below + 1 {
      assert n as real - x <= -1.0 || n as real - x >= 1.0;
    }
  }

  lemma {:induction false} HalfEvenNear(x: real)
    ensures -0.5 <= HalfEven(x) as real - x <= 0.5
  {}

  lemma {:induction false} HalfEvenMonotone(x: real, y: real)
    requires x <= y
    ensures HalfEven(x) <= HalfEven(y)
  {}

  lemma {:induction false} HalfEvenWhole(n: int)
    ensures HalfEven(n as real) == n
  {}
}
