/**
 * Python numeric built-ins used by the renderer, over exact reals:
 * `math.floor`, `math.ceil`, `abs`, `min`, `max`, and `round`, which in
 * Python 3 rounds a tie to the even neighbour.
 */
module Numeric {

  function Floor(r: real): (n: int)
    ensures n as real <= r < n as real + 1.0
  {
    r.Floor
  }

  function Ceil(r: real): (n: int)
    ensures r <= n as real < r + 1.0
  {
    -((-r).Floor)
  }

  function Abs(r: real): (a: real)
    ensures a >= 0.0 && (a == r || a == -r)
  {
    if r < 0.0 then -r else r
  }

  function IntAbs(i: int): (a: int)
    ensures a >= 0 && (a == i || a == -i)
  {
    if i < 0 then -i else i
  }

  function Min(a: real, b: real): (m: real)
    ensures m <= a && m <= b && (m == a || m == b)
  {
    if a <= b then a else b
  }

  function Max(a: real, b: real): (m: real)
    ensures m >= a && m >= b && (m == a || m == b)
  {
    if a >= b then a else b
  }

  /** `min` and `max` on integers (pixel coordinates). Dafny has no ordered
      type shared by `int` and `real`, so these repeat `Min` and `Max`. */
  function IntMin(a: int, b: int): (m: int)
    ensures m <= a && m <= b && (m == a || m == b)
  {
    if a <= b then a else b
  }

  function IntMax(a: int, b: int): (m: int)
    ensures m >= a && m >= b && (m == a || m == b)
  {
    if a >= b then a else b
  }

  predicate IsEven(n: int) {
    n % 2 == 0
  }

  /** Python's `round(r)`: the nearest integer, a tie going to the even one. */
  function RoundHalfEven(r: real): (n: int)
    ensures r - 0.5 <= n as real <= r + 0.5
    ensures (n as real == r - 0.5 || n as real == r + 0.5) ==> IsEven(n)
  {
    var f := r.Floor;
    var frac := r - f as real;
    if frac < 0.5 then f
    else if frac > 0.5 then f + 1
    else if IsEven(f) then f
    else f + 1
  }

  /** Rounding an integer gives it back. */
  lemma RoundOfInteger(n: int)
    ensures RoundHalfEven(n as real) == n
  {
  }

  /** Rounding stays inside an integer interval that contains the value. */
  lemma {:induction false} RoundWithin(r: real, lo: int, hi: int)
    requires lo as real <= r <= hi as real
    ensures lo <= RoundHalfEven(r) <= hi
  {
    var n := RoundHalfEven(r);
    assert lo as real - 0.5 <= n as real <= hi as real + 0.5;
  }

  /** Ties go to the even neighbour: round(0.5) = 0, round(1.5) = 2, round(2.5) = 2. */
  lemma RoundTies()
    ensures RoundHalfEven(0.5) == 0 && RoundHalfEven(1.5) == 2 && RoundHalfEven(2.5) == 2
    ensures RoundHalfEven(-0.5) == 0 && RoundHalfEven(-1.5) == -2
  {
  }
}
