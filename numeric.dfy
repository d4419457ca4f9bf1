/** Python's numeric builtins (round, int, math.floor, math.ceil) and the
    random module (random.random, random.uniform), stated on Dafny's exact
    reals. Random draws come from an explicit oracle instead of a global
    generator. */
module Numeric {

  /** math.floor */
  function Floor(x: real): (r: int)
    ensures r as real <= x < r as real + 1.0
  {
    x.Floor
  }

  /** math.ceil */
  function Ceil(x: real): (r: int)
    ensures x <= r as real < x + 1.0
  {
    -((-x).Floor)
  }

  /** Python 3's round(x) on a number: to the nearest integer, halves to the
      even neighbour. */
  function Round(x: real): (r: int)
    ensures x - 0.5 <= r as real <= x + 0.5
  {
    var f := x.Floor;
    var frac := x - f as real;
    if frac < 0.5 then f
    else if frac > 0.5 then f + 1
    else if f % 2 == 0 then f
    else f + 1
  }

  /** A value strictly above one half rounds to at least one. */
  lemma RoundPositive(x: real)
    requires x > 0.5
    ensures Round(x) >= 1
  {
  }

  /** round(x, n) for n >= 0, given scale == 10^n: rounds x to the
      nearest multiple of 1/scale. */
  function RoundDecimals(x: real, scale: real): real
    requires scale >= 1.0
  {
    Round(x * scale) as real / scale
  }

  /** 10^8 and 10^9, the scales of round(value, 8) and round(health, 9). */
  const Scale8: real := 100000000.0
  const Scale9: real := 1000000000.0

  /** Rounding to decimals never takes a non-negative value below 0. */
  lemma RoundDecimalsNonNegative(x: real, scale: real)
    requires scale >= 1.0 && x >= 0.0
    ensures RoundDecimals(x, scale) >= 0.0
  {
    MulNonNegative(x, scale);
    assert Round(x * scale) >= 0;
  }

  /** Rounding to decimals keeps the sign of a value that is at least half
      a grid step away from 0. */
  lemma RoundDecimalsPositive(x: real, scale: real)
    requires scale >= 1.0 && x * scale > 0.5
    ensures RoundDecimals(x, scale) > 0.0
  {
    RoundPositive(x * scale);
  }

  /** Values already on the grid of 1/scale are left as they are. */
  lemma RoundDecimalsOnGrid(x: real, k: int, scale: real)
    requires scale >= 1.0 && x * scale == k as real
    ensures RoundDecimals(x, scale) == x
  {
    assert Round(k as real) == k;
    assert RoundDecimals(x, scale) == k as real / scale;
  }

  /** Rounding to decimals moves a value by at most half a grid step. */
  lemma RoundDecimalsClose(x: real, scale: real)
    requires scale >= 1.0
    ensures x - 0.5 / scale <= RoundDecimals(x, scale) <= x + 0.5 / scale
  {
    var r := Round(x * scale) as real;
    assert x * scale - 0.5 <= r <= x * scale + 0.5;
    assert (x * scale - 0.5) / scale == x - 0.5 / scale;
    assert (x * scale + 0.5) / scale == x + 0.5 / scale;
    DivMonotone(x * scale - 0.5, r, scale);
    DivMonotone(r, x * scale + 0.5, scale);
  }

  lemma DivMonotone(a: real, b: real, d: real)
    requires a <= b && d > 0.0
    ensures a / d <= b / d
  {
    assert b / d - a / d == (b - a) / d;
  }

  /** A value is on the grid of 1/scale: scaling it gives a whole number. */
  predicate OnGrid(x: real, scale: real)
  {
    (x * scale).Floor as real == x * scale
  }

  /** int(x): truncation toward zero. */
  function Trunc(x: real): (r: int)
    ensures x >= 0.0 ==> 0 <= r && r as real <= x < r as real + 1.0
    ensures x < 0.0 ==> r <= 0 && r as real - 1.0 < x <= r as real
  {
    if x >= 0.0 then x.Floor else Ceil(x)
  }

  function Min(a: real, b: real): real { if a <= b then a else b }
  function Max(a: real, b: real): real { if a >= b then a else b }

  /** random.uniform(a, b) given the draw u of random.random(): CPython
      computes a + (b - a) * u. */
  function Uniform(a: real, b: real, u: real): real
  {
    a + (b - a) * u
  }

  lemma MulNonNegative(x: real, y: real)
    requires x >= 0.0 && y >= 0.0
    ensures x * y >= 0.0
  {
  }

  /** A draw of uniform(a, b) lies between a and b whichever is larger. */
  lemma UniformBetween(a: real, b: real, u: real)
    requires 0.0 <= u < 1.0
    ensures Min(a, b) <= Uniform(a, b, u) <= Max(a, b)
    ensures a <= b ==> a <= Uniform(a, b, u) <= b
  {
    var d := b - a;
    assert d - d * u == d * (1.0 - u);
    if a <= b {
      MulNonNegative(d, u);
      MulNonNegative(d, 1.0 - u);
    } else {
      MulNonNegative(-d, u);
      MulNonNegative(-d, 1.0 - u);
    }
  }

  /** The environment of a spawner: the square root it uses and the
      sequence of random.random() draws it consumes, in order. */
  datatype Oracle = Oracle(sqrt: real -> real, draw: nat -> real)

  /** Every draw of random.random() lies in [0, 1). */
  ghost predicate DrawsInUnit(o: Oracle)
  {
    forall n: nat :: 0.0 <= o.draw(n) < 1.0
  }

  /** A value computed from the draws, and the position of the first draw
      not yet consumed. */
  datatype Drawn<T> = Drawn(value: T, next: nat)
}
