/** Easing curves (src/easing.rs), over the reals.
    Each maps an animation progress in [0, 1] to an eased progress. The
    bounce and cubic curves are piecewise polynomials and are modelled
    exactly; the elastic curves call `powf` and `sin`, which stay
    uninterpreted: they are supplied by a `MathLib` value. */
module Easing {

  /** The f32 value of the constant `std::f32::consts::PI`, written out exactly. */
  const PI: real := 3.1415927410125732421875

  /** The platform's transcendental float functions, left uninterpreted. */
  datatype MathLib = MathLib(powf: (real, real) -> real, sin: real -> real, cos: real -> real)

  /** The constant C4 of `ease_out_elastic`. */
  const C4: real := (2.0 * PI) / 3.0

  /** The constant c5 of `ease_in_out_elastic`. */
  const C5: real := (2.0 * PI) / 4.5

  function EaseOutElastic(lib: MathLib, x: real): real
  {
    if x == 0.0 then 0.0
    else if x == 1.0 then 1.0
    else lib.powf(2.0, -10.0 * x) * lib.sin((x * 10.0 - 0.75) * C4) + 1.0
  }

  function EaseInOutElastic(lib: MathLib, x: real): real
  {
    if x == 0.0 then 0.0
    else if x == 1.0 then 1.0
    else if x < 0.5 then -(lib.powf(2.0, 20.0 * x - 10.0) * lib.sin((20.0 * x - 11.125) * C5)) / 2.0
    else (lib.powf(2.0, -20.0 * x + 10.0) * lib.sin((20.0 * x - 11.125) * C5)) / 2.0 + 1.0
  }

  /** The elastic curves start at 0 and end at 1 whatever `powf` and `sin` are. */
  lemma ElasticEndpoints(lib: MathLib)
    ensures EaseOutElastic(lib, 0.0) == 0.0 && EaseOutElastic(lib, 1.0) == 1.0
    ensures EaseInOutElastic(lib, 0.0) == 0.0 && EaseInOutElastic(lib, 1.0) == 1.0
  {
  }

  const N1: real := 7.5625
  const D1: real := 2.75

  function EaseOutBounce(x: real): real
  {
    if x < 1.0 / D1 then N1 * x * x
    else if x < 2.0 / D1 then
      var x := x - 1.5 / D1;
      N1 * x * x + 0.75
    else if x < 2.5 / D1 then
      var x := x - 2.25 / D1;
      N1 * x * x + 0.9375
    else
      var x := x - 2.625 / D1;
      N1 * x * x + 0.984375
  }

  function EaseInBounce(x: real): real
  {
    1.0 - EaseOutBounce(1.0 - x)
  }

  function EaseInOutBounce(x: real): real
  {
    if x < 0.5 then (1.0 - EaseOutBounce(1.0 - 2.0 * x)) * 0.5
    else (1.0 + EaseOutBounce(2.0 * x - 1.0)) * 0.5
  }

  function EaseInOutCubic(x: real): real
  {
    if x < 0.5 then 4.0 * x * x * x
    else
      var y := -2.0 * x + 2.0;
      1.0 - y * y * y * 0.5
  }

  /** `ease_out_bounce` starts at 0 and ends exactly at 1: its last branch
      gives N1 * (1/22)^2 + 0.984375 = 1/64 + 63/64. */
  lemma OutBounceEndpoints()
    ensures EaseOutBounce(0.0) == 0.0 && EaseOutBounce(1.0) == 1.0
  {
  }

  /** Squares of numbers within [-c, c] are at most c^2. */
  lemma SquareAtMost(y: real, c: real)
    requires -c <= y <= c
    ensures y * y <= c * c
  {
    if y >= 0.0 {
      assert y * y <= c * y;
      assert c * y <= c * c;
    } else {
      assert y * y <= -c * y;
      assert -c * y <= c * c;
    }
  }

  /** On [0, 1] every bounce branch is N1 * (shifted x)^2 + offset with the
      shifted x small enough that the value stays within [0, 1]. */
  lemma OutBounceBounded(x: real)
    requires 0.0 <= x <= 1.0
    ensures 0.0 <= EaseOutBounce(x) <= 1.0
  {
    if x < 1.0 / D1 {
      SquareAtMost(x, 1.0 / D1);
      assert N1 * x * x <= 1.0;
    } else if x < 2.0 / D1 {
      var y := x - 1.5 / D1;
      SquareAtMost(y, 0.5 / D1);
      assert N1 * y * y <= 0.25;
      assert EaseOutBounce(x) == N1 * y * y + 0.75;
    } else if x < 2.5 / D1 {
      var y := x - 2.25 / D1;
      SquareAtMost(y, 0.25 / D1);
      assert N1 * y * y <= 0.0625;
      assert EaseOutBounce(x) == N1 * y * y + 0.9375;
    } else {
      var y := x - 2.625 / D1;
      SquareAtMost(y, 0.125 / D1);
      assert N1 * y * y <= 0.015625;
      assert EaseOutBounce(x) == N1 * y * y + 0.984375;
    }
  }

  /** `ease_in_bounce` is the point reflection of `ease_out_bounce`; it keeps
      the endpoints 0 and 1 and stays within [0, 1] on [0, 1]. */
  lemma InBounceProperties(x: real)
    requires 0.0 <= x <= 1.0
    ensures EaseInBounce(0.0) == 0.0 && EaseInBounce(1.0) == 1.0
    ensures 0.0 <= EaseInBounce(x) <= 1.0
  {
    OutBounceEndpoints();
    OutBounceBounded(1.0 - x);
  }

  lemma InOutBounceKeyValues()
    ensures EaseInOutBounce(0.0) == 0.0
    ensures EaseInOutBounce(0.5) == 0.5
    ensures EaseInOutBounce(1.0) == 1.0
  {
    OutBounceEndpoints();
  }

  /** The in-out bounce is point-symmetric about (0.5, 0.5). */
  lemma InOutBounceSymmetric(x: real)
    ensures EaseInOutBounce(1.0 - x) == 1.0 - EaseInOutBounce(x)
  {
    if x == 0.5 {
      OutBounceEndpoints();
    }
  }

  lemma InOutCubicKeyValues()
    ensures EaseInOutCubic(0.0) == 0.0
    ensures EaseInOutCubic(0.5) == 0.5
    ensures EaseInOutCubic(1.0) == 1.0
  {
  }

  /** The in-out cubic is point-symmetric about (0.5, 0.5). */
  lemma InOutCubicSymmetric(x: real)
    ensures EaseInOutCubic(1.0 - x) == 1.0 - EaseInOutCubic(x)
  {
  }
}
