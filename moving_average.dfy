/**
 * Exponentially weighted moving average (MovingAverage).
 *
 * Each new point moves the average towards it by the fraction `alpha`; a
 * small alpha smooths a lot. The source works in single precision; the
 * model works over the reals.
 */
module Smoothing {

  /** One update of the average: `point * alpha + avg * (1 - alpha)`. */
  function Ewma(avg: real, point: real, alpha: real): real
  {
    point * alpha + avg * (1.0 - alpha)
  }

  /** The update moves the average by `alpha` times its distance to the point. */
  lemma EwmaStep(avg: real, point: real, alpha: real)
    ensures Ewma(avg, point, alpha) - avg == alpha * (point - avg)
    ensures point - Ewma(avg, point, alpha) == (1.0 - alpha) * (point - avg)
  {
  }

  /** alpha 1 follows the input exactly; alpha 0 ignores it. */
  lemma EwmaExtremes(avg: real, point: real)
    ensures Ewma(avg, point, 1.0) == point
    ensures Ewma(avg, point, 0.0) == avg
  {
  }

  /** A constant input equal to the average is a fixed point, whatever alpha is. */
  lemma EwmaFixedPoint(c: real, alpha: real)
    ensures Ewma(c, c, alpha) == c
  {
  }

  function Abs(x: real): real
  {
    if x < 0.0 then -x else x
  }

  /** With 0 <= alpha <= 1 the new average lies between the old one and the point. */
  lemma {:induction false} EwmaBetween(avg: real, point: real, alpha: real)
    requires 0.0 <= alpha <= 1.0
    ensures avg <= point ==> avg <= Ewma(avg, point, alpha) <= point
    ensures point <= avg ==> point <= Ewma(avg, point, alpha) <= avg
  {
    EwmaStep(avg, point, alpha);
    if avg <= point {
      assert 0.0 <= alpha * (point - avg) <= point - avg by {
        NonNegativeProduct(alpha, point - avg);
        NonNegativeProduct(1.0 - alpha, point - avg);
      }
    } else {
      assert 0.0 <= alpha * (avg - point) <= avg - point by {
        NonNegativeProduct(alpha, avg - point);
        NonNegativeProduct(1.0 - alpha, avg - point);
      }
    }
  }

  lemma NonNegativeProduct(a: real, b: real)
    requires 0.0 <= a && 0.0 <= b
    ensures 0.0 <= a * b
  {
  }

  /** The average after feeding the same point `n` times. */
  function Repeat(avg: real, point: real, alpha: real, n: nat): real
  {
    if n == 0 then avg else Ewma(Repeat(avg, point, alpha, n - 1), point, alpha)
  }

  function Power(x: real, n: nat): real
  {
    if n == 0 then 1.0 else x * Power(x, n - 1)
  }

  /**
   * Feeding a constant input shrinks the distance to it geometrically: after
   * `n` points the remaining distance is `(1 - alpha)^n` of the first.
   */
  lemma {:induction false} RepeatDistance(avg: real, point: real, alpha: real, n: nat)
    ensures point - Repeat(avg, point, alpha, n) == Power(1.0 - alpha, n) * (point - avg)
  {
    if n > 0 {
      RepeatDistance(avg, point, alpha, n - 1);
      var prev := Repeat(avg, point, alpha, n - 1);
      EwmaStep(prev, point, alpha);
      MulAssoc(1.0 - alpha, Power(1.0 - alpha, n - 1), point - avg);
    }
  }

  lemma MulAssoc(a: real, b: real, c: real)
    ensures a * (b * c) == (a * b) * c
  {
  }

  class MovingAverage {
    /** The weight of a new point; lots of smoothing is lower. */
    const alpha: real
    var avg: real

    constructor (startingPoint: real, a: real)
      ensures avg == startingPoint && alpha == a
    {
      avg := startingPoint;
      alpha := a;
    }

    /** Folds one point into the average. */
    method AddPoint(point: real)
      modifies this
      ensures avg == Ewma(old(avg), point, alpha)
    {
      avg := point * alpha + avg * (1.0 - alpha);
    }

    /** The current average; reading it changes nothing. */
    function GetAverage(): (r: real)
      reads this
      ensures r == avg
    {
      avg
    }
  }
}
