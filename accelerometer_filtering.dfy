/**
 * Three-channel smoothing of accelerometer measurements
 * (AccelerometerFilterMovingAverage): one moving average per axis, all with
 * the same starting point and the same alpha.
 */
module AccelerometerFiltering {
  import opened Smoothing
  import opened ADXL355

  /** Field `i` of a measurement, in declaration order x, y, z. */
  function Channel(m: Measurement, i: nat): real
    requires i < 3
  {
    if i == 0 then m.x else if i == 1 then m.y else m.z
  }

  /**
   * Channel-wise update of a measurement-shaped state, what one `addData` does:
   * each channel's average moves towards that channel of the input by alpha
   * times its distance to it.
   */
  function AddToAll(avg: Measurement, m: Measurement, alpha: real): (r: Measurement)
    ensures forall i :: 0 <= i < 3 ==> Channel(r, i) - Channel(avg, i) == alpha * (Channel(m, i) - Channel(avg, i))
  {
    EwmaStep(avg.x, m.x, alpha);
    EwmaStep(avg.y, m.y, alpha);
    EwmaStep(avg.z, m.z, alpha);
    Measurement(Ewma(avg.x, m.x, alpha), Ewma(avg.y, m.y, alpha), Ewma(avg.z, m.z, alpha))
  }

  /** The channels are independent: each depends only on its own field of the input. */
  lemma ChannelsIndependent(avg: Measurement, m: Measurement, m': Measurement, alpha: real, i: nat)
    requires i < 3 && Channel(m, i) == Channel(m', i)
    ensures Channel(AddToAll(avg, m, alpha), i) == Channel(AddToAll(avg, m', alpha), i)
  {
  }

  /** A constant measurement equal to the averages leaves them unchanged. */
  lemma AddToAllFixedPoint(c: Measurement, alpha: real)
    ensures AddToAll(c, c, alpha) == c
  {
    EwmaFixedPoint(c.x, alpha);
    EwmaFixedPoint(c.y, alpha);
    EwmaFixedPoint(c.z, alpha);
  }

  class AccelerometerFilterMovingAverage {
    const avgs: array<MovingAverage>
    /** The alpha all three channels were built with. */
    ghost const alpha: real

    /** Three distinct filters that share one alpha. */
    ghost predicate Valid()
      reads this, avgs
    {
      && avgs.Length == 3
      && avgs[0] != avgs[1] && avgs[1] != avgs[2] && avgs[0] != avgs[2]
      && avgs[0].alpha == alpha && avgs[1].alpha == alpha && avgs[2].alpha == alpha
    }

    /** The three averages as a measurement. */
    ghost function State(): Measurement
      requires Valid()
      reads this, avgs, avgs[0], avgs[1], avgs[2]
    {
      Measurement(avgs[0].avg, avgs[1].avg, avgs[2].avg)
    }

    constructor (startingPoint: real, a: real)
      ensures Valid() && alpha == a
      ensures State() == Measurement(startingPoint, startingPoint, startingPoint)
      ensures fresh(avgs) && fresh(avgs[0]) && fresh(avgs[1]) && fresh(avgs[2])
    {
      var m0 := new MovingAverage(startingPoint, a);
      var m1 := new MovingAverage(startingPoint, a);
      var m2 := new MovingAverage(startingPoint, a);
      avgs := new MovingAverage[3] [m0, m1, m2];
      alpha := a;
    }

    /** Adds one measurement: channel i takes field i, one `addPoint` per channel. */
    method AddData(measure: Measurement)
      requires Valid()
      modifies avgs[0], avgs[1], avgs[2]
      ensures Valid()
      ensures State() == AddToAll(old(State()), measure, alpha)
    {
      for i := 0 to 3
        invariant Valid()
        invariant forall k :: 0 <= k < i ==> avgs[k].avg == Ewma(old(avgs[k].avg), Channel(measure, k), alpha)
        invariant forall k :: i <= k < 3 ==> avgs[k].avg == old(avgs[k].avg)
      {
        avgs[i].AddPoint(Channel(measure, i));
      }
    }

    /** The three averages, in the order x, y, z; reading them changes nothing. */
    method GetAverage() returns (avg: Measurement)
      requires Valid()
      ensures avg == State()
    {
      avg := Measurement(0.0, 0.0, 0.0);
      for i := 0 to 3
        invariant forall k :: 0 <= k < i ==> Channel(avg, k) == avgs[k].avg
      {
        var v := avgs[i].GetAverage();
        avg := if i == 0 then avg.(x := v) else if i == 1 then avg.(y := v) else avg.(z := v);
      }
    }
  }
}
