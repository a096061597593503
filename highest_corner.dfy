/**
 * The highest-corner algorithm (HighestCornerAlgo).
 *
 * From the platform's roll and pitch it decides which of the four corners
 * are high: one corner when both angles are past the upper bound, the two
 * corners of a side when only one is, and no change when both are within the
 * band. Both angles inside the small deadband (and non-zero) clear every
 * corner. The corners are numbered 0 to 3 round the platform, so corner
 * `c + 2` is opposite corner `c`.
 */
module HighestCorner {

  type Corners = s: seq<bool> | |s| == 4 witness [false, false, false, false]

  const NoCorner: Corners := [false, false, false, false]

  /** `x` is inside the deadband: non-zero and of magnitude below `lb`. */
  predicate InDeadband(x: real, lb: real)
  {
    (x < 0.0 && x > -lb) || (x > 0.0 && x < lb)
  }

  /** The corner decision before the deadband is applied. */
  function Decide(c: Corners, roll: real, pitch: real, ub: real): Corners
  {
    if roll > ub then
      if pitch > ub then [false, false, true, false]
      else if pitch < -ub then [false, true, false, false]
      else [false, true, true, false]
    else if roll < -ub then
      if pitch > ub then [false, false, false, true]
      else if pitch < -ub then [true, false, false, false]
      else [true, false, false, true]
    else
      if pitch > ub then [false, false, true, true]
      else if pitch < -ub then [true, true, false, false]
      else c
  }

  /** The corners after one update with bounds `lb` (deadband) and `ub` (upper). */
  function NextCorners(c: Corners, roll: real, pitch: real, lb: real, ub: real): Corners
  {
    if InDeadband(roll, lb) && InDeadband(pitch, lb) then NoCorner else Decide(c, roll, pitch, ub)
  }

  /** The corners set in `c`. */
  function Set(c: Corners): set<nat>
  {
    set i | 0 <= i < 4 && c[i]
  }

  // The decision table, one lemma per row of roll, for a non-negative upper bound.

  lemma {:induction false} RollHigh(c: Corners, roll: real, pitch: real, lb: real, ub: real)
    requires 0.0 <= ub && roll > ub && !(InDeadband(roll, lb) && InDeadband(pitch, lb))
    ensures pitch > ub ==> Set(NextCorners(c, roll, pitch, lb, ub)) == {2}
    ensures pitch < -ub ==> Set(NextCorners(c, roll, pitch, lb, ub)) == {1}
    ensures -ub <= pitch <= ub ==> Set(NextCorners(c, roll, pitch, lb, ub)) == {1, 2}
  {
    var r := NextCorners(c, roll, pitch, lb, ub);
    SetOf(r);
  }

  lemma {:induction false} RollLow(c: Corners, roll: real, pitch: real, lb: real, ub: real)
    requires 0.0 <= ub && roll < -ub && !(InDeadband(roll, lb) && InDeadband(pitch, lb))
    ensures pitch > ub ==> Set(NextCorners(c, roll, pitch, lb, ub)) == {3}
    ensures pitch < -ub ==> Set(NextCorners(c, roll, pitch, lb, ub)) == {0}
    ensures -ub <= pitch <= ub ==> Set(NextCorners(c, roll, pitch, lb, ub)) == {0, 3}
  {
    var r := NextCorners(c, roll, pitch, lb, ub);
    SetOf(r);
  }

  lemma {:induction false} RollLevel(c: Corners, roll: real, pitch: real, lb: real, ub: real)
    requires 0.0 <= ub && -ub <= roll <= ub && !(InDeadband(roll, lb) && InDeadband(pitch, lb))
    ensures pitch > ub ==> Set(NextCorners(c, roll, pitch, lb, ub)) == {2, 3}
    ensures pitch < -ub ==> Set(NextCorners(c, roll, pitch, lb, ub)) == {0, 1}
    ensures -ub <= pitch <= ub ==> NextCorners(c, roll, pitch, lb, ub) == c
  {
    var r := NextCorners(c, roll, pitch, lb, ub);
    SetOf(r);
  }

  /** The set of corners, spelled out element by element. */
  lemma SetOf(c: Corners)
    ensures Set(c) == (if c[0] then {0} else {}) + (if c[1] then {1} else {}) + (if c[2] then {2} else {}) + (if c[3] then {3} else {})
  {
  }

  /** The deadband clears every corner, whatever the band says. */
  lemma DeadbandClears(c: Corners, roll: real, pitch: real, lb: real, ub: real)
    requires InDeadband(roll, lb) && InDeadband(pitch, lb)
    ensures Set(NextCorners(c, roll, pitch, lb, ub)) == {}
  {
  }

  /** An exact zero is never in the deadband, so a level reading on one axis keeps the band's decision. */
  lemma ZeroOutsideDeadband(c: Corners, pitch: real, lb: real, ub: real)
    ensures !InDeadband(0.0, lb)
    ensures NextCorners(c, 0.0, pitch, lb, ub) == Decide(c, 0.0, pitch, ub)
    ensures NextCorners(c, pitch, 0.0, lb, ub) == Decide(c, pitch, 0.0, ub)
  {
  }

  /** With the deadband inside the band, the deadband can fire only when the table keeps the corners. */
  lemma DeadbandInsideBand(roll: real, pitch: real, lb: real, ub: real)
    requires lb <= ub && InDeadband(roll, lb) && InDeadband(pitch, lb)
    ensures -ub <= roll <= ub && -ub <= pitch <= ub
  {
  }

  /** At most two corners are high and never two opposite ones. */
  predicate Admissible(c: Corners)
  {
    && !(c[0] && c[2]) && !(c[1] && c[3])
  }

  /** The number of high corners. */
  function HighCount(c: Corners): nat
  {
    (if c[0] then 1 else 0) + (if c[1] then 1 else 0) + (if c[2] then 1 else 0) + (if c[3] then 1 else 0)
  }

  /** Two corners at most follows from excluding both diagonals. */
  lemma AdmissibleAtMostTwo(c: Corners)
    requires Admissible(c)
    ensures HighCount(c) <= 2
  {
  }

  /** Every update keeps the corners admissible; the all-false start is admissible. */
  lemma UpdateKeepsAdmissible(c: Corners, roll: real, pitch: real, lb: real, ub: real)
    requires Admissible(c)
    ensures Admissible(NextCorners(c, roll, pitch, lb, ub))
    ensures Admissible(NoCorner)
  {
  }

  /** `unsigned int` on the target: 16 bits. */
  type UInt16 = x: int | 0 <= x < 0x1_0000

  /** The array index `getCorner` reads: `(offset + corner) % 4`, the sum wrapping at 2^16. */
  function CornerIndex(corner: UInt16, lowestCornerMode: bool): (i: nat)
    ensures i < 4
    ensures i == (corner + (if lowestCornerMode then 2 else 0)) % 4
  {
    (((if lowestCornerMode then 2 else 0) + corner) % 0x1_0000) % 4
  }

  /** Lowest-corner mode names the opposite corner: corner `c` there is corner `c + 2` otherwise. */
  lemma LowestModeIsOpposite(corner: UInt16)
    ensures CornerIndex(corner, true) == CornerIndex((corner + 2) % 0x1_0000, false)
    ensures CornerIndex(corner, true) == (CornerIndex(corner, false) + 2) % 4
  {
  }

  class HighestCornerAlgo {
    const corners: array<bool>
    const lowerbound: real
    const upperbound: real

    predicate Valid()
    {
      corners.Length == 4
    }

    ghost function State(): Corners
      requires Valid()
      reads this, corners
    {
      corners[..]
    }

    constructor (hystLow: real, hystHigh: real)
      ensures Valid() && fresh(corners)
      ensures State() == NoCorner && Admissible(State())
      ensures lowerbound == hystLow && upperbound == hystHigh
    {
      corners := new bool[4] [false, false, false, false];
      lowerbound := hystLow;
      upperbound := hystHigh;
    }

    /** Whether a corner is high; with `lowestCornerMode` the opposite corner is reported. */
    function GetCorner(corner: UInt16, lowestCornerMode: bool := false): (r: bool)
      requires Valid()
      reads this, corners
      ensures r == corners[(corner + (if lowestCornerMode then 2 else 0)) % 4]
    {
      corners[CornerIndex(corner, lowestCornerMode)]
    }

    method ResetAll()
      requires Valid()
      modifies corners
      ensures State() == NoCorner
    {
      corners[0] := false;
      corners[1] := false;
      corners[2] := false;
      corners[3] := false;
    }

    /** One step of the algorithm for a new roll and pitch. */
    method Update(roll: real, pitch: real)
      requires Valid()
      modifies corners
      ensures State() == NextCorners(old(State()), roll, pitch, lowerbound, upperbound)
    {
      if roll > upperbound {
        if pitch > upperbound {
          ResetAll();
          corners[2] := true;
        } else if pitch < -upperbound {
          ResetAll();
          corners[1] := true;
        } else {
          ResetAll();
          corners[1] := true;
          corners[2] := true;
        }
      } else if roll < -upperbound {
        if pitch > upperbound {
          ResetAll();
          corners[3] := true;
        } else if pitch < -upperbound {
          ResetAll();
          corners[0] := true;
        } else {
          ResetAll();
          corners[0] := true;
          corners[3] := true;
        }
      } else {
        if pitch > upperbound {
          ResetAll();
          corners[2] := true;
          corners[3] := true;
        } else if pitch < -upperbound {
          ResetAll();
          corners[0] := true;
          corners[1] := true;
        }
      }
      if ((roll < 0.0 && roll > -lowerbound) || (roll > 0.0 && roll < lowerbound))
        && ((pitch < 0.0 && pitch > -lowerbound) || (pitch > 0.0 && pitch < lowerbound))
      {
        ResetAll();
      }
    }
  }
}
