/**
 * Where a click may place a resistor: three open coordinate bands around
 * the left rail, the right rail and the bottom rail of the loop, tried in
 * that order, each with the coordinate a new resistor is snapped to.
 */
module Placement {
  import opened Wrappers

  datatype Rail = LeftRail | RightRail | BottomRail

  /** The lines resistors are snapped to: x on the side rails, y on the bottom rail. */
  const LeftRailX: real := -140.0
  const RightRailX: real := 140.0
  const BottomRailY: real := -126.0

  predicate InLeftBand(x: real) { x > -145.0 && x < -135.0 }
  predicate InRightBand(x: real) { x < 145.0 && x > 135.0 }
  predicate InBottomBand(y: real) { y > -131.0 && y < -121.0 }

  /**
   * The rail a world point selects, by the first band that contains it. A
   * rail is selected exactly when the point passes the click guard, the
   * disjunction of the three bands, so a guarded click always places.
   */
  function RailAt(x: real, y: real): (r: Option<Rail>)
    ensures r.Some? <==> (x > -145.0 && x < -135.0) || (x < 145.0 && x > 135.0) || (y > -131.0 && y < -121.0)
    ensures r == Some(LeftRail) <==> InLeftBand(x)
    ensures r == Some(RightRail) <==> InRightBand(x)
    ensures r == Some(BottomRail) <==> InBottomBand(y) && !InLeftBand(x) && !InRightBand(x)
  {
    if InLeftBand(x) then Some(LeftRail)
    else if InRightBand(x) then Some(RightRail)
    else if InBottomBand(y) then Some(BottomRail)
    else None
  }

  /** The position of a resistor placed on `rail` at a click on (x, y). */
  function SnapToRail(rail: Rail, x: real, y: real): (p: (real, real))
    ensures rail == LeftRail ==> p == (LeftRailX, y)
    ensures rail == RightRail ==> p == (RightRailX, y)
    ensures rail == BottomRail ==> p == (x, BottomRailY)
    ensures RailAt(x, y) == Some(rail) ==> RailAt(p.0, p.1) == Some(rail)
  {
    match rail
    case LeftRail => (LeftRailX, y)
    case RightRail => (RightRailX, y)
    case BottomRail => (x, BottomRailY)
  }

  /** Snapping is idempotent: a click on a snapped position selects the same rail and position. */
  lemma SnapIdempotent(x: real, y: real)
    requires RailAt(x, y).Some?
    ensures var p := SnapToRail(RailAt(x, y).value, x, y);
            && RailAt(p.0, p.1) == RailAt(x, y)
            && SnapToRail(RailAt(x, y).value, p.0, p.1) == p
  {
  }
}
