/**
 * The two feedback signals a guess produces: the compass arrow pointing from
 * the guessed country towards the target, and the pink gradient colour that
 * encodes the distance.
 */
module Feedback {

  datatype Arrow = North | NorthEast | East | SouthEast | South | SouthWest | West | NorthWest
                 | Bullseye  // the fallback of the last line of getDirectionArrow

  /**
   * getDirectionArrow, given the bearing `angle` in degrees that the game
   * computes as atan2(dLng, dLat). The eight half-open 45-degree sectors are
   * tested in order; they are disjoint and cover every real angle, so each
   * arrow is returned exactly on its own sector and the fallback never is.
   * Two coincident points give atan2(0, 0) = 0 and so the north arrow, not the
   * target symbol.
   */
  function DirectionArrow(angle: real): (a: Arrow)
    ensures a != Bullseye
    ensures a == North <==> -22.5 <= angle < 22.5
    ensures a == NorthEast <==> 22.5 <= angle < 67.5
    ensures a == East <==> 67.5 <= angle < 112.5
    ensures a == SouthEast <==> 112.5 <= angle < 157.5
    ensures a == South <==> 157.5 <= angle || angle < -157.5
    ensures a == SouthWest <==> -157.5 <= angle < -112.5
    ensures a == West <==> -112.5 <= angle < -67.5
    ensures a == NorthWest <==> -67.5 <= angle < -22.5
  {
    if -22.5 <= angle < 22.5 then North
    else if 22.5 <= angle < 67.5 then NorthEast
    else if 67.5 <= angle < 112.5 then East
    else if 112.5 <= angle < 157.5 then SouthEast
    else if 157.5 <= angle || angle < -157.5 then South
    else if -157.5 <= angle < -112.5 then SouthWest
    else if -112.5 <= angle < -67.5 then West
    else if -67.5 <= angle < -22.5 then NorthWest
    else Bullseye
  }

  /** The compass points clockwise from north, one per 45-degree sector. */
  const COMPASS: seq<Arrow> := [North, NorthEast, East, SouthEast, South, SouthWest, West, NorthWest]

  /**
   * On the range atan2 produces, the arrow is the compass point of the sector
   * the angle falls in when the circle is cut into eight sectors starting at
   * -22.5 degrees: the sector number is floor((angle + 22.5) / 45) modulo 8.
   */
  lemma ArrowIsCompassSector(angle: real)
    requires -180.0 <= angle <= 180.0
    ensures DirectionArrow(angle) == COMPASS[((angle + 22.5) / 45.0).Floor % 8]
  {
    var x := (angle + 22.5) / 45.0;
    var k := x.Floor;
    assert k as real <= x < k as real + 1.0;
    assert -4 <= k <= 4;
    if k == -4 { assert k % 8 == 4; }
    else if k == -3 { assert k % 8 == 5; }
    else if k == -2 { assert k % 8 == 6; }
    else if k == -1 { assert k % 8 == 7; }
  }

  /** Math.round: half-way cases round towards positive infinity. */
  function Round(x: real): (n: int)
    ensures x - 0.5 < n as real <= x + 0.5
  {
    (x + 0.5).Floor
  }

  datatype Rgb = Rgb(r: int, g: int, b: int)

  /** Distances at or beyond this many kilometres all get the far end of the gradient. */
  const MAX_DISTANCE: real := 12000.0

  /**
   * getDistanceColor: the distance, as a fraction of 12000 km capped at 1, runs
   * from deep pink rgb(199, 21, 133) at 0 to hot pink rgb(255, 105, 180) at
   * one half and light pink rgb(255, 228, 236) at 1, interpolated linearly per
   * channel on each half and rounded with Math.round.
   */
  function DistanceColor(distance: real): (c: Rgb)
    ensures distance >= MAX_DISTANCE ==> c == Rgb(255, 228, 236)
    ensures distance == 0.0 ==> c == Rgb(199, 21, 133)
    ensures distance == MAX_DISTANCE / 2.0 ==> c == Rgb(255, 105, 180)
    ensures distance >= MAX_DISTANCE / 2.0 ==> c.r == 255
    ensures distance >= 0.0 ==> 199 <= c.r <= 255 && 21 <= c.g <= 228 && 133 <= c.b <= 236
  {
    var ratio := if distance / MAX_DISTANCE < 1.0 then distance / MAX_DISTANCE else 1.0;
    if ratio < 0.5 then
      var t := ratio / 0.5;
      Rgb(Round(199.0 + t * 56.0), Round(21.0 + t * 84.0), Round(133.0 + t * 47.0))
    else
      var t := (ratio - 0.5) / 0.5;
      Rgb(255, Round(105.0 + t * 123.0), Round(180.0 + t * 56.0))
  }

  lemma RoundMonotone(x: real, y: real)
    requires x <= y
    ensures Round(x) <= Round(y)
  {
  }

  /**
   * The gradient only ever gets lighter with distance: no channel decreases as
   * the distance grows, across the middle stop and the clamp included.
   */
  lemma DistanceColorMonotone(d1: real, d2: real)
    requires d1 <= d2
    ensures DistanceColor(d1).r <= DistanceColor(d2).r
    ensures DistanceColor(d1).g <= DistanceColor(d2).g
    ensures DistanceColor(d1).b <= DistanceColor(d2).b
  {
    var r1 := if d1 / MAX_DISTANCE < 1.0 then d1 / MAX_DISTANCE else 1.0;
    var r2 := if d2 / MAX_DISTANCE < 1.0 then d2 / MAX_DISTANCE else 1.0;
    assert r1 <= r2;
    if r1 < 0.5 && r2 < 0.5 {
      var t1, t2 := r1 / 0.5, r2 / 0.5;
      RoundMonotone(199.0 + t1 * 56.0, 199.0 + t2 * 56.0);
      RoundMonotone(21.0 + t1 * 84.0, 21.0 + t2 * 84.0);
      RoundMonotone(133.0 + t1 * 47.0, 133.0 + t2 * 47.0);
    } else if r1 < 0.5 {
      var t1, t2 := r1 / 0.5, (r2 - 0.5) / 0.5;
      RoundMonotone(21.0 + t1 * 84.0, 105.0 + t2 * 123.0);
      RoundMonotone(133.0 + t1 * 47.0, 180.0 + t2 * 56.0);
    } else {
      var t1, t2 := (r1 - 0.5) / 0.5, (r2 - 0.5) / 0.5;
      RoundMonotone(105.0 + t1 * 123.0, 105.0 + t2 * 123.0);
      RoundMonotone(180.0 + t1 * 56.0, 180.0 + t2 * 56.0);
    }
  }
}
