/**
 The swept-radius proximity test shared by both ball variants: a point is hit
 when its distance from the ball's centre is at most the radius inflated by half
 the distance the ball covers in one tick.
 */
module Sweep {

  import opened Vectors

  /** The effective collision radius `radius + speed * dt / 2`. */
  function Reach(radius: real, speed: real, dt: real): real
  {
    radius + speed * dt / 2.0
  }

  /**
   The swept-radius test without the distance root: the reach of a ball at
   `position` is non-negative and the squared distance to `point` is at most
   its square.
   */
  predicate WithinReach(position: Vec, point: Vec, radius: real, speed: real, dt: real)
  {
    var reach := Reach(radius, speed, dt);
    reach >= 0.0 && SqDist(position, point) <= reach * reach
  }

  /** Between non-negative numbers, order and order of squares agree. */
  lemma SquaresOrdered(d: real, e: real)
    requires 0.0 <= d && 0.0 <= e
    ensures d <= e <==> d * d <= e * e
  {
    if d <= e {
      assert d * d <= d * e;
      assert d * e <= e * e;
    } else {
      assert d * d - e * e == (d - e) * (d + e);
      var u, v := d - e, d + e;
      assert u > 0.0 && v > 0.0;
      assert u * v > 0.0;
    }
  }

  /**
   The test `dist <= reach`, where `dist` is the root of the squared distance,
   decides the same as comparing squared quantities: no root of the distance is needed.
   */
  lemma WithinIffSquared(dist: real, sq: real, reach: real)
    requires IsRoot(dist, sq)
    ensures dist <= reach <==> (reach >= 0.0 && sq <= reach * reach)
  {
    if reach >= 0.0 {
      SquaresOrdered(dist, reach);
    }
  }

  /** With a non-negative speed and time step the reach is at least the radius. */
  lemma ReachCoversRadius(radius: real, speed: real, dt: real)
    requires speed >= 0.0 && dt >= 0.0
    ensures Reach(radius, speed, dt) >= radius
  {
    assert speed * dt >= 0.0;
  }
}
