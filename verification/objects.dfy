/**
 `objects.py`, the vision variant: a cannonball without acceleration whose
 time step is passed to each call, and a catching plate whose quadratic
 prediction goes through the FIRST, a MIDDLE and the LAST observation, and
 whose observations come from an image detector.
 */
module Objects {

  import opened Vectors
  import opened Options
  import Sweep
  import Fit
  import Track
  import Controller

  /** `CannonBall`: position, velocity and radius; no stored time step. */
  datatype CannonBall = CannonBall(position: Vec, velocity: Vec, radius: real)

  /** `move(dt)`: uniform motion; the velocity is never changed in this variant. */
  function Move(b: CannonBall, dt: real): (r: CannonBall)
    ensures r == b.(position := r.position)
    ensures Sub(r.position, b.position) == Scale(b.velocity, dt)
  {
    b.(position := Add(b.position, Scale(b.velocity, dt)))
  }

  /** Two moves compose into one move over the summed time: the motion has no acceleration. */
  lemma MoveAdditive(b: CannonBall, s: real, t: real)
    ensures Move(Move(b, s), t) == Move(b, s + t)
  {
    assert b.velocity.x * s + b.velocity.x * t == b.velocity.x * (s + t);
    assert b.velocity.y * s + b.velocity.y * t == b.velocity.y * (s + t);
  }

  /**
   `is_collision(point, dt)`: the same swept-radius test as the other
   variant, with the time step passed in. `dist` and `speed` are the roots
   `np.sqrt` computes.
   */
  function IsCollision(b: CannonBall, point: Vec, dt: real, dist: real, speed: real): (hit: bool)
    requires IsRoot(dist, SqDist(b.position, point))
    requires IsRoot(speed, SqNorm(b.velocity))
    ensures hit <==> Sweep.WithinReach(b.position, point, b.radius, speed, dt)
  {
    Sweep.WithinIffSquared(dist, SqDist(b.position, point), Sweep.Reach(b.radius, speed, dt));
    dist <= Sweep.Reach(b.radius, speed, dt)
  }

  /** Growing the radius never turns a hit into a miss. */
  lemma CollisionMonotoneInRadius(b: CannonBall, point: Vec, dt: real, dist: real, speed: real, radius: real)
    requires IsRoot(dist, SqDist(b.position, point))
    requires IsRoot(speed, SqNorm(b.velocity))
    requires radius >= b.radius
    ensures IsCollision(b, point, dt, dist, speed) ==> IsCollision(b.(radius := radius), point, dt, dist, speed)
  {
  }

  /**
   `CatchPlate`: as in the other variant but without a stored time step;
   `move_to_destination` takes it as an argument.
   */
  datatype CatchPlate = CatchPlate(
    center: real,
    plateX: real,
    width: int,
    velocity: real,
    required: real,
    minHeight: real,
    maxHeight: real,
    track: Track.History)

  /** `CatchPlate(...)`: the plate starts at rest on its target with an empty history. */
  function NewPlate(center: real, plateX: real, width: int, velocity: real, minHeight: real, maxHeight: real): (p: CatchPlate)
    ensures p.required == p.center == center
    ensures Track.Valid(p.track) && |p.track.obs| == 0
    ensures p.plateX == plateX && p.width == width && p.velocity == velocity
    ensures p.minHeight == minHeight && p.maxHeight == maxHeight
  {
    CatchPlate(center, plateX, width, velocity, center, minHeight, maxHeight, Track.Empty())
  }

  /** `free_track()`: forget the episode's observations; everything else persists. */
  function FreeTrack(p: CatchPlate): (r: CatchPlate)
    ensures r == p.(track := r.track)
    ensures Track.Valid(r.track) && |r.track.obs| == 0 && r.track.numObs == 0
  {
    p.(track := Track.Empty())
  }

  /**
   The bookkeeping half of `find_ball`: a detected centroid `coords` is stored
   only when its x is new, and then the counter grows by exactly one. The
   detection itself (thresholding and contour extraction) is not modelled.
   */
  function RecordDetection(p: CatchPlate, coords: Vec): (r: CatchPlate)
    ensures r == p.(track := r.track)
    ensures Track.SeenX(p.track.obs, coords.x) ==> r == p
    ensures !Track.SeenX(p.track.obs, coords.x) ==> r.track.obs == p.track.obs + [coords] && r.track.numObs == p.track.numObs + 1
    ensures Track.Valid(p.track) ==> Track.Valid(r.track)
  {
    p.(track := Track.Append(p.track, coords))
  }

  /** `move_to_destination(dt)`: one capped, border-gated step towards the required position. */
  function MoveToDestination(p: CatchPlate, dt: real): (r: CatchPlate)
    ensures r == p.(center := r.center)
    ensures p.velocity * dt >= 0.0 ==> Controller.Between(p.center, r.center, p.required)
    ensures p.velocity * dt >= 0.0 ==> Controller.Abs(r.center - p.center) <= p.velocity * dt
    ensures p.velocity * dt >= 0.0 && p.center - Controller.Half(p.width) < p.minHeight ==> r.center >= p.center
    ensures p.velocity * dt >= 0.0 && p.center + Controller.Half(p.width) > p.maxHeight ==> r.center <= p.center
    ensures var change := Controller.Change(p.center, p.required, p.velocity * dt);
      r.center == p.center || r.center == p.center - change || r.center == p.center + change
    ensures Controller.Abs(p.required - p.center) <= p.velocity * dt && Controller.GateOpen(p.center, p.required, p.width, p.minHeight, p.maxHeight) ==> r.center == p.required
    ensures p.velocity * dt > 0.0 && Controller.GateOpen(p.center, p.required, p.width, p.minHeight, p.maxHeight) && p.required != p.center ==>
      Controller.Abs(p.required - r.center) < Controller.Abs(p.required - p.center)
  {
    p.(center := Controller.MoveCenter(p.center, p.required, p.width, p.minHeight, p.maxHeight, p.velocity * dt))
  }

  /**
   The middle anchor `track_list[-(num_obs // 2 + 1)]` as an index from the
   front. For three or more observations it lies strictly between the first
   and the last, so the three anchors are distinct observations.
   */
  function MiddleIndex(n: int): (m: int)
    requires n >= 1
    ensures 0 <= m < n
    ensures n >= 3 ==> 0 < m < n - 1
  {
    n - (n / 2 + 1)
  }

  /**
   `approximation()`: as in the other variant for up to two observations
   (`track_list[-num_obs]` is the first stored one); from three on, the
   parabola goes through the first, the middle and the last observation.
   `None` stands for a fit with a zero divisor; a valid history never
   produces one.
   */
  function Approximation(p: CatchPlate): (r: Option<CatchPlate>)
    requires p.track.numObs == |p.track.obs|
    ensures r.Some? ==> r.value == p.(required := r.value.required)
    ensures Track.Valid(p.track) ==> r.Some?
    ensures var h := p.track.obs;
      && (|h| == 0 ==> r == Some(p.(required := p.center)))
      && (|h| == 1 ==> r == Some(p.(required := h[0].y)))
      && (|h| == 2 && h[0].x == h[1].x ==> r == Some(p.(required := h[1].y)))
      && (|h| == 2 && h[0].x != h[1].x ==>
            r.Some? && forall l :: Fit.OnLine(l, h[0]) && Fit.OnLine(l, h[1]) ==> r.value.required == Fit.LineAt(l, p.plateX))
      && (|h| >= 3 ==> (r.Some? <==> Fit.DistinctX3(h[0], h[MiddleIndex(|h|)], h[|h| - 1])))
      && (|h| >= 3 && r.Some? ==>
            forall q :: Fit.OnParabola(q, h[0]) && Fit.OnParabola(q, h[MiddleIndex(|h|)]) && Fit.OnParabola(q, h[|h| - 1]) ==>
              r.value.required == Fit.ParabolaAt(q, p.plateX))
  {
    var n := p.track.numObs;
    var h := p.track.obs;
    if n == 0 then Some(p.(required := p.center))
    else if n == 1 then Some(p.(required := h[0].y))
    else if n == 2 then
      var p0, p1 := h[|h| - n], h[n - 1];
      if p0.x == p1.x then Some(p.(required := p1.y))
      else
        Fit.LineDetermined(p0, p1, p.plateX);
        Some(p.(required := Fit.LineAt(Fit.LineThrough(p0, p1), p.plateX)))
    else
      var p0, p1, p2 := h[|h| - n], h[MiddleIndex(n)], h[n - 1];
      if !Fit.DistinctX3(p0, p1, p2) then None
      else
        Fit.ParabolaDetermined(p0, p1, p2, p.plateX);
        Some(p.(required := Fit.ParabolaAt(Fit.ParabolaThrough(p0, p1, p2), p.plateX)))
  }

  /**
   `get_borders(correct_x)`: the lower edge, the centre and the upper edge,
   every x shifted by `correct_x`; the heights are those of the other variant.
   */
  function GetBorders(p: CatchPlate, correctX: real): (r: seq<Vec>)
    ensures |r| == 3
    ensures forall i :: 0 <= i < |r| ==> r[i].x == p.plateX + correctX
    ensures r[1].y == p.center
    ensures r[2].y - r[0].y == p.width as real
    ensures r[2].y - r[1].y == Controller.Half(p.width)
    ensures p.width % 2 == 0 <==> r[2].y - r[1].y == r[1].y - r[0].y
    ensures p.width >= 0 ==> r[0].y <= r[1].y <= r[2].y
  {
    [Vec(p.plateX + correctX, p.center + ((-p.width) / 2) as real),
     Vec(p.plateX + correctX, p.center),
     Vec(p.plateX + correctX, p.center + (p.width / 2) as real)]
  }
}
