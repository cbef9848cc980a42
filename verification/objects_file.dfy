/**
 `objects_file.py`, the variant the simulation loop uses: a cannonball that
 carries its own time step and integrates with semi-implicit Euler, and a
 catching plate whose quadratic prediction goes through the LAST THREE
 observations.
 */
module ObjectsFile {

  import opened Vectors
  import opened Options
  import Sweep
  import Fit
  import Track
  import Controller

  /** `CannonBall`: position, velocity, radius and the simulation time step. */
  datatype CannonBall = CannonBall(position: Vec, velocity: Vec, radius: real, dt: real)

  /** `acceleration(a)`: only the velocity changes, by a * dt. */
  function Accelerate(b: CannonBall, a: Vec): (r: CannonBall)
    ensures r == b.(velocity := r.velocity)
    ensures Sub(r.velocity, b.velocity) == Scale(a, b.dt)
  {
    b.(velocity := Add(b.velocity, Scale(a, b.dt)))
  }

  /** `move()`: only the position changes, by the current velocity times dt. */
  function Move(b: CannonBall): (r: CannonBall)
    ensures r == b.(position := r.position)
    ensures Sub(r.position, b.position) == Scale(b.velocity, b.dt)
  {
    b.(position := Add(b.position, Scale(b.velocity, b.dt)))
  }

  /**
   `step(a)`: accelerate, then move. The position advances with the NEW
   velocity (semi-implicit Euler); radius and dt are untouched.
   */
  function Step(b: CannonBall, a: Vec): (r: CannonBall)
    ensures r.radius == b.radius && r.dt == b.dt
    ensures r.velocity == Add(b.velocity, Scale(a, b.dt))
    ensures r.position == Add(b.position, Scale(r.velocity, b.dt))
  {
    Move(Accelerate(b, a))
  }

  /** Undo one step: the reference inverse of `Step`. */
  function Unstep(b: CannonBall, a: Vec): CannonBall
  {
    var position := Sub(b.position, Scale(b.velocity, b.dt));
    b.(position := position, velocity := Sub(b.velocity, Scale(a, b.dt)))
  }

  /** A step is undone by stepping back with the same acceleration: no state is lost. */
  lemma StepUndo(b: CannonBall, a: Vec)
    ensures Unstep(Step(b, a), a) == b
  {
  }

  /** `n` consecutive steps under the same acceleration. */
  function Steps(b: CannonBall, a: Vec, n: nat): CannonBall
  {
    if n == 0 then b else Step(Steps(b, a, n - 1), a)
  }

  /** The velocity coordinate v0 + a * m * dt after `m` steps, in closed form. */
  function VelocityAfter(v0: real, a: real, dt: real, m: real): real
  {
    v0 + a * (m * dt)
  }

  /** The position coordinate p0 + v0 * m * dt + a * m * (m + 1) / 2 * dt^2 after `m` steps, in closed form. */
  function PositionAfter(p0: real, v0: real, a: real, dt: real, m: real): real
  {
    p0 + v0 * (m * dt) + a * (m * (m + 1.0) / 2.0 * (dt * dt))
  }

  /**
   One coordinate of the induction step of `StepsClosedForm`: from the closed
   form after `k` steps (`p`, `v`) and one more step (`p'`, `v'`) to the
   closed form after `k + 1` steps.
   */
  lemma ClosedFormAdvance(p0: real, v0: real, a: real, dt: real, k: real, p: real, v: real, p': real, v': real)
    requires v == VelocityAfter(v0, a, dt, k) && p == PositionAfter(p0, v0, a, dt, k)
    requires v' == v + a * dt && p' == p + v' * dt
    ensures v' == VelocityAfter(v0, a, dt, k + 1.0)
    ensures p' == PositionAfter(p0, v0, a, dt, k + 1.0)
  {
    var t := dt * dt;
    var m := k + 1.0;
    assert a * (k * dt) + a * dt == a * (m * dt);
    assert v' * dt == v0 * dt + a * (m * t);
    assert v0 * (k * dt) + v0 * dt == v0 * (m * dt);
    assert k * (k + 1.0) / 2.0 + m == m * (m + 1.0) / 2.0;
    assert a * (k * (k + 1.0) / 2.0 * t) + a * (m * t) == a * (m * (m + 1.0) / 2.0 * t);
  }

  /** The ball `c` is where `n` steps from `b` put it, by the closed form. */
  predicate AtClosedForm(b: CannonBall, a: Vec, m: real, c: CannonBall)
  {
    && c.radius == b.radius && c.dt == b.dt
    && c.velocity == Vec(VelocityAfter(b.velocity.x, a.x, b.dt, m), VelocityAfter(b.velocity.y, a.y, b.dt, m))
    && c.position == Vec(PositionAfter(b.position.x, b.velocity.x, a.x, b.dt, m),
                         PositionAfter(b.position.y, b.velocity.y, a.y, b.dt, m))
  }

  /** One more step keeps a ball on the closed form. */
  lemma StepAdvances(b: CannonBall, a: Vec, k: real, c: CannonBall)
    requires AtClosedForm(b, a, k, c)
    ensures AtClosedForm(b, a, k + 1.0, Step(c, a))
  {
    var d := Step(c, a);
    ClosedFormAdvance(b.position.x, b.velocity.x, a.x, b.dt, k, c.position.x, c.velocity.x, d.position.x, d.velocity.x);
    ClosedFormAdvance(b.position.y, b.velocity.y, a.y, b.dt, k, c.position.y, c.velocity.y, d.position.y, d.velocity.y);
  }

  /**
   After `n` steps the velocity is v0 + n * a * dt and the position is
   p0 + n * v0 * dt + n * (n + 1) / 2 * a * dt^2: the closed form of
   semi-implicit Euler under constant acceleration.
   */
  lemma {:induction false} StepsClosedForm(b: CannonBall, a: Vec, n: nat)
    ensures AtClosedForm(b, a, n as real, Steps(b, a, n))
  {
    if n > 0 {
      StepsClosedForm(b, a, n - 1);
      StepAdvances(b, a, (n - 1) as real, Steps(b, a, n - 1));
    }
  }

  /** One step from the cannon mouth: p = (50, 128), v = (120, 80), gravity (0, -9.81), dt 0.3. */
  lemma StepExample()
    ensures var b := Step(CannonBall(Vec(50.0, 128.0), Vec(120.0, 80.0), 20.0, 0.3), Vec(0.0, -9.81));
      b.velocity == Vec(120.0, 77.057) && b.position == Vec(86.0, 151.1171)
  {
    assert Scale(Vec(0.0, -9.81), 0.3) == Vec(0.0, -2.943);
    assert Scale(Vec(120.0, 77.057), 0.3) == Vec(36.0, 23.1171);
  }

  /**
   `is_collision(point)`: the swept-radius test. `dist` and `speed` are the
   roots `np.sqrt` computes of the squared distance to `point` and of the
   squared speed. The result is characterised without the distance root.
   */
  function IsCollision(b: CannonBall, point: Vec, dist: real, speed: real): (hit: bool)
    requires IsRoot(dist, SqDist(b.position, point))
    requires IsRoot(speed, SqNorm(b.velocity))
    ensures hit <==> Sweep.WithinReach(b.position, point, b.radius, speed, b.dt)
  {
    Sweep.WithinIffSquared(dist, SqDist(b.position, point), Sweep.Reach(b.radius, speed, b.dt));
    dist <= Sweep.Reach(b.radius, speed, b.dt)
  }

  /** Growing the radius never turns a hit into a miss. */
  lemma CollisionMonotoneInRadius(b: CannonBall, point: Vec, dist: real, speed: real, radius: real)
    requires IsRoot(dist, SqDist(b.position, point))
    requires IsRoot(speed, SqNorm(b.velocity))
    requires radius >= b.radius
    ensures IsCollision(b, point, dist, speed) ==> IsCollision(b.(radius := radius), point, dist, speed)
  {
  }

  /** A ball always hits the point it is centred on (distance root 0), given a non-negative radius and time step. */
  lemma CollisionAtCentre(b: CannonBall, speed: real)
    requires IsRoot(speed, SqNorm(b.velocity))
    requires b.radius >= 0.0 && b.dt >= 0.0
    ensures IsCollision(b, b.position, 0.0, speed)
  {
    Sweep.ReachCoversRadius(b.radius, speed, b.dt);
  }

  /** `get_position()`: a copy of the position (values are immutable here, so the copy is the value). */
  function GetPosition(b: CannonBall): Vec
  {
    b.position
  }

  /**
   `CatchPlate`: centre height, the fixed x of its track, its integer width,
   speed, required (target) position, the track borders, the time step and
   the observation history.
   */
  datatype CatchPlate = CatchPlate(
    center: real,
    plateX: real,
    width: int,
    velocity: real,
    required: real,
    minHeight: real,
    maxHeight: real,
    dt: real,
    track: Track.History)

  /** `CatchPlate(...)`: the plate starts at rest on its target with an empty history. */
  function NewPlate(center: real, plateX: real, width: int, velocity: real, minHeight: real, maxHeight: real, dt: real): (p: CatchPlate)
    ensures p.required == p.center == center
    ensures Track.Valid(p.track) && |p.track.obs| == 0
    ensures p.plateX == plateX && p.width == width && p.velocity == velocity && p.dt == dt
    ensures p.minHeight == minHeight && p.maxHeight == maxHeight
  {
    CatchPlate(center, plateX, width, velocity, center, minHeight, maxHeight, dt, Track.Empty())
  }

  /** `append_pos(ball_pos)`: store the position unless its x is already stored. */
  function AppendPos(p: CatchPlate, pos: Vec): (r: CatchPlate)
    ensures r == p.(track := r.track)
    ensures Track.SeenX(p.track.obs, pos.x) ==> r == p
    ensures !Track.SeenX(p.track.obs, pos.x) ==> r.track.obs == p.track.obs + [pos] && r.track.numObs == p.track.numObs + 1
    ensures Track.Valid(p.track) ==> Track.Valid(r.track)
  {
    p.(track := Track.Append(p.track, pos))
  }

  /** `free_track()`: forget the episode's observations; everything else persists. */
  function FreeTrack(p: CatchPlate): (r: CatchPlate)
    ensures r == p.(track := r.track)
    ensures Track.Valid(r.track) && |r.track.obs| == 0 && r.track.numObs == 0
  {
    p.(track := Track.Empty())
  }

  /** `move_to_destination()`: one capped, border-gated step towards the required position. */
  function MoveToDestination(p: CatchPlate): (r: CatchPlate)
    ensures r == p.(center := r.center)
    ensures p.velocity * p.dt >= 0.0 ==> Controller.Between(p.center, r.center, p.required)
    ensures p.velocity * p.dt >= 0.0 ==> Controller.Abs(r.center - p.center) <= p.velocity * p.dt
    ensures p.velocity * p.dt >= 0.0 && p.center - Controller.Half(p.width) < p.minHeight ==> r.center >= p.center
    ensures p.velocity * p.dt >= 0.0 && p.center + Controller.Half(p.width) > p.maxHeight ==> r.center <= p.center
    ensures var change := Controller.Change(p.center, p.required, p.velocity * p.dt);
      r.center == p.center || r.center == p.center - change || r.center == p.center + change
    ensures Controller.Abs(p.required - p.center) <= p.velocity * p.dt && Controller.GateOpen(p.center, p.required, p.width, p.minHeight, p.maxHeight) ==> r.center == p.required
    ensures p.velocity * p.dt > 0.0 && Controller.GateOpen(p.center, p.required, p.width, p.minHeight, p.maxHeight) && p.required != p.center ==>
      Controller.Abs(p.required - r.center) < Controller.Abs(p.required - p.center)
  {
    p.(center := Controller.MoveCenter(p.center, p.required, p.width, p.minHeight, p.maxHeight, p.velocity * p.dt))
  }

  /**
   `approximation()`: recompute the required position from the history.
   Zero observations keep the plate where it is, one is extrapolated as a
   constant, two by the line through them (the last y when their x coincide),
   three or more by the parabola through the last three. `None` stands for a
   fit with a zero divisor, whose float result the model leaves undefined;
   a valid history never produces one.
   */
  function Approximation(p: CatchPlate): (r: Option<CatchPlate>)
    requires p.track.numObs == |p.track.obs|
    ensures r.Some? ==> r.value == p.(required := r.value.required)
    ensures Track.Valid(p.track) ==> r.Some?
    ensures var h := p.track.obs;
      && (|h| == 0 ==> r == Some(p.(required := p.center)))
      && (|h| == 1 ==> r == Some(p.(required := h[0].y)))
      && (|h| == 2 && h[0].x == h[1].x ==> r == Some(p.(required := h[1].y)))
      && (|h| == 2 && h[0].x != h[1].x ==>
            r.Some? && forall l :: Fit.OnLine(l, h[0]) && Fit.OnLine(l, h[1]) ==> r.value.required == Fit.LineAt(l, p.plateX))
      && (|h| >= 3 ==> (r.Some? <==> Fit.DistinctX3(h[|h| - 3], h[|h| - 2], h[|h| - 1])))
      && (|h| >= 3 && r.Some? ==>
            forall q :: Fit.OnParabola(q, h[|h| - 3]) && Fit.OnParabola(q, h[|h| - 2]) && Fit.OnParabola(q, h[|h| - 1]) ==>
              r.value.required == Fit.ParabolaAt(q, p.plateX))
  {
    var n := p.track.numObs;
    var h := p.track.obs;
    if n == 0 then Some(p.(required := p.center))
    else if n == 1 then Some(p.(required := h[0].y))
    else if n == 2 then
      var p0, p1 := h[n - 2], h[n - 1];
      if p0.x == p1.x then Some(p.(required := p1.y))
      else
        Fit.LineDetermined(p0, p1, p.plateX);
        Some(p.(required := Fit.LineAt(Fit.LineThrough(p0, p1), p.plateX)))
    else
      var p0, p1, p2 := h[n - 3], h[n - 2], h[n - 1];
      if !Fit.DistinctX3(p0, p1, p2) then None
      else
        Fit.ParabolaDetermined(p0, p1, p2, p.plateX);
        Some(p.(required := Fit.ParabolaAt(Fit.ParabolaThrough(p0, p1, p2), p.plateX)))
  }

  /** The worked example: observations (10, 50) and (20, 70) and plate x 30 give target 90. */
  lemma LinearPredictionExample(p: CatchPlate)
    requires p.track == Track.History([Vec(10.0, 50.0), Vec(20.0, 70.0)], 2) && p.plateX == 30.0
    ensures Approximation(p) == Some(p.(required := 90.0))
  {
  }

  /**
   `get_borders()`: the lower edge, the centre and the upper edge on the
   plate's track. The lower offset is `(-width) // 2`, so an odd-width plate
   reaches one unit further down than up; the edges are always `width` apart.
   */
  function GetBorders(p: CatchPlate): (r: seq<Vec>)
    ensures |r| == 3
    ensures forall i :: 0 <= i < |r| ==> r[i].x == p.plateX
    ensures r[1].y == p.center
    ensures r[2].y - r[0].y == p.width as real
    ensures r[2].y - r[1].y == Controller.Half(p.width)
    ensures p.width % 2 == 0 <==> r[2].y - r[1].y == r[1].y - r[0].y
    ensures p.width >= 0 ==> r[0].y <= r[1].y <= r[2].y
  {
    [Vec(p.plateX, p.center + ((-p.width) / 2) as real),
     Vec(p.plateX, p.center),
     Vec(p.plateX, p.center + (p.width / 2) as real)]
  }
}
