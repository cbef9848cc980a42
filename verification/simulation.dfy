/**
 The per-tick sequence and the episode predicates of `main.py`, built on the
 `objects_file.py` variant. One tick: test the ball against the plate's three
 border points and bounce it, step it under gravity, let the plate observe it
 and re-predict only inside the tracking zone (the middle third of the
 scene), then move the plate. Drawing, frame pacing and key handling are not
 modelled.
 */
module Simulation {

  import opened Vectors
  import opened Options
  import Track
  import Controller
  import Sweep
  import opened ObjectsFile

  /** The scene constants fixed at start-up. */
  datatype Config = Config(
    planeWidth: int,
    planeHeight: int,
    radius: int,
    plateVelocity: real,
    dt: real,
    gravity: Vec,
    cannon: Vec)

  /** The constants `main.py` uses. */
  const SourceConfig := Config(1500, 800, 20, 125.0, 0.3, Vec(0.0, -9.81), Vec(50.0, 128.0))

  /** The ball and the plate. */
  datatype World = World(plate: CatchPlate, ball: CannonBall)

  /**
   The plate built once at start-up: centred at half the scene height, on the
   line 10 left of the right wall, twice the ball's radius wide, travelling
   between 0 and the scene height.
   */
  function InitialPlate(cfg: Config): (p: CatchPlate)
    ensures p.center == p.required == (cfg.planeHeight / 2) as real
    ensures p.plateX == (cfg.planeWidth - 10) as real && p.width == 2 * cfg.radius
    ensures p.minHeight == 0.0 && p.maxHeight == cfg.planeHeight as real
    ensures p.velocity == cfg.plateVelocity && p.dt == cfg.dt
    ensures Track.Valid(p.track) && |p.track.obs| == 0
    ensures 0 <= cfg.radius && 2 * cfg.radius <= cfg.planeHeight ==>
      Controller.InsideBorders(p.center, p.width, p.minHeight, p.maxHeight)
  {
    NewPlate((cfg.planeHeight / 2) as real, (cfg.planeWidth - 10) as real, 2 * cfg.radius,
             cfg.plateVelocity, 0.0, cfg.planeHeight as real, cfg.dt)
  }

  /** With the source's constants the plate starts with both edges inside its borders. */
  lemma SourcePlateStartsInside()
    ensures var p := InitialPlate(SourceConfig);
      Controller.InsideBorders(p.center, p.width, p.minHeight, p.maxHeight) && p.center == 400.0
  {
  }

  /**
   The start of an episode: the plate's history is cleared (the plate itself
   persists) and a new ball leaves the cannon with the sampled velocity `v0`.
   */
  function StartEpisode(cfg: Config, plate: CatchPlate, v0: Vec): (w: World)
    ensures w.plate == plate.(track := w.plate.track)
    ensures Track.Valid(w.plate.track) && |w.plate.track.obs| == 0 && w.plate.track.numObs == 0
    ensures w.ball.position == cfg.cannon && w.ball.velocity == v0
    ensures w.ball.radius == cfg.radius as real && w.ball.dt == cfg.dt
  {
    World(FreeTrack(plate), CannonBall(cfg.cannon, v0, cfg.radius as real, cfg.dt))
  }

  /**
   `any(map(ball.is_collision, plate.get_borders()))`. `dists[i]` is the root
   of the squared distance to the i-th border point and `speed` the root of
   the squared speed.
   */
  function Hit(b: CannonBall, borders: seq<Vec>, dists: seq<real>, speed: real): (hit: bool)
    requires |borders| == |dists| == 3
    requires forall i :: 0 <= i < 3 ==> IsRoot(dists[i], SqDist(b.position, borders[i]))
    requires IsRoot(speed, SqNorm(b.velocity))
    ensures hit <==> exists i :: 0 <= i < 3 && Sweep.WithinReach(b.position, borders[i], b.radius, speed, b.dt)
  {
    IsCollision(b, borders[0], dists[0], speed)
    || IsCollision(b, borders[1], dists[1], speed)
    || IsCollision(b, borders[2], dists[2], speed)
  }

  /** `ball.velocity[0] *= -1` on a hit: only the horizontal velocity is reversed. */
  function Bounce(b: CannonBall, hit: bool): (r: CannonBall)
    ensures r.position == b.position && r.radius == b.radius && r.dt == b.dt
    ensures r.velocity.y == b.velocity.y
    ensures hit ==> r.velocity.x == -b.velocity.x
    ensures !hit ==> r == b
    ensures SqNorm(r.velocity) == SqNorm(b.velocity)
  {
    if hit then b.(velocity := Vec(-b.velocity.x, b.velocity.y)) else b
  }

  /** Bouncing twice restores the ball. */
  lemma BounceInvolution(b: CannonBall)
    ensures Bounce(Bounce(b, true), true) == b
  {
  }

  /** The tracking zone: strictly between a third and two thirds of the scene width. */
  predicate InZone(cfg: Config, pos: Vec)
  {
    (cfg.planeWidth / 3) as real < pos.x < ((2 * cfg.planeWidth) / 3) as real
  }

  /** `append_pos` followed by `approximation`, on a plate whose history is valid. */
  function Observe(p: CatchPlate, pos: Vec): (r: CatchPlate)
    requires Track.Valid(p.track)
    ensures r == p.(track := r.track, required := r.required)
    ensures r.track == Track.Append(p.track, pos) && Track.Valid(r.track)
    ensures Approximation(p.(track := r.track)) == Some(r)
  {
    Approximation(AppendPos(p, pos)).value
  }

  /** The ball's half of a tick: the bounce decided by the collision test, then the step under gravity. */
  function BallTick(cfg: Config, b: CannonBall, hit: bool): (r: CannonBall)
    ensures r.velocity.x == (if hit then -b.velocity.x else b.velocity.x) + cfg.gravity.x * b.dt
    ensures r.velocity.y == b.velocity.y + cfg.gravity.y * b.dt
    ensures r.position == Add(b.position, Scale(r.velocity, b.dt))
    ensures r.radius == b.radius && r.dt == b.dt
  {
    Step(Bounce(b, hit), cfg.gravity)
  }

  /**
   The observation part of the plate's half of a tick: inside the zone the
   plate stores the ball's new position and re-predicts; outside it the plate
   is left as it was.
   */
  function ObserveInZone(cfg: Config, p: CatchPlate, pos: Vec): (r: CatchPlate)
    requires Track.Valid(p.track)
    ensures Track.Valid(r.track)
    ensures r == p.(required := r.required, track := r.track)
    ensures !InZone(cfg, pos) ==> r == p
    ensures InZone(cfg, pos) ==>
      && r.track == Track.Append(p.track, pos)
      && Approximation(p.(track := r.track)) == Some(r)
  {
    if InZone(cfg, pos) then Observe(p, pos) else p
  }

  /**
   The plate's half of a tick, given the ball's new position: observe and
   re-predict only inside the zone, then move whether or not it observed,
   towards the target as it stands after the prediction.
   */
  function PlateTick(cfg: Config, p: CatchPlate, pos: Vec): CatchPlate
    requires Track.Valid(p.track)
  {
    MoveToDestination(ObserveInZone(cfg, p, pos))
  }

  /**
   One tick of the inner loop. Requires the plate's history invariant (every
   reachable history keeps it) and the roots the collision test takes.
   */
  function Tick(cfg: Config, w: World, dists: seq<real>, speed: real): (w': World)
    requires Track.Valid(w.plate.track)
    requires |dists| == 3
    requires forall i :: 0 <= i < 3 ==> IsRoot(dists[i], SqDist(w.ball.position, GetBorders(w.plate)[i]))
    requires IsRoot(speed, SqNorm(w.ball.velocity))
    ensures Track.Valid(w'.plate.track)
    ensures w'.ball == BallTick(cfg, w.ball, Hit(w.ball, GetBorders(w.plate), dists, speed))
    ensures w'.plate == PlateTick(cfg, w.plate, w'.ball.position)
  {
    var ball := BallTick(cfg, w.ball, Hit(w.ball, GetBorders(w.plate), dists, speed));
    World(PlateTick(cfg, w.plate, GetPosition(ball)), ball)
  }

  /**
   What one tick's observation does to the plate, given the ball's new
   position `pos`: it stores `pos` and re-predicts only when `pos` is inside
   the zone, and only the centre, the target and the history change.
   */
  lemma PlateTickObserves(cfg: Config, p: CatchPlate, pos: Vec)
    requires Track.Valid(p.track)
    ensures var r := PlateTick(cfg, p, pos);
      && Track.Valid(r.track)
      && r == p.(center := r.center, required := r.required, track := r.track)
      && (!InZone(cfg, pos) ==> r.track == p.track && r.required == p.required)
      && (InZone(cfg, pos) ==>
            && r.track == Track.Append(p.track, pos)
            && Approximation(p.(track := r.track)) == Some(p.(track := r.track, required := r.required)))
  {
    var observed := ObserveInZone(cfg, p, pos);
    var r := PlateTick(cfg, p, pos);
    assert r == MoveToDestination(observed);
    assert observed == p.(required := r.required, track := r.track);
  }

  /**
   What one tick's move does to the plate: it moves whether or not it
   observed. Outside the zone it steps towards the target it already had;
   inside it steps towards the target just re-predicted.
   */
  lemma PlateTickMoves(cfg: Config, p: CatchPlate, pos: Vec)
    requires Track.Valid(p.track)
    ensures !InZone(cfg, pos) ==> PlateTick(cfg, p, pos) == MoveToDestination(p)
    ensures InZone(cfg, pos) ==> PlateTick(cfg, p, pos) == MoveToDestination(Observe(p, pos))
  {
    if InZone(cfg, pos) {
      assert ObserveInZone(cfg, p, pos) == Observe(p, pos);
    } else {
      assert ObserveInZone(cfg, p, pos) == p;
    }
  }

  /**
   What one tick does to the ball: it bounces exactly when some border point of
   the plate is within its reach, then takes the step `BallTick` describes.
   */
  lemma TickBall(cfg: Config, w: World, dists: seq<real>, speed: real)
    requires Track.Valid(w.plate.track)
    requires |dists| == 3
    requires forall i :: 0 <= i < 3 ==> IsRoot(dists[i], SqDist(w.ball.position, GetBorders(w.plate)[i]))
    requires IsRoot(speed, SqNorm(w.ball.velocity))
    ensures Tick(cfg, w, dists, speed).ball ==
      BallTick(cfg, w.ball, exists i :: 0 <= i < 3 && Sweep.WithinReach(w.ball.position, GetBorders(w.plate)[i], w.ball.radius, speed, w.ball.dt))
  {
    var hit := Hit(w.ball, GetBorders(w.plate), dists, speed);
    assert hit == exists i :: 0 <= i < 3 && Sweep.WithinReach(w.ball.position, GetBorders(w.plate)[i], w.ball.radius, speed, w.ball.dt);
  }

  /** The ball has left the scene: past either side by more than 100, below 1, or at or above the ceiling. */
  predicate EpisodeOver(cfg: Config, pos: Vec)
  {
    pos.x > (cfg.planeWidth + 100) as real || pos.x < -100.0 || pos.y < 1.0 || pos.y >= cfg.planeHeight as real
  }

  /** An episode goes on exactly while the ball stays inside the scene widened by 100 on each side. */
  lemma EpisodeContinuesInsideScene(cfg: Config, pos: Vec)
    ensures !EpisodeOver(cfg, pos) <==>
      -100.0 <= pos.x <= (cfg.planeWidth + 100) as real && 1.0 <= pos.y < cfg.planeHeight as real
  {
  }
}
