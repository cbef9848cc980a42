# CannonBlock core in Dafny

A model of the computational core of CannonBlock, a toy in which a cannon
fires a ball across a scene and a vertically moving plate tries to deflect it.
The model covers three parts:

- the ball's kinematics and its swept-radius collision test;
- the plate controller `CatchPlate`. It keeps an observation history that
  rejects repeated x values. It predicts the crossing height by a constant,
  linear or quadratic fit. It moves towards that prediction at capped speed,
  gated by its track borders;
- one tick of the simulation loop in `main.py`, with its episode start and
  exit tests.

Both source variants of the ball and the plate are modelled:

- `objects_file.py` is the variant `main.py` imports (module `ObjectsFile`).
  Its quadratic goes through the last three observations.
- `objects.py` is the vision variant (module `Objects`). Its quadratic goes
  through the first, a middle and the last observation.

All arithmetic is exact over `real`. The plate width is an `int`. Python's
`//` by a positive constant is Dafny's `/` on `int`: both round down.

Modules:

| module | file | contents |
|---|---|---|
| `Options` | options.dfy | `Option`, for a fit whose result the model leaves undefined |
| `Vectors` | vectors.dfy | 2-D real vectors, squared norms, the root predicate standing in for `np.sqrt` |
| `Sweep` | sweep.dfy | the swept reach `radius + speed * dt / 2` and its root-free form |
| `Fit` | fit.dfy | the line and parabola formulas of `approximation`, interpolation and uniqueness |
| `Track` | track.dfy | the observation history with its duplicate-x guard and counter |
| `Controller` | controller.dfy | the shared body of `move_to_destination` |
| `ObjectsFile` | objects_file.dfy | `objects_file.py`: `CannonBall`, `CatchPlate` |
| `Objects` | objects.dfy | `objects.py`: `CannonBall`, `CatchPlate` |
| `Variants` | variants.dfy | where the two plate variants agree and where they differ |
| `Simulation` | simulation.dfy | the tick of `main.py`, episode start and exit |

Square roots are not computed. `is_collision` compares `np.sqrt` of the
squared distance with a reach that contains `np.sqrt` of the squared speed.
The model therefore takes both roots as parameters constrained by
`IsRoot(r, sq)`: `r >= 0` and `r * r == sq`. The contract of `IsCollision`
then restates the test without the distance root.

A fit whose divisor is zero gives `inf` or `nan` under numpy. `Approximation`
returns `None` for it. Every history built by `Append` has pairwise distinct
x values, and on such a history `Approximation` always returns `Some`.
`Approximation` requires `num_obs == len(track_list)`: the source indexes the
list by `num_obs`, and every history built from `free_track` and the append
keeps the two equal.

Points where the modules differ or where the code departs from its comments:

- `main.py` imports `objects_file.py` (main.py:2), whose quadratic goes
  through the last three observations; `objects.py` uses the first, middle
  and last.
- `approximation` runs only inside the tracking zone (main.py:52-54);
  `move_to_destination` runs on every tick (main.py:56).
- The border tests in `move_to_destination` look at the plate's edge before
  the move. The comment at objects_file.py:97 says they keep the plate inside
  its borders, but they do not. `Controller.PreMoveGateLetsEdgeCross` shows a
  plate with its edge on the lower border, using the source's speed cap
  125 * 0.3, that ends 20 below the border.
  `Controller.MoveKeepsInsideBorders` gives the condition under which the
  borders are kept: both the current and the required position are inside.

## Model

| member | source | states |
|---|---|---|
| `Sweep.WithinIffSquared` | objects_file.py:33 | comparing the distance root with the reach decides the same as comparing the squared distance with the squared reach, when the reach is non-negative |
| `Fit.LineThrough` | objects_file.py:120-122 | the line with slope (y1-y0)/(x1-x0) and intercept (y0*x1-y1*x0)/(x1-x0) passes through both observations |
| `Fit.LineUnique` | objects_file.py:117-122 | two lines through the same two points with distinct x are the same line |
| `Fit.LineDetermined` | objects.py:97-102 | every line through both points gives the fitted line's value at any x, so the linear prediction depends on the points alone |
| `Fit.ParabolaInterpolates` | objects_file.py:129-131 | the coefficients a, b, c from the divided differences give a parabola through all three anchors when their x values are distinct |
| `Fit.ParabolaThrough` | objects_file.py:129-131 | the fitted parabola passes through its three anchors |
| `Fit.ParabolaUnique` | objects.py:109-111 | two parabolas through three points with distinct x have the same coefficients |
| `Fit.ParabolaDetermined` | objects.py:109-114 | every parabola through the three anchors takes the fitted parabola's value at any x |
| `Track.Empty` | objects_file.py:87-90 | the cleared history has no observations, a zero counter, and satisfies the history invariant |
| `Track.CountX` | objects_file.py:81 | the count of stored observations with a given x is at most the history length, and it is zero exactly when no stored observation has that x |
| `Track.Append` | objects_file.py:80-85 | a position whose x is already stored leaves the history unchanged; otherwise it is appended and the counter grows by one; counter = length and distinct x values are preserved |
| `Track.AppendIdempotent` | objects_file.py:80-85 | offering the same position twice stores it at most once |
| `Track.AppendKeepsPrefix` | objects_file.py:84 | appending never alters earlier observations and adds at most one |
| `Controller.MoveCenter` | objects_file.py:92-104 | at most one branch moves the centre, by exactly `min(plate_velocity*dt, abs(required - center))`; no overshoot; the move is at most the speed cap; no downward move when the lower edge is already below the lower border and no upward move when the upper edge is above the upper border; the plate reaches a target within one step when that direction's border test passes; otherwise it makes strict progress |
| `Controller.MoveKeepsInsideBorders` | objects_file.py:97-104 | if both the current and the required centre keep the edges inside the borders, so does the new centre |
| `Controller.PreMoveGateLetsEdgeCross` | objects_file.py:97-100 | the pre-move test lets a plate of width 40 whose lower edge sits on the border move to centre 0, with its edge 20 below the border |
| `ObjectsFile.Accelerate` | objects_file.py:18-20 | only the velocity changes, by a*dt |
| `ObjectsFile.Move` | objects_file.py:22-24 | only the position changes, by velocity*dt |
| `ObjectsFile.Step` | objects_file.py:26-29 | velocity is updated first and the position advances with the new velocity (semi-implicit Euler); radius and dt unchanged |
| `ObjectsFile.StepUndo` | objects_file.py:26-29 | stepping back with the same acceleration restores the ball exactly |
| `ObjectsFile.StepsClosedForm` | objects_file.py:26-29 | after n steps the velocity is v0 + n*a*dt and the position is p0 + n*v0*dt + n(n+1)/2*a*dt^2 |
| `ObjectsFile.StepExample` | objects_file.py:26-29 | from (50,128) with velocity (120,80), gravity (0,-9.81), dt 0.3: velocity (120,77.057), position (86,151.1171) |
| `ObjectsFile.IsCollision` | objects_file.py:31-33 | the hit test holds exactly when the reach radius + speed*dt/2 is non-negative and the squared distance is at most its square |
| `ObjectsFile.CollisionMonotoneInRadius` | objects_file.py:31-33 | a larger radius never turns a hit into a miss |
| `ObjectsFile.CollisionAtCentre` | objects_file.py:31-33 | a ball hits the point it is centred on, given non-negative radius and dt |
| `ObjectsFile.NewPlate` | objects_file.py:59-78 | a new plate targets its own centre, has an empty valid history and keeps the given geometry, speed and dt |
| `ObjectsFile.AppendPos` | objects_file.py:80-85 | only the history changes; a seen x leaves the plate unchanged, a new x is appended with the counter incremented; the history invariant is kept |
| `ObjectsFile.FreeTrack` | objects_file.py:87-90 | the history becomes empty with counter 0; nothing else changes |
| `ObjectsFile.MoveToDestination` | objects_file.py:92-104 | only the centre changes; at most one branch moves it, by exactly `min(plate_velocity*dt, abs(required - center))`; it stays between the old centre and the target and moves at most plate_velocity*dt; the pre-move border tests block the outward moves; with an open border test it arrives when the target is within one step and otherwise makes strict progress |
| `ObjectsFile.Approximation` | objects_file.py:106-133 | 0 observations: target = centre; 1: its y; 2 with equal x: last y; 2 otherwise: the value at plate_x of every line through both; 3 or more: defined exactly when the last three have distinct x, and then the value at plate_x of every parabola through them; a valid history always gives a target; nothing but the target changes |
| `ObjectsFile.LinearPredictionExample` | objects_file.py:113-122 | observations (10,50), (20,70) and plate x 30 give target 90 |
| `ObjectsFile.GetBorders` | objects_file.py:135-137 | three points on the plate's line: centre + (-width)//2, centre, centre + width//2; the outer two are width apart, and they are symmetric about the centre exactly when width is even |
| `Objects.Move` | objects.py:17-18 | only the position changes, by velocity*dt; there is no acceleration |
| `Objects.MoveAdditive` | objects.py:17-18 | moving for s then for t equals moving for s + t |
| `Objects.IsCollision` | objects.py:20-23 | the same root-free characterisation of the hit test, with dt passed in |
| `Objects.CollisionMonotoneInRadius` | objects.py:20-23 | a larger radius never turns a hit into a miss |
| `Objects.NewPlate` | objects.py:48-65 | a new plate targets its own centre with an empty valid history |
| `Objects.FreeTrack` | objects.py:67-70 | the history becomes empty with counter 0; nothing else changes |
| `Objects.RecordDetection` | objects.py:122-124 | a detected position is stored only if its x is new, with the counter incremented by exactly one; the history invariant is kept |
| `Objects.MoveToDestination` | objects.py:72-84 | the same as the other variant with dt passed in: one branch moving by exactly `min(plate_velocity*dt, abs(required - center))`, no overshoot, the speed cap, pre-move gating, arrival within one step and strict progress under an open border test |
| `Objects.MiddleIndex` | objects.py:104-106 | the middle anchor index n - (n//2 + 1) is in range, and for n >= 3 it lies strictly between the first and last index |
| `Objects.Approximation` | objects.py:86-114 | as the other variant for up to two observations; from three on, defined exactly when the first, middle and last observation have distinct x, and then the value at plate_x of every parabola through them; a valid history always gives a target |
| `Objects.GetBorders` | objects.py:126-128 | the three points have x shifted by correct_x and the same heights as the other variant |
| `Variants.ApproximationsAgreeUpToThree` | objects.py:103-107 | with at most three observations both variants predict the same target |
| `Variants.LastThreePredictionOnFour` | objects_file.py:123-133 | on observations (0,0), (1,1), (2,0), (3,3) the last-three fit predicts 10 at x = 4 |
| `Variants.AnchoredPredictionOnFour` | objects.py:103-114 | on the same observations the first/middle/last fit predicts 4 at x = 4, so the variants differ from four observations on |
| `Variants.BordersAgreeUpToShift` | objects.py:126-128 | the vision variant's border points are the other variant's shifted by correct_x |
| `Simulation.InitialPlate` | main.py:15-21 | the plate is centred at plane_h//2 on x = plane_w - 10, is 2*radius wide with borders [0, plane_h], targets its centre, and starts with its edges inside the borders when 0 <= 2*radius <= plane_h |
| `Simulation.SourcePlateStartsInside` | main.py:8-21 | with the source's constants the plate starts at 400 with its edges inside its borders |
| `Simulation.StartEpisode` | main.py:30-38 | an episode starts with an empty history and counter 0 on the same plate, and a ball at the cannon with the sampled velocity |
| `Simulation.Hit` | main.py:45 | the collision holds exactly when some of the three border points is within the ball's reach |
| `Simulation.Bounce` | main.py:45-46 | on a hit only the x velocity is negated; position, y velocity and speed are unchanged; without a hit the ball is unchanged |
| `Simulation.BounceInvolution` | main.py:46 | bouncing twice restores the ball |
| `Simulation.BallTick` | main.py:45-48 | the bounce happens before the step: x velocity is (±vx) + gx*dt, y velocity vy + gy*dt, and the position advances by the new velocity |
| `Simulation.Observe` | main.py:53-54 | append then re-predict: the history is the appended one, it stays valid, and the target is the approximation on it |
| `Simulation.ObserveInZone` | main.py:52-54 | outside the zone the plate is untouched; inside it the history is appended and the target re-predicted |
| `Simulation.PlateTickObserves` | main.py:52-54 | outside the zone history and target are unchanged; inside, the history is appended and the target re-predicted on it; only centre, target and history change |
| `Simulation.PlateTickMoves` | main.py:52-56 | the plate moves whether or not it observed: outside the zone it steps towards the target it already had, inside it steps towards the target re-predicted from the appended history |
| `Simulation.Tick` | main.py:45-56 | the tick keeps the history invariant; the ball's half is computed first and the plate sees the ball's new position |
| `Simulation.TickBall` | main.py:45-49 | the x velocity is negated exactly when some border point is within reach, then gravity acts and the position advances with the new velocity |
| `Simulation.EpisodeContinuesInsideScene` | main.py:74-76 | an episode goes on exactly while -100 <= x <= plane_w + 100 and 1 <= y < plane_h |

## Left out

- `canon_settings` (objects_file.py:40-55, objects.py:29-44): random speed and angle with `cos` and `sin`. The sampled velocity is an input of `StartEpisode`.
- draw.py and the drawing, `cv2.imshow`, `cv2.waitKey` pacing and Esc handling in main.py. These are output and user input only.
- The two `while True` loops of main.py. They are driven by the Esc key. The model gives one loop body each: `StartEpisode` and `Tick`, with `EpisodeOver` as the exit test.
- The detection part of `find_ball` (objects.py:116-121), which is image thresholding and contour extraction. Only its append (objects.py:122-124) is modelled, as `RecordDetection`.
- `np.sqrt`: roots are parameters constrained by `IsRoot`.
- IEEE float rounding: values are exact reals. The `inf`/`nan` result of a zero divisor is `None`.
- numpy array aliasing: values are immutable, so `get_position`'s copy is the value itself.
- Controller.MoveCenter: no overshoot, the speed cap and the border-gate guarantees are stated only for a non-negative `plate_velocity * dt`. With a negative product, `min` gives a negative change and the plate moves away from its target.
- Simulation.Tick: its collision test needs the caller to supply the three distance roots and the speed root.
