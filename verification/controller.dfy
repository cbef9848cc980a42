/**
 The plate's motion step, shared by both `CatchPlate` variants
 (`move_to_destination`). The plate moves at most `maxStep` towards its
 required position. Each direction is gated by the border test on the plate's
 edge BEFORE the move, and the upward test sees the centre as left by the
 downward branch.
 */
module Controller {

  /**
   `width // 2` as a real. Dafny's `/` on `int` with a positive divisor rounds
   down, like Python's `//`.
   */
  function Half(width: int): real
  {
    (width / 2) as real
  }

  function Abs(x: real): real
  {
    if x < 0.0 then -x else x
  }

  function Min(a: real, b: real): real
  {
    if a <= b then a else b
  }

  /** `min(plate_velocity * dt, abs(required_position - center_height))`. */
  function Change(center: real, required: real, maxStep: real): real
  {
    Min(maxStep, Abs(required - center))
  }

  /** Both edges of a plate centred at `c` lie within [minHeight, maxHeight]. */
  predicate InsideBorders(c: real, width: int, minHeight: real, maxHeight: real)
  {
    minHeight <= c - Half(width) && c + Half(width) <= maxHeight
  }

  /** `x` lies between `a` and `b`, in either order. */
  predicate Between(a: real, x: real, b: real)
  {
    (a <= x <= b) || (b <= x <= a)
  }

  /** The border test lets the plate start moving from `center` towards `required`. */
  predicate GateOpen(center: real, required: real, width: int, minHeight: real, maxHeight: real)
  {
    || required == center
    || (required < center && center - Half(width) >= minHeight)
    || (required > center && center + Half(width) <= maxHeight)
  }

  /** The centre after one `move_to_destination` with speed cap `maxStep` (= plate_velocity * dt). */
  function MoveCenter(center: real, required: real, width: int, minHeight: real, maxHeight: real, maxStep: real): (c: real)
    // at most one of the two branches takes effect
    ensures c == center || c == center - Change(center, required, maxStep) || c == center + Change(center, required, maxStep)
    // no overshoot and the speed cap
    ensures maxStep >= 0.0 ==> Between(center, c, required)
    ensures maxStep >= 0.0 ==> Abs(c - center) <= maxStep
    // the gates look at the edge before the move
    ensures maxStep >= 0.0 && center - Half(width) < minHeight ==> c >= center
    ensures maxStep >= 0.0 && center + Half(width) > maxHeight ==> c <= center
    // within one step of an open target the plate arrives exactly
    ensures Abs(required - center) <= maxStep && GateOpen(center, required, width, minHeight, maxHeight) ==> c == required
    // otherwise an open gate and a positive speed make strict progress
    ensures maxStep > 0.0 && GateOpen(center, required, width, minHeight, maxHeight) && required != center ==>
      Abs(required - c) < Abs(required - center)
  {
    var change := Change(center, required, maxStep);
    var down := if center - Half(width) >= minHeight && required < center then center - change else center;
    if down + Half(width) <= maxHeight && required > down then down + change else down
  }

  /**
   The borders are kept when both the current and the required position keep
   the plate's edges inside them: the new centre lies between the two.
   */
  lemma MoveKeepsInsideBorders(center: real, required: real, width: int, minHeight: real, maxHeight: real, maxStep: real)
    requires maxStep >= 0.0
    requires InsideBorders(center, width, minHeight, maxHeight)
    requires InsideBorders(required, width, minHeight, maxHeight)
    ensures InsideBorders(MoveCenter(center, required, width, minHeight, maxHeight, maxStep), width, minHeight, maxHeight)
  {
  }

  /**
   The guarantee does not hold without the hypothesis on the required
   position: with the source's speed cap 125 * 0.3, a plate of width 40 whose
   lower edge sits exactly on the lower border and whose target is 0 passes
   the pre-move test and ends with its lower edge 20 below the border.
   */
  lemma PreMoveGateLetsEdgeCross()
    ensures InsideBorders(20.0, 40, 0.0, 800.0)
    ensures MoveCenter(20.0, 0.0, 40, 0.0, 800.0, 125.0 * 0.3) == 0.0
    ensures !InsideBorders(MoveCenter(20.0, 0.0, 40, 0.0, 800.0, 125.0 * 0.3), 40, 0.0, 800.0)
  {
  }
}
