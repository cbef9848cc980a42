/**
 Two-dimensional real vectors. Ball positions and velocities, the
 acceleration, the plate's border points and the stored observations are all
 pairs (x, y); numpy's element-wise array arithmetic becomes the functions
 below, computed exactly over the reals.
 */
module Vectors {

  datatype Vec = Vec(x: real, y: real)

  function Add(u: Vec, v: Vec): Vec
  {
    Vec(u.x + v.x, u.y + v.y)
  }

  function Sub(u: Vec, v: Vec): Vec
  {
    Vec(u.x - v.x, u.y - v.y)
  }

  /** `v * k` for a numpy vector `v` and a scalar `k`. */
  function Scale(v: Vec, k: real): Vec
  {
    Vec(v.x * k, v.y * k)
  }

  /** `np.sum(v ** 2)`: the squared Euclidean norm. */
  function SqNorm(v: Vec): (n: real)
    ensures n >= 0.0
  {
    v.x * v.x + v.y * v.y
  }

  /** The squared Euclidean distance between two points. */
  function SqDist(u: Vec, v: Vec): real
  {
    SqNorm(Sub(u, v))
  }

  /**
   `r` is what `np.sqrt(sq)` returns: the non-negative square root. The model
   takes roots as parameters constrained by this predicate instead of computing them.
   */
  predicate IsRoot(r: real, sq: real)
  {
    r >= 0.0 && r * r == sq
  }
}
