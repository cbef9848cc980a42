/**
 The curves the plate fits through observed ball positions: a straight line
 through two points and a parabola through three, with coefficients computed
 by the same formulas as the plate's `approximation`. Each fit is proved to
 pass through its points, and each is proved to be the only curve of its
 kind that does, so the predicted height is determined by the points alone.
 */
module Fit {

  import opened Vectors

  /** The line y = slope * x + intercept. */
  datatype Line = Line(slope: real, intercept: real)

  function LineAt(l: Line, x: real): real
  {
    l.slope * x + l.intercept
  }

  predicate OnLine(l: Line, p: Vec)
  {
    LineAt(l, p.x) == p.y
  }

  /**
   The line the plate fits through two observations:
   a = (y1 - y0) / (x1 - x0) and b = (y0 * x1 - y1 * x0) / (x1 - x0).
   */
  function LineThrough(p0: Vec, p1: Vec): (l: Line)
    requires p0.x != p1.x
    ensures OnLine(l, p0) && OnLine(l, p1)
  {
    var d := p1.x - p0.x;
    var l := Line((p1.y - p0.y) / d, (p0.y * p1.x - p1.y * p0.x) / d);
    assert l.slope * d == p1.y - p0.y;
    assert l.intercept * d == p0.y * p1.x - p1.y * p0.x;
    assert LineAt(l, p0.x) * d == p0.y * d;
    assert LineAt(l, p1.x) * d == p1.y * d;
    l
  }

  /** Two lines through the same two points with distinct x coincide. */
  lemma LineUnique(l: Line, m: Line, p0: Vec, p1: Vec)
    requires p0.x != p1.x
    requires OnLine(l, p0) && OnLine(l, p1)
    requires OnLine(m, p0) && OnLine(m, p1)
    ensures l == m
  {
    var ds := l.slope - m.slope;
    assert ds * p0.x + (l.intercept - m.intercept) == 0.0;
    assert ds * p1.x + (l.intercept - m.intercept) == 0.0;
    assert ds * (p1.x - p0.x) == 0.0;
    assert ds == 0.0;
  }

  /** Every line through `p0` and `p1` takes the fitted line's value at `x`. */
  lemma LineDetermined(p0: Vec, p1: Vec, x: real)
    requires p0.x != p1.x
    ensures forall l :: OnLine(l, p0) && OnLine(l, p1) ==> LineAt(l, x) == LineAt(LineThrough(p0, p1), x)
  {
    forall l | OnLine(l, p0) && OnLine(l, p1)
      ensures LineAt(l, x) == LineAt(LineThrough(p0, p1), x)
    {
      LineUnique(l, LineThrough(p0, p1), p0, p1);
    }
  }

  /** The parabola y = a * x^2 + b * x + c. */
  datatype Parabola = Parabola(a: real, b: real, c: real)

  function ParabolaAt(q: Parabola, x: real): real
  {
    q.a * (x * x) + q.b * x + q.c
  }

  predicate OnParabola(q: Parabola, p: Vec)
  {
    ParabolaAt(q, p.x) == p.y
  }

  /** The three points have pairwise distinct x: no divisor of the fit is zero. */
  predicate DistinctX3(p0: Vec, p1: Vec, p2: Vec)
  {
    p0.x != p1.x && p0.x != p2.x && p1.x != p2.x
  }

  /** The coefficients the plate computes from three anchors (divided differences). */
  function ParabolaCoefficients(p0: Vec, p1: Vec, p2: Vec): Parabola
    requires DistinctX3(p0, p1, p2)
  {
    var s0 := (p1.y - p0.y) / (p1.x - p0.x);
    var s1 := (p2.y - p0.y) / (p2.x - p0.x);
    var a := (s1 - s0) / (p2.x - p1.x);
    var b := s0 - a * (p1.x + p0.x);
    var c := p0.y - a * (p0.x * p0.x) - b * p0.x;
    Parabola(a, b, c)
  }

  /**
   The value of a parabola at `x` differs from its value at `x0` by
   (x - x0) * (a * (x + x0) + b).
   */
  lemma ParabolaDifference(q: Parabola, x0: real, x: real)
    ensures ParabolaAt(q, x) - ParabolaAt(q, x0) == (x - x0) * (q.a * (x + x0) + q.b)
  {
    assert x * x - x0 * x0 == (x - x0) * (x + x0);
  }

  /** The fitted parabola passes through all three anchors. */
  lemma {:induction false} ParabolaInterpolates(p0: Vec, p1: Vec, p2: Vec)
    requires DistinctX3(p0, p1, p2)
    ensures var q := ParabolaCoefficients(p0, p1, p2);
      OnParabola(q, p0) && OnParabola(q, p1) && OnParabola(q, p2)
  {
    var q := ParabolaCoefficients(p0, p1, p2);
    var s0 := (p1.y - p0.y) / (p1.x - p0.x);
    var s1 := (p2.y - p0.y) / (p2.x - p0.x);
    assert s0 * (p1.x - p0.x) == p1.y - p0.y;
    assert s1 * (p2.x - p0.x) == p2.y - p0.y;
    assert q.a * (p2.x - p1.x) == s1 - s0;
    assert OnParabola(q, p0);
    ParabolaDifference(q, p0.x, p1.x);
    assert q.a * (p1.x + p0.x) + q.b == s0;
    ParabolaDifference(q, p0.x, p2.x);
    assert q.a * (p2.x + p0.x) + q.b == q.a * (p2.x - p1.x) + s0;
    assert q.a * (p2.x + p0.x) + q.b == s1;
  }

  /** The parabola the plate fits through three anchors with distinct x. */
  function ParabolaThrough(p0: Vec, p1: Vec, p2: Vec): (q: Parabola)
    requires DistinctX3(p0, p1, p2)
    ensures OnParabola(q, p0) && OnParabola(q, p1) && OnParabola(q, p2)
  {
    ParabolaInterpolates(p0, p1, p2);
    ParabolaCoefficients(p0, p1, p2)
  }

  /** A product with a non-zero factor vanishes only when the other factor does. */
  lemma ZeroFactor(u: real, v: real)
    requires u != 0.0 && u * v == 0.0
    ensures v == 0.0
  {
    assert v == (u * v) / u;
  }

  /** The coefficient-wise difference of two parabolas evaluates to the difference of their values. */
  lemma ParabolaSub(q: Parabola, r: Parabola, x: real)
    ensures ParabolaAt(Parabola(q.a - r.a, q.b - r.b, q.c - r.c), x) == ParabolaAt(q, x) - ParabolaAt(r, x)
  {
    var xx := x * x;
    assert (q.a - r.a) * xx == q.a * xx - r.a * xx;
    assert (q.b - r.b) * x == q.b * x - r.b * x;
  }

  /** A parabola vanishing at three distinct x has all coefficients zero. */
  lemma {:induction false} VanishingParabola(d: Parabola, x0: real, x1: real, x2: real)
    requires x0 != x1 && x0 != x2 && x1 != x2
    requires ParabolaAt(d, x0) == 0.0 && ParabolaAt(d, x1) == 0.0 && ParabolaAt(d, x2) == 0.0
    ensures d == Parabola(0.0, 0.0, 0.0)
  {
    ParabolaDifference(d, x0, x1);
    ZeroFactor(x1 - x0, d.a * (x1 + x0) + d.b);
    ParabolaDifference(d, x0, x2);
    ZeroFactor(x2 - x0, d.a * (x2 + x0) + d.b);
    assert (x2 - x1) * d.a == (d.a * (x2 + x0) + d.b) - (d.a * (x1 + x0) + d.b);
    ZeroFactor(x2 - x1, d.a);
    assert d.b == 0.0;
    assert ParabolaAt(d, x0) == d.c;
  }

  /** Two parabolas through the same three points with distinct x coincide. */
  lemma {:induction false} ParabolaUnique(q: Parabola, r: Parabola, p0: Vec, p1: Vec, p2: Vec)
    requires DistinctX3(p0, p1, p2)
    requires OnParabola(q, p0) && OnParabola(q, p1) && OnParabola(q, p2)
    requires OnParabola(r, p0) && OnParabola(r, p1) && OnParabola(r, p2)
    ensures q == r
  {
    var d := Parabola(q.a - r.a, q.b - r.b, q.c - r.c);
    ParabolaSub(q, r, p0.x);
    ParabolaSub(q, r, p1.x);
    ParabolaSub(q, r, p2.x);
    VanishingParabola(d, p0.x, p1.x, p2.x);
  }

  /** Every parabola through the three anchors takes the fitted parabola's value at `x`. */
  lemma ParabolaDetermined(p0: Vec, p1: Vec, p2: Vec, x: real)
    requires DistinctX3(p0, p1, p2)
    ensures forall q :: OnParabola(q, p0) && OnParabola(q, p1) && OnParabola(q, p2) ==>
      ParabolaAt(q, x) == ParabolaAt(ParabolaThrough(p0, p1, p2), x)
  {
    forall q | OnParabola(q, p0) && OnParabola(q, p1) && OnParabola(q, p2)
      ensures ParabolaAt(q, x) == ParabolaAt(ParabolaThrough(p0, p1, p2), x)
    {
      ParabolaUnique(q, ParabolaThrough(p0, p1, p2), p0, p1, p2);
    }
  }
}
