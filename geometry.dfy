/** Plane geometry used by the simulation: 2D vectors, clamping and the
    circle-overlap test.  Quantities are mathematical reals; float rounding
    is not modelled. */
module Geometry {

  /** A 2D vector (position, velocity, direction). */
  datatype Vec = Vec(x: real, y: real) {
    function Plus(o: Vec): Vec { Vec(x + o.x, y + o.y) }
    function Minus(o: Vec): Vec { Vec(x - o.x, y - o.y) }
    function Scale(k: real): Vec { Vec(k * x, k * y) }
    function LengthSquared(): real { x * x + y * y }
  }

  const ZERO := Vec(0.0, 0.0)

  function Max(a: real, b: real): real { if a >= b then a else b }
  function Min(a: real, b: real): real { if a <= b then a else b }

  /** `clamp(x, a, b) = max(a, min(b, x))`.  On a proper interval the result
      lies in it and a value already inside is returned unchanged. */
  function Clamp(x: real, lo: real, hi: real): (r: real)
    ensures lo <= hi ==> lo <= r <= hi
    ensures lo <= x <= hi ==> r == x
    ensures x < lo ==> r == lo
    ensures lo <= hi < x ==> r == hi
    ensures hi < lo ==> r == lo
  {
    Max(lo, Min(hi, x))
  }

  /** The arena and the margin kept free along each of its edges. */
  const WIDTH := 1920.0
  const HEIGHT := 1080.0
  const MARGIN := 20.0

  /** A point inside the arena's playable rectangle. */
  predicate InArena(p: Vec) {
    MARGIN <= p.x <= WIDTH - MARGIN && MARGIN <= p.y <= HEIGHT - MARGIN
  }

  /** Clamps each coordinate into the playable rectangle separately. */
  function ClampToArena(p: Vec): (q: Vec)
    ensures InArena(q)
    ensures InArena(p) ==> q == p
    ensures MARGIN <= p.x <= WIDTH - MARGIN ==> q.x == p.x
    ensures MARGIN <= p.y <= HEIGHT - MARGIN ==> q.y == p.y
    ensures p.x < MARGIN ==> q.x == MARGIN
    ensures p.x > WIDTH - MARGIN ==> q.x == WIDTH - MARGIN
    ensures p.y < MARGIN ==> q.y == MARGIN
    ensures p.y > HEIGHT - MARGIN ==> q.y == HEIGHT - MARGIN
  {
    Vec(Clamp(p.x, MARGIN, WIDTH - MARGIN), Clamp(p.y, MARGIN, HEIGHT - MARGIN))
  }

  /** `dir` is what normalising `v` yields: the unit vector pointing the same
      way as a nonzero `v`. */
  predicate IsDirectionOf(dir: Vec, v: Vec) {
    v != ZERO && dir.LengthSquared() == 1.0
    && dir.x * v.y == dir.y * v.x
    && dir.x * v.x + dir.y * v.y > 0.0
  }

  /** Two circles overlap or touch when the squared distance of their
      centres is at most the squared sum of their radii. */
  predicate CircleCollide(aPos: Vec, aR: real, bPos: Vec, bR: real) {
    aPos.Minus(bPos).LengthSquared() <= (aR + bR) * (aR + bR)
  }

  lemma CircleCollideSymmetric(aPos: Vec, aR: real, bPos: Vec, bR: real)
    ensures CircleCollide(aPos, aR, bPos, bR) == CircleCollide(bPos, bR, aPos, aR)
  {
    assert aPos.Minus(bPos).LengthSquared() == bPos.Minus(aPos).LengthSquared();
  }

  /** For non-negative reals, comparing squares is comparing the values. */
  lemma SquaresOrdered(d: real, s: real)
    requires d >= 0.0 && s >= 0.0
    ensures d * d <= s * s <==> d <= s
    ensures d * d < s * s <==> d < s
  {
    if d < s {
      Gap(d, s);
    } else if s < d {
      Gap(s, d);
    }
  }

  lemma Gap(lo: real, hi: real)
    requires 0.0 <= lo < hi
    ensures lo * lo < hi * hi
  {
    var a, b := hi - lo, hi + lo;
    assert a > 0.0 && b > 0.0;
    assert a * b > 0.0;
    assert hi * hi - lo * lo == a * b;
  }

  /** With the true centre distance `d`, the test is boundary-inclusive:
      the circles collide exactly when `d <= aR + bR`. */
  lemma CircleCollideIffTouching(aPos: Vec, aR: real, bPos: Vec, bR: real, d: real)
    requires d >= 0.0 && d * d == aPos.Minus(bPos).LengthSquared()
    requires aR + bR >= 0.0
    ensures CircleCollide(aPos, aR, bPos, bR) <==> d <= aR + bR
  {
    SquaresOrdered(d, aR + bR);
  }
}

/** An optional value (`None` in the source). */
module Optional {
  datatype Option<T> = None | Some(value: T)
}
