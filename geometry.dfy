/** Vectors, colours and the floor used by the pixel perfect camera.
    Bevy's `f32` is idealised as `real`, so every operation here is exact. */
module Geometry {

  /** A `Vec2`: a point or a size in virtual pixels. */
  datatype Vec2 = Vec2(x: real, y: real) {

    /** `Vec2 * f32`: both components multiplied by `s`. */
    function Scale(s: real): Vec2 {
      Vec2(x * s, y * s)
    }

    /** `Vec2::extend`: a `Vec3` with the given third component. */
    function Extend(z: real): Vec3 {
      Vec3(x, y, z)
    }

    /** Both components strictly positive (a usable resolution). */
    predicate Positive() {
      x > 0.0 && y > 0.0
    }
  }

  /** A `Vec3`, used for a transform's translation and scale. */
  datatype Vec3 = Vec3(x: real, y: real, z: real)

  /** `Vec2::splat`. */
  function Splat(v: real): (r: Vec2)
    ensures r.x == v && r.y == v
  {
    Vec2(v, v)
  }

  /** `Vec2::ZERO`, which is also `Vec2::default()`. */
  const Zero2: Vec2 := Vec2(0.0, 0.0)

  /** A real with no fractional part. */
  predicate IsWhole(r: real) {
    r == r.Floor as real
  }

  /** `f32::floor`: the greatest whole number not above `r`. */
  function FloorReal(r: real): (f: real)
    ensures IsWhole(f)
    ensures f <= r < f + 1.0
  {
    r.Floor as real
  }

  /** `Vec2::floor`, component-wise. */
  function Floor(v: Vec2): (r: Vec2)
    ensures IsWhole(r.x) && IsWhole(r.y)
    ensures r.x <= v.x < r.x + 1.0 && r.y <= v.y < r.y + 1.0
  {
    Vec2(FloorReal(v.x), FloorReal(v.y))
  }

  /** A whole number within one pixel below `r` is exactly its floor. */
  lemma WholeWithinOneIsFloor(r: real, n: real)
    requires IsWhole(n) && n <= r < n + 1.0
    ensures n == FloorReal(r)
  {
    var k := n.Floor;
    var f := r.Floor;
    assert n == k as real;
    assert f as real <= r < f as real + 1.0;
    assert k <= f && f <= k;
  }

  /** Floor never moves a position up, so motion stays monotonic. */
  lemma FloorMonotonic(a: real, b: real)
    requires a <= b
    ensures FloorReal(a) <= FloorReal(b)
  {
    assert a.Floor <= b.Floor;
  }

  /** Floor is not truncation: a negative fractional position goes down,
      away from zero (-0.3 becomes -1, not 0). */
  lemma FloorRoundsTowardNegativeInfinity(r: real)
    requires r < 0.0 && !IsWhole(r)
    ensures FloorReal(r) <= -1.0
    ensures FloorReal(r) < r
  {
  }

  /** A `Color`, as its red, green, blue and alpha components. */
  datatype Color = Rgba(red: real, green: real, blue: real, alpha: real)

  /** `Color::BLACK`: opaque black. */
  const Black: Color := Rgba(0.0, 0.0, 0.0, 1.0)
}
