/**
 * The derived samplers of the generator as pure functions of the draws they consume.
 * `index.js` (the `Random` class) and `Random.js` (the module object) apply the same
 * transforms in the samplers they share, except `chance`: `Random.js` gives it no default
 * probability, which `LegacyChanceOf` models.
 */
module Samplers {
  import opened Wrappers
  import opened Foreign
  import RealFacts

  /** `Number.MAX_SAFE_INTEGER`, 2^53 - 1: the upper bound of `int()` with no arguments. */
  const MaxSafeInteger: int := 0x1F_FFFF_FFFF_FFFF

  /** How many arguments `float`/`int` received: the two methods dispatch on `arguments.length`. */
  datatype Args = NoArgs | Max(max: real) | MinMax(min: real, max: real)

  datatype Point2 = Point2(x: real, y: real)
  datatype Point3 = Point3(x: real, y: real, z: real)

  /** `[[minX, minY], [maxX, maxY]]` */
  datatype Rect = Rect(lo: Point2, hi: Point2)

  /** `[[minX, minY, minZ], [maxX, maxY, maxZ]]` */
  datatype AABB = AABB(lo: Point3, hi: Point3)

  /** A vector sample; `NonFinite` is the NaN/Infinity vector produced by dividing by a zero length. */
  datatype Vector<V> = Finite(v: V) | NonFinite

  /** `v` lies in the half-open span from `lo` towards `hi` (`hi` itself excluded unless `lo == hi`). */
  ghost predicate InSpan(lo: real, hi: real, v: real)
  {
    && (lo < hi ==> lo <= v < hi)
    && (lo == hi ==> v == lo)
    && (hi < lo ==> hi < v <= lo)
  }

  /**
   * `d * u` for a draw `u`: the offset every scalar sampler adds to its lower bound. It keeps
   * the sign of `d` and is strictly shorter than `d` unless `d` is zero.
   */
  function Scale(d: real, u: Unit): (r: real)
    ensures 0.0 < d ==> 0.0 <= r < d
    ensures d < 0.0 ==> d < r <= 0.0
  {
    ScaleSpan(d, u);
    d * u
  }

  /** The bounds of `Scale`, one sign of `d` at a time. */
  lemma ScaleSpan(d: real, u: Unit)
    ensures 0.0 < d ==> 0.0 <= d * u < d
    ensures d < 0.0 ==> d < d * u <= 0.0
  {
    RealFacts.ScaleBelow(d, u);
    RealFacts.ScaleAbove(d, u);
  }

  /** `lo + (hi - lo) * u`, the affine map every scalar sampler applies to one draw. */
  function Lerp(lo: real, hi: real, u: Unit): (r: real)
    ensures InSpan(lo, hi, r)
  {
    ScaleZero(u);
    lo + Scale(hi - lo, u)
  }

  /** An empty span has a zero offset. */
  lemma ScaleZero(u: Unit)
    ensures Scale(0.0, u) == 0.0
  {
  }

  /**
   * The argument defaulting of `float`/`int`: none gives `[0, defaultMax)`, one argument `m`
   * gives `[0, m)`, two give `[min, max)`.
   */
  function Bounds(args: Args, defaultMax: real): (b: (real, real))
    ensures args.MinMax? ==> b == (args.min, args.max)
    ensures !args.MinMax? ==> b.0 == 0.0
    ensures args.Max? ==> b.1 == args.max
    ensures args.NoArgs? ==> b.1 == defaultMax
  {
    match args
    case NoArgs => (0.0, defaultMax)
    case Max(m) => (0.0, m)
    case MinMax(lo, hi) => (lo, hi)
  }

  /** `float(...)` for the draw `u`. */
  function FloatOf(args: Args, u: Unit): (r: real)
    ensures args.NoArgs? ==> 0.0 <= r < 1.0
    ensures args.Max? ==> InSpan(0.0, args.max, r)
    ensures args.MinMax? ==> InSpan(args.min, args.max, r)
  {
    var (lo, hi) := Bounds(args, 1.0);
    Lerp(lo, hi, u)
  }

  /** `int(...)` for the draw `u`: the floor of `float(min, max)` after the same defaulting. */
  function IntOf(args: Args, u: Unit): (r: int)
    ensures args.NoArgs? ==> 0 <= r < MaxSafeInteger
    ensures args.Max? && 0.0 < args.max ==> 0 <= r && (r as real) < args.max
    ensures args.MinMax? && args.min < args.max ==> args.min.Floor <= r && (r as real) < args.max
  {
    var (lo, hi) := Bounds(args, MaxSafeInteger as real);
    Lerp(lo, hi, u).Floor
  }

  /** With integer bounds `min < max`, `int(min, max)` is one of `min, ..., max - 1`. */
  lemma IntBetweenIntegers(min: int, max: int, u: Unit)
    requires min < max
    ensures min <= IntOf(MinMax(min as real, max as real), u) <= max - 1
  {
  }

  /** `2 * u - 1`: a draw mapped to one axis of the direction, in [-1, 1). */
  function Axis(u: Unit): (c: real)
    ensures -1.0 <= c < 1.0
  {
    2.0 * u - 1.0
  }

  /**
   * `vec2(r)` for the draws `ux, uy` (the direction) and `ur` (the radius, `ur * r`), with
   * `sqrt` standing for `Math.sqrt`.
   */
  function Vec2Of(sqrt: real -> real, r: real, ux: Unit, uy: Unit, ur: Unit): (v: Vector<Point2>)
    ensures v.NonFinite? <==> sqrt(Axis(ux) * Axis(ux) + Axis(uy) * Axis(uy)) == 0.0
    ensures v.Finite? ==>
      && v.v.x * sqrt(Axis(ux) * Axis(ux) + Axis(uy) * Axis(uy)) == Scale(r, ur) * Axis(ux)
      && v.v.y * sqrt(Axis(ux) * Axis(ux) + Axis(uy) * Axis(uy)) == Scale(r, ur) * Axis(uy)
  {
    Scaled2(sqrt, Axis(ux), Axis(uy), Scale(r, ur))
  }

  /** `vec3(r)` for the draws `ux, uy, uz` (the direction) and `ur` (the radius). */
  function Vec3Of(sqrt: real -> real, r: real, ux: Unit, uy: Unit, uz: Unit, ur: Unit): (v: Vector<Point3>)
    ensures v.NonFinite? <==> sqrt(Axis(ux) * Axis(ux) + Axis(uy) * Axis(uy) + Axis(uz) * Axis(uz)) == 0.0
    ensures v.Finite? ==>
      var len := sqrt(Axis(ux) * Axis(ux) + Axis(uy) * Axis(uy) + Axis(uz) * Axis(uz));
      && v.v.x * len == Scale(r, ur) * Axis(ux)
      && v.v.y * len == Scale(r, ur) * Axis(uy)
      && v.v.z * len == Scale(r, ur) * Axis(uz)
  {
    Scaled3(sqrt, Axis(ux), Axis(uy), Axis(uz), Scale(r, ur))
  }

  /**
   * The direction `(x, y)` divided by its length and multiplied by the radius `rr`: non-finite
   * exactly when the length is zero, and otherwise the direction scaled by `rr / len`.
   */
  function Scaled2(sqrt: real -> real, x: real, y: real, rr: real): (v: Vector<Point2>)
    ensures v.NonFinite? <==> sqrt(x * x + y * y) == 0.0
    ensures v.Finite? ==> v.v.x * sqrt(x * x + y * y) == rr * x && v.v.y * sqrt(x * x + y * y) == rr * y
  {
    var len := sqrt(x * x + y * y);
    if len == 0.0 then NonFinite else Finite(Point2(rr * x / len, rr * y / len))
  }

  /** The direction `(x, y, z)` divided by its length and multiplied by the radius `rr`. */
  function Scaled3(sqrt: real -> real, x: real, y: real, z: real, rr: real): (v: Vector<Point3>)
    ensures v.NonFinite? <==> sqrt(x * x + y * y + z * z) == 0.0
    ensures v.Finite? ==>
      var len := sqrt(x * x + y * y + z * z);
      v.v.x * len == rr * x && v.v.y * len == rr * y && v.v.z * len == rr * z
  {
    var len := sqrt(x * x + y * y + z * z);
    if len == 0.0 then NonFinite else Finite(Point3(rr * x / len, rr * y / len, rr * z / len))
  }

  function SquaredLength2(v: Point2): real { v.x * v.x + v.y * v.y }
  function SquaredLength3(v: Point3): real { v.x * v.x + v.y * v.y + v.z * v.z }

  /** Normalizing a direction of positive length and scaling it by `rr` gives length `|rr|`. */
  lemma Scaled2Length(sqrt: real -> real, x: real, y: real, rr: real)
    requires PositiveRootAt(sqrt, x * x + y * y)
    ensures Scaled2(sqrt, x, y, rr).Finite?
    ensures SquaredLength2(Scaled2(sqrt, x, y, rr).v) == rr * rr
  {
    RealFacts.NormalizedDisk(x, y, rr, sqrt(x * x + y * y));
  }

  /** The same in space. */
  lemma Scaled3Length(sqrt: real -> real, x: real, y: real, z: real, rr: real)
    requires PositiveRootAt(sqrt, x * x + y * y + z * z)
    ensures Scaled3(sqrt, x, y, z, rr).Finite?
    ensures SquaredLength3(Scaled3(sqrt, x, y, z, rr).v) == rr * rr
  {
    RealFacts.NormalizedBall(x, y, z, rr, sqrt(x * x + y * y + z * z));
  }

  /**
   * With a positive square root of the direction's squared length, `vec2(r)` is finite and
   * its squared length is that of the radial draw `ur * r`.
   */
  lemma Vec2InDisk(sqrt: real -> real, r: real, ux: Unit, uy: Unit, ur: Unit)
    requires PositiveRootAt(sqrt, Axis(ux) * Axis(ux) + Axis(uy) * Axis(uy))
    ensures Vec2Of(sqrt, r, ux, uy, ur).Finite?
    ensures SquaredLength2(Vec2Of(sqrt, r, ux, uy, ur).v) == Scale(r, ur) * Scale(r, ur)
  {
    Scaled2Length(sqrt, Axis(ux), Axis(uy), Scale(r, ur));
  }

  /** Hence, for a positive radius, `vec2(r)` lies strictly inside the disk of radius `r`. */
  lemma Vec2ShorterThanRadius(sqrt: real -> real, r: real, ux: Unit, uy: Unit, ur: Unit)
    requires PositiveRootAt(sqrt, Axis(ux) * Axis(ux) + Axis(uy) * Axis(uy))
    requires 0.0 < r
    ensures SquaredLength2(Vec2Of(sqrt, r, ux, uy, ur).v) < r * r
  {
    Vec2InDisk(sqrt, r, ux, uy, ur);
    RealFacts.SquareBelow(Scale(r, ur), r);
  }

  /** The same for `vec3(r)`. */
  lemma Vec3InBall(sqrt: real -> real, r: real, ux: Unit, uy: Unit, uz: Unit, ur: Unit)
    requires PositiveRootAt(sqrt, Axis(ux) * Axis(ux) + Axis(uy) * Axis(uy) + Axis(uz) * Axis(uz))
    ensures Vec3Of(sqrt, r, ux, uy, uz, ur).Finite?
    ensures SquaredLength3(Vec3Of(sqrt, r, ux, uy, uz, ur).v) == Scale(r, ur) * Scale(r, ur)
  {
    Scaled3Length(sqrt, Axis(ux), Axis(uy), Axis(uz), Scale(r, ur));
  }

  /** Hence, for a positive radius, `vec3(r)` lies strictly inside the ball of radius `r`. */
  lemma Vec3ShorterThanRadius(sqrt: real -> real, r: real, ux: Unit, uy: Unit, uz: Unit, ur: Unit)
    requires PositiveRootAt(sqrt, Axis(ux) * Axis(ux) + Axis(uy) * Axis(uy) + Axis(uz) * Axis(uz))
    requires 0.0 < r
    ensures SquaredLength3(Vec3Of(sqrt, r, ux, uy, uz, ur).v) < r * r
  {
    Vec3InBall(sqrt, r, ux, uy, uz, ur);
    RealFacts.SquareBelow(Scale(r, ur), r);
  }

  /**
   * A zero direction (both direction draws exactly 0.5) has squared length 0, and dividing by
   * `Math.sqrt(0) == 0` gives the non-finite vector.
   */
  lemma Vec2ZeroDirection(sqrt: real -> real, r: real, ur: Unit)
    requires sqrt(0.0) == 0.0
    ensures Vec2Of(sqrt, r, 0.5, 0.5, ur).NonFinite?
  {
    assert Axis(0.5) == 0.0;
  }

  /** The same for `vec3`. */
  lemma Vec3ZeroDirection(sqrt: real -> real, r: real, ur: Unit)
    requires sqrt(0.0) == 0.0
    ensures Vec3Of(sqrt, r, 0.5, 0.5, 0.5, ur).NonFinite?
  {
    assert Axis(0.5) == 0.0;
  }

  /** `vec2InRect(rect)` for the draws `ux, uy`: each axis independently between the corners. */
  function InRect(rect: Rect, ux: Unit, uy: Unit): (p: Point2)
    ensures InSpan(rect.lo.x, rect.hi.x, p.x) && InSpan(rect.lo.y, rect.hi.y, p.y)
  {
    Point2(Lerp(rect.lo.x, rect.hi.x, ux), Lerp(rect.lo.y, rect.hi.y, uy))
  }

  /** `vec3InAABB(box)` for the draws `ux, uy, uz`. */
  function InAABB(box: AABB, ux: Unit, uy: Unit, uz: Unit): (p: Point3)
    ensures InSpan(box.lo.x, box.hi.x, p.x)
    ensures InSpan(box.lo.y, box.hi.y, p.y)
    ensures InSpan(box.lo.z, box.hi.z, p.z)
  {
    Point3(Lerp(box.lo.x, box.hi.x, ux), Lerp(box.lo.y, box.hi.y, uy), Lerp(box.lo.z, box.hi.z, uz))
  }

  /**
   * `chance(p)` for the draw `u`: `u <= p`. Certain for `p >= 1`, impossible for `p < 0`,
   * and for `p == 0` it still succeeds on the one draw `u == 0`.
   */
  function ChanceOf(p: real, u: Unit): (win: bool)
    ensures 1.0 <= p ==> win
    ensures p < 0.0 ==> !win
    ensures p == 0.0 ==> (win <==> u == 0.0)
  {
    u <= p
  }

  /**
   * `Random.js`'s `chance(probability)`, which has no default: without an argument the
   * comparison is with `undefined` and is false.
   */
  function LegacyChanceOf(p: Option<real>, u: Unit): (win: bool)
    ensures p.None? ==> !win
    ensures p.Some? && 1.0 <= p.value ==> win
    ensures p.Some? && p.value < 0.0 ==> !win
  {
    match p
    case None => false
    case Some(q) => ChanceOf(q, u)
  }

  /** `Math.floor(u * n)`, the index `element` reads. */
  function ElementIndex(u: Unit, n: nat): (i: nat)
    ensures 0 < n ==> i < n
  {
    Scale(n as real, u).Floor
  }

  /**
   * `element(list)` for the draw `u`: an element of a non-empty list, and `undefined` (`None`)
   * for the empty list, whose index 0 is out of range.
   */
  function ElementOf<T>(list: seq<T>, u: Unit): (e: Option<T>)
    ensures e.Some? <==> |list| > 0
    ensures e.Some? ==> e.value in list
  {
    var i := ElementIndex(u, |list|);
    if i < |list| then Some(list[i]) else None
  }

  /** Every element of a list is chosen by some draw: the draw `k / n` picks index `k`. */
  lemma ElementReachable<T>(list: seq<T>, k: nat)
    requires k < |list|
    ensures exists u: Unit :: ElementOf(list, u) == Some(list[k])
  {
    var n := |list| as real;
    var u: Unit := k as real / n;
    assert u * n == k as real;
    assert ElementIndex(u, |list|) == k;
    assert ElementOf(list, u) == Some(list[k]);
  }
}
