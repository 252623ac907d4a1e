/**
 * `Random.js`, the older module-object form of the generator. It offers a subset of the API
 * of the `Random` class: there is no constructor, no `create` and no `fbm`, and its `chance`
 * has no default probability. Instead of a stream per instance it draws from the process-wide
 * `Math.random`, which `seed` replaces with a seeded generator (`Math.seedrandom`), and it keeps
 * its noise sampler in the module-level variable `simplex`.
 * The module's state is therefore one object: the values `Math.random` will return, how many
 * of them have been consumed, and `simplex`.
 */
module LegacyRandom {
  import opened Wrappers
  import opened Foreign
  import opened Samplers

  class RandomModule {
    const lib: Libraries

    /** The values `Math.random` returns, from the module's evaluation or the last `seed` on. */
    var mathRandom: Stream
    /** How many of them have been consumed. */
    var drawn: nat
    /** The module-level `simplex` */
    var simplex: NoiseField

    /** The last seed given to `seed`; `None` while `Math.random` is the platform's own. */
    ghost var seeded: Option<Seed>

    ghost predicate Valid()
      reads this
      ensures Valid() && seeded.Some? ==> simplex == lib.simplexNoise(lib.seedrandom(seeded.value))
    {
      && simplex == lib.simplexNoise(mathRandom)
      && lib.simplexDraws <= drawn
      && (seeded.Some? ==> mathRandom == lib.seedrandom(seeded.value))
    }

    /**
     * Evaluating the module: `simplex` is built from the unseeded platform stream `platform`,
     * so noise read before any `seed` call depends on it.
     */
    constructor Load(lib: Libraries, platform: Stream)
      ensures Valid() && this.lib == lib && seeded == None
      ensures mathRandom == platform && simplex == lib.simplexNoise(platform)
      ensures drawn == lib.simplexDraws
    {
      this.lib := lib;
      mathRandom := platform;
      simplex := lib.simplexNoise(platform);
      drawn := lib.simplexDraws;
      seeded := None;
    }

    /** `Random.seed(s)`: reseeds `Math.random` and rebuilds `simplex` from the new stream. */
    method SetSeed(s: Seed)
      modifies this
      ensures Valid() && seeded == Some(s)
      ensures mathRandom == lib.seedrandom(s) && simplex == lib.simplexNoise(mathRandom)
      ensures drawn == lib.simplexDraws
    {
      mathRandom := lib.seedrandom(s);
      seeded := Some(s);
      simplex := lib.simplexNoise(mathRandom);
      drawn := lib.simplexDraws;
    }

    /** One call of `Math.random()`. */
    method Next() returns (u: Unit)
      requires Valid()
      modifies this`drawn
      ensures Valid() && u == mathRandom(old(drawn)) && drawn == old(drawn) + 1
    {
      u := mathRandom(drawn);
      drawn := drawn + 1;
    }

    /** `Random.float(...)` */
    method Float(args: Args) returns (r: real)
      requires Valid()
      modifies this`drawn
      ensures Valid() && drawn == old(drawn) + 1
      ensures r == FloatOf(args, mathRandom(old(drawn)))
    {
      var u := Next();
      r := FloatOf(args, u);
    }

    /** `Random.int(...)`: `Math.floor(Random.float(min, max))`, `max` defaulting to `2^53 - 1`. */
    method Int(args: Args) returns (n: int)
      requires Valid()
      modifies this`drawn
      ensures Valid() && drawn == old(drawn) + 1
      ensures n == IntOf(args, mathRandom(old(drawn)))
    {
      var (lo, hi) := Bounds(args, MaxSafeInteger as real);
      var x := Float(MinMax(lo, hi));
      n := x.Floor;
    }

    /** `Random.vec2(r)`, `r` defaulting to 1 when `undefined`. */
    method Vec2(radius: Option<real>) returns (v: Vector<Point2>)
      requires Valid()
      modifies this`drawn
      ensures Valid() && drawn == old(drawn) + 3
      ensures v == Vec2Of(lib.sqrt, radius.GetOr(1.0), mathRandom(old(drawn)), mathRandom(old(drawn) + 1),
                          mathRandom(old(drawn) + 2))
    {
      var r := radius.GetOr(1.0);
      var ux := Next();
      var uy := Next();
      var ur := Next();
      v := Vec2Of(lib.sqrt, r, ux, uy, ur);
    }

    /** `Random.vec3(r)` */
    method Vec3(radius: Option<real>) returns (v: Vector<Point3>)
      requires Valid()
      modifies this`drawn
      ensures Valid() && drawn == old(drawn) + 4
      ensures v == Vec3Of(lib.sqrt, radius.GetOr(1.0), mathRandom(old(drawn)), mathRandom(old(drawn) + 1),
                          mathRandom(old(drawn) + 2), mathRandom(old(drawn) + 3))
    {
      var r := radius.GetOr(1.0);
      var ux := Next();
      var uy := Next();
      var uz := Next();
      var ur := Next();
      v := Vec3Of(lib.sqrt, r, ux, uy, uz, ur);
    }

    /** `Random.vec2InRect(rect)` */
    method Vec2InRect(rect: Rect) returns (p: Point2)
      requires Valid()
      modifies this`drawn
      ensures Valid() && drawn == old(drawn) + 2
      ensures p == InRect(rect, mathRandom(old(drawn)), mathRandom(old(drawn) + 1))
    {
      var ux := Next();
      var uy := Next();
      p := InRect(rect, ux, uy);
    }

    /** `Random.vec3InAABB(bbox)` */
    method Vec3InAABB(box: AABB) returns (p: Point3)
      requires Valid()
      modifies this`drawn
      ensures Valid() && drawn == old(drawn) + 3
      ensures p == InAABB(box, mathRandom(old(drawn)), mathRandom(old(drawn) + 1), mathRandom(old(drawn) + 2))
    {
      var ux := Next();
      var uy := Next();
      var uz := Next();
      p := InAABB(box, ux, uy, uz);
    }

    /** `Random.chance(probability)`, with no default probability. */
    method Chance(probability: Option<real>) returns (win: bool)
      requires Valid()
      modifies this`drawn
      ensures Valid() && drawn == old(drawn) + 1
      ensures win == LegacyChanceOf(probability, mathRandom(old(drawn)))
    {
      var u := Next();
      win := LegacyChanceOf(probability, u);
    }

    /** `Random.element(list)` */
    method Element<T>(list: seq<T>) returns (e: Option<T>)
      requires Valid()
      modifies this`drawn
      ensures Valid() && drawn == old(drawn) + 1
      ensures e == ElementOf(list, mathRandom(old(drawn)))
    {
      var u := Next();
      e := ElementOf(list, u);
    }

    /** `Random.noise2(x, y)` */
    function Noise2(x: real, y: real): (n: real)
      reads this`simplex
      ensures -1.0 <= n <= 1.0
    {
      simplex.noise2D(x, y)
    }

    /** `Random.noise3(x, y, z)` */
    function Noise3(x: real, y: real, z: real): (n: real)
      reads this`simplex
      ensures -1.0 <= n <= 1.0
    {
      simplex.noise3D(x, y, z)
    }

    /** `Random.noise4(x, y, z, w)` */
    function Noise4(x: real, y: real, z: real, w: real): (n: real)
      reads this`simplex
      ensures -1.0 <= n <= 1.0
    {
      simplex.noise4D(x, y, z, w)
    }
  }

  /** Seeding with the same value twice gives the same next `float()`. */
  method SeedTwiceSameFloat(m: RandomModule, s: Seed) returns (first: real, second: real)
    modifies m
    ensures first == second
  {
    m.SetSeed(s);
    first := m.Float(NoArgs);
    m.SetSeed(s);
    second := m.Float(NoArgs);
  }

  /**
   * After a `seed`, noise is a function of the seed alone, whatever stream the module started
   * from and however many values were drawn since.
   */
  method SeededNoiseIsReproducible(a: RandomModule, b: RandomModule, s: Seed, x: real, y: real)
    requires a != b && a.lib == b.lib
    modifies a, b
    ensures a.Noise2(x, y) == b.Noise2(x, y)
  {
    a.SetSeed(s);
    var _ := a.Float(NoArgs);
    b.SetSeed(s);
  }

  /** `chance()` without an argument never succeeds, and `chance(1)` always does. */
  method ChanceWithoutArgument(m: RandomModule) returns (never: bool, always: bool)
    requires m.Valid()
    modifies m
    ensures !never && always
  {
    never := m.Chance(None);
    always := m.Chance(Some(1.0));
  }
}
