/**
 * The `Random` class of `index.js`: a generator that owns its seeded bit stream `rng` and the
 * simplex noise sampler built from that stream. Every sampler pulls a fixed number of draws
 * from `rng` and applies one of the transforms of `Samplers`; the noise reads only look at
 * `simplex`; `fbm` sums octaves of a noise function.
 *
 * The stream is the whole sequence `rng` will produce, and `drawn` is how many of its values
 * have been consumed, so the next `this.rng()` returns `rng(drawn)`.
 */
module PexRandom {
  import opened Wrappers
  import opened Foreign
  import opened Samplers
  import FractalNoise

  /**
   * The static members of `Random`: `Random.NOW`, the clock reading taken when the class is
   * evaluated, and the private counter `Random.#instanceCount`.
   */
  class RandomStatics {
    const now: real
    var instanceCount: nat

    constructor (now: real)
      ensures this.now == now && instanceCount == 0
    {
      this.now := now;
      instanceCount := 0;
    }
  }

  class Random {
    const statics: RandomStatics
    const lib: Libraries

    /** `this.rng`: the values the seeded generator returns, in order. */
    var rng: Stream
    /** How many values of `rng` have been consumed. */
    var drawn: nat
    /** `this.simplex` */
    var simplex: NoiseField

    /** The seed `rng` was last built from. */
    ghost var seedValue: Seed

    /** `rng` and `simplex` both come from the last seed, and building `simplex` consumed draws. */
    ghost predicate Valid()
      reads this
      ensures Valid() ==> simplex == lib.simplexNoise(lib.seedrandom(seedValue))
    {
      && rng == lib.seedrandom(seedValue)
      && simplex == lib.simplexNoise(rng)
      && lib.simplexDraws <= drawn
    }

    /**
     * `new Random(seed)`: seeds the generator with `seed`, by default with
     * `Random.NOW + Random.#instanceCount`, and then counts the new instance.
     */
    constructor (statics: RandomStatics, lib: Libraries, seed: Option<Seed>)
      modifies statics
      ensures Valid() && this.statics == statics && this.lib == lib
      ensures seedValue == seed.GetOr(NumSeed(statics.now + old(statics.instanceCount) as real))
      ensures drawn == lib.simplexDraws
      ensures statics.instanceCount == old(statics.instanceCount) + 1
    {
      this.statics := statics;
      this.lib := lib;
      new;
      SetSeed(seed.GetOr(NumSeed(statics.now + statics.instanceCount as real)));
      statics.instanceCount := statics.instanceCount + 1;
    }

    /**
     * `create(seed)`: a new instance with a stream of its own; the receiver is left as it was.
     * Only the shared instance counter moves.
     */
    method Create(seed: Option<Seed>) returns (r: Random)
      modifies statics
      ensures fresh(r) && r.Valid() && r.statics == statics && r.lib == lib
      ensures r.seedValue == seed.GetOr(NumSeed(statics.now + old(statics.instanceCount) as real))
      ensures r.drawn == lib.simplexDraws
      ensures statics.instanceCount == old(statics.instanceCount) + 1
      ensures unchanged(this)
    {
      r := new Random(statics, lib, seed);
    }

    /**
     * `seed(s)`: replaces `rng` with the generator seeded by `s`, then rebuilds `simplex` from
     * that same stream, which consumes its first `simplexDraws` values.
     */
    method SetSeed(s: Seed)
      modifies this
      ensures Valid() && seedValue == s
      ensures rng == lib.seedrandom(s) && simplex == lib.simplexNoise(rng)
      ensures drawn == lib.simplexDraws
    {
      rng := lib.seedrandom(s);
      seedValue := s;
      simplex := lib.simplexNoise(rng);
      drawn := lib.simplexDraws;
    }

    /** One call of `this.rng()`. */
    method Next() returns (u: Unit)
      requires Valid()
      modifies this`drawn
      ensures Valid() && u == rng(old(drawn)) && drawn == old(drawn) + 1
    {
      u := rng(drawn);
      drawn := drawn + 1;
    }

    /** `float(...)`: one draw, mapped into the span the arguments select. */
    method Float(args: Args) returns (r: real)
      requires Valid()
      modifies this`drawn
      ensures Valid() && drawn == old(drawn) + 1
      ensures r == FloatOf(args, rng(old(drawn)))
    {
      var u := Next();
      r := FloatOf(args, u);
    }

    /** `int(...)`: `Math.floor(this.float(min, max))` after defaulting the bounds. */
    method Int(args: Args) returns (n: int)
      requires Valid()
      modifies this`drawn
      ensures Valid() && drawn == old(drawn) + 1
      ensures n == IntOf(args, rng(old(drawn)))
    {
      var (lo, hi) := Bounds(args, MaxSafeInteger as real);
      var x := Float(MinMax(lo, hi));
      n := x.Floor;
    }

    /** `vec2(r = 1)`: draws x, y, then the radius. */
    method Vec2(radius: Option<real>) returns (v: Vector<Point2>)
      requires Valid()
      modifies this`drawn
      ensures Valid() && drawn == old(drawn) + 3
      ensures v == Vec2Of(lib.sqrt, radius.GetOr(1.0), rng(old(drawn)), rng(old(drawn) + 1), rng(old(drawn) + 2))
    {
      var r := radius.GetOr(1.0);
      var ux := Next();
      var uy := Next();
      var ur := Next();
      v := Vec2Of(lib.sqrt, r, ux, uy, ur);
    }

    /** `vec3(r = 1)`: draws x, y, z, then the radius. */
    method Vec3(radius: Option<real>) returns (v: Vector<Point3>)
      requires Valid()
      modifies this`drawn
      ensures Valid() && drawn == old(drawn) + 4
      ensures v == Vec3Of(lib.sqrt, radius.GetOr(1.0), rng(old(drawn)), rng(old(drawn) + 1),
                          rng(old(drawn) + 2), rng(old(drawn) + 3))
    {
      var r := radius.GetOr(1.0);
      var ux := Next();
      var uy := Next();
      var uz := Next();
      var ur := Next();
      v := Vec3Of(lib.sqrt, r, ux, uy, uz, ur);
    }

    /** `vec2InRect(rect)`: one draw per axis, x first. */
    method Vec2InRect(rect: Rect) returns (p: Point2)
      requires Valid()
      modifies this`drawn
      ensures Valid() && drawn == old(drawn) + 2
      ensures p == InRect(rect, rng(old(drawn)), rng(old(drawn) + 1))
    {
      var ux := Next();
      var uy := Next();
      p := InRect(rect, ux, uy);
    }

    /** `vec3InAABB(bbox)`: one draw per axis, x first. */
    method Vec3InAABB(box: AABB) returns (p: Point3)
      requires Valid()
      modifies this`drawn
      ensures Valid() && drawn == old(drawn) + 3
      ensures p == InAABB(box, rng(old(drawn)), rng(old(drawn) + 1), rng(old(drawn) + 2))
    {
      var ux := Next();
      var uy := Next();
      var uz := Next();
      p := InAABB(box, ux, uy, uz);
    }

    /** `chance(probability = 0.5)` */
    method Chance(probability: Option<real>) returns (win: bool)
      requires Valid()
      modifies this`drawn
      ensures Valid() && drawn == old(drawn) + 1
      ensures win == ChanceOf(probability.GetOr(0.5), rng(old(drawn)))
    {
      var u := Next();
      win := ChanceOf(probability.GetOr(0.5), u);
    }

    /** `element(list)`; `None` is the `undefined` read past the end of an empty list. */
    method Element<T>(list: seq<T>) returns (e: Option<T>)
      requires Valid()
      modifies this`drawn
      ensures Valid() && drawn == old(drawn) + 1
      ensures e == ElementOf(list, rng(old(drawn)))
    {
      var u := Next();
      e := ElementOf(list, u);
    }

    /** `noise2(x, y)`: a read of the current noise field, in [-1, 1]. */
    function Noise2(x: real, y: real): (n: real)
      reads this`simplex
      ensures -1.0 <= n <= 1.0
    {
      simplex.noise2D(x, y)
    }

    /** `noise3(x, y, z)` */
    function Noise3(x: real, y: real, z: real): (n: real)
      reads this`simplex
      ensures -1.0 <= n <= 1.0
    {
      simplex.noise3D(x, y, z)
    }

    /** `noise4(x, y, z, w)` */
    function Noise4(x: real, y: real, z: real, w: real): (n: real)
      reads this`simplex
      ensures -1.0 <= n <= 1.0
    {
      simplex.noise4D(x, y, z, w)
    }

    /**
     * `fbm(options, ...d)`: the octave loop. It computes the closed form
     * `FractalNoise.Value`, reading the noise field and changing nothing.
     */
    method Fbm(options: FractalNoise.Options, d: seq<real>) returns (r: Result<real, FractalNoise.FbmError>)
      ensures r == FractalNoise.Value(simplex, options, d)
    {
      var p := FractalNoise.Resolve(options);
      var value := 0.0;
      var selected := FractalNoise.SelectNoise(options.noise, |d|);
      if selected.None? {
        return Failure(FractalNoise.NoNoiseForArity(|d|));
      }
      var noise := selected.value;
      var frequency, amplitude := p.frequency, p.amplitude;
      var i := 0;
      while i < p.octaves
        invariant 0 <= i <= FractalNoise.Iterations(p.octaves)
        invariant value == FractalNoise.OctaveSum(simplex, noise, p, d, i)
        invariant frequency == FractalNoise.Frequency(p, i)
        invariant amplitude == FractalNoise.Amplitude(p, i)
      {
        value := value + FractalNoise.Sample(simplex, noise, FractalNoise.ScaleCoords(d, frequency)) * amplitude;
        FractalNoise.NextOctave(p, i);
        frequency := frequency * p.lacunarity;
        amplitude := amplitude * p.gain;
        i := i + 1;
      }
      return Success(value);
    }
  }

  /**
   * Loading the module: `Random.NOW` reads the clock, and `export default new Random()` seeds
   * the shared instance with `NOW + 0`.
   */
  method LoadModule(clock: real, lib: Libraries) returns (statics: RandomStatics, random: Random)
    ensures fresh(statics) && fresh(random)
    ensures random.Valid() && random.statics == statics
    ensures random.seedValue == NumSeed(clock)
    ensures statics.instanceCount == 1
  {
    statics := new RandomStatics(clock);
    random := new Random(statics, lib, None);
  }

  /** Instances constructed one after the other without a seed get different seeds. */
  method DefaultSeedsDiffer(statics: RandomStatics, lib: Libraries) returns (a: Random, b: Random)
    modifies statics
    ensures a.seedValue != b.seedValue
  {
    a := new Random(statics, lib, None);
    b := new Random(statics, lib, None);
  }

  /**
   * Two generators seeded with the same value end up in the same state, so they produce the
   * same later `float` and `noise` results.
   */
  method SameSeedSameResults(a: Random, b: Random, s: Seed, x: real, y: real) returns (fa: real, fb: real)
    requires a != b && a.lib == b.lib
    modifies a, b
    ensures a.rng == b.rng && a.drawn == b.drawn && a.simplex == b.simplex
    ensures fa == fb && a.Noise2(x, y) == b.Noise2(x, y)
  {
    a.SetSeed(s);
    b.SetSeed(s);
    fa := a.Float(NoArgs);
    fb := b.Float(NoArgs);
  }

  /** Drawing values does not move the noise field: the same read gives the same value. */
  method NoiseIgnoresDraws(g: Random, x: real, y: real) returns (before: real, after: real)
    requires g.Valid()
    modifies g
    ensures before == after
  {
    before := g.Noise2(x, y);
    var _ := g.Float(NoArgs);
    var _ := g.Vec3(None);
    var _ := g.Chance(None);
    after := g.Noise2(x, y);
  }
}
