/**
 * The foreign collaborators of the generator, which this library wraps but does not implement:
 * the `seedrandom` bit generator, the `simplex-noise` sampler and the platform's `Math.sqrt`.
 * They are modelled as values handed to the generator, with only the ranges their
 * documentation promises.
 */
module Foreign {

  /** A uniform draw: what a seeded `rng()` call returns, in [0, 1). */
  type Unit = u: real | 0.0 <= u < 1.0

  /** A noise value: every simplex read lies in [-1, 1]. */
  type Signed = x: real | -1.0 <= x <= 1.0 witness 0.0

  /** The whole sequence of draws a generator will produce; entry i is the (i+1)-th call. */
  type Stream = nat -> Unit

  /** A seed is a number or a string. */
  datatype Seed = NumSeed(n: real) | StrSeed(s: string)

  /** A constructed `SimplexNoise` object: three pure functions of the coordinates. */
  datatype NoiseField = NoiseField(
    noise2D: (real, real) -> Signed,
    noise3D: (real, real, real) -> Signed,
    noise4D: (real, real, real, real) -> Signed)

  /**
   * The libraries the generator is built on.
   * - `seedrandom(s)` is the stream of the generator seeded with `s`; equal seeds, equal streams.
   * - `simplexNoise(st)` is the sampler `new SimplexNoise(rng)` builds when `rng` yields `st`;
   *   building it consumes the first `simplexDraws` values of `st`.
   * - `sqrt` is `Math.sqrt`.
   */
  datatype Libraries = Libraries(
    seedrandom: Seed -> Stream,
    simplexNoise: Stream -> NoiseField,
    simplexDraws: nat,
    sqrt: real -> real)

  /**
   * `sqrt` returns a positive exact square root of `s`; this is what `Math.sqrt` returns, up
   * to rounding, for the squared length of a non-zero direction.
   */
  ghost predicate PositiveRootAt(sqrt: real -> real, s: real)
  {
    0.0 < sqrt(s) && sqrt(s) * sqrt(s) == s
  }
}
