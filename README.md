# pex-random, modelled in Dafny

pex-random is a seeded random-number generator for creative coding. This model covers its
two front ends:

- The `Random` class of `index.js`. Each instance owns a seeded bit stream (`rng`) and a
  simplex noise sampler (`simplex`) built from that stream. On top of these sit the samplers
  `float`, `int`, `vec2`, `vec3`, `vec2InRect`, `vec3InAABB`, `chance` and `element`, the
  noise reads `noise2/3/4`, and fractal Brownian motion `fbm`.
- The older module object of `Random.js`. It offers a subset of that API over the
  process-wide `Math.random`, which `seed` replaces, and a module-level `simplex`. It has no
  constructor, no `create` and no `fbm`, and its `chance` has no default probability, so
  `chance()` compares the draw with `undefined` and never succeeds.

The model is split into these modules:

- `Foreign` holds the collaborators the library calls but does not define. These are the
  `seedrandom` generator (a seed gives an infinite stream of values in [0, 1)), the
  `simplex-noise` constructor (a stream gives a noise field with values in [-1, 1], after
  consuming `simplexDraws` values of the stream), and `Math.sqrt`. They are passed in as one
  `Libraries` value.
- `Samplers` holds the pure transforms every sampler applies to its draws, with their bounds.
- `FractalNoise` holds the closed form of `fbm`: option defaulting, noise selection by arity,
  the octave sum and its amplitude bound.
- `PexRandom` holds the classes `RandomStatics` (`Random.NOW`, `Random.#instanceCount`) and
  `Random`. Each sampler method is specified by the `Samplers` function of the stream values
  it consumes, and states exactly how far it advances the stream.
- `LegacyRandom` holds the module object of `Random.js` as a class `RandomModule`.
- `RealFacts` holds small real-arithmetic lemmas, and `Wrappers` holds `Option` and `Result`.

Numbers are reals. A generator's state is the stream, the count of values already drawn,
and the noise field. A ghost seed ties the stream and field to the last `seed` call.

## Model

| member | source | states |
|---|---|---|
| Samplers.Scale | index.js:67 | The offset `(max - min) * draw` has the sign of the span and is strictly shorter than it. |
| Samplers.Lerp | index.js:67 | `min + (max - min) * draw` lies in [min, max) when min < max, in (max, min] when max < min, and is min when they are equal. |
| Samplers.Bounds | index.js:60-66 | Two arguments are used as given. Otherwise min defaults to 0, a single argument becomes max, and no arguments give the default max (1 for `float`, 2^53 - 1 for `int`). |
| Samplers.FloatOf | index.js:59-68 | No arguments gives [0, 1). One argument m gives the span from 0 to m. Two arguments give the span from min to max. |
| Samplers.IntOf | index.js:78-87 | No arguments gives an integer in [0, 2^53 - 1). One argument m > 0 gives [0, m). Two arguments min < max give [floor(min), max). |
| Samplers.IntBetweenIntegers | index.js:78-87 | For integer bounds min < max, `int(min, max)` lies between min and max - 1 inclusive. |
| Samplers.Axis | index.js:95-96 | A direction component `draw * 2 - 1` lies in [-1, 1). |
| Samplers.Vec2Of | index.js:94-100 | `vec2(r)` is non-finite exactly when `Math.sqrt` of the direction's squared length is 0. Otherwise each component times that length is rr times the direction component, where rr = draw · r. |
| Samplers.Vec3Of | index.js:107-114 | `vec3(r)` is non-finite exactly when `Math.sqrt` of the direction's squared length is 0. Otherwise each component times that length is rr times the direction component. |
| Samplers.Scaled2 | index.js:97-99 | Dividing by a zero length gives the non-finite vector. Otherwise the result keeps the direction, scaled by rr / len. |
| Samplers.Scaled3 | index.js:111-113 | Dividing by a zero length gives the non-finite vector. Otherwise the result keeps the direction, scaled by rr / len. |
| Samplers.Scaled2Length | index.js:97-99 | Dividing a 2-vector by its positive exact length and scaling by rr gives squared length rr². |
| Samplers.Scaled3Length | index.js:110-113 | Dividing a 3-vector by its positive exact length and scaling by rr gives squared length rr². |
| Samplers.Vec2InDisk | index.js:94-100 | For a non-zero direction, `vec2(r)` is finite and its squared length is rr², where rr = draw · r. |
| Samplers.Vec2ShorterThanRadius | index.js:94-100 | For r > 0 and a non-zero direction, `vec2(r)` lies strictly inside the circle of radius r. |
| Samplers.Vec3InBall | index.js:107-114 | For a non-zero direction, `vec3(r)` is finite and its squared length is rr², where rr = draw · r. |
| Samplers.Vec3ShorterThanRadius | index.js:107-114 | For r > 0 and a non-zero direction, `vec3(r)` lies strictly inside the sphere of radius r. |
| Samplers.Vec2ZeroDirection | index.js:94-100 | Direction draws of exactly 0.5 give a zero direction, and `vec2` then divides by zero. |
| Samplers.Vec3ZeroDirection | index.js:107-114 | Direction draws of exactly 0.5 give a zero direction, and `vec3` then divides by zero. |
| Samplers.InRect | index.js:121-126 | Each coordinate lies in the span of its own axis, from the min corner towards the max corner. |
| Samplers.InAABB | index.js:133-139 | Each of the three coordinates lies in the span of its own axis of the box. |
| Samplers.ChanceOf | index.js:146-148 | p >= 1 always wins. p < 0 never wins. p = 0 wins only on a draw of exactly 0. |
| Samplers.LegacyChanceOf | Random.js:69-71 | A missing probability never wins. p >= 1 always wins. p < 0 never wins. |
| Samplers.ElementIndex | index.js:156 | `floor(draw * length)` is a valid index of a non-empty list. |
| Samplers.ElementOf | index.js:155-157 | The result is defined exactly when the list is non-empty, and it is then a member of the list. |
| Samplers.ElementReachable | index.js:155-157 | Every member of a non-empty list is returned for some draw. |
| FractalNoise.SelectNoise | index.js:206-211 | A custom noise is always used. Otherwise the result is never a custom function: it is the `noise2/3/4` read matching the coordinate count, and none exists outside 2 to 4. |
| FractalNoise.ScaleCoords | index.js:214 | Scaling by the frequency keeps the number of coordinates. |
| FractalNoise.Value | index.js:198-220 | Fails exactly when there is no custom noise and the arity is outside 2 to 4, even with no octaves. Otherwise zero or negative octaves give 0. |
| FractalNoise.ResolveDefaults | index.js:199-205 | With no options the parameters are 8 octaves, lacunarity 2, gain 0.5, frequency 1 and amplitude 0.5. A given option is kept. A missing amplitude follows the gain in effect, even a gain the caller chose. |
| FractalNoise.Iterations | index.js:213 | The loop runs `octaves` times when octaves is positive, and not at all otherwise. |
| FractalNoise.FirstOctave | index.js:213-216 | `Frequency` and `Amplitude` start at the initial frequency and amplitude. A lacunarity of 1 keeps the frequency, and a gain of 1 keeps the amplitude, in every octave. |
| FractalNoise.NextOctave | index.js:215-216 | Multiplying by lacunarity and gain turns octave i's frequency and amplitude into octave i + 1's closed-form values. |
| FractalNoise.OctaveBound | index.js:214 | With noise in [-1, 1], one octave's contribution (`Octave`) is at most `abs(amplitude · gain^i)` in absolute value. |
| FractalNoise.OctaveSumBound | index.js:213-217 | With noise in [-1, 1], the first n octaves (`OctaveSum`) sum to at most the sum of their amplitude magnitudes. |
| FractalNoise.ValueBound | index.js:198-220 | A successful `fbm` value is at most the sum of `abs(amplitude · gain^i)` over its octaves. |
| FractalNoise.DefaultAmplitudeSum | index.js:200-204 | With the default gain and amplitude of 0.5, n octaves' weights sum to 1 - 0.5^n. |
| FractalNoise.DefaultValueInRange | index.js:192-220 | With default options and 2 to 4 coordinates, `fbm` succeeds, and its absolute value is at most 1 - 0.5^8. |
| FractalNoise.UnitGainLeavesRange | index.js:196-216 | With gain and amplitude 1 and a noise that returns 1, `fbm` returns the octave count. The documented [-1, 1] range holds only for suitable weights. |
| PexRandom.RandomStatics.constructor | index.js:18-24 | `NOW` is the clock reading when the class is evaluated, and the instance counter starts at 0. |
| PexRandom.Random.constructor | index.js:30-33 | Seeds with the given seed, or by default with NOW + instanceCount. Then it increments the counter. |
| PexRandom.Random.Create | index.js:40 | Returns a fresh, validly seeded instance, leaves the receiver unchanged, and increments the counter. |
| PexRandom.Random.Valid | index.js:46-49 | A generator's noise field is always the one built from the stream of its last seed. |
| PexRandom.Random.SetSeed | index.js:46-49 | Replaces `rng` with the stream of the seed, and rebuilds `simplex` from that same stream. |
| PexRandom.Random.Next | index.js:67 | One call of `this.rng()` returns the next value of the stream, and advances the stream by exactly one. |
| PexRandom.Random.Float | index.js:59-68 | Consumes exactly one draw, and returns `FloatOf` of that draw. |
| PexRandom.Random.Int | index.js:78-87 | Consumes exactly one draw, and returns `IntOf` of that draw. |
| PexRandom.Random.Vec2 | index.js:94-100 | Consumes exactly three draws (x, y, radius), with the radius defaulting to 1. |
| PexRandom.Random.Vec3 | index.js:107-114 | Consumes exactly four draws (x, y, z, radius), with the radius defaulting to 1. |
| PexRandom.Random.Vec2InRect | index.js:121-126 | Consumes exactly two draws, x first, and returns the point they select in the rectangle. |
| PexRandom.Random.Vec3InAABB | index.js:133-139 | Consumes exactly three draws in axis order, and returns the point they select in the box. |
| PexRandom.Random.Chance | index.js:146-148 | Consumes exactly one draw, and compares it with the probability, which defaults to 0.5. |
| PexRandom.Random.Element | index.js:155-157 | Consumes exactly one draw, and returns the list member it selects. |
| PexRandom.Random.Noise2 | index.js:165-167 | Reads only the `simplex` field, so draws and other state changes leave it unchanged, and the value lies in [-1, 1]. |
| PexRandom.Random.Noise3 | index.js:176-178 | Reads only the `simplex` field, so draws and other state changes leave it unchanged, and the value lies in [-1, 1]. |
| PexRandom.Random.Noise4 | index.js:188-190 | Reads only the `simplex` field, so draws and other state changes leave it unchanged, and the value lies in [-1, 1]. |
| PexRandom.Random.Fbm | index.js:198-220 | The octave loop computes exactly the closed form `FractalNoise.Value`, and changes no state. |
| PexRandom.LoadModule | index.js:233 | The default export is seeded with NOW, and afterwards one instance has been counted. |
| PexRandom.DefaultSeedsDiffer | index.js:30-33 | Two default-constructed instances get different seeds. |
| PexRandom.SameSeedSameResults | index.js:46-49 | Two generators seeded with the same value reach equal states, and give equal `float` and `noise2` results. |
| PexRandom.NoiseIgnoresDraws | index.js:165-167 | A noise read gives the same value before and after other samplers have drawn. |
| LegacyRandom.RandomModule.Load | Random.js:4 | Evaluating the module builds `simplex` from the unseeded platform stream. |
| LegacyRandom.RandomModule.Valid | Random.js:8-11 | Once the module has been seeded, `simplex` is the field built from the stream of the last seed. |
| LegacyRandom.RandomModule.SetSeed | Random.js:8-11 | Reseeds `Math.random` with the seed, and rebuilds `simplex` from the new stream. |
| LegacyRandom.RandomModule.Next | Random.js:22 | One call of `Math.random()` returns the next value of the shared stream, and advances it by exactly one. |
| LegacyRandom.RandomModule.Float | Random.js:13-23 | Consumes exactly one draw, and returns `FloatOf` of that draw. |
| LegacyRandom.RandomModule.Int | Random.js:27-37 | Consumes exactly one draw, and returns `IntOf` of that draw. |
| LegacyRandom.RandomModule.Vec2 | Random.js:39-46 | Consumes exactly three draws, with the radius defaulting to 1 when undefined. |
| LegacyRandom.RandomModule.Vec3 | Random.js:48-56 | Consumes exactly four draws, with the radius defaulting to 1 when undefined. |
| LegacyRandom.RandomModule.Vec2InRect | Random.js:58-60 | Consumes exactly two draws, and returns the point they select in the rectangle. |
| LegacyRandom.RandomModule.Vec3InAABB | Random.js:62-67 | Consumes exactly three draws, and returns the point they select in the box. |
| LegacyRandom.RandomModule.Chance | Random.js:69-71 | Consumes exactly one draw, and applies `LegacyChanceOf`, with no default probability. |
| LegacyRandom.RandomModule.Element | Random.js:73-75 | Consumes exactly one draw, and returns the list member it selects. |
| LegacyRandom.RandomModule.Noise2 | Random.js:77-79 | Reads only the `simplex` field, so draws leave it unchanged, and the value lies in [-1, 1]. |
| LegacyRandom.RandomModule.Noise3 | Random.js:81-83 | Reads only the `simplex` field, so draws leave it unchanged, and the value lies in [-1, 1]. |
| LegacyRandom.RandomModule.Noise4 | Random.js:85-87 | Reads only the `simplex` field, so draws leave it unchanged, and the value lies in [-1, 1]. |
| LegacyRandom.SeedTwiceSameFloat | Random.js:8-11 | Seeding twice with the same value gives equal next `float` values. |
| LegacyRandom.SeededNoiseIsReproducible | Random.js:8-11 | After `seed(s)`, noise depends only on s: not on the starting stream, and not on draws since. |
| LegacyRandom.ChanceWithoutArgument | Random.js:69-71 | `chance()` with no argument fails, and `chance(1)` succeeds. |

## Left out

- IEEE-754 doubles are modelled as reals, so rounding is not captured. NaN and Infinity appear only as the `NonFinite` result of normalising a zero vector.
- The `seedrandom` algorithm and the `simplex-noise` lattice are foreign libraries. They are abstract parameters, with only their documented ranges (draws in [0, 1), noise in [-1, 1]). How many draws the simplex constructor consumes is the parameter `simplexDraws`.
- `Math.sqrt` is a parameter, so its rounding is not modelled.
- Samplers.Vec2InDisk: stated only where `Math.sqrt` returns a positive exact root of the squared length, because the root of a rounded sum is not modelled.
- Samplers.Vec3InBall: stated only where `Math.sqrt` returns a positive exact root of the squared length, for the same reason.
- Samplers.Vec2ShorterThanRadius: stated only for r > 0. For r < 0, `Scale` gives only r < rr <= 0, and for r = 0 the radius rr is 0.
- Samplers.Vec3ShorterThanRadius: stated only for r > 0, for the same reason.
- The `performance.now()` reading behind `Random.NOW` is a parameter `clock`.
- `Random.js` shares `Math.random` with the rest of the process. Draws by other code are not modelled.
- Noise reads are not tied to coordinates through any concrete formula. Only their range and their independence from draws are stated.
- `fbm` custom noise is a pure function of the coordinates. A noise with side effects is not modelled.
- `fbm` octaves are an integer. A fractional octave count is not modelled: the loop would run to its ceiling.
- Options given as `null` or as non-numbers, and JavaScript coercion of arguments, are not modelled. `float` and `int` take zero, one or two numeric arguments, and only `undefined` options are defaulted.
- `element([])` returns `undefined` in the code, modelled as `None`. An error is not raised, so the model follows the code.
- `lib/Random.js`, `types.js`, the bundled `web_modules` dependencies and the test files are not part of this model.
