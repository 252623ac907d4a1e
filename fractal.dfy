/**
 * Fractional Brownian motion as `fbm` computes it: `octaves` samples of a noise function, the
 * coordinates of octave `i` scaled by `frequency * lacunarity^i` and its sample weighted by
 * `amplitude * gain^i`. This module holds the closed form the octave loop is proved against
 * and the amplitude bound that follows from it.
 */
module FractalNoise {
  import opened Wrappers
  import opened Foreign
  import RealFacts

  /** The `options` argument of `fbm`; a field left `undefined` (`None`) takes its default. */
  datatype Options = Options(
    octaves: Option<int>,
    lacunarity: Option<real>,
    gain: Option<real>,
    frequency: Option<real>,
    amplitude: Option<real>,
    noise: Option<seq<real> -> real>)

  /** `fbm({}, ...d)`: every option left to its default. */
  const NoOptions := Options(None, None, None, None, None, None)

  /** The numeric options after defaulting. */
  datatype Params = Params(octaves: int, lacunarity: real, gain: real, frequency: real, amplitude: real)

  /**
   * The destructuring defaults of `fbm`: 8 octaves, lacunarity 2, gain 0.5, frequency 1, and an
   * amplitude that defaults to the gain in effect.
   */
  function Resolve(o: Options): (p: Params)
  {
    var gain := o.gain.GetOr(0.5);
    Params(o.octaves.GetOr(8), o.lacunarity.GetOr(2.0), gain, o.frequency.GetOr(1.0), o.amplitude.GetOr(gain))
  }

  /**
   * The defaults `fbm` destructures: with no options the parameters are 8 octaves, lacunarity 2,
   * gain 0.5, frequency 1 and amplitude 0.5; an option that is given is kept; and a missing
   * amplitude follows the gain in effect, even a gain the caller chose.
   */
  lemma ResolveDefaults(o: Options)
    ensures Resolve(NoOptions) == Params(8, 2.0, 0.5, 1.0, 0.5)
    ensures o.octaves.Some? ==> Resolve(o).octaves == o.octaves.value
    ensures o.lacunarity.Some? ==> Resolve(o).lacunarity == o.lacunarity.value
    ensures o.gain.Some? ==> Resolve(o).gain == o.gain.value
    ensures o.frequency.Some? ==> Resolve(o).frequency == o.frequency.value
    ensures o.amplitude.Some? ==> Resolve(o).amplitude == o.amplitude.value
    ensures o.amplitude.None? ==> Resolve(o).amplitude == Resolve(o).gain
  {
  }

  /** How many times `for (let i = 0; i < octaves; i++)` runs. */
  function Iterations(octaves: int): (n: nat)
    ensures 0 < octaves ==> n == octaves
    ensures octaves <= 0 ==> n == 0
  {
    if octaves <= 0 then 0 else octaves
  }

  /** The function each octave samples: the caller's `noise`, or `noise2`/`noise3`/`noise4`. */
  datatype NoiseFn = Custom(f: seq<real> -> real) | Simplex2 | Simplex3 | Simplex4

  /** `fbm`'s failure: with no `noise` option there is no `noise<d.length>` to bind. */
  datatype FbmError = NoNoiseForArity(arity: nat)

  /**
   * `noise ||= this["noise" + d.length].bind(this)`: the caller's noise if given, otherwise the
   * simplex read of matching arity, which exists only for 2, 3 and 4 coordinates.
   */
  function SelectNoise(custom: Option<seq<real> -> real>, arity: nat): (r: Option<NoiseFn>)
    ensures r.None? <==> custom.None? && (arity < 2 || 4 < arity)
    ensures r.Some? ==> Fits(r.value, arity)
    ensures custom.Some? ==> r == Some(Custom(custom.value))
    ensures custom.None? && r.Some? ==> !r.value.Custom?
  {
    match custom
    case Some(f) => Some(Custom(f))
    case None =>
      if arity == 2 then Some(Simplex2)
      else if arity == 3 then Some(Simplex3)
      else if arity == 4 then Some(Simplex4)
      else None
  }

  /** A noise function can be called with `arity` coordinates. */
  predicate Fits(fn: NoiseFn, arity: nat)
  {
    match fn
    case Custom(_) => true
    case Simplex2 => arity == 2
    case Simplex3 => arity == 3
    case Simplex4 => arity == 4
  }

  /** The noise function at the point `p`; simplex reads come from `field`. */
  function Sample(field: NoiseField, fn: NoiseFn, p: seq<real>): real
    requires Fits(fn, |p|)
  {
    match fn
    case Custom(f) => f(p)
    case Simplex2 => field.noise2D(p[0], p[1])
    case Simplex3 => field.noise3D(p[0], p[1], p[2])
    case Simplex4 => field.noise4D(p[0], p[1], p[2], p[3])
  }

  /** Every value a noise function returns lies in [-1, 1]; simplex reads always do. */
  ghost predicate Bounded(fn: NoiseFn)
  {
    fn.Custom? ==> forall p :: -1.0 <= fn.f(p) <= 1.0
  }

  lemma SampleBounded(field: NoiseField, fn: NoiseFn, p: seq<real>)
    requires Fits(fn, |p|) && Bounded(fn)
    ensures -1.0 <= Sample(field, fn, p) <= 1.0
  {
  }

  /** `d.map((n) => n * k)` */
  function ScaleCoords(d: seq<real>, k: real): (q: seq<real>)
    ensures |q| == |d|
  {
    seq(|d|, j requires 0 <= j < |d| => d[j] * k)
  }

  /** `x^n` */
  function Pow(x: real, n: nat): real
  {
    if n == 0 then 1.0 else Pow(x, n - 1) * x
  }

  /** `frequency` in octave `i`: the initial frequency times `lacunarity^i`. */
  function Frequency(p: Params, i: nat): real
  {
    p.frequency * Pow(p.lacunarity, i)
  }

  /** `amplitude` in octave `i`: the initial amplitude times `gain^i`. */
  function Amplitude(p: Params, i: nat): real
  {
    p.amplitude * Pow(p.gain, i)
  }

  /**
   * The first octave samples at the initial frequency with the initial amplitude, and a unit
   * lacunarity or gain keeps that frequency or amplitude in every later octave.
   */
  lemma FirstOctave(p: Params, i: nat)
    ensures Frequency(p, 0) == p.frequency && Amplitude(p, 0) == p.amplitude
    ensures p.lacunarity == 1.0 ==> Frequency(p, i) == p.frequency
    ensures p.gain == 1.0 ==> Amplitude(p, i) == p.amplitude
  {
    PowOne(i);
  }

  /** The next octave's weights: what `frequency *= lacunarity` and `amplitude *= gain` compute. */
  lemma NextOctave(p: Params, i: nat)
    ensures Frequency(p, i + 1) == Frequency(p, i) * p.lacunarity
    ensures Amplitude(p, i + 1) == Amplitude(p, i) * p.gain
  {
    assert Pow(p.lacunarity, i + 1) == Pow(p.lacunarity, i) * p.lacunarity;
    assert Pow(p.gain, i + 1) == Pow(p.gain, i) * p.gain;
  }

  /** The contribution of octave `i`. */
  function Octave(field: NoiseField, fn: NoiseFn, p: Params, d: seq<real>, i: nat): real
    requires Fits(fn, |d|)
  {
    Sample(field, fn, ScaleCoords(d, Frequency(p, i))) * Amplitude(p, i)
  }

  /** The sum of the first `n` octaves, the last one added last. */
  function OctaveSum(field: NoiseField, fn: NoiseFn, p: Params, d: seq<real>, n: nat): real
    requires Fits(fn, |d|)
  {
    if n == 0 then 0.0 else OctaveSum(field, fn, p, d, n - 1) + Octave(field, fn, p, d, n - 1)
  }

  /**
   * `fbm(o, ...d)` on the noise field `field`: the sum of all `octaves` octaves, or the
   * `TypeError` of a missing `noise<d.length>`. The error is raised before the loop, so it
   * happens even for `octaves <= 0`.
   */
  function Value(field: NoiseField, o: Options, d: seq<real>): (r: Result<real, FbmError>)
    ensures r.Failure? <==> o.noise.None? && (|d| < 2 || 4 < |d|)
    ensures r.Success? && Resolve(o).octaves <= 0 ==> r.value == 0.0
  {
    match SelectNoise(o.noise, |d|)
    case None => Failure(NoNoiseForArity(|d|))
    case Some(fn) =>
      var p := Resolve(o);
      Success(OctaveSum(field, fn, p, d, Iterations(p.octaves)))
  }

  /** The sum of the magnitudes of the first `n` octave weights. */
  function AmplitudeSum(p: Params, n: nat): real
  {
    if n == 0 then 0.0 else AmplitudeSum(p, n - 1) + RealFacts.Abs(Amplitude(p, n - 1))
  }

  /** With noise in [-1, 1], one octave contributes at most its weight. */
  lemma OctaveBound(field: NoiseField, fn: NoiseFn, p: Params, d: seq<real>, i: nat)
    requires Fits(fn, |d|) && Bounded(fn)
    ensures -RealFacts.Abs(Amplitude(p, i)) <= Octave(field, fn, p, d, i) <= RealFacts.Abs(Amplitude(p, i))
  {
    var q := ScaleCoords(d, Frequency(p, i));
    SampleBounded(field, fn, q);
    RealFacts.ProductWithin(Sample(field, fn, q), Amplitude(p, i));
  }

  /** Hence the first `n` octaves sum to at most the sum of their weights. */
  lemma {:induction false} OctaveSumBound(field: NoiseField, fn: NoiseFn, p: Params, d: seq<real>, n: nat)
    requires Fits(fn, |d|) && Bounded(fn)
    ensures RealFacts.Abs(OctaveSum(field, fn, p, d, n)) <= AmplitudeSum(p, n)
  {
    if n > 0 {
      OctaveSumBound(field, fn, p, d, n - 1);
      OctaveBound(field, fn, p, d, n - 1);
      RealFacts.AbsSum(OctaveSum(field, fn, p, d, n - 1), Octave(field, fn, p, d, n - 1),
        AmplitudeSum(p, n - 1), RealFacts.Abs(Amplitude(p, n - 1)));
    }
  }

  /** So `|fbm(o, ...d)|` is at most the sum of `|amplitude * gain^i|` over its octaves. */
  lemma ValueBound(field: NoiseField, o: Options, d: seq<real>)
    requires o.noise.Some? ==> forall p :: -1.0 <= o.noise.value(p) <= 1.0
    ensures Value(field, o, d).Success? ==>
      RealFacts.Abs(Value(field, o, d).value) <= AmplitudeSum(Resolve(o), Iterations(Resolve(o).octaves))
  {
    var sel := SelectNoise(o.noise, |d|);
    if sel.Some? {
      OctaveSumBound(field, sel.value, Resolve(o), d, Iterations(Resolve(o).octaves));
    }
  }

  lemma {:induction false} PowNonNegative(x: real, n: nat)
    requires 0.0 <= x
    ensures 0.0 <= Pow(x, n)
  {
    if n > 0 {
      PowNonNegative(x, n - 1);
      RealFacts.NonNegativeProduct(Pow(x, n - 1), x);
    }
  }

  /** With the default gain and amplitude of 0.5, the weights of `n` octaves sum to `1 - 0.5^n`. */
  lemma {:induction false} DefaultAmplitudeSum(n: nat)
    ensures AmplitudeSum(Resolve(NoOptions), n) == 1.0 - Pow(0.5, n)
  {
    if n > 0 {
      DefaultAmplitudeSum(n - 1);
      PowNonNegative(0.5, n - 1);
      var p := Resolve(NoOptions);
      assert p.gain == 0.5 && p.amplitude == 0.5;
      assert Amplitude(p, n - 1) == 0.5 * Pow(0.5, n - 1);
      assert Pow(0.5, n) == Pow(0.5, n - 1) * 0.5;
    }
  }

  /**
   * With default options and 2 to 4 coordinates, `fbm` succeeds and its value lies strictly
   * inside (-1, 1), within `1 - 0.5^8` of zero.
   */
  lemma DefaultValueInRange(field: NoiseField, d: seq<real>)
    requires 2 <= |d| <= 4
    ensures Value(field, NoOptions, d).Success?
    ensures RealFacts.Abs(Value(field, NoOptions, d).value) <= 1.0 - Pow(0.5, 8)
    ensures -1.0 < Value(field, NoOptions, d).value < 1.0
  {
    var weights := AmplitudeSum(Resolve(NoOptions), 8);
    assert Value(field, NoOptions, d).Success? && RealFacts.Abs(Value(field, NoOptions, d).value) <= weights by {
      ValueBound(field, NoOptions, d);
    }
    assert weights == 1.0 - Pow(0.5, 8) && 0.0 < Pow(0.5, 8) by {
      DefaultAmplitudeSum(8);
      PowPositive(0.5, 8);
    }
  }

  lemma {:induction false} PowPositive(x: real, n: nat)
    requires 0.0 < x
    ensures 0.0 < Pow(x, n)
  {
    if n > 0 {
      PowPositive(x, n - 1);
      RealFacts.PositiveProduct(Pow(x, n - 1), x);
    }
  }

  lemma {:induction false} PowOne(n: nat)
    ensures Pow(1.0, n) == 1.0
  {
    if n > 0 { PowOne(n - 1); }
  }

  /** With unit weights each octave of a noise that is constantly 1 contributes exactly 1. */
  lemma UnitOctave(field: NoiseField, fn: NoiseFn, p: Params, d: seq<real>, i: nat)
    requires fn.Custom? && forall q :: fn.f(q) == 1.0
    requires p.gain == 1.0 && p.amplitude == 1.0
    ensures Octave(field, fn, p, d, i) == 1.0
  {
    PowOne(i);
    assert Amplitude(p, i) == 1.0;
  }

  /** ... so `n` such octaves sum to `n`. */
  lemma {:induction false} UnitOctaveSum(field: NoiseField, fn: NoiseFn, p: Params, d: seq<real>, n: nat)
    requires fn.Custom? && forall q :: fn.f(q) == 1.0
    requires p.gain == 1.0 && p.amplitude == 1.0
    ensures OctaveSum(field, fn, p, d, n) == n as real
  {
    if n > 0 {
      UnitOctaveSum(field, fn, p, d, n - 1);
      UnitOctave(field, fn, p, d, n - 1);
    }
  }

  /**
   * The range [-1, 1] holds only for weights whose magnitudes sum to at most 1: with gain and
   * amplitude 1 and a noise `one` that is constantly 1, `fbm` returns the number of octaves.
   */
  lemma UnitGainLeavesRange(field: NoiseField, d: seq<real>, one: seq<real> -> real, k: nat)
    requires forall q :: one(q) == 1.0
    ensures Value(field, Options(Some(k), None, Some(1.0), None, Some(1.0), Some(one)), d) == Success(k as real)
  {
    UnitOctaveSum(field, Custom(one), Resolve(Options(Some(k), None, Some(1.0), None, Some(1.0), Some(one))), d, k);
  }
}
