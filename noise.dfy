/** Layered noise: NoiseDataSO, SumNoise and RangeMap. */
module Noise {
  /** Mathf.PerlinNoise, taken as an arbitrary function into [0, 1]. */
  type Perlin = f: (real, real) -> real | forall u, v :: 0.0 <= f(u, v) <= 1.0
    witness (u: real, v: real) => 0.5

  /** The settings of one noise channel (NoiseDataSO). */
  datatype NoiseData = NoiseData(
    offsetX: real, offsetY: real,
    startFrequency: real, persistance: real, frequencyModifier: real,
    octaves: int,
    noiseRangeMin: real, noiseRangeMax: real)
  {
    /** Settings under which SumNoise divides by a positive amplitude sum. */
    predicate Valid() {
      octaves >= 1 && persistance >= 0.0
    }
  }

  /** The field initialisers of NoiseDataSO. */
  const DefaultNoiseData := NoiseData(0.0, 0.0, 0.02, 0.5, 2.0, 4, 10.0, 30.0)

  /** One octave's contribution: the primitive sampled at the scaled point, times the amplitude. */
  function Octave(perlin: Perlin, x: int, y: int, amplitude: real, frequency: real): real {
    amplitude * perlin(x as real * frequency, y as real * frequency)
  }

  /** Weighted samples of the `k` octaves that start at `amplitude` and `frequency`. */
  function OctaveSum(perlin: Perlin, x: int, y: int, amplitude: real, frequency: real,
                     persistance: real, modifier: real, k: nat): real
    decreases k
  {
    if k == 0 then 0.0
    else
      Octave(perlin, x, y, amplitude, frequency)
      + OctaveSum(perlin, x, y, amplitude * persistance, frequency * modifier, persistance, modifier, k - 1)
  }

  /** The amplitudes of those same `k` octaves, added up. */
  function AmplitudeSum(amplitude: real, persistance: real, k: nat): real
    decreases k
  {
    if k == 0 then 0.0 else amplitude + AmplitudeSum(amplitude * persistance, persistance, k - 1)
  }

  lemma OctaveSumUnfold(perlin: Perlin, x: int, y: int, amplitude: real, frequency: real,
                         persistance: real, modifier: real, k: nat)
    requires k >= 1
    ensures OctaveSum(perlin, x, y, amplitude, frequency, persistance, modifier, k)
         == Octave(perlin, x, y, amplitude, frequency)
            + OctaveSum(perlin, x, y, amplitude * persistance, frequency * modifier, persistance, modifier, k - 1)
    ensures AmplitudeSum(amplitude, persistance, k) == amplitude + AmplitudeSum(amplitude * persistance, persistance, k - 1)
  {
  }

  lemma NonNegativeProduct(a: real, b: real)
    requires a >= 0.0 && b >= 0.0
    ensures a * b >= 0.0
  {
  }

  lemma QuotientBounds(n: real, d: real)
    requires 0.0 <= n <= d && d > 0.0
    ensures 0.0 <= n / d <= 1.0
  {
    var q := n / d;
    assert q * d == n;
  }

  lemma ScaleBounds(a: real, v: real)
    requires a >= 0.0 && 0.0 <= v <= 1.0
    ensures 0.0 <= a * v <= a
  {
  }

  lemma OctaveBounds(perlin: Perlin, x: int, y: int, amplitude: real, frequency: real)
    requires amplitude >= 0.0
    ensures 0.0 <= Octave(perlin, x, y, amplitude, frequency) <= amplitude
  {
    ScaleBounds(amplitude, perlin(x as real * frequency, y as real * frequency));
  }

  /** Each octave contributes between 0 and its amplitude, so the weighted sum
      never exceeds the sum of the weights. */
  lemma {:induction false} OctaveSumBounds(perlin: Perlin, x: int, y: int, amplitude: real, frequency: real,
                                           persistance: real, modifier: real, k: nat)
    requires amplitude >= 0.0 && persistance >= 0.0
    ensures 0.0 <= OctaveSum(perlin, x, y, amplitude, frequency, persistance, modifier, k)
                <= AmplitudeSum(amplitude, persistance, k)
    ensures k >= 1 ==> AmplitudeSum(amplitude, persistance, k) >= amplitude
    decreases k
  {
    if k > 0 {
      OctaveSumUnfold(perlin, x, y, amplitude, frequency, persistance, modifier, k);
      OctaveBounds(perlin, x, y, amplitude, frequency);
      NonNegativeProduct(amplitude, persistance);
      OctaveSumBounds(perlin, x, y, amplitude * persistance, frequency * modifier, persistance, modifier, k - 1);
    }
  }

  /** The value SumNoise returns: the octave sum normalised by the amplitude sum,
      which keeps it inside the range of the noise primitive. */
  function Sample(perlin: Perlin, x: int, y: int, nd: NoiseData): (r: real)
    requires nd.Valid()
    ensures 0.0 <= r <= 1.0
  {
    OctaveSumBounds(perlin, x, y, 1.0, nd.startFrequency, nd.persistance, nd.frequencyModifier, nd.octaves);
    var total := OctaveSum(perlin, x, y, 1.0, nd.startFrequency, nd.persistance, nd.frequencyModifier, nd.octaves);
    var weights := AmplitudeSum(1.0, nd.persistance, nd.octaves);
    QuotientBounds(total, weights);
    total / weights
  }

  lemma SampleIsQuotient(perlin: Perlin, x: int, y: int, nd: NoiseData, noiseSum: real, amplitudeSum: real)
    requires nd.Valid()
    requires noiseSum == OctaveSum(perlin, x, y, 1.0, nd.startFrequency, nd.persistance, nd.frequencyModifier, nd.octaves)
    requires amplitudeSum == AmplitudeSum(1.0, nd.persistance, nd.octaves)
    ensures amplitudeSum > 0.0 && noiseSum / amplitudeSum == Sample(perlin, x, y, nd)
  {
    OctaveSumBounds(perlin, x, y, 1.0, nd.startFrequency, nd.persistance, nd.frequencyModifier, nd.octaves);
  }

  /** SumNoise: accumulates amplitude, frequency, noise and amplitude sums octave by octave. */
  method SumNoise(perlin: Perlin, x: int, y: int, nd: NoiseData) returns (r: real)
    requires nd.Valid()
    ensures r == Sample(perlin, x, y, nd)
    ensures 0.0 <= r <= 1.0
  {
    var persistance, modifier, octaves := nd.persistance, nd.frequencyModifier, nd.octaves;
    var amplitude := 1.0;
    var frequency := nd.startFrequency;
    var noiseSum := 0.0;
    var amplitudeSum := 0.0;
    ghost var total := OctaveSum(perlin, x, y, 1.0, nd.startFrequency, persistance, modifier, octaves);
    ghost var weights := AmplitudeSum(1.0, persistance, octaves);
    for i := 0 to octaves
      invariant noiseSum + OctaveSum(perlin, x, y, amplitude, frequency, persistance, modifier, octaves - i) == total
      invariant amplitudeSum + AmplitudeSum(amplitude, persistance, octaves - i) == weights
    {
      OctaveSumUnfold(perlin, x, y, amplitude, frequency, persistance, modifier, octaves - i);
      assert Octave(perlin, x, y, amplitude, frequency) == amplitude * perlin(x as real * frequency, y as real * frequency);
      noiseSum := noiseSum + amplitude * perlin(x as real * frequency, y as real * frequency);
      amplitudeSum := amplitudeSum + amplitude;
      amplitude := amplitude * persistance;
      frequency := frequency * modifier;
    }
    SampleIsQuotient(perlin, x, y, nd, noiseSum, amplitudeSum);
    r := noiseSum / amplitudeSum;
  }

  /** RangeMap: the affine map that sends [inMin, inMax] onto [outMin, outMax]. */
  function RangeMap(inputValue: real, inMin: real, inMax: real, outMin: real, outMax: real): (r: real)
    requires inMax != inMin
    ensures inputValue == inMin ==> r == outMin
    ensures inputValue == inMax ==> r == outMax
    ensures inMin <= inputValue <= inMax && outMin <= outMax ==> outMin <= r <= outMax
  {
    RangeMapBounds(inputValue - inMin, inMax - inMin, outMax - outMin);
    outMin + (inputValue - inMin) * (outMax - outMin) / (inMax - inMin)
  }

  /** The offset RangeMap adds to `outMin`, for an input offset `d` within a span `w`. */
  lemma RangeMapBounds(d: real, w: real, span: real)
    requires w != 0.0
    ensures d == 0.0 ==> d * span / w == 0.0
    ensures d == w ==> d * span / w == span
    ensures 0.0 <= d <= w && span >= 0.0 ==> 0.0 <= d * span / w <= span
  {
    assert d * span / w == (d / w) * span;
    if d == w {
      assert d / w == 1.0;
    }
    if 0.0 <= d <= w && span >= 0.0 {
      QuotientBounds(d, w);
      ScaleBounds(span, d / w);
    }
  }
}
