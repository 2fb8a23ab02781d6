/**
  The Flying Phasor tone generator: a complex sinusoid produced by rotating a
  phasor through repeated complex multiplication, with a first-order Taylor
  renormalisation of its magnitude after every second sample.

  The generator's state is a value; an operation that changes it returns the
  new state. A caller's buffer is a sequence passed in and returned updated.
 */
module FlyingPhasor {
  import opened ComplexNumbers

  /** The whole state of one instance: the per-sample rotation, the running phasor, and the count of samples produced. */
  datatype ToneGenerator = ToneGenerator(rate: Complex, phasor: Complex, sampleCounter: nat)

  /** Construction. Omitted arguments are 0, giving a pure DC tone. A new instance has counted no samples, rotates by `e^(j radiansPerSample)` and starts at `e^(j phi)`: the `(1, 0)` factor changes nothing. */
  function New(trig: Trig, radiansPerSample: real := 0.0, phi: real := 0.0): (r: ToneGenerator)
    ensures r.sampleCounter == 0
    ensures r.rate == Polar(trig, 1.0, radiansPerSample)
    ensures r.phasor == Polar(trig, 1.0, phi)
  {
    MulOneLeft(Polar(trig, 1.0, phi));
    ToneGenerator(Polar(trig, 1.0, radiansPerSample), Mul(One, Polar(trig, 1.0, phi)), 0)
  }

  /** Reset: the previous state is discarded entirely. */
  function Reset(g: ToneGenerator, trig: Trig, radiansPerSample: real := 0.0, phi: real := 0.0): (r: ToneGenerator)
    ensures r == New(trig, radiansPerSample, phi)
    ensures r.sampleCounter == 0
  {
    ToneGenerator(Polar(trig, 1.0, radiansPerSample), Mul(One, Polar(trig, 1.0, phi)), 0)
  }

  /** The first-order Taylor correction `p * (1 - (|p|^2 - 1) / 2)`, a real scalar multiply; on the unit circle it is the identity. */
  function Renormalise(p: Complex): (r: Complex)
    ensures NormSq(p) == 1.0 ==> r == p
  {
    var d := 1.0 - (p.re * p.re + p.im * p.im - 1.0) / 2.0;
    Scale(p, d)
  }

  /** The low bit of a sample count (`sampleCounter & 1`): clear at 0, and flipped by every increment. */
  function LowBit(c: nat): bool
  {
    if c == 0 then false else !LowBit(c - 1)
  }

  /** The low bit is set exactly for odd counts. */
  lemma {:induction false} LowBitIsOdd(c: nat)
    ensures LowBit(c) <==> c % 2 == 1
  {
    if c > 0 {
      LowBitIsOdd(c - 1);
    }
  }

  /** The state after emitting one sample: rotate, then renormalise when the counter before its increment is odd. */
  function Step(g: ToneGenerator): ToneGenerator
  {
    var rotated := Mul(g.phasor, g.rate);
    var phasor := if LowBit(g.sampleCounter) then Renormalise(rotated) else rotated;
    ToneGenerator(g.rate, phasor, g.sampleCounter + 1)
  }

  /** One step keeps the rate, counts one sample, and rotates the phasor; the rotated phasor is renormalised exactly when the count before the step is odd. */
  lemma StepCases(g: ToneGenerator)
    ensures Step(g).rate == g.rate
    ensures Step(g).sampleCounter == g.sampleCounter + 1
    ensures g.sampleCounter % 2 == 0 ==> Step(g).phasor == Mul(g.phasor, g.rate)
    ensures g.sampleCounter % 2 == 1 ==> Step(g).phasor == Renormalise(Mul(g.phasor, g.rate))
  {
    LowBitIsOdd(g.sampleCounter);
  }

  /** The state after `n` samples. */
  function Advance(g: ToneGenerator, n: nat): ToneGenerator
  {
    if n == 0 then g else Step(Advance(g, n - 1))
  }

  /** The next `n` samples: sample `k` is the phasor held after `k` steps. */
  function Samples(g: ToneGenerator, n: nat): (r: seq<Complex>)
    ensures |r| == n
  {
    seq(n, k requires 0 <= k < n => Advance(g, k).phasor)
  }

  /** Producing samples never changes the rate and counts every sample. */
  lemma {:induction false} AdvanceFrame(g: ToneGenerator, n: nat)
    ensures Advance(g, n).rate == g.rate
    ensures Advance(g, n).sampleCounter == g.sampleCounter + n
  {
    if n > 0 {
      AdvanceFrame(g, n - 1);
    }
  }

  /** `getSamples`: write the next `numSamples` samples to the front of the buffer and continue from there. */
  method GetSamples(g: ToneGenerator, numSamples: nat, buf: seq<Complex>) returns (out: seq<Complex>, next: ToneGenerator)
    requires numSamples <= |buf|
    ensures |out| == |buf|
    ensures out[..numSamples] == Samples(g, numSamples)
    ensures out[numSamples..] == buf[numSamples..]
    ensures numSamples > 0 ==> out[0] == g.phasor
    ensures next == Advance(g, numSamples)
    ensures next.rate == g.rate
    ensures next.sampleCounter == g.sampleCounter + numSamples
  {
    var rate, phasor, sampleCounter := g.rate, g.phasor, g.sampleCounter;
    out := buf;
    var i := 0;
    while i != numSamples
      invariant i <= numSamples
      invariant ToneGenerator(rate, phasor, sampleCounter) == Advance(g, i)
      invariant |out| == |buf|
      invariant forall k :: 0 <= k < i ==> out[k] == Advance(g, k).phasor
      invariant out[i..] == buf[i..]
    {
      out := out[i := phasor];
      phasor := Mul(phasor, rate);
      if LowBit(sampleCounter) {
        phasor := Renormalise(phasor);
      }
      sampleCounter := sampleCounter + 1;
      i := i + 1;
    }
    next := ToneGenerator(rate, phasor, sampleCounter);
    AdvanceFrame(g, numSamples);
  }
}
