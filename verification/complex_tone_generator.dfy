/**
  The older pointer-to-implementation tone generator: `ComplexToneGenerator`
  forwards to a private `Imple` that runs the same rotate-and-renormalise
  recursion as the Flying Phasor generator, with a rate fixed at construction
  and no reset.
 */
module ComplexToneGen {
  import opened ComplexNumbers
  import FlyingPhasor
  import FlyingPhasorProperties

  /** The implementation object's state; `Imple::rate` is declared const. */
  datatype Imple = Imple(rate: Complex, phasor: Complex, sampleCounter: nat)

  /** The public object, which only holds its implementation. */
  datatype ComplexToneGenerator = ComplexToneGenerator(pImple: Imple)

  /** A new implementation has counted nothing, rotates by `e^(j r)` and starts at `e^(j phi)`. */
  function NewImple(trig: Trig, theRadiansPerSample: real, phi: real): (r: Imple)
    ensures r.sampleCounter == 0
    ensures r.rate == Polar(trig, 1.0, theRadiansPerSample)
    ensures r.phasor == Polar(trig, 1.0, phi)
  {
    MulOneLeft(Polar(trig, 1.0, phi));
    Imple(Polar(trig, 1.0, theRadiansPerSample), Mul(One, Polar(trig, 1.0, phi)), 0)
  }

  /** Construction allocates the implementation with the same arguments, so it starts in the state a Flying Phasor generator constructed with those arguments starts in. */
  function New(trig: Trig, radiansPerSample: real, phi: real): (r: ComplexToneGenerator)
    ensures r.pImple.sampleCounter == 0
    ensures AsFlyingPhasor(r.pImple) == FlyingPhasor.New(trig, radiansPerSample, phi)
  {
    ComplexToneGenerator(NewImple(trig, radiansPerSample, phi))
  }

  /** One sample's worth of the implementation's loop body: rotate, then renormalise when the counter before its increment is odd. */
  function ImpleStep(imple: Imple): Imple
  {
    var rotated := Mul(imple.phasor, imple.rate);
    var phasor := if FlyingPhasor.LowBit(imple.sampleCounter) then FlyingPhasor.Renormalise(rotated) else rotated;
    Imple(imple.rate, phasor, imple.sampleCounter + 1)
  }

  function ImpleAdvance(imple: Imple, n: nat): Imple
  {
    if n == 0 then imple else ImpleStep(ImpleAdvance(imple, n - 1))
  }

  /** The next `n` samples of the implementation: sample `k` is the phasor held after `k` steps. */
  function ImpleSamples(imple: Imple, n: nat): seq<Complex>
  {
    seq(n, k requires 0 <= k < n => ImpleAdvance(imple, k).phasor)
  }

  /** Producing samples never changes the const rate and counts every sample. */
  lemma {:induction false} ImpleFrame(imple: Imple, n: nat)
    ensures ImpleAdvance(imple, n).rate == imple.rate
    ensures ImpleAdvance(imple, n).sampleCounter == imple.sampleCounter + n
  {
    if n > 0 {
      ImpleFrame(imple, n - 1);
    }
  }

  /** `Imple::getSamples`: write the next `numSamples` samples to the front of the buffer and continue from there. */
  method ImpleGetSamples(imple: Imple, numSamples: nat, buf: seq<Complex>) returns (out: seq<Complex>, next: Imple)
    requires numSamples <= |buf|
    ensures |out| == |buf|
    ensures out[..numSamples] == ImpleSamples(imple, numSamples)
    ensures out[numSamples..] == buf[numSamples..]
    ensures numSamples > 0 ==> out[0] == imple.phasor
    ensures next == ImpleAdvance(imple, numSamples)
    ensures next.rate == imple.rate
    ensures next.sampleCounter == imple.sampleCounter + numSamples
  {
    var phasor, sampleCounter := imple.phasor, imple.sampleCounter;
    out := buf;
    var i := 0;
    while i != numSamples
      invariant i <= numSamples
      invariant Imple(imple.rate, phasor, sampleCounter) == ImpleAdvance(imple, i)
      invariant |out| == |buf|
      invariant forall k :: 0 <= k < i ==> out[k] == ImpleAdvance(imple, k).phasor
      invariant out[i..] == buf[i..]
    {
      out := out[i := phasor];
      phasor := Mul(phasor, imple.rate);
      if FlyingPhasor.LowBit(sampleCounter) {
        phasor := FlyingPhasor.Renormalise(phasor);
      }
      sampleCounter := sampleCounter + 1;
      i := i + 1;
    }
    next := Imple(imple.rate, phasor, sampleCounter);
    ImpleFrame(imple, numSamples);
  }

  /** The public `getSamples` forwards its arguments unchanged to the implementation. */
  method GetSamples(gen: ComplexToneGenerator, numSamples: nat, buf: seq<Complex>) returns (out: seq<Complex>, next: ComplexToneGenerator)
    requires numSamples <= |buf|
    ensures |out| == |buf|
    ensures out[..numSamples] == ImpleSamples(gen.pImple, numSamples)
    ensures out[numSamples..] == buf[numSamples..]
    ensures next.pImple == ImpleAdvance(gen.pImple, numSamples)
    ensures next.pImple.rate == gen.pImple.rate
  {
    var imple;
    out, imple := ImpleGetSamples(gen.pImple, numSamples, buf);
    next := ComplexToneGenerator(imple);
  }

  /** The Flying Phasor state an implementation object corresponds to, field for field. */
  function AsFlyingPhasor(imple: Imple): FlyingPhasor.ToneGenerator
  {
    FlyingPhasor.ToneGenerator(imple.rate, imple.phasor, imple.sampleCounter)
  }

  /** One step of the implementation keeps its const rate and is one step of the Flying Phasor generator. */
  lemma ImpleStepCorresponds(imple: Imple)
    ensures ImpleStep(imple).rate == imple.rate
    ensures AsFlyingPhasor(ImpleStep(imple)) == FlyingPhasor.Step(AsFlyingPhasor(imple))
  {
  }

  /** `n` steps of the implementation are `n` steps of the Flying Phasor generator. */
  lemma {:induction false} ImpleRefinesFlyingPhasor(imple: Imple, n: nat)
    ensures AsFlyingPhasor(ImpleAdvance(imple, n)) == FlyingPhasor.Advance(AsFlyingPhasor(imple), n)
  {
    if n > 0 {
      ImpleRefinesFlyingPhasor(imple, n - 1);
      ImpleStepCorresponds(ImpleAdvance(imple, n - 1));
    }
  }

  /** Sample `k` of the implementation is sample `k` of the Flying Phasor generator. */
  lemma SampleCorresponds(imple: Imple, n: nat, k: nat)
    requires k < n
    ensures ImpleSamples(imple, n)[k] == FlyingPhasor.Samples(AsFlyingPhasor(imple), n)[k]
  {
    ImpleRefinesFlyingPhasor(imple, k);
    FlyingPhasorProperties.SampleIsPhasor(AsFlyingPhasor(imple), n, k);
  }

  /** A request to the implementation yields exactly the samples the Flying Phasor generator would. */
  lemma SamplesCorrespond(imple: Imple, n: nat)
    ensures ImpleSamples(imple, n) == FlyingPhasor.Samples(AsFlyingPhasor(imple), n)
  {
    forall k | 0 <= k < n
      ensures ImpleSamples(imple, n)[k] == FlyingPhasor.Samples(AsFlyingPhasor(imple), n)[k]
    {
      SampleCorresponds(imple, n, k);
    }
  }

  /** The samples returned by a series of requests of sizes `ns` to the implementation. */
  function ImpleServe(imple: Imple, ns: seq<nat>): seq<seq<Complex>>
  {
    if |ns| == 0 then [] else
      var front := ns[..|ns| - 1];
      ImpleServe(imple, front) + [ImpleSamples(ImpleAdvance(imple, FlyingPhasorProperties.Total(front)), ns[|ns| - 1])]
  }

  /** One request's block is the same from both generators when they start in corresponding states. */
  lemma BlockCorresponds(imple: Imple, skipped: nat, n: nat)
    ensures ImpleSamples(ImpleAdvance(imple, skipped), n)
      == FlyingPhasor.Samples(FlyingPhasor.Advance(AsFlyingPhasor(imple), skipped), n)
  {
    ImpleRefinesFlyingPhasor(imple, skipped);
    SamplesCorrespond(ImpleAdvance(imple, skipped), n);
  }

  /** For corresponding states and equal request sizes, the two generators return identical blocks, request after request. */
  lemma {:induction false} SameOutputsAsFlyingPhasor(imple: Imple, ns: seq<nat>)
    ensures ImpleServe(imple, ns) == FlyingPhasorProperties.Serve(AsFlyingPhasor(imple), ns)
  {
    if |ns| > 0 {
      var front := ns[..|ns| - 1];
      SameOutputsAsFlyingPhasor(imple, front);
      BlockCorresponds(imple, FlyingPhasorProperties.Total(front), ns[|ns| - 1]);
    }
  }

  /** Two generators constructed with equal arguments return identical blocks for equal call sequences. */
  lemma SameConstructionSameOutputs(trig: Trig, radiansPerSample: real, phi: real, ns: seq<nat>)
    ensures ImpleServe(New(trig, radiansPerSample, phi).pImple, ns)
      == FlyingPhasorProperties.Serve(FlyingPhasor.New(trig, radiansPerSample, phi), ns)
  {
    SameOutputsAsFlyingPhasor(New(trig, radiansPerSample, phi).pImple, ns);
  }
}
