/**
  The sample-delivery interface of the Flying Phasor tone generator that its
  test programs exercise: single samples, peeking, the sample count, and
  scaled or accumulating buffer fills. Every operation is defined through the
  same recursion `Step` as `getSamples`.
 */
module FlyingPhasorDelivery {
  import opened ComplexNumbers
  import opened FlyingPhasor
  import FlyingPhasorProperties

  /** The gain applied to each generated sample before it reaches the buffer. */
  datatype Gain = Unity | Scalar(k: real) | PerSample(ks: seq<real>)

  /** A per-sample gain must supply a factor for every sample requested. */
  predicate Covers(gain: Gain, n: nat)
  {
    gain.PerSample? ==> n <= |gain.ks|
  }

  /** Sample `z`, the `i`-th of its request, after the gain. */
  function Gained(gain: Gain, i: nat, z: Complex): Complex
    requires Covers(gain, i + 1)
  {
    match gain
    case Unity => z
    case Scalar(k) => Scale(z, k)
    case PerSample(ks) => Scale(z, ks[i])
  }

  /** What lands in one buffer slot: the sample itself, or the sample added to the slot's prior contents. */
  function Combine(prior: Complex, s: Complex, accumulate: bool): Complex
  {
    if accumulate then Add(prior, s) else s
  }

  /** The buffer after `samples` are delivered to its front: gained, then either stored or added to what was there; the rest is untouched. */
  function Delivered(buf: seq<Complex>, samples: seq<Complex>, gain: Gain, accumulate: bool): seq<Complex>
    requires |samples| <= |buf| && Covers(gain, |samples|)
  {
    seq(|buf|, i requires 0 <= i < |buf| =>
      if i < |samples| then Combine(buf[i], Gained(gain, i, samples[i]), accumulate) else buf[i])
  }

  /** The one loop behind every buffer fill of this interface. */
  method Deliver(g: ToneGenerator, buf: seq<Complex>, numSamples: nat, gain: Gain, accumulate: bool)
    returns (out: seq<Complex>, next: ToneGenerator)
    requires numSamples <= |buf| && Covers(gain, numSamples)
    ensures out == Delivered(buf, Samples(g, numSamples), gain, accumulate)
    ensures next == Advance(g, numSamples)
  {
    var state := g;
    out := buf;
    var i := 0;
    while i != numSamples
      invariant i <= numSamples
      invariant state == Advance(g, i)
      invariant |out| == |buf|
      invariant forall k :: 0 <= k < i ==> out[k] == Combine(buf[k], Gained(gain, k, Advance(g, k).phasor), accumulate)
      invariant out[i..] == buf[i..]
    {
      assert out[i] == out[i..][0] == buf[i];
      out := out[i := Combine(out[i], Gained(gain, i, state.phasor), accumulate)];
      state := Step(state);
      i := i + 1;
    }
    next := state;
    DeliveredFromLoop(g, buf, numSamples, gain, accumulate, out);
  }

  /** The buffer the loop leaves is the reference `Delivered` one. */
  lemma DeliveredFromLoop(g: ToneGenerator, buf: seq<Complex>, numSamples: nat, gain: Gain, accumulate: bool, out: seq<Complex>)
    requires numSamples <= |buf| && Covers(gain, numSamples)
    requires |out| == |buf|
    requires forall k :: 0 <= k < numSamples ==> out[k] == Combine(buf[k], Gained(gain, k, Advance(g, k).phasor), accumulate)
    requires out[numSamples..] == buf[numSamples..]
    ensures out == Delivered(buf, Samples(g, numSamples), gain, accumulate)
  {
    var samples := Samples(g, numSamples);
    var expected := Delivered(buf, samples, gain, accumulate);
    forall k | 0 <= k < |buf|
      ensures out[k] == expected[k]
    {
      if k < numSamples {
        assert samples[k] == Advance(g, k).phasor;
      } else {
        assert out[k] == out[numSamples..][k - numSamples];
      }
    }
  }

  /** Slot by slot: the first `|samples|` slots combine prior contents with the gained sample, the rest keep theirs. */
  lemma DeliveredShape(buf: seq<Complex>, samples: seq<Complex>, gain: Gain, accumulate: bool)
    requires |samples| <= |buf| && Covers(gain, |samples|)
    ensures |Delivered(buf, samples, gain, accumulate)| == |buf|
    ensures forall i :: 0 <= i < |samples| ==>
      Delivered(buf, samples, gain, accumulate)[i] == Combine(buf[i], Gained(gain, i, samples[i]), accumulate)
    ensures Delivered(buf, samples, gain, accumulate)[|samples|..] == buf[|samples|..]
  {
  }

  /** `accumSamples`: add the next `numSamples` samples into the buffer. */
  method AccumSamples(g: ToneGenerator, buf: seq<Complex>, numSamples: nat) returns (out: seq<Complex>, next: ToneGenerator)
    requires numSamples <= |buf|
    ensures |out| == |buf|
    ensures forall i :: 0 <= i < numSamples ==> out[i] == Add(buf[i], Samples(g, numSamples)[i])
    ensures out[numSamples..] == buf[numSamples..]
    ensures next == Advance(g, numSamples)
  {
    out, next := Deliver(g, buf, numSamples, Unity, true);
    DeliveredShape(buf, Samples(g, numSamples), Unity, true);
  }

  /** `getSamplesScaled` with one scalar: the next samples, each multiplied by `k`. */
  method GetSamplesScaled(g: ToneGenerator, buf: seq<Complex>, numSamples: nat, k: real) returns (out: seq<Complex>, next: ToneGenerator)
    requires numSamples <= |buf|
    ensures |out| == |buf|
    ensures forall i :: 0 <= i < numSamples ==> out[i] == Scale(Samples(g, numSamples)[i], k)
    ensures out[numSamples..] == buf[numSamples..]
    ensures next == Advance(g, numSamples)
  {
    out, next := Deliver(g, buf, numSamples, Scalar(k), false);
    DeliveredShape(buf, Samples(g, numSamples), Scalar(k), false);
  }

  /** `getSamplesScaled` with a vector: sample `i` multiplied by `ks[i]`. */
  method GetSamplesScaledByVector(g: ToneGenerator, buf: seq<Complex>, numSamples: nat, ks: seq<real>)
    returns (out: seq<Complex>, next: ToneGenerator)
    requires numSamples <= |buf| && numSamples <= |ks|
    ensures |out| == |buf|
    ensures forall i :: 0 <= i < numSamples ==> out[i] == Scale(Samples(g, numSamples)[i], ks[i])
    ensures out[numSamples..] == buf[numSamples..]
    ensures next == Advance(g, numSamples)
  {
    out, next := Deliver(g, buf, numSamples, PerSample(ks), false);
    DeliveredShape(buf, Samples(g, numSamples), PerSample(ks), false);
  }

  /** `accumSamplesScaled` with one scalar: prior contents plus the scaled samples. */
  method AccumSamplesScaled(g: ToneGenerator, buf: seq<Complex>, numSamples: nat, k: real) returns (out: seq<Complex>, next: ToneGenerator)
    requires numSamples <= |buf|
    ensures |out| == |buf|
    ensures forall i :: 0 <= i < numSamples ==> out[i] == Add(buf[i], Scale(Samples(g, numSamples)[i], k))
    ensures out[numSamples..] == buf[numSamples..]
    ensures next == Advance(g, numSamples)
  {
    out, next := Deliver(g, buf, numSamples, Scalar(k), true);
    DeliveredShape(buf, Samples(g, numSamples), Scalar(k), true);
  }

  /** `accumSamplesScaled` with a vector: prior contents plus sample `i` times `ks[i]`. */
  method AccumSamplesScaledByVector(g: ToneGenerator, buf: seq<Complex>, numSamples: nat, ks: seq<real>)
    returns (out: seq<Complex>, next: ToneGenerator)
    requires numSamples <= |buf| && numSamples <= |ks|
    ensures |out| == |buf|
    ensures forall i :: 0 <= i < numSamples ==> out[i] == Add(buf[i], Scale(Samples(g, numSamples)[i], ks[i]))
    ensures out[numSamples..] == buf[numSamples..]
    ensures next == Advance(g, numSamples)
  {
    out, next := Deliver(g, buf, numSamples, PerSample(ks), true);
    DeliveredShape(buf, Samples(g, numSamples), PerSample(ks), true);
  }

  /** Accumulating into a zeroed buffer stores exactly what `getSamples` would. */
  lemma AccumIntoZerosIsGet(buf: seq<Complex>, samples: seq<Complex>)
    requires |samples| <= |buf|
    requires forall i :: 0 <= i < |samples| ==> buf[i] == Zero
    ensures Delivered(buf, samples, Unity, true) == Delivered(buf, samples, Unity, false)
    ensures Delivered(buf, samples, Unity, true)[..|samples|] == samples
  {
    var acc := Delivered(buf, samples, Unity, true);
    forall i | 0 <= i < |samples|
      ensures acc[i] == samples[i]
    {
      AddZeroLeft(samples[i]);
    }
  }

  /** Accumulating scaled samples is the same as scaling them into a scratch buffer and adding that in, element by element. */
  lemma AccumScaledIsGetScaledPlusPrior(buf: seq<Complex>, scratch: seq<Complex>, samples: seq<Complex>, gain: Gain)
    requires |samples| <= |buf| && |samples| <= |scratch| && Covers(gain, |samples|)
    ensures forall i :: 0 <= i < |samples| ==>
      Delivered(buf, samples, gain, true)[i] == Add(buf[i], Delivered(scratch, samples, gain, false)[i])
  {
  }

  /** `getSample`: the next sample and the state after it. */
  function GetSample(g: ToneGenerator): (Complex, ToneGenerator)
  {
    (g.phasor, Step(g))
  }

  /** A single `getSample` returns what a request for one sample would, and leaves the same state. */
  lemma GetSampleIsRequestForOne(g: ToneGenerator)
    ensures [GetSample(g).0] == Samples(g, 1)
    ensures GetSample(g).1 == Advance(g, 1)
  {
    FlyingPhasorProperties.OneStep(g);
  }

  /** `peekNextSample`: the sample the next request will start with; the state is not touched. */
  function PeekNextSample(g: ToneGenerator): (s: Complex)
    ensures s == GetSample(g).0
    ensures forall n: nat :: n > 0 ==> s == Samples(g, n)[0]
  {
    g.phasor
  }

  /** `getSampleCount`: samples produced since construction or the last reset. */
  function GetSampleCount(g: ToneGenerator): nat
  {
    g.sampleCounter
  }

  /** The count reads 0 after construction or reset and grows by exactly the number of samples fetched. */
  lemma SampleCountLaw(g: ToneGenerator, trig: Trig, radiansPerSample: real, phi: real, n: nat)
    ensures GetSampleCount(New(trig, radiansPerSample, phi)) == 0
    ensures GetSampleCount(Reset(g, trig, radiansPerSample, phi)) == 0
    ensures GetSampleCount(Advance(g, n)) == GetSampleCount(g) + n
  {
    AdvanceFrame(g, n);
  }

  /** The samples and final state of `n` consecutive `getSample` calls. */
  function GetSampleRepeatedly(g: ToneGenerator, n: nat): (seq<Complex>, ToneGenerator)
    decreases n
  {
    if n == 0 then ([], g) else
      var first := GetSample(g);
      var rest := GetSampleRepeatedly(first.1, n - 1);
      ([first.0] + rest.0, rest.1)
  }

  /** Fetching samples one at a time reproduces the batch exactly and leaves the same state. */
  lemma SingleSamplesMatchBatch(g: ToneGenerator, n: nat)
    ensures GetSampleRepeatedly(g, n).0 == Samples(g, n)
    ensures GetSampleRepeatedly(g, n).1 == Advance(g, n)
  {
    SingleSamplesSameState(g, n);
    SingleSamplesSameOutput(g, n);
  }

  /** After a reset to the parameters an instance was built with, single fetches replay that instance's first request sample for sample. */
  lemma ResetReplaysSingleSamples(g: ToneGenerator, trig: Trig, radiansPerSample: real, phi: real, n: nat)
    ensures GetSampleRepeatedly(Reset(g, trig, radiansPerSample, phi), n).0 == Samples(New(trig, radiansPerSample, phi), n)
    ensures GetSampleCount(GetSampleRepeatedly(Reset(g, trig, radiansPerSample, phi), n).1) == n
  {
    SingleSamplesMatchBatch(New(trig, radiansPerSample, phi), n);
    AdvanceFrame(New(trig, radiansPerSample, phi), n);
  }

  /** `n` single fetches leave the state a request for `n` samples would. */
  lemma {:induction false} SingleSamplesSameState(g: ToneGenerator, n: nat)
    ensures GetSampleRepeatedly(g, n).1 == Advance(g, n)
    decreases n
  {
    if n > 0 {
      SingleSamplesSameState(Step(g), n - 1);
      FlyingPhasorProperties.AdvanceShift(g, n);
      RepeatedlyUnfold(g, n);
    } else {
      NothingRequested(g);
    }
  }

  /** `n` single fetches return the samples of a request for `n`. */
  lemma {:induction false} SingleSamplesSameOutput(g: ToneGenerator, n: nat)
    ensures GetSampleRepeatedly(g, n).0 == Samples(g, n)
    decreases n
  {
    if n > 0 {
      SingleSamplesSameOutput(Step(g), n - 1);
      assert GetSampleRepeatedly(Step(g), n - 1).0 == Samples(Step(g), n - 1);
      FlyingPhasorProperties.FirstThenRest(g, n);
      RepeatedlyUnfold(g, n);
      SameHead(GetSampleRepeatedly(g, n).0, GetSampleRepeatedly(Step(g), n - 1).0,
        Samples(Step(g), n - 1), Samples(g, n), g.phasor);
    } else {
      NothingRequested(g);
    }
  }

  /** Two sequences that put the same head on equal tails are equal. */
  lemma SameHead(a: seq<Complex>, tailA: seq<Complex>, tailB: seq<Complex>, b: seq<Complex>, head: Complex)
    requires a == [head] + tailA && tailA == tailB && b == [head] + tailB
    ensures a == b
  {
  }

  /** A request for no samples yields none and leaves the state as it was. */
  lemma NothingRequested(g: ToneGenerator)
    ensures GetSampleRepeatedly(g, 0) == ([], g)
    ensures Samples(g, 0) == [] && Advance(g, 0) == g
  {
  }

  /** One `getSample` call followed by the remaining ones. */
  lemma RepeatedlyUnfold(g: ToneGenerator, n: nat)
    requires n > 0
    ensures GetSampleRepeatedly(g, n).0 == [g.phasor] + GetSampleRepeatedly(Step(g), n - 1).0
    ensures GetSampleRepeatedly(g, n).1 == GetSampleRepeatedly(Step(g), n - 1).1
  {
  }
}
