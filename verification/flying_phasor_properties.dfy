/**
  Properties of the Flying Phasor recursion: how requests compose, which
  samples are followed by renormalisation, and what the recursion computes in
  exact arithmetic.
 */
module FlyingPhasorProperties {
  import opened ComplexNumbers
  import opened FlyingPhasor

  /** Stepping `a` times and then `b` times is stepping `a + b` times. */
  lemma {:induction false} AdvanceAdd(g: ToneGenerator, a: nat, b: nat)
    ensures Advance(g, a + b) == Advance(Advance(g, a), b)
  {
    if b > 0 {
      AdvanceAdd(g, a, b - 1);
    }
  }

  /** The samples after the first `a` are those of the state `a` steps on. */
  lemma SamplesSuffix(g: ToneGenerator, a: nat, b: nat)
    ensures Samples(g, a + b)[a..] == Samples(Advance(g, a), b)
  {
    var whole, back := Samples(g, a + b), Samples(Advance(g, a), b);
    assert |whole[a..]| == |back|;
    forall j | 0 <= j < b
      ensures whole[a..][j] == back[j]
    {
      AdvanceAdd(g, a, j);
      assert whole[a..][j] == whole[a + j] == Advance(g, a + j).phasor;
      assert back[j] == Advance(Advance(g, a), j).phasor;
    }
  }

  /** One request for `a + b` samples yields the same samples and the same final state as a request for `a` followed by one for `b`. */
  lemma SplitRequest(g: ToneGenerator, a: nat, b: nat)
    ensures Samples(g, a + b) == Samples(g, a) + Samples(Advance(g, a), b)
    ensures Advance(g, a + b) == Advance(Advance(g, a), b)
  {
    AdvanceAdd(g, a, b);
    SamplesSuffix(g, a, b);
    var whole := Samples(g, a + b);
    assert whole[..a] == Samples(g, a);
    assert whole == whole[..a] + whole[a..];
  }

  /** A request for `n > 0` samples is the current phasor followed by `n - 1` samples from the next state. */
  lemma FirstThenRest(g: ToneGenerator, n: nat)
    requires n > 0
    ensures Samples(g, n) == [g.phasor] + Samples(Step(g), n - 1)
    ensures Advance(g, n) == Advance(Step(g), n - 1)
  {
    AdvanceShift(g, n);
    var whole, rest := Samples(g, n), Samples(Step(g), n - 1);
    forall j | 1 <= j < n
      ensures whole[j] == rest[j - 1]
    {
      ShiftedSample(g, n, j);
    }
    SampleIsPhasor(g, n, 0);
    assert whole == [g.phasor] + rest;
  }

  /** Sample `k` of a request is the phasor held after `k` steps. */
  lemma SampleIsPhasor(g: ToneGenerator, n: nat, k: nat)
    requires k < n
    ensures Samples(g, n)[k] == Advance(g, k).phasor
  {
  }

  /** Sample `j > 0` of a request is sample `j - 1` of the request made one step later. */
  lemma ShiftedSample(g: ToneGenerator, n: nat, j: nat)
    requires 1 <= j < n
    ensures Samples(g, n)[j] == Samples(Step(g), n - 1)[j - 1]
  {
    AdvanceShift(g, j);
    SampleIsPhasor(g, n, j);
    SampleIsPhasor(Step(g), n - 1, j - 1);
  }

  /** Taking `n > 0` steps is taking one step and then `n - 1` more. */
  lemma {:induction false} AdvanceShift(g: ToneGenerator, n: nat)
    requires n > 0
    ensures Advance(g, n) == Advance(Step(g), n - 1)
  {
    if n > 1 {
      AdvanceShift(g, n - 1);
    }
  }

  /** A request for one sample yields the current phasor and takes one step. */
  lemma OneStep(g: ToneGenerator)
    ensures Advance(g, 1) == Step(g)
    ensures Samples(g, 1) == [g.phasor]
  {
    assert Samples(g, 1)[0] == Advance(g, 0).phasor;
  }

  function Total(ns: seq<nat>): nat
  {
    if |ns| == 0 then 0 else Total(ns[..|ns| - 1]) + ns[|ns| - 1]
  }

  /** The samples returned by a series of requests of sizes `ns`, one block per request, each continuing from the state the previous one left. */
  function Serve(g: ToneGenerator, ns: seq<nat>): seq<seq<Complex>>
  {
    if |ns| == 0 then [] else
      var front := ns[..|ns| - 1];
      Serve(g, front) + [Samples(Advance(g, Total(front)), ns[|ns| - 1])]
  }

  function Concat(blocks: seq<seq<Complex>>): seq<Complex>
  {
    if |blocks| == 0 then [] else Concat(blocks[..|blocks| - 1]) + blocks[|blocks| - 1]
  }

  /** Phase coherence: however the samples are requested, together they are the one uninterrupted sample sequence. */
  lemma {:induction false} PhaseContinuity(g: ToneGenerator, ns: seq<nat>)
    ensures |Serve(g, ns)| == |ns|
    ensures Concat(Serve(g, ns)) == Samples(g, Total(ns))
  {
    if |ns| > 0 {
      var front := ns[..|ns| - 1];
      PhaseContinuity(g, front);
      SplitRequest(g, Total(front), ns[|ns| - 1]);
      assert Serve(g, ns)[..|ns| - 1] == Serve(g, front);
    }
  }

  /** After `k` samples since construction, the counter reads `k`: renormalisation follows exactly the odd-numbered (second, fourth, ...) samples. */
  lemma RenormalisationSchedule(trig: Trig, radiansPerSample: real, phi: real, k: nat)
    ensures
      var before := Advance(New(trig, radiansPerSample, phi), k);
      var rotated := Mul(before.phasor, before.rate);
      Advance(New(trig, radiansPerSample, phi), k + 1).phasor
        == if k % 2 == 1 then Renormalise(rotated) else rotated
    ensures Advance(New(trig, radiansPerSample, phi), k).sampleCounter == k
  {
    AdvanceFrame(New(trig, radiansPerSample, phi), k);
    LowBitIsOdd(k);
  }

  function Abs(x: real): real
  {
    if x < 0.0 then -x else x
  }

  /** For `|e| <= 1` the residual `e^2 (e - 3) / 4` lies in `[-e^2, 0]`, and `e^2 <= |e|`. */
  lemma ResidualBound(e: real)
    requires -1.0 <= e <= 1.0
    ensures -(e * e) <= e * e * (e - 3.0) / 4.0 <= 0.0
    ensures e * e <= Abs(e)
  {
    var sq := e * e;
    assert sq >= 0.0;
    assert sq * (e + 1.0) >= 0.0;
    assert sq * (3.0 - e) >= 0.0;
    assert sq * (e - 3.0) == sq * (e + 1.0) - 4.0 * sq;
    var m := Abs(e);
    assert sq == m * m;
    assert 0.0 <= m <= 1.0;
    assert m * m <= m * 1.0 by {
      assert m * (1.0 - m) >= 0.0 * (1.0 - m);
    }
  }

  /** With `|p|^2 = 1 + e`, the corrected magnitude error is `e^2 (e - 3) / 4`, never larger than the error it corrects when `|e| <= 1`. */
  lemma RenormaliseError(p: Complex, e: real)
    requires NormSq(p) == 1.0 + e
    ensures NormSq(Renormalise(p)) - 1.0 == e * e * (e - 3.0) / 4.0
    ensures -1.0 <= e <= 1.0 ==> -(e * e) <= NormSq(Renormalise(p)) - 1.0 <= 0.0
    ensures -1.0 <= e <= 1.0 ==> Abs(NormSq(Renormalise(p)) - 1.0) <= Abs(e)
  {
    var d := 1.0 - e / 2.0;
    NormSqScale(p, d);
    assert Renormalise(p) == Scale(p, d);
    assert NormSq(Renormalise(p)) == d * d * (1.0 + e);
    assert d * d * (1.0 + e) - 1.0 == e * e * (e - 3.0) / 4.0;
    if -1.0 <= e <= 1.0 {
      ResidualBound(e);
    }
  }

  /** With a unit rate, one step keeps a unit phasor on the unit circle, and the renormalisation it may apply changes nothing. */
  lemma StepKeepsUnit(g: ToneGenerator)
    requires NormSq(g.rate) == 1.0 && NormSq(g.phasor) == 1.0
    ensures Step(g).phasor == Mul(g.phasor, g.rate)
    ensures NormSq(Step(g).phasor) == 1.0
  {
    NormSqMul(g.phasor, g.rate);
  }

  /** In exact arithmetic sample `n` is `phasor * rate^n`, always of unit magnitude. */
  lemma {:induction false} ExactRecursion(g: ToneGenerator, n: nat)
    requires NormSq(g.rate) == 1.0 && NormSq(g.phasor) == 1.0
    ensures Advance(g, n).phasor == Mul(g.phasor, Pow(g.rate, n))
    ensures NormSq(Advance(g, n).phasor) == 1.0
  {
    if n == 0 {
      MulOneRight(g.phasor);
    } else {
      var prev := Advance(g, n - 1);
      ExactRecursion(g, n - 1);
      AdvanceFrame(g, n - 1);
      StepKeepsUnit(prev);
      MulAssoc(g.phasor, Pow(g.rate, n - 1), g.rate);
    }
  }

  /** A generator built where `cos^2 + sin^2 = 1` emits `e^(j phi) * e^(j n r)` at index `n`, every sample of unit magnitude. */
  lemma NewEmitsRotatedPhasor(trig: Trig, radiansPerSample: real, phi: real, n: nat)
    requires PythagoreanAt(trig, radiansPerSample) && PythagoreanAt(trig, phi)
    ensures Samples(New(trig, radiansPerSample, phi), n + 1)[n]
      == Mul(Polar(trig, 1.0, phi), Pow(Polar(trig, 1.0, radiansPerSample), n))
    ensures NormSq(Samples(New(trig, radiansPerSample, phi), n + 1)[n]) == 1.0
  {
    PolarUnit(trig, radiansPerSample);
    PolarUnit(trig, phi);
    ExactRecursion(New(trig, radiansPerSample, phi), n);
  }

  /** A generator whose rate and phasor are both `(1, 0)` stays there: the rotation and the correction are both the identity. */
  lemma {:induction false} DcStaysDc(g: ToneGenerator, n: nat)
    requires g.rate == One && g.phasor == One
    ensures Advance(g, n) == ToneGenerator(One, One, g.sampleCounter + n)
  {
    if n > 0 {
      DcStaysDc(g, n - 1);
      assert Mul(One, One) == One;
      assert Renormalise(One) == One;
    }
  }

  /** A generator holding `(1, 0)` as rate and phasor emits `(1, 0)` for every sample. */
  lemma DcSamples(g: ToneGenerator, n: nat)
    requires g.rate == One && g.phasor == One
    ensures forall k :: 0 <= k < n ==> Samples(g, n)[k] == One
  {
    forall k | 0 <= k < n
      ensures Samples(g, n)[k] == One
    {
      DcStaysDc(g, k);
    }
  }

  /** The default instance is pure DC wherever `std::polar(1, 0) = (1, 0)`: every sample is `(1, 0)`. */
  lemma DefaultIsDC(trig: Trig, n: nat)
    requires Polar(trig, 1.0, 0.0) == One
    ensures forall k :: 0 <= k < n ==> Samples(New(trig), n)[k] == One
  {
    var g := New(trig);
    assert g.rate == One && g.phasor == One;
    DcSamples(g, n);
  }
}
