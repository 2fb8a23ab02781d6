# Flying Phasor tone generator in Dafny

This project models the Flying Phasor tone generator. The generator produces a unit-magnitude complex sinusoid without evaluating a trigonometric function per sample:

- A constant `rate = polar(1, radiansPerSample)` is fixed at construction or reset.
- A running `phasor` starts at `(1, 0) * polar(1, phi)`.
- Each sample emits the current phasor and then rotates it by one complex multiplication.
- After every second sample, the phasor's magnitude is corrected by the first-order Taylor factor `d = 1 - (re^2 + im^2 - 1) / 2`.

The model also covers:

- the older pointer-to-implementation `ComplexToneGenerator`, which runs the same recursion;
- the two numeric helpers the test programs judge samples with, `inTolerance` and `deltaAngle`;
- the Welford running-statistics accumulator `StatsStateMachine` of the purity test.

Modules, one per file:

| file | module | contents |
|---|---|---|
| `wrappers.dfy` | `Wrappers` | `Option`, standing in for a NaN or sentinel result |
| `complex_numbers.dfy` | `ComplexNumbers` | complex numbers as pairs of reals; `polar` over an uninterpreted cos/sin pair (`Trig`) |
| `flying_phasor.dfy` | `FlyingPhasor` | the generator state, construction, `reset`, the one-sample `Step`, and the `getSamples` loop |
| `flying_phasor_properties.dfy` | `FlyingPhasorProperties` | request composition, phase continuity, the renormalisation schedule, and exact-arithmetic magnitude results |
| `flying_phasor_delivery.dfy` | `FlyingPhasorDelivery` | the test-derived delivery interface: `getSample`, `peekNextSample`, `getSampleCount`, `accumSamples`, and the scaled fills |
| `complex_tone_generator.dfy` | `ComplexToneGen` | `ComplexToneGenerator` and its `Imple`, with a refinement to `FlyingPhasor` |
| `misc_test_utilities.dfy` | `MiscTestUtilities` | `inTolerance` and `deltaAngle` |
| `purity_stats.dfy` | `PurityStats` | `StatsStateMachine`: `addSample`, `getStats`, `getPopcorn`, `reset` |

Modelling choices:

- **State is a value.** Every operation that changes a generator returns the new state. A caller's buffer is a sequence passed in and returned updated. `FlyingPhasor.Step` is one iteration of the `getSamples` loop body. `Advance(g, n)` is `n` iterations. `Samples(g, n)` is the reference definition of the next `n` outputs: sample `k` is the phasor after `k` steps.
- **Renormalisation follows the code.** It happens when the counter value before its increment (`sampleCounter++ & 0x1`, src/FlyingPhasorToneGenerator.cpp:40) is odd, so it follows the 2nd, 4th, … sample after construction or reset. `LowBit` stands in for `& 0x1`, and `LowBitIsOdd` proves that it equals `c % 2 == 1`.
- **Delivery operations are test-derived.** `getSample`, `peekNextSample`, `getSampleCount`, `accumSamples`, `getSamplesScaled` and `accumSamplesScaled` are called by the test programs but are not declared in src/FlyingPhasorToneGenerator.h. They are modelled from what the tests demand of them, through the same `Step`. The tests also pass the buffer before the count, `getSamples(buf, n)`, and these methods take their arguments in that order.
- **`deltaAngle`.** The function as written keeps a difference of exactly `±pi` unchanged, so for arguments in `[-pi, pi]`, as `std::arg` returns them, its result lies in the closed range `[-pi, pi]`. The model follows the code here, not the half-open `(-pi, pi]` one might expect.

## Model

| member | source | states |
|---|---|---|
| FlyingPhasor.New | src/FlyingPhasorToneGenerator.cpp:14-19 | a new generator has counted no samples, rotates by `polar(1, radiansPerSample)` and starts at `polar(1, phi)`: the `(1, 0)` factor changes nothing |
| FlyingPhasor.Reset | src/FlyingPhasorToneGenerator.cpp:52-57 | reset discards the whole previous state: the result is exactly the freshly constructed generator with the same arguments, so all later outputs agree |
| FlyingPhasor.StepCases | src/FlyingPhasorToneGenerator.cpp:30-48 | one step keeps the rate, counts one sample, and multiplies the phasor by the rate; the product is renormalised exactly when the counter before the step is odd |
| FlyingPhasor.LowBitIsOdd | src/FlyingPhasorToneGenerator.cpp:40 | the low-bit test `c & 0x1 == 0x1` holds exactly for odd counts |
| FlyingPhasor.AdvanceFrame | src/FlyingPhasorToneGenerator.cpp:23-40 | producing `n` samples leaves the rate unchanged and raises the counter by exactly `n` |
| FlyingPhasor.GetSamples | src/FlyingPhasorToneGenerator.cpp:21-50 | the loop writes exactly the first `numSamples` slots with the reference samples; the rest of the buffer is untouched; slot 0 is the phasor held before the call; the state advances by `numSamples` steps with the rate unchanged |
| FlyingPhasorProperties.AdvanceAdd | src/FlyingPhasorToneGenerator.cpp:21-50 | `a` steps then `b` steps reach the same state as `a + b` steps |
| FlyingPhasorProperties.SamplesSuffix | src/FlyingPhasorToneGenerator.cpp:21-50 | the samples of a long request after the first `a` are those of a request made `a` samples later |
| FlyingPhasorProperties.SplitRequest | src/FlyingPhasorToneGenerator.cpp:21-50 | `getSamples(a)` then `getSamples(b)` yields the same `a + b` samples and the same final state as one `getSamples(a + b)` |
| FlyingPhasorProperties.FirstThenRest | src/FlyingPhasorToneGenerator.cpp:23-30 | a request for `n > 0` samples is the current phasor followed by `n - 1` samples from the state one step on |
| FlyingPhasorProperties.PhaseContinuity | src/FlyingPhasorToneGenerator.h:32-35 | however the samples are split into successive requests, one block per request, the blocks joined are the one uninterrupted sample sequence |
| FlyingPhasorProperties.RenormalisationSchedule | src/FlyingPhasorToneGenerator.cpp:40-48 | after `k` samples since construction the counter reads `k`, and the next step renormalises exactly when `k` is odd: after the 2nd, 4th, … sample |
| FlyingPhasor.Renormalise | src/FlyingPhasorToneGenerator.cpp:42-47 | on the unit circle the correction factor is 1, so renormalisation is the identity |
| FlyingPhasorProperties.RenormaliseError | src/FlyingPhasorToneGenerator.cpp:42-47 | with squared magnitude `1 + e`, the corrected squared magnitude is off by exactly `e^2 (e - 3) / 4`; for `-1 <= e <= 1` that lies in `[-e^2, 0]`, and the corrected error `abs(abs(p')^2 - 1)` is at most the uncorrected `abs(e)` |
| FlyingPhasorProperties.StepKeepsUnit | src/FlyingPhasorToneGenerator.cpp:30-48 | with a unit rate, one step keeps a unit phasor on the unit circle, and any renormalisation in that step changes nothing |
| FlyingPhasorProperties.ExactRecursion | src/FlyingPhasorToneGenerator.cpp:21-50 | in exact arithmetic, with unit rate and phasor, the phasor after `n` steps is `phasor * rate^n`, of unit magnitude |
| FlyingPhasorProperties.NewEmitsRotatedPhasor | src/FlyingPhasorToneGenerator.cpp:14-50 | where `cos^2 + sin^2 = 1`, sample `n` of a new generator is `polar(1, phi) * polar(1, radiansPerSample)^n`, of unit magnitude |
| FlyingPhasorProperties.DcStaysDc | src/FlyingPhasorToneGenerator.cpp:30-47 | a generator holding `(1, 0)` as rate and phasor stays there for any number of steps: rotation and correction are both the identity |
| FlyingPhasorProperties.DefaultIsDC | tests/testInitialization.cpp:31-90 | the default instance, whose omitted arguments are 0, emits `(1, 0)` for every sample (pure DC), wherever `polar(1, 0) = (1, 0)` |
| FlyingPhasorDelivery.Deliver | src/FlyingPhasorToneGenerator.cpp:21-50 | the one fill loop equals the reference buffer: slot `i < n` combines its prior contents with gained sample `i`; later slots are unchanged; the state advances `n` steps |
| FlyingPhasorDelivery.AccumSamples | tests/testInitialization.cpp:254-301 | test-derived `accumSamples`: slot `i < n` becomes its prior value plus sample `i`; the rest is kept; the state advances `n` steps |
| FlyingPhasorDelivery.AccumIntoZerosIsGet | tests/testInitialization.cpp:254-301 | accumulating into a zeroed buffer leaves exactly what `getSamples` would store |
| FlyingPhasorDelivery.GetSamplesScaled | tests/testScalingAndAccumulating.cpp:36-51 | test-derived `getSamplesScaled` with a scalar `k`: slot `i < n` holds sample `i` times `k`, i.e. `getSamples` followed by an element-wise multiply |
| FlyingPhasorDelivery.GetSamplesScaledByVector | tests/testScalingAndAccumulating.cpp:108-123 | test-derived `getSamplesScaled` with a vector: slot `i < n` holds sample `i` times `ks[i]` |
| FlyingPhasorDelivery.AccumSamplesScaled | tests/testScalingAndAccumulating.cpp:57-74 | test-derived `accumSamplesScaled` with a scalar: slot `i < n` holds its prior value plus sample `i` times `k` |
| FlyingPhasorDelivery.AccumSamplesScaledByVector | tests/testScalingAndAccumulating.cpp:129-144 | test-derived `accumSamplesScaled` with a vector: slot `i < n` holds its prior value plus sample `i` times `ks[i]` |
| FlyingPhasorDelivery.AccumScaledIsGetScaledPlusPrior | tests/testScalingAndAccumulating.cpp:57-74 | accumulating scaled samples equals scaling them into a scratch buffer and adding that to the prior contents, element by element |
| FlyingPhasorDelivery.GetSampleIsRequestForOne | tests/testInitialization.cpp:154-167 | `GetSample`, the test-derived `getSample`: the sample it returns is the one a request for one sample returns, and it leaves the same state |
| FlyingPhasorDelivery.PeekNextSample | tests/testInitialization.cpp:104-134 | test-derived `peekNextSample` takes no step; its value is the next `getSample` result and the first sample of any later request |
| FlyingPhasorDelivery.SampleCountLaw | tests/testInitialization.cpp:36-54 | `GetSampleCount`, the test-derived `getSampleCount`: reads 0 after construction and after reset, and grows by exactly the number of samples fetched |
| FlyingPhasorDelivery.SingleSamplesMatchBatch | tests/testInitialization.cpp:154-167 | `n` consecutive `getSample` calls return exactly the `n` samples of one request and leave the same state |
| FlyingPhasorDelivery.ResetReplaysSingleSamples | tests/testInitialization.cpp:154-167 | after a reset to the parameters an instance was built with, single fetches reproduce that instance's batch sample for sample, and the count then reads `n` |
| ComplexToneGen.NewImple | src/ComplexToneGenerator.cpp:22-27 | a new `Imple` has counted nothing, rotates by `polar(1, r)` and starts at `polar(1, phi)` |
| ComplexToneGen.New | src/ComplexToneGenerator.cpp:69-72 | the public constructor passes its arguments to a new `Imple`, which starts with count 0 in exactly the state of a Flying Phasor generator built with the same arguments |
| ComplexToneGen.ImpleStepCorresponds | src/ComplexToneGenerator.cpp:37-55 | one iteration of the implementation's loop keeps the const rate and is, field for field, one step of the Flying Phasor generator |
| ComplexToneGen.ImpleFrame | src/ComplexToneGenerator.cpp:47-65 | the const rate never changes, and the counter grows by exactly the number of samples produced |
| ComplexToneGen.ImpleGetSamples | src/ComplexToneGenerator.cpp:31-57 | writes exactly the first `n` slots with the implementation's samples; slot 0 is the phasor before the call; the rest is kept; the counter grows by `n` with the rate unchanged |
| ComplexToneGen.GetSamples | src/ComplexToneGenerator.cpp:79-82 | the public call gives exactly the implementation's result for the same arguments |
| ComplexToneGen.ImpleRefinesFlyingPhasor | src/ComplexToneGenerator.cpp:31-57 | `n` steps of `Imple` correspond, field for field, to `n` steps of the Flying Phasor generator |
| ComplexToneGen.SamplesCorrespond | src/ComplexToneGenerator.cpp:31-57 | from corresponding states, a request yields the same samples from both generators |
| ComplexToneGen.SameOutputsAsFlyingPhasor | src/ComplexToneGenerator.cpp:31-57 | from corresponding states and for equal request sizes, both generators return identical blocks, request after request |
| ComplexToneGen.SameConstructionSameOutputs | src/ComplexToneGenerator.cpp:22-57 | generators of both kinds built with equal `(r, phi)` return identical outputs for every call sequence |
| MiscTestUtilities.InTolerance | testUtilities/MiscTestUtilities.cpp:6-14 | for a ratio `t >= 0`, `inTolerance(v, d, t)` holds exactly when `abs(v - d) <= t * abs(d)`, whatever the sign of `d` |
| MiscTestUtilities.InToleranceBand | testUtilities/MiscTestUtilities.cpp:8-11 | for `t >= 0` the band is `[d(1 - t), d(1 + t)]` when `d >= 0` and `[d(1 + t), d(1 - t)]` when `d < 0`, so min <= max and `inTolerance(d, d, t)` holds |
| MiscTestUtilities.InToleranceOfZero | testUtilities/MiscTestUtilities.cpp:8-13 | the band is relative, so a zero target accepts only zero |
| MiscTestUtilities.InToleranceExact | testUtilities/MiscTestUtilities.cpp:8-13 | with ratio 0 only the target itself is accepted |
| MiscTestUtilities.NegativeRatioAcceptsNothing | testUtilities/MiscTestUtilities.cpp:8-13 | a negative ratio inverts the band, so a non-zero target then accepts nothing |
| MiscTestUtilities.DeltaAngle | testUtilities/MiscTestUtilities.cpp:16-22 | for angles in `[-pi, pi]`, as `std::arg` returns them, the wrapped difference lies in `[-pi, pi]` |
| MiscTestUtilities.DeltaAngleIsWrappedDifference | testUtilities/MiscTestUtilities.cpp:18-21 | the result differs from `b - a` by 0 or one whole turn, equals `b - a` when that is already within `[-pi, pi]`, and the same angle twice gives 0 |
| PurityStats.AddSample | tests/testPurity.cpp:33-36 | each `addSample` counts exactly one more sample |
| PurityStats.FeedCount | tests/testPurity.cpp:33-36 | feeding a series raises the count by its length |
| PurityStats.WelfordStep | tests/testPurity.cpp:33-38 | one update keeps the invariant: count = samples seen, `n * mean` = their sum, `M2` = sum of squares minus `n * mean^2` |
| PurityStats.WelfordInvariant | tests/testPurity.cpp:33-38 | from construction, the invariant holds after any series of samples |
| PurityStats.MeanIsAverage | tests/testPurity.cpp:35-37 | after `n >= 1` samples, `mean` is their arithmetic mean |
| PurityStats.M2IsSumOfSquaredDeviations | tests/testPurity.cpp:38 | after `n >= 1` samples, `M2` is the sum of squared deviations from their arithmetic mean `Sum(xs) / n`; after any series it is never negative |
| PurityStats.StatsForManySamples | tests/testPurity.cpp:46-54 | for two or more samples, `getStats` reports the arithmetic mean `Sum(xs) / n` and the sample variance, the sum of squared deviations from that mean over `n - 1` |
| PurityStats.StatsForFewSamples | tests/testPurity.cpp:48-51 | `getStats` is (NaN, NaN) for no samples and (the sample, NaN) for one |
| PurityStats.PopcornBracketsZero | tests/testPurity.cpp:39-62 | `getPopcorn` is (NaN, NaN) before any sample; afterwards both extremes are present and `maxNegDev <= 0 <= maxPosDev`, because the first sample's deviation is 0 |
| PurityStats.GetStats | tests/testPurity.cpp:46-54 | the mean is reported exactly when there is at least one sample, and is the running mean; the variance is reported exactly when there are at least two, and times `n - 1` it is `M2` |
| PurityStats.DevsAt | tests/testPurity.cpp:39-42 | the deviation recorded for sample `i` is that sample minus the mean of the first `i + 1` samples, the mean just after its own update |
| PurityStats.DeviationsBracketed | tests/testPurity.cpp:39-42 | after `n >= 1` samples both extremes are set, each is one of the recorded deviations, and together they bracket every one |
| PurityStats.PopcornIsDeviationRange | tests/testPurity.cpp:55-62 | after `n >= 1` samples `getPopcorn` reports the minimum and the maximum of the running deviations: both are attained, and they bound every deviation |
| PurityStats.Reset | tests/testPurity.cpp:64-71 | reset returns to zero samples with `mean = M2 = 0`; both queries then report NaN, exactly as after construction |

## Left out

- IEEE-754 rounding. All arithmetic is over exact reals. The magnitude and variance thresholds the tests check (1e-12, 1e-15, 5e-33, 1.5e-32) are empirical floating-point results and are not stated.
- NaN and infinity inputs. A NaN result of `getStats` or `getPopcorn` is `None`.
- `std::polar`, `cos` and `sin` become the uninterpreted pair `Trig`. Results that need `cos^2 + sin^2 = 1` or `polar(1, 0) = (1, 0)` take it as a precondition on that pair. `std::arg`, `std::abs` and `exp` are not modelled.
- `M_PI` is the exact decimal value of the double it denotes, not the real pi.
- `size_t` wrap-around of `sampleCounter` and of the loop index: counts are unbounded naturals.
- `long double` arithmetic in `StatsStateMachine` and its truncation to `double` on return: both are exact reals.
- The extreme-deviation sentinels (the largest and lowest finite values) are `None`. The first sample always replaces both. `reset` uses the `double` limits where construction uses the `long double` ones; neither difference is observable after a sample.
- Raw buffer pointers: a buffer is a sequence, and a request for more slots than the buffer holds is excluded by precondition rather than being undefined behaviour.
- The implementation of the test-derived delivery operations is not part of this model. Their contracts come from what the test programs check.
- Destruction of `ComplexToneGenerator` (freeing the `Imple`) has no counterpart among values.
- src/ComplexToneGenerator.h and src/FlyingPhasorToneGeneratorDataTypes.h contain only declarations and type aliases.
- The command-line parser, the FFT-based spectral-purity test, the timing code, the programs' `main` functions and the streaming demos are test and demonstration scaffolding with no behaviour of the generator.
- The `PhasePurityAnalyzer` loop that feeds `StatsStateMachine` is left out. So are the older helper copies in tests/testBlah.cpp, whose `inTolerance` lacks the sign handling.
