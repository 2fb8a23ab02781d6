/**
  The running-statistics accumulator the purity test feeds with phase
  increments and magnitudes: Welford's online mean and sum of squared
  deviations, plus the extreme deviations from the running mean.
 */
module PurityStats {
  import opened Wrappers

  /**
    The accumulator's state. An extreme deviation is `None` while it still
    holds its initial sentinel (the largest or lowest finite value): the
    first sample always replaces both.
   */
  datatype StatsStateMachine = StatsStateMachine(
    mean: real,
    m2: real,
    maxNegDev: Option<real>,
    maxPosDev: Option<real>,
    nSamples: nat)

  /** The state after construction. */
  const Initial: StatsStateMachine := StatsStateMachine(0.0, 0.0, None, None, 0)

  /** The smaller of a recorded deviation and a new one; a sentinel always loses. */
  function Lower(current: Option<real>, delta: real): Option<real>
  {
    if current.None? || delta < current.value then Some(delta) else current
  }

  /** The larger of a recorded deviation and a new one; a sentinel always loses. */
  function Higher(current: Option<real>, delta: real): Option<real>
  {
    if current.None? || delta > current.value then Some(delta) else current
  }

  /** `addSample`: one Welford update, then the sample's deviation from the updated mean. */
  function AddSample(s: StatsStateMachine, value: real): (r: StatsStateMachine)
    ensures r.nSamples == s.nSamples + 1
  {
    var delta := value - s.mean;
    var n := s.nSamples + 1;
    var mean := s.mean + delta / (n as real);
    var m2 := s.m2 + delta * (value - mean);
    var dev := value - mean;
    StatsStateMachine(mean, m2, Lower(s.maxNegDev, dev), Higher(s.maxPosDev, dev), n)
  }

  /** `getStats`: the mean and the sample variance, each missing (NaN) when too few samples exist. */
  function GetStats(s: StatsStateMachine): (r: (Option<real>, Option<real>))
    ensures r.0.Some? <==> s.nSamples >= 1
    ensures r.1.Some? <==> s.nSamples >= 2
    ensures r.0.Some? ==> r.0.value == s.mean
    ensures r.1.Some? ==> r.1.value * ((s.nSamples - 1) as real) == s.m2
  {
    if s.nSamples == 0 then (None, None)
    else if s.nSamples == 1 then (Some(s.mean), None)
    else (Some(s.mean), Some(s.m2 / ((s.nSamples - 1) as real)))
  }

  /** `getPopcorn`: the extreme negative and positive deviations, missing (NaN) before any sample. */
  function GetPopcorn(s: StatsStateMachine): (Option<real>, Option<real>)
  {
    if s.nSamples == 0 then (None, None) else (s.maxNegDev, s.maxPosDev)
  }

  /** `reset`: back to no samples, zero mean and zero sum of squares. */
  function Reset(s: StatsStateMachine): (r: StatsStateMachine)
    ensures r.nSamples == 0 && r.mean == 0.0 && r.m2 == 0.0
    ensures GetStats(r) == (None, None) && GetPopcorn(r) == (None, None)
    ensures r == Initial
  {
    StatsStateMachine(0.0, 0.0, None, None, 0)
  }

  /** The state after feeding `xs` in order. */
  function Feed(s: StatsStateMachine, xs: seq<real>): StatsStateMachine
  {
    if |xs| == 0 then s else AddSample(Feed(s, xs[..|xs| - 1]), xs[|xs| - 1])
  }

  function Sum(xs: seq<real>): real
  {
    if |xs| == 0 then 0.0 else Sum(xs[..|xs| - 1]) + xs[|xs| - 1]
  }

  function SumSq(xs: seq<real>): real
  {
    if |xs| == 0 then 0.0 else SumSq(xs[..|xs| - 1]) + xs[|xs| - 1] * xs[|xs| - 1]
  }

  /** A square is never negative. */
  lemma SquareNonNegative(a: real)
    ensures a * a >= 0.0
  {
    if a < 0.0 {
      assert a * a == (-a) * (-a);
    }
  }

  /** The sum of squared deviations of `xs` from `c`. */
  function SumSqDev(xs: seq<real>, c: real): real
  {
    if |xs| == 0 then 0.0 else
      var x := xs[|xs| - 1];
      SumSqDev(xs[..|xs| - 1], c) + (x - c) * (x - c)
  }

  /** A sum of squares is never negative. */
  lemma {:induction false} SumSqDevNonNegative(xs: seq<real>, c: real)
    ensures SumSqDev(xs, c) >= 0.0
  {
    if |xs| > 0 {
      SumSqDevNonNegative(xs[..|xs| - 1], c);
      SquareNonNegative(xs[|xs| - 1] - c);
    }
  }

  /** Each running sum is the sum over all but the last sample plus the last sample's term. */
  lemma SumsUnfold(xs: seq<real>, c: real)
    requires |xs| > 0
    ensures SumSqDev(xs, c) == SumSqDev(xs[..|xs| - 1], c) + (xs[|xs| - 1] - c) * (xs[|xs| - 1] - c)
    ensures SumSq(xs) == SumSq(xs[..|xs| - 1]) + xs[|xs| - 1] * xs[|xs| - 1]
    ensures Sum(xs) == Sum(xs[..|xs| - 1]) + xs[|xs| - 1]
    ensures |xs| as real == (|xs[..|xs| - 1]| as real) + 1.0
  {
  }

  /** The algebra of one step of `SumSqDevExpand`, on plain reals. */
  lemma ExpandStep(dev: real, sq: real, sum: real, n: real, n1: real, x: real, c: real)
    requires dev == sq - 2.0 * c * sum + n * c * c && n1 == n + 1.0
    ensures dev + (x - c) * (x - c) == (sq + x * x) - 2.0 * c * (sum + x) + n1 * c * c
  {
    assert (x - c) * (x - c) == x * x - 2.0 * c * x + c * c;
    assert 2.0 * c * (sum + x) == 2.0 * c * sum + 2.0 * c * x;
    assert n1 * c * c == n * c * c + c * c;
  }

  /** The expansion `sum (x - c)^2 = sum x^2 - 2 c sum x + n c^2` for one sequence. */
  predicate Expands(xs: seq<real>, c: real)
  {
    SumSqDev(xs, c) == SumSq(xs) - 2.0 * c * Sum(xs) + (|xs| as real) * c * c
  }

  /** The expansion carries over from all but the last sample to all of them. */
  lemma ExpandsExtend(xs: seq<real>, c: real)
    requires |xs| > 0 && Expands(xs[..|xs| - 1], c)
    ensures Expands(xs, c)
  {
    var front := xs[..|xs| - 1];
    SumsUnfold(xs, c);
    ExpandStep(SumSqDev(front, c), SumSq(front), Sum(front), |front| as real, |xs| as real, xs[|xs| - 1], c);
  }

  /** `sum (x - c)^2 = sum x^2 - 2 c sum x + n c^2`. */
  lemma {:induction false} SumSqDevExpand(xs: seq<real>, c: real)
    ensures Expands(xs, c)
  {
    if |xs| > 0 {
      SumSqDevExpand(xs[..|xs| - 1], c);
      ExpandsExtend(xs, c);
    }
  }

  /** The mean update keeps `sum = n * mean`. */
  lemma MeanUpdate(n: real, n1: real, mean: real, sum: real, value: real)
    requires n >= 0.0 && n1 == n + 1.0 && sum == n * mean
    ensures sum + value == n1 * (mean + (value - mean) / n1)
  {
    var d := value - mean;
    assert n1 * (d / n1) == d;
    assert n1 * (mean + d / n1) == n1 * mean + d;
  }

  /** The `M2` update keeps `n * M2 = n * sum x^2 - sum^2`, written as `M2 = sum x^2 - n * mean^2`. */
  lemma M2Update(n: real, n1: real, mean: real, m2: real, sumSq: real, value: real)
    requires n >= 0.0 && n1 == n + 1.0 && m2 == sumSq - n * mean * mean
    ensures var mean' := mean + (value - mean) / n1;
      m2 + (value - mean) * (value - mean') == (sumSq + value * value) - n1 * mean' * mean'
  {
    var d := value - mean;
    var e := d / n1;
    var mean' := mean + e;
    assert n1 * e == d;
    // the residual is value - mean' = d - e = n * e
    assert value - mean' == n * e;
    assert d * (n * e) == n1 * e * (n * e);
    assert n1 * mean' * mean' == n1 * mean * mean + 2.0 * n1 * mean * e + n1 * e * e;
    assert value * value == mean * mean + 2.0 * mean * d + d * d;
    assert 2.0 * mean * d == 2.0 * n1 * mean * e;
    assert d * d == n1 * e * (n1 * e);
    assert n1 * e * (n1 * e) - n1 * e * e == n1 * e * (n * e);
  }

  /**
    The Welford invariant relating a state to the samples fed into it: it has
    counted them, `sum = n * mean`, and `M2 = sum x^2 - n * mean^2`.
   */
  predicate Tracks(s: StatsStateMachine, xs: seq<real>)
  {
    var n := |xs| as real;
    && s.nSamples == |xs|
    && Sum(xs) == n * s.mean
    && s.m2 == SumSq(xs) - n * s.mean * s.mean
  }

  /** One Welford update extends the invariant by the new sample. */
  lemma WelfordStep(s: StatsStateMachine, xs: seq<real>, value: real)
    requires Tracks(s, xs)
    ensures Tracks(AddSample(s, value), xs + [value])
  {
    var ys := xs + [value];
    assert ys[..|ys| - 1] == xs;
    assert Sum(ys) == Sum(xs) + value;
    assert SumSq(ys) == SumSq(xs) + value * value;
    MeanUpdate(|xs| as real, |ys| as real, s.mean, Sum(xs), value);
    M2Update(|xs| as real, |ys| as real, s.mean, s.m2, SumSq(xs), value);
  }

  lemma {:induction false} FeedCount(s: StatsStateMachine, xs: seq<real>)
    ensures Feed(s, xs).nSamples == s.nSamples + |xs|
  {
    if |xs| > 0 {
      FeedCount(s, xs[..|xs| - 1]);
    }
  }

  /** In exact arithmetic, the state after feeding `xs` from a fresh state satisfies the Welford invariant. */
  lemma {:induction false} WelfordInvariant(xs: seq<real>)
    ensures Tracks(Feed(Initial, xs), xs)
  {
    if |xs| > 0 {
      var front, x := xs[..|xs| - 1], xs[|xs| - 1];
      WelfordInvariant(front);
      WelfordStep(Feed(Initial, front), front, x);
      assert front + [x] == xs;
    }
  }

  /** The plain-real step behind `TracksMean`. */
  lemma DivideBack(n: real, mean: real, sum: real)
    requires n > 0.0 && sum == n * mean
    ensures mean == sum / n
  {
  }

  /** Under the invariant, the mean of at least one sample is their arithmetic mean. */
  lemma TracksMean(s: StatsStateMachine, xs: seq<real>)
    requires Tracks(s, xs) && |xs| >= 1
    ensures s.mean == Sum(xs) / (|xs| as real)
  {
    DivideBack(|xs| as real, s.mean, Sum(xs));
  }

  /** After at least one sample the running mean is the arithmetic mean of the samples. */
  lemma MeanIsAverage(xs: seq<real>)
    requires |xs| >= 1
    ensures Feed(Initial, xs).mean == Sum(xs) / (|xs| as real)
  {
    WelfordInvariant(xs);
    TracksMean(Feed(Initial, xs), xs);
  }

  /** The algebra behind `M2IsSumOfSquaredDeviations`, on plain reals. */
  lemma DeviationAlgebra(dev: real, sq: real, sum: real, n: real, mean: real, m2: real)
    requires dev == sq - 2.0 * mean * sum + n * mean * mean
    requires sum == n * mean && m2 == sq - n * mean * mean
    ensures m2 == dev
  {
    assert 2.0 * mean * sum == 2.0 * (n * mean * mean);
  }

  /** Under the invariant, M2 is the sum of squared deviations from the mean. */
  lemma TracksDeviation(s: StatsStateMachine, xs: seq<real>)
    requires Tracks(s, xs)
    ensures s.m2 == SumSqDev(xs, s.mean)
  {
    SumSqDevExpand(xs, s.mean);
    DeviationAlgebra(SumSqDev(xs, s.mean), SumSq(xs), Sum(xs), |xs| as real, s.mean, s.m2);
  }

  /** M2 is the sum of squared deviations from the arithmetic mean of the samples, hence never negative. */
  lemma M2IsSumOfSquaredDeviations(xs: seq<real>)
    ensures |xs| >= 1 ==> Feed(Initial, xs).m2 == SumSqDev(xs, Sum(xs) / (|xs| as real))
    ensures Feed(Initial, xs).m2 >= 0.0
  {
    var s := Feed(Initial, xs);
    WelfordInvariant(xs);
    TracksDeviation(s, xs);
    SumSqDevNonNegative(xs, s.mean);
    if |xs| >= 1 {
      TracksMean(s, xs);
    }
  }

  /** Under the invariant, `getStats` on two or more samples reports their mean and `sum (x - mean)^2 / (n - 1)`. */
  lemma TracksStats(s: StatsStateMachine, xs: seq<real>)
    requires Tracks(s, xs) && |xs| >= 2
    ensures GetStats(s) == (Some(Sum(xs) / (|xs| as real)), Some(SumSqDev(xs, Sum(xs) / (|xs| as real)) / ((|xs| - 1) as real)))
  {
    TracksDeviation(s, xs);
    TracksMean(s, xs);
  }

  /** For two or more samples `getStats` reports the arithmetic mean and the sample variance `sum (x - mean)^2 / (n - 1)`. */
  lemma StatsForManySamples(xs: seq<real>)
    requires |xs| >= 2
    ensures GetStats(Feed(Initial, xs))
      == (Some(Sum(xs) / (|xs| as real)), Some(SumSqDev(xs, Sum(xs) / (|xs| as real)) / ((|xs| - 1) as real)))
  {
    WelfordInvariant(xs);
    TracksStats(Feed(Initial, xs), xs);
  }

  /** `getStats` reports nothing for no samples and a mean without a variance for one sample. */
  lemma StatsForFewSamples(xs: seq<real>)
    requires |xs| <= 1
    ensures |xs| == 0 ==> GetStats(Feed(Initial, xs)) == (None, None)
    ensures |xs| == 1 ==> GetStats(Feed(Initial, xs)) == (Some(xs[0]), None)
  {
    WelfordInvariant(xs);
    if |xs| == 1 {
      assert Sum(xs) == xs[0];
    }
  }

  /** Once a sample has been seen the extreme deviations bracket zero, since the first sample's deviation is 0. */
  lemma {:induction false} PopcornBracketsZero(xs: seq<real>)
    ensures |xs| == 0 ==> GetPopcorn(Feed(Initial, xs)) == (None, None)
    ensures |xs| >= 1 ==>
      var (neg, pos) := GetPopcorn(Feed(Initial, xs));
      neg.Some? && pos.Some? && neg.value <= 0.0 <= pos.value
  {
    FeedCount(Initial, xs);
    if |xs| > 0 {
      var front := xs[..|xs| - 1];
      PopcornBracketsZero(front);
      FeedCount(Initial, front);
      if |front| == 0 {
        var s := Feed(Initial, front);
        assert s == Initial;
        assert AddSample(Initial, xs[0]).mean == xs[0];
      }
    }
  }
  /** The deviation of each sample from the running mean just after it was added, `x_i - mean_i`, in feeding order. */
  function Devs(xs: seq<real>): (ds: seq<real>)
    ensures |ds| == |xs|
  {
    if |xs| == 0 then [] else Devs(xs[..|xs| - 1]) + [xs[|xs| - 1] - Feed(Initial, xs).mean]
  }

  /** Both extremes are recorded, each is one of the deviations `ds`, and together they bound all of them. */
  predicate Brackets(s: StatsStateMachine, ds: seq<real>)
  {
    && s.maxNegDev.Some? && s.maxPosDev.Some?
    && s.maxNegDev.value in ds && s.maxPosDev.value in ds
    && forall i :: 0 <= i < |ds| ==> s.maxNegDev.value <= ds[i] <= s.maxPosDev.value
  }

  /** Deviation `i` is sample `i` less the mean of the first `i + 1` samples. */
  lemma {:induction false} DevsAt(xs: seq<real>, i: nat)
    requires i < |xs|
    ensures Devs(xs)[i] == xs[i] - Feed(Initial, xs[..i + 1]).mean
  {
    var front := xs[..|xs| - 1];
    if i < |front| {
      DevsAt(front, i);
      assert front[..i + 1] == xs[..i + 1];
    } else {
      assert xs[..i + 1] == xs;
    }
  }

  /** The first sample replaces both sentinels by its own deviation. */
  lemma BracketsStart(value: real)
    ensures Brackets(AddSample(Initial, value), [value - AddSample(Initial, value).mean])
  {
  }

  /** A later sample's deviation replaces an extreme only when it goes beyond it. */
  lemma BracketsExtend(s: StatsStateMachine, ds: seq<real>, value: real)
    requires Brackets(s, ds)
    ensures Brackets(AddSample(s, value), ds + [value - AddSample(s, value).mean])
  {
  }

  /** After any non-empty series the recorded extremes are the least and greatest running deviation. */
  lemma {:induction false} DeviationsBracketed(xs: seq<real>)
    requires |xs| >= 1
    ensures Brackets(Feed(Initial, xs), Devs(xs))
  {
    var front, x := xs[..|xs| - 1], xs[|xs| - 1];
    if |front| == 0 {
      assert Feed(Initial, front) == Initial;
      BracketsStart(x);
    } else {
      DeviationsBracketed(front);
      BracketsExtend(Feed(Initial, front), Devs(front), x);
    }
  }

  /** Once a sample has been seen, `getPopcorn` reports the least and the greatest of the running deviations `x_i - mean_i`. */
  lemma PopcornIsDeviationRange(xs: seq<real>)
    requires |xs| >= 1
    ensures GetPopcorn(Feed(Initial, xs)).0.Some? && GetPopcorn(Feed(Initial, xs)).1.Some?
    ensures GetPopcorn(Feed(Initial, xs)).0.value in Devs(xs)
    ensures GetPopcorn(Feed(Initial, xs)).1.value in Devs(xs)
    ensures forall i :: 0 <= i < |xs| ==>
      GetPopcorn(Feed(Initial, xs)).0.value <= Devs(xs)[i] <= GetPopcorn(Feed(Initial, xs)).1.value
  {
    DeviationsBracketed(xs);
    FeedCount(Initial, xs);
  }
}
