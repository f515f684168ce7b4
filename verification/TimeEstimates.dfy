/**
 What the time filter estimates: where its published element puts server time, which line it settles on,
 and why its gains and covariance are the ones of a Kalman filter.
 */
module TimeEstimates {
  import opened Common
  import opened TimeFilter

  // ---------------------------------------------------------------- the published element

  /** The element both conversions read holds the filter's own estimates, and the drift once it stands out. */
  predicate Published(f: Filter) {
    && f.element.lastUpdate == f.lastUpdate
    && f.element.offset == f.offset
    && f.element.drift == f.drift
    && (f.element.useDrift <==> f.count >= 3 && Significant(f.drift, f.driftVariance))
  }

  lemma PublishedStep(f: Filter, n: Noise, measurement: int, maxError: int, timeAdded: int)
    requires Sound(f) && Published(f)
    ensures Published(Measured(f, n, measurement, maxError, timeAdded))
  {
  }

  lemma {:induction false} ElementFollows(n: Noise, samples: seq<Sample>)
    requires NoiseValid(n)
    ensures Published(Filtered(n, samples))
    decreases |samples|
  {
    if samples != [] {
      var s := samples[|samples| - 1];
      ElementFollows(n, samples[..|samples| - 1]);
      PublishedStep(Filtered(n, samples[..|samples| - 1]), n, s.measurement, s.maxError, s.timeAdded);
    }
  }

  /** A drift stands out when it is more than two standard deviations from none. */
  lemma SignificantIff(drift: real, deviation: real)
    requires deviation >= 0.0
    ensures Significant(drift, Sq(deviation)) <==> Abs(drift) > 2.0 * deviation
  {
    assert Sq(2.0 * deviation) == 4.0 * Sq(deviation);
    assert Sq(Abs(drift)) == Sq(drift);
    SquareOrder(2.0 * deviation, Abs(drift));
  }

  predicate WithinInts(x: int, y: int, z: int) { x <= y <= z || z <= y <= x }

  lemma RoundMonotone(x: real, y: real)
    requires x <= y
    ensures Round(x) <= Round(y)
  {
  }

  lemma RoundOfInt(n: int)
    ensures Round(n as real) == n
  {
  }

  /**
   At the instant of a measurement, server time is as measured for the first two, and from then on between
   the time predicted and the time measured.
   */
  lemma ServerTimeAtMeasurement(f: Filter, n: Noise, measurement: int, maxError: int, timeAdded: int)
    requires Sound(f) && NoiseValid(n) && timeAdded > f.lastUpdate
    ensures var server := ComputeServerTime(Measured(f, n, measurement, maxError, timeAdded).element, timeAdded);
      if f.count <= 1 then server == timeAdded + measurement
      else
        var predicted := Ahead(f.offset, f.drift, (timeAdded - f.lastUpdate) as real);
        WithinInts(timeAdded + Round(predicted), server, timeAdded + measurement)
  {
    var after := Measured(f, n, measurement, maxError, timeAdded);
    AtLastUpdate(after.element);
    RoundOfInt(measurement);
    if f.count >= 2 {
      OffsetBetween(f, n, measurement, maxError, timeAdded);
      var predicted := Ahead(f.offset, f.drift, (timeAdded - f.lastUpdate) as real);
      if predicted <= after.offset <= measurement as real {
        RoundMonotone(predicted, after.offset);
        RoundMonotone(after.offset, measurement as real);
      } else {
        RoundMonotone(after.offset, predicted);
        RoundMonotone(measurement as real, after.offset);
      }
    }
  }

  lemma AtLastUpdate(e: TimeElement)
    ensures ComputeServerTime(e, e.lastUpdate) == e.lastUpdate + Round(e.offset)
  {
    assert EffectiveDrift(e) * (e.lastUpdate - e.lastUpdate) as real == 0.0;
  }

  // ---------------------------------------------------------------- which samples count

  function Latest(samples: seq<Sample>): int {
    if samples == [] then 0 else Max(Latest(samples[..|samples| - 1]), samples[|samples| - 1].timeAdded)
  }

  /** The samples whose time advanced past all before them. */
  function Advancing(samples: seq<Sample>): nat {
    if samples == [] then 0
    else
      Advancing(samples[..|samples| - 1])
      + if samples[|samples| - 1].timeAdded > Latest(samples[..|samples| - 1]) then 1 else 0
  }

  /** Over every run just those count, up to a hundred, and the latest of them sets the filter's time. */
  lemma {:induction false} CountsAdvancing(n: Noise, samples: seq<Sample>)
    requires NoiseValid(n)
    ensures Filtered(n, samples).lastUpdate == Latest(samples)
    ensures Filtered(n, samples).count == Min(Advancing(samples), 100)
    decreases |samples|
  {
    if samples != [] { CountsAdvancing(n, samples[..|samples| - 1]); }
  }

  // ---------------------------------------------------------------- a steady pair of clocks

  /** The true offset of two clocks that drift apart steadily. */
  datatype Line = Line(origin: real, slope: real)

  function At(l: Line, t: int): real { l.origin + l.slope * t as real }

  predicate OnLine(l: Line, samples: seq<Sample>) {
    forall s :: s in samples ==> s.measurement as real == At(l, s.timeAdded)
  }

  lemma LineAhead(l: Line, earlier: int, later: int)
    ensures Ahead(At(l, earlier), l.slope, (later - earlier) as real) == At(l, later)
  {
    assert l.slope * (later - earlier) as real == l.slope * later as real - l.slope * earlier as real;
  }

  predicate Follows(f: Filter, l: Line) {
    && (f.count >= 1 ==> f.offset == At(l, f.lastUpdate))
    && (f.count >= 2 ==> f.drift == l.slope)
  }

  lemma FollowsStep(f: Filter, n: Noise, l: Line, measurement: int, maxError: int, timeAdded: int)
    requires Sound(f) && Follows(f, l) && measurement as real == At(l, timeAdded)
    ensures Follows(Measured(f, n, measurement, maxError, timeAdded), l)
  {
    if timeAdded > f.lastUpdate {
      LineAhead(l, f.lastUpdate, timeAdded);
      var dt := (timeAdded - f.lastUpdate) as real;
      if f.count == 1 {
        assert measurement as real - f.offset == l.slope * dt;
        QuotientUnique(l.slope * dt, dt, l.slope);
      } else if f.count >= 2 {
        var prior := Prior(f, n, measurement, maxError, dt);
        NothingToCorrect(OffsetGain(prior, SampleVariance(maxError)));
        NothingToCorrect(DriftGain(prior, SampleVariance(maxError)));
      }
    }
  }

  lemma NothingToCorrect(gain: real)
    ensures gain * 0.0 == 0.0
  {
  }

  /** Measurements of such clocks are followed exactly: the offset from the first on, the drift from the second. */
  lemma {:induction false} LineFollowed(n: Noise, samples: seq<Sample>, l: Line)
    requires NoiseValid(n) && OnLine(l, samples)
    ensures Follows(Filtered(n, samples), l)
    decreases |samples|
  {
    if samples != [] {
      var front, s := samples[..|samples| - 1], samples[|samples| - 1];
      LineFollowed(n, front, l);
      FollowsStep(Filtered(n, front), n, l, s.measurement, s.maxError, s.timeAdded);
    }
  }

  lemma ElementOnLine(e: TimeElement, l: Line, t: int)
    requires e.useDrift && e.offset == At(l, e.lastUpdate) && e.drift == l.slope
    ensures ComputeServerTime(e, t) == t + Round(At(l, t))
  {
    LineAhead(l, e.lastUpdate, t);
    assert OffsetAt(e, t) == Ahead(e.offset, e.drift, (t - e.lastUpdate) as real);
  }

  /** With the drift in use, server time is then right at every instant, to the nearest microsecond. */
  lemma LineServerTime(n: Noise, samples: seq<Sample>, l: Line, t: int)
    requires NoiseValid(n) && OnLine(l, samples) && Filtered(n, samples).element.useDrift
    ensures ComputeServerTime(Filtered(n, samples).element, t) == t + Round(At(l, t))
  {
    LineFollowed(n, samples, l);
    ElementFollows(n, samples);
    ElementOnLine(Filtered(n, samples).element, l, t);
  }

  // ---------------------------------------------------------------- gains and covariance

  /** The covariance matrix of the state moved over `dt`, with the noise it gathers on the way. */
  lemma PredictPropagates(p: Cov, dt: real, offsetNoise: real, driftNoise: real, x: real, y: real)
    ensures VarianceAt(Predict(p, dt, offsetNoise, driftNoise), x, y)
      == VarianceAt(p, x, x * dt + y) + dt * offsetNoise * Sq(x) + dt * driftNoise * Sq(y)
  {
    ExpandPrediction(p.offset, p.cross, p.drift, offsetNoise, driftNoise, dt, x, y);
  }

  lemma ExpandPrediction(a: real, b: real, d: real, q: real, r: real, t: real, x: real, y: real)
    ensures (a + 2.0 * (b * t) + d * (t * t) + t * q) * (x * x) + 2.0 * ((b + d * t) * (x * y)) + (d + t * r) * (y * y)
      == a * (x * x) + 2.0 * (b * (x * (x * t + y))) + d * ((x * t + y) * (x * t + y))
        + t * q * (x * x) + t * r * (y * y)
  {
  }

  lemma ForgetScales(p: Cov, factor: real, x: real, y: real)
    ensures VarianceAt(Forget(p, factor), x, y) == factor * VarianceAt(p, x, y)
  {
    assert (p.offset * factor) * Sq(x) == factor * (p.offset * Sq(x));
    assert (p.cross * factor) * (x * y) == factor * (p.cross * (x * y));
    assert (p.drift * factor) * Sq(y) == factor * (p.drift * Sq(y));
  }

  /** The variance in one direction once the filter's state is moved over `dt` and has gathered noise. */
  function Propagated(f: Filter, n: Noise, dt: real, x: real, y: real): real
    requires f.offsetVariance.Some?
  {
    VarianceAt(Cov(f.offsetVariance.value, f.cross, f.driftVariance), x, x * dt + y)
    + dt * n.process * Sq(x) + dt * n.driftProcess * Sq(y)
  }

  /**
   What a sample is weighed against, in every direction: the propagated covariance, inflated when after a
   hundred measurements one misses the prediction by more than three times its error.
   */
  lemma PriorVariance(f: Filter, n: Noise, measurement: int, maxError: int, dt: real, x: real, y: real)
    requires f.offsetVariance.Some?
    ensures var missed := Abs(measurement as real - Ahead(f.offset, f.drift, dt)) > 3.0 * maxError as real;
      VarianceAt(Prior(f, n, measurement, maxError, dt), x, y)
        == if f.count >= 100 && missed then n.forget * Propagated(f, n, dt, x, y) else Propagated(f, n, dt, x, y)
  {
    PredictPropagates(Matrix(f), dt, n.process, n.driftProcess, x, y);
    ForgetScales(Predict(Matrix(f), dt, n.process, n.driftProcess), n.forget, x, y);
    assert maxError as real * ADAPTIVE_FORGETTING_CUTOFF == 3.0 * maxError as real;
  }

  /** The weight that moving offset and drift by `k0` and `k1` times the residual has in one direction. */
  function Joint(k0: real, k1: real, x: real, y: real): real { k0 * x + k1 * y }

  /** The variance such a correction leaves in that direction. */
  function VarianceLeft(p: Cov, variance: real, weight: real, x: real, y: real): real {
    VarianceAt(p, x - weight, y) + variance * Sq(weight)
  }

  function Parabola(v: real, s: real, m: real, u: real): real { v - 2.0 * (u * m) + s * Sq(u) }

  /** That variance as a parabola in the joint weight. */
  lemma LeftIsParabola(p: Cov, variance: real, u: real, x: real, y: real, m: real)
    requires m == p.offset * x + p.cross * y
    ensures VarianceLeft(p, variance, u, x, y) == Parabola(VarianceAt(p, x, y), p.offset + variance, m, u)
  {
    var a, b, uu := p.offset, p.cross, Sq(u);
    assert Sq(x - u) == Sq(x) - 2.0 * (u * x) + uu;
    assert a * (Sq(x) - 2.0 * (u * x) + uu) == a * Sq(x) - 2.0 * (u * (a * x)) + a * uu by {
      assert a * (u * x) == u * (a * x);
    }
    assert (x - u) * y == x * y - u * y;
    assert b * (x * y - u * y) == b * (x * y) - u * (b * y) by { assert b * (u * y) == u * (b * y); }
    assert u * m == u * (a * x) + u * (b * y);
    assert (a + variance) * uu == a * uu + variance * uu;
  }

  /** A parabola is lowest where its slope vanishes. */
  lemma ParabolaLowest(v: real, s: real, m: real, u: real, best: real)
    requires s >= 0.0 && Product(s, best) == m
    ensures Parabola(v, s, m, u) >= v - Product(best, m)
    ensures Parabola(v, s, m, best) == v - Product(best, m)
  {
    SquareNotNegative(u - best);
    ProductNotNegative(s, Sq(u - best));
    assert Sq(u - best) == Sq(u) - 2.0 * (u * best) + Sq(best);
    assert s * Sq(u - best) == s * Sq(u) - 2.0 * (u * (s * best)) + best * (s * best) by {
      assert s * (u * best) == u * (s * best) && s * Sq(best) == best * (s * best);
    }
    assert s * Sq(best) == best * (s * best);
  }

  /** The joint weight of the filter's own gains, and the covariance it leaves. */
  lemma CorrectInDirection(p: Cov, variance: real, x: real, y: real, m: real)
    requires p.offset + variance > VARIANCE_FLOOR && m == p.offset * x + p.cross * y
    ensures var best := Joint(OffsetGain(p, variance), DriftGain(p, variance), x, y);
      && Product(p.offset + variance, best) == m
      && VarianceAt(Correct(p, variance), x, y) == VarianceAt(p, x, y) - Product(best, m)
  {
    var a, b, v := p.offset, p.cross, 1.0 / Innovation(p, variance);
    assert (a + variance) * v == 1.0;
    assert (a * v) * x + (b * v) * y == v * m by { assert (a * v) * x == v * (a * x) && (b * v) * y == v * (b * y); }
    assert (a + variance) * (v * m) == ((a + variance) * v) * m;
    OuterProduct(a, b, v, x, y);
    ExpandCorrection(a, b, p.drift, (a * v) * a, (b * v) * a, (b * v) * b, Sq(x), x * y, Sq(y));
  }

  lemma ExpandCorrection(a: real, b: real, d: real, r: real, s: real, t: real, xx: real, xy: real, yy: real)
    ensures (a - r) * xx + 2.0 * ((b - s) * xy) + (d - t) * yy
      == a * xx + 2.0 * (b * xy) + d * yy - (r * xx + 2.0 * (s * xy) + t * yy)
  {
  }

  lemma OuterProduct(a: real, b: real, v: real, x: real, y: real)
    ensures var m := a * x + b * y;
      ((a * v) * a) * Sq(x) + 2.0 * (((b * v) * a) * (x * y)) + ((b * v) * b) * Sq(y) == (v * m) * m
  {
    var first, second := a * x, b * y;
    assert ((a * v) * a) * Sq(x) == v * (first * first);
    assert ((b * v) * a) * (x * y) == v * (first * second);
    assert ((b * v) * b) * Sq(y) == v * (second * second);
    assert (first + second) * (first + second) == first * first + 2.0 * (first * second) + second * second;
    assert (v * (first + second)) * (first + second) == v * ((first + second) * (first + second));
  }

  /**
   The gains are optimal together: in every direction of offset and drift, no other pair of gains leaves a
   smaller variance than the stored covariance says, and the filter's own leave just that.
   */
  lemma GainsAreOptimal(p: Cov, variance: real, k0: real, k1: real, x: real, y: real)
    requires p.offset >= 0.0 && variance >= 0.0 && p.offset + variance > VARIANCE_FLOOR
    ensures VarianceLeft(p, variance, Joint(k0, k1, x, y), x, y) >= VarianceAt(Correct(p, variance), x, y)
    ensures VarianceLeft(p, variance, Joint(OffsetGain(p, variance), DriftGain(p, variance), x, y), x, y)
      == VarianceAt(Correct(p, variance), x, y)
  {
    var s, m := p.offset + variance, p.offset * x + p.cross * y;
    var best, u := Joint(OffsetGain(p, variance), DriftGain(p, variance), x, y), Joint(k0, k1, x, y);
    CorrectInDirection(p, variance, x, y, m);
    LeftIsParabola(p, variance, best, x, y, m);
    LeftIsParabola(p, variance, u, x, y, m);
    ParabolaLowest(VarianceAt(p, x, y), s, m, u, best);
  }

  /**
   From the third measurement on the estimate is the mean of prediction and measurement, weighted by each
   other's variance, and the drift moves with the offset as the prior correlates the two.
   */
  lemma WeighedByVariance(f: Filter, n: Noise, measurement: int, maxError: int, timeAdded: int)
    requires Sound(f) && f.count >= 2 && timeAdded > f.lastUpdate
    requires Prior(f, n, measurement, maxError, (timeAdded - f.lastUpdate) as real).offset + SampleVariance(maxError)
      > VARIANCE_FLOOR
    ensures var dt := (timeAdded - f.lastUpdate) as real;
      IsWeighed(f, Prior(f, n, measurement, maxError, dt), SampleVariance(maxError), measurement as real, dt,
        Measured(f, n, measurement, maxError, timeAdded))
  {
    var prior := Prior(f, n, measurement, maxError, (timeAdded - f.lastUpdate) as real);
    WeighIsWeighed(f, prior, measurement as real, SampleVariance(maxError), timeAdded);
  }

  predicate IsWeighed(f: Filter, prior: Cov, variance: real, m: real, dt: real, after: Filter) {
    var s, predicted := prior.offset + variance, Ahead(f.offset, f.drift, dt);
    && s * after.offset == variance * predicted + prior.offset * m
    && s * (after.drift - f.drift) == prior.cross * (m - predicted)
    && after.offsetVariance == Some(Correct(prior, variance).offset)
    && after.cross == Correct(prior, variance).cross && after.driftVariance == Correct(prior, variance).drift
  }

  lemma WeighIsWeighed(f: Filter, prior: Cov, m: real, variance: real, timeAdded: int)
    requires prior.offset + variance > VARIANCE_FLOOR
    ensures IsWeighed(f, prior, variance, m, (timeAdded - f.lastUpdate) as real,
      Weigh(f, prior, m, variance, timeAdded))
  {
    var s, predicted := prior.offset + variance, Ahead(f.offset, f.drift, (timeAdded - f.lastUpdate) as real);
    var g := 1.0 / s;
    assert s * g == 1.0;
    GainTimes(s, g, prior.offset, predicted, m - predicted);
    GainTimes(s, g, prior.cross, f.drift, m - predicted);
    WeightedMean(variance, prior.offset, predicted, m);
  }

  lemma GainTimes(s: real, g: real, a: real, x: real, residual: real)
    requires s * g == 1.0
    ensures s * Ahead(x, a * g, residual) == s * x + a * residual
    ensures s * (Ahead(x, a * g, residual) - x) == a * residual
  {
    assert s * ((a * g) * residual) == (s * g) * (a * residual);
  }

  lemma WeightedMean(v: real, a: real, x: real, z: real)
    ensures (a + v) * x + a * (z - x) == v * x + a * z
  {
  }

  /** The drift of two measurements has the variance of their difference over the square of the time between. */
  lemma SecondVariance(f: Filter, n: Noise, measurement: int, maxError: int, timeAdded: int)
    requires Sound(f) && f.count == 1 && timeAdded > f.lastUpdate
    ensures var dt, after := (timeAdded - f.lastUpdate) as real, Measured(f, n, measurement, maxError, timeAdded);
      && Product(dt, dt) * after.driftVariance == f.offsetVariance.value + SampleVariance(maxError)
      && after.offsetVariance == Some(SampleVariance(maxError)) && after.cross == 0.0
  {
    var dt := (timeAdded - f.lastUpdate) as real;
    PositiveProduct(dt, dt);
    QuotientCancels(f.offsetVariance.value + SampleVariance(maxError), Product(dt, dt));
  }
}
