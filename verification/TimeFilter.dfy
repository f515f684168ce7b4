/**
 Clock synchronization: a two-state Kalman filter over offset and drift, and the conversions
 between client and server time. Floating point is modelled by exact reals.
 */
module TimeFilter {
  import opened Common

  const ADAPTIVE_FORGETTING_CUTOFF := 3.0
  const MAX_ERROR_SCALE := 0.5
  const DRIFT_SIGNIFICANCE_THRESHOLD_SQUARED := 4.0
  const VARIANCE_FLOOR := 0.000000001

  function Abs(x: real): real { if x < 0.0 then -x else x }

  function Sq(x: real): real { x * x }

  // ---------------------------------------------------------------- real arithmetic

  lemma SquareNotNegative(x: real)
    ensures Sq(x) >= 0.0
  {
    if x < 0.0 { assert x * x == (-x) * (-x); }
  }

  lemma SquarePositive(x: real)
    requires x != 0.0
    ensures Sq(x) > 0.0
  {
    var y := if x > 0.0 then x else -x;
    PositiveProduct(y, y);
    assert Product(y, y) == Sq(x);
  }

  // The solver rewrites a bare `x * x > 0.0`, so the sign of a square is stated of a function value.
  function Product(x: real, y: real): real { x * y }

  lemma PositiveProduct(x: real, y: real)
    requires x > 0.0 && y > 0.0
    ensures Product(x, y) > 0.0
  {
  }

  lemma ProductNotNegative(x: real, y: real)
    requires x >= 0.0 && y >= 0.0
    ensures x * y >= 0.0
  {
  }

  lemma NegativeProduct(x: real, y: real)
    requires x > 0.0 && y < 0.0
    ensures x * y < 0.0
  {
  }

  lemma ScaleOrder(x: real, y: real, k: real)
    requires x <= y && k >= 0.0
    ensures x * k <= y * k
  {
    ProductNotNegative(y - x, k);
    assert (y - x) * k == y * k - x * k;
  }

  lemma QuotientCancels(x: real, y: real)
    requires y != 0.0
    ensures y * (x / y) == x
  {
  }

  // ---------------------------------------------------------------- covariance

  /** The covariance matrix [offset, cross; cross, drift]. */
  datatype Cov = Cov(offset: real, cross: real, drift: real)

  /** Positive semidefinite: neither variance is negative, nor is the determinant. */
  predicate Psd(p: Cov) { p.offset >= 0.0 && p.drift >= 0.0 && p.offset * p.drift >= Sq(p.cross) }

  /** The variance of `x * offset + y * drift` under `p`. */
  function VarianceAt(p: Cov, x: real, y: real): real {
    p.offset * Sq(x) + 2.0 * (p.cross * (x * y)) + p.drift * Sq(y)
  }

  /** F P F^T + Q for the state transition over `dt`. */
  function Predict(p: Cov, dt: real, offsetNoise: real, driftNoise: real): Cov {
    Cov(p.offset + 2.0 * (p.cross * dt) + p.drift * Sq(dt) + dt * offsetNoise,
        p.cross + p.drift * dt,
        p.drift + dt * driftNoise)
  }

  function Forget(p: Cov, factor: real): Cov { Cov(p.offset * factor, p.cross * factor, p.drift * factor) }

  /** The divisor of both gains, kept away from zero. */
  function Innovation(p: Cov, variance: real): real {
    if p.offset + variance > VARIANCE_FLOOR then p.offset + variance else VARIANCE_FLOOR
  }

  function OffsetGain(p: Cov, variance: real): real { p.offset * (1.0 / Innovation(p, variance)) }
  function DriftGain(p: Cov, variance: real): real { p.cross * (1.0 / Innovation(p, variance)) }

  /** (I - K H) P with the gains K of a measurement of the offset. */
  function Correct(p: Cov, variance: real): Cov {
    Cov(p.offset - OffsetGain(p, variance) * p.offset,
        p.cross - DriftGain(p, variance) * p.offset,
        p.drift - DriftGain(p, variance) * p.cross)
  }

  /** The matrix is positive semidefinite exactly when no combination of the states has negative variance. */
  lemma PsdIffNoNegativeVariance(p: Cov)
    ensures Psd(p) <==> forall x, y :: VarianceAt(p, x, y) >= 0.0
  {
    if Psd(p) {
      forall x, y ensures VarianceAt(p, x, y) >= 0.0 { PsdVariance(p, x, y); }
    }
    if forall x, y :: VarianceAt(p, x, y) >= 0.0 {
      assert VarianceAt(p, 1.0, 0.0) == p.offset;
      assert VarianceAt(p, 0.0, 1.0) == p.drift;
      NoNegativeDirection(p);
    }
  }

  lemma PsdVariance(p: Cov, x: real, y: real)
    requires Psd(p)
    ensures VarianceAt(p, x, y) >= 0.0
  {
    SquareNotNegative(y);
    ProductNotNegative(p.drift, Sq(y));
    if p.offset == 0.0 {
      if p.cross != 0.0 { SquarePositive(p.cross); }
      assert p.cross * (x * y) == 0.0;
    } else {
      assert p.offset * VarianceAt(p, x, y) >= 0.0 by {
        SquareNotNegative(p.offset * x + p.cross * y);
        CompletedSquare(p, x, y);
        ProductNotNegative(p.offset * p.drift - Sq(p.cross), Sq(y));
      }
      if VarianceAt(p, x, y) < 0.0 { NegativeProduct(p.offset, VarianceAt(p, x, y)); }
    }
  }

  lemma CompletedSquare(p: Cov, x: real, y: real)
    ensures p.offset * VarianceAt(p, x, y)
      == Sq(p.offset * x + p.cross * y) + (p.offset * p.drift - Sq(p.cross)) * Sq(y)
  {
    var a, b, d := p.offset, p.cross, p.drift;
    var f, g := a * x, b * y;
    assert Sq(f + g) == f * f + 2.0 * (f * g) + g * g;
    assert f * f == a * (a * Sq(x));
    assert f * g == a * (b * (x * y));
    assert g * g == Sq(b) * Sq(y);
    assert (a * d - Sq(b)) * Sq(y) == a * (d * Sq(y)) - Sq(b) * Sq(y);
  }

  lemma NoNegativeDirection(p: Cov)
    requires forall x, y :: VarianceAt(p, x, y) >= 0.0
    requires p.offset >= 0.0
    ensures p.offset * p.drift >= Sq(p.cross)
  {
    var a, b, d := p.offset, p.cross, p.drift;
    if a > 0.0 {
      assert VarianceAt(p, -b, a) >= 0.0;
      NullDirection(a, b, d);
      if a * d - Sq(b) < 0.0 { NegativeProduct(a, a * d - Sq(b)); }
    } else if b != 0.0 {
      var x := -((d + 1.0) / (2.0 * b));
      assert VarianceAt(p, x, 1.0) >= 0.0;
      QuotientCancels(d + 1.0, 2.0 * b);
    } else {
      assert Sq(b) == 0.0;
    }
  }

  lemma NullDirection(a: real, b: real, d: real)
    ensures VarianceAt(Cov(a, b, d), -b, a) == a * (a * d - Sq(b))
  {
    assert Sq(-b) == Sq(b);
    assert b * ((-b) * a) == -(a * Sq(b));
    assert d * Sq(a) == a * (a * d);
  }

  lemma PredictKeepsPsd(p: Cov, dt: real, offsetNoise: real, driftNoise: real)
    requires Psd(p) && dt > 0.0 && offsetNoise >= 0.0 && driftNoise >= 0.0
    ensures Psd(Predict(p, dt, offsetNoise, driftNoise))
  {
    MovedOffset(p, dt);
    MovedDeterminant(p.offset, p.cross, p.drift, dt);
    ProductNotNegative(dt, offsetNoise);
    ProductNotNegative(dt, driftNoise);
    NoiseAdds(p.offset + 2.0 * (p.cross * dt) + p.drift * Sq(dt), p.cross + p.drift * dt, p.drift,
              dt * offsetNoise, dt * driftNoise);
  }

  lemma MovedOffset(p: Cov, dt: real)
    requires Psd(p)
    ensures p.offset + 2.0 * (p.cross * dt) + p.drift * Sq(dt) >= 0.0
  {
    PsdVariance(p, 1.0, dt);
    assert Sq(1.0) == 1.0 && 1.0 * dt == dt;
  }

  lemma MovedDeterminant(a: real, b: real, d: real, t: real)
    ensures (a + 2.0 * (b * t) + d * Sq(t)) * d - Sq(b + d * t) == a * d - Sq(b)
  {
    var s := d * t;
    assert Sq(b + s) == Sq(b) + 2.0 * (b * s) + Sq(s);
    assert Sq(s) == (d * Sq(t)) * d;
    assert (2.0 * (b * t)) * d == 2.0 * (b * s);
    assert (a + 2.0 * (b * t) + d * Sq(t)) * d == a * d + (2.0 * (b * t)) * d + (d * Sq(t)) * d;
  }

  lemma NoiseAdds(a: real, b: real, d: real, u: real, w: real)
    requires a >= 0.0 && d >= 0.0 && u >= 0.0 && w >= 0.0 && a * d >= Sq(b)
    ensures Psd(Cov(a + u, b, d + w))
  {
    assert (a + u) * (d + w) == a * d + u * d + a * w + u * w;
    ProductNotNegative(u, d);
    ProductNotNegative(a, w);
    ProductNotNegative(u, w);
  }

  lemma ForgetKeepsPsd(p: Cov, factor: real)
    requires Psd(p) && factor >= 0.0
    ensures Psd(Forget(p, factor))
  {
    assert (p.offset * factor) * (p.drift * factor) == (p.offset * p.drift) * Sq(factor);
    assert Sq(p.cross * factor) == Sq(p.cross) * Sq(factor);
    SquareNotNegative(factor);
    ScaleOrder(Sq(p.cross), p.offset * p.drift, Sq(factor));
    ProductNotNegative(p.offset, factor);
    ProductNotNegative(p.drift, factor);
  }

  /** The gain of the offset is a weight between the prediction and the measurement. */
  lemma GainIsWeight(p: Cov, variance: real)
    requires p.offset >= 0.0 && variance >= 0.0
    ensures 0.0 <= OffsetGain(p, variance) <= 1.0
  {
    var s := Innovation(p, variance);
    var k := OffsetGain(p, variance);
    assert s * (1.0 / s) == 1.0;
    assert s * k == p.offset * (s * (1.0 / s));
    assert s * (1.0 - k) == s - s * k;
    if k > 1.0 { NegativeProduct(s, 1.0 - k); }
    if k < 0.0 { NegativeProduct(s, k); }
  }

  lemma CorrectKeepsPsd(p: Cov, variance: real)
    requires Psd(p) && variance >= 0.0
    ensures Psd(Correct(p, variance))
  {
    var u := 1.0 / Innovation(p, variance);
    GainIsWeight(p, variance);
    CorrectFactored(p.offset, p.cross, p.drift, u);
    ShrunkPsd(p.offset, p.cross, p.drift, u);
  }

  /** Shrinking by a weight `a * u` of at most one keeps a matrix positive semidefinite. */
  lemma ShrunkPsd(a: real, b: real, d: real, u: real)
    requires Psd(Cov(a, b, d)) && u >= 0.0 && 0.0 <= a * u <= 1.0
    ensures Psd(Cov(a * (1.0 - a * u), b * (1.0 - a * u), d - Sq(b) * u))
  {
    ProductNotNegative(a, 1.0 - a * u);
    ShrunkDrift(a, b, d, u);
    CorrectedDeterminant(a, b, d, u);
    ProductNotNegative(1.0 - a * u, a * d - Sq(b));
  }

  lemma ShrunkDrift(a: real, b: real, d: real, u: real)
    requires d >= 0.0 && a * d >= Sq(b) && u >= 0.0 && a * u <= 1.0
    ensures d - Sq(b) * u >= 0.0
  {
    ScaleOrder(Sq(b), a * d, u);
    assert (a * d) * u == (a * u) * d;
    ScaleOrder(a * u, 1.0, d);
  }

  lemma CorrectFactored(a: real, b: real, d: real, u: real)
    ensures a - (a * u) * a == a * (1.0 - a * u)
    ensures b - (b * u) * a == b * (1.0 - a * u)
    ensures d - (b * u) * b == d - Sq(b) * u
  {
    assert (b * u) * a == b * (a * u);
    assert (b * u) * b == Sq(b) * u;
  }

  lemma CorrectedDeterminant(a: real, b: real, d: real, u: real)
    ensures var g := 1.0 - a * u;
      (a * g) * (d - Sq(b) * u) - Sq(b * g) == g * (a * d - Sq(b))
  {
    var g, bb := 1.0 - a * u, Sq(b);
    assert Sq(b * g) == g * (bb * g);
    assert (a * g) * (d - bb * u) == g * (a * d) - g * (bb * (a * u));
    assert bb * (a * u) + bb * g == bb;
    assert g * (bb * (a * u)) + g * (bb * g) == g * (bb * (a * u) + bb * g);
  }

  /** With the floor inactive, no sample leaves more offset variance than its own. */
  lemma CorrectBoundedBySample(p: Cov, variance: real)
    requires p.offset >= 0.0 && variance >= 0.0 && p.offset + variance > VARIANCE_FLOOR
    ensures Correct(p, variance).offset == variance * OffsetGain(p, variance)
    ensures 0.0 <= Correct(p, variance).offset <= variance
    ensures Correct(p, variance).offset <= p.offset
  {
    var a, u := p.offset, 1.0 / Innovation(p, variance);
    GainIsWeight(p, variance);
    assert (a + variance) * u == 1.0;
    assert OffsetGain(p, variance) == a * u;
    assert Correct(p, variance).offset == a * (1.0 - a * u) by { CorrectFactored(a, p.cross, p.drift, u); }
    ShrunkBySample(a, variance, u);
  }

  lemma ShrunkBySample(a: real, r: real, u: real)
    requires a >= 0.0 && r >= 0.0 && 0.0 <= a * u <= 1.0 && (a + r) * u == 1.0
    ensures a * (1.0 - a * u) == r * (a * u)
    ensures 0.0 <= a * (1.0 - a * u) <= r
    ensures a * (1.0 - a * u) <= a
  {
    var k := a * u;
    assert k + r * u == 1.0;
    assert a * (r * u) == r * k;
    FractionOf(r, k);
    FractionOf(a, 1.0 - k);
    assert (1.0 - k) * a == a * (1.0 - k) && k * r == r * k;
  }

  /** The gain is the best weight: no other one leaves a smaller variance of the offset estimate. */
  lemma GainIsOptimal(p: Cov, variance: real, weight: real)
    requires p.offset >= 0.0 && variance >= 0.0 && p.offset + variance > VARIANCE_FLOOR
    ensures p.offset * Sq(1.0 - weight) + variance * Sq(weight) >= Correct(p, variance).offset
  {
    var a, r := p.offset, variance;
    var s := a + r;
    var k := OffsetGain(p, variance);
    CorrectBoundedBySample(p, variance);
    assert s * k == a by {
      assert s * (1.0 / s) == 1.0;
      assert s * k == a * (s * (1.0 / s));
    }
    assert r * k == s * k - a * k by {
      assert s * k == a * k + r * k;
    }
    var e := weight - k;
    SquareNotNegative(e);
    ProductNotNegative(s, Sq(e));
    WeightedVariance(a, r, k, e);
    assert (s * k) * k == a * k && (s * k) * e == a * e;
  }

  /** The variance left by the weight `k + e`, as a parabola in `e`. */
  lemma WeightedVariance(a: real, r: real, k: real, e: real)
    ensures a * Sq(1.0 - (k + e)) + r * Sq(k + e)
      == a - 2.0 * (a * k) - 2.0 * (a * e) + ((a + r) * k) * k + 2.0 * (((a + r) * k) * e) + (a + r) * Sq(e)
  {
    var s, w := a + r, k + e;
    assert Sq(w) == k * k + 2.0 * (k * e) + Sq(e);
    assert a * Sq(1.0 - w) + r * Sq(w) == a - 2.0 * (a * w) + s * Sq(w) by {
      assert Sq(1.0 - w) == 1.0 - 2.0 * w + Sq(w);
      assert a * (1.0 - 2.0 * w + Sq(w)) == a - 2.0 * (a * w) + a * Sq(w);
      assert s * Sq(w) == a * Sq(w) + r * Sq(w);
    }
    assert s * Sq(w) == s * (k * k) + 2.0 * (s * (k * e)) + s * Sq(e);
    assert s * (k * k) == (s * k) * k && s * (k * e) == (s * k) * e;
    assert a * w == a * k + a * e;
  }

  /** While the floor is active a sample can leave more variance than its own: an error-free one does. */
  lemma FlooredExceedsSample()
    ensures var p := Cov(0.0000000001, 0.0, 0.0);
      Psd(p) && p.offset + 0.0 <= VARIANCE_FLOOR && Correct(p, 0.0).offset > 0.0
  {
    var p := Cov(0.0000000001, 0.0, 0.0);
    assert OffsetGain(p, 0.0) == 0.1;
  }

  // ---------------------------------------------------------------- the filter

  /** Time transformation parameters. */
  datatype TimeElement = TimeElement(lastUpdate: int, offset: real, drift: real, useDrift: bool)

  /** The state of the filter; before the first measurement the offset variance is infinite. */
  datatype Filter = Filter(
    lastUpdate: int,
    count: nat,
    offset: real,
    drift: real,
    offsetVariance: Option<real>,
    cross: real,
    driftVariance: real,
    element: TimeElement)

  datatype Noise = Noise(process: real, driftProcess: real, forget: real)

  function Matrix(f: Filter): Cov
    requires f.offsetVariance.Some?
  {
    Cov(f.offsetVariance.value, f.cross, f.driftVariance)
  }

  function SampleVariance(maxError: int): real { Sq(maxError as real * MAX_ERROR_SCALE) }

  function Ahead(x: real, slope: real, distance: real): real { x + slope * distance }

  /** Whether a drift stands out from its own uncertainty. */
  predicate Significant(drift: real, variance: real) { Sq(drift) > DRIFT_SIGNIFICANCE_THRESHOLD_SQUARED * variance }

  predicate Forgets(count: nat, residual: real, maxError: int) {
    count >= 100 && Abs(residual) > maxError as real * ADAPTIVE_FORGETTING_CUTOFF
  }

  /** The matrix a sample is weighed against: predicted over `dt`, and inflated when forgetting. */
  function Prior(f: Filter, n: Noise, measurement: int, maxError: int, dt: real): Cov
    requires f.offsetVariance.Some?
  {
    var predicted := Predict(Matrix(f), dt, n.process, n.driftProcess);
    var residual := measurement as real - Ahead(f.offset, f.drift, dt);
    if Forgets(f.count, residual, maxError) then Forget(predicted, n.forget) else predicted
  }

  /** With nothing to weigh it against, a measurement is taken as it is. */
  function EstablishOffset(f: Filter, m: real, variance: real, timeAdded: int): Filter {
    Filter(timeAdded, 1, m, 0.0, Some(variance), f.cross, f.driftVariance, TimeElement(timeAdded, m, 0.0, false))
  }

  /** Two measurements give a slope. */
  function EstablishDrift(f: Filter, m: real, variance: real, timeAdded: int): Filter
    requires f.offsetVariance.Some? && timeAdded > f.lastUpdate
  {
    var dt := (timeAdded - f.lastUpdate) as real;
    var drift := (m - f.offset) / dt;
    Filter(timeAdded, 2, m, drift, Some(variance), f.cross, (f.offsetVariance.value + variance) / Product(dt, dt),
           TimeElement(timeAdded, m, drift, false))
  }

  /** Any later one is weighed against the prior. */
  function Weigh(f: Filter, prior: Cov, m: real, variance: real, timeAdded: int): Filter {
    var predicted := Ahead(f.offset, f.drift, (timeAdded - f.lastUpdate) as real);
    var post := Correct(prior, variance);
    var offset := Ahead(predicted, OffsetGain(prior, variance), m - predicted);
    var drift := Ahead(f.drift, DriftGain(prior, variance), m - predicted);
    Filter(timeAdded, if f.count < 100 then f.count + 1 else f.count, offset, drift,
           Some(post.offset), post.cross, post.drift,
           TimeElement(timeAdded, offset, drift, Significant(drift, post.drift)))
  }

  /** One measurement; a timestamp that does not advance is skipped. */
  function Measured(f: Filter, n: Noise, measurement: int, maxError: int, timeAdded: int): Filter
    requires f.count > 0 ==> f.offsetVariance.Some?
  {
    var m, variance := measurement as real, SampleVariance(maxError);
    if timeAdded <= f.lastUpdate then f
    else if f.count == 0 then EstablishOffset(f, m, variance, timeAdded)
    else if f.count == 1 then EstablishDrift(f, m, variance, timeAdded)
    else Weigh(f, Prior(f, n, measurement, maxError, (timeAdded - f.lastUpdate) as real), m, variance, timeAdded)
  }

  /** What every run of the filter keeps: a covariance with no negative variance in any direction. */
  predicate Sound(f: Filter) {
    && (f.count > 0 <==> f.offsetVariance.Some?)
    && (f.count > 0 ==> Psd(Matrix(f)))
    && (f.count <= 1 ==> f.cross == 0.0 && f.driftVariance == 0.0)
  }

  predicate NoiseValid(n: Noise) { n.process >= 0.0 && n.driftProcess >= 0.0 && n.forget >= 0.0 }

  lemma DiagonalPsd(a: real, d: real)
    requires a >= 0.0 && d >= 0.0
    ensures Psd(Cov(a, 0.0, d))
  {
    ProductNotNegative(a, d);
    assert Sq(0.0) == 0.0;
  }

  lemma DivisionNotNegative(x: real, y: real)
    requires x >= 0.0 && y > 0.0
    ensures x / y >= 0.0
  {
    QuotientCancels(x, y);
    var q := x / y;
    if q < 0.0 { NegativeProduct(y, q); }
  }

  lemma PriorPsd(f: Filter, n: Noise, measurement: int, maxError: int, dt: real)
    requires Sound(f) && NoiseValid(n) && f.count > 0 && dt > 0.0
    ensures Psd(Prior(f, n, measurement, maxError, dt))
  {
    PredictKeepsPsd(Matrix(f), dt, n.process, n.driftProcess);
    ForgetKeepsPsd(Predict(Matrix(f), dt, n.process, n.driftProcess), n.forget);
  }

  /** Every measurement keeps the covariance positive semidefinite, through prediction, forgetting and update. */
  lemma MeasuredKeepsSound(f: Filter, n: Noise, measurement: int, maxError: int, timeAdded: int)
    requires Sound(f) && NoiseValid(n)
    ensures Sound(Measured(f, n, measurement, maxError, timeAdded))
  {
    if timeAdded > f.lastUpdate {
      var dt := (timeAdded - f.lastUpdate) as real;
      var variance := SampleVariance(maxError);
      SquareNotNegative(maxError as real * MAX_ERROR_SCALE);
      if f.count == 0 {
        DiagonalPsd(variance, 0.0);
      } else if f.count == 1 {
        PositiveProduct(dt, dt);
        DivisionNotNegative(f.offsetVariance.value + variance, Product(dt, dt));
        DiagonalPsd(variance, (f.offsetVariance.value + variance) / Product(dt, dt));
      } else {
        PriorPsd(f, n, measurement, maxError, dt);
        CorrectKeepsPsd(Prior(f, n, measurement, maxError, dt), variance);
      }
    }
  }

  /** A corrected offset lies between the prediction and the measurement. */
  lemma OffsetBetween(f: Filter, n: Noise, measurement: int, maxError: int, timeAdded: int)
    requires Sound(f) && NoiseValid(n) && f.count >= 2 && timeAdded > f.lastUpdate
    ensures var predicted := Ahead(f.offset, f.drift, (timeAdded - f.lastUpdate) as real);
      Between(predicted, Measured(f, n, measurement, maxError, timeAdded).offset, measurement as real)
  {
    var dt := (timeAdded - f.lastUpdate) as real;
    var prior := Prior(f, n, measurement, maxError, dt);
    assert SampleVariance(maxError) >= 0.0 by { SquareNotNegative(maxError as real * MAX_ERROR_SCALE); }
    PriorPsd(f, n, measurement, maxError, dt);
    GainIsWeight(prior, SampleVariance(maxError));
    WeightedBetween(Ahead(f.offset, f.drift, dt), measurement as real, OffsetGain(prior, SampleVariance(maxError)));
  }

  predicate Between(x: real, y: real, z: real) { x <= y <= z || z <= y <= x }

  lemma WeightedBetween(x: real, z: real, k: real)
    requires 0.0 <= k <= 1.0
    ensures Between(x, Ahead(x, k, z - x), z)
  {
    var gap := z - x;
    assert Ahead(x, k, z - x) == x + k * gap;
    if gap >= 0.0 {
      FractionOf(gap, k);
    } else {
      FractionOf(-gap, k);
      assert k * (-gap) == -(k * gap);
    }
  }

  lemma FractionOf(gap: real, k: real)
    requires 0.0 <= k <= 1.0 && gap >= 0.0
    ensures 0.0 <= k * gap <= gap
  {
    ProductNotNegative(k, gap);
    ScaleOrder(k, 1.0, gap);
    assert 1.0 * gap == gap;
  }

  /** From the third measurement on, the offset variance is at most the sample's, unless floored. */
  lemma VarianceBoundedBySample(f: Filter, n: Noise, measurement: int, maxError: int, timeAdded: int)
    requires Sound(f) && NoiseValid(n) && timeAdded > f.lastUpdate
    requires f.count >= 2 ==>
      Prior(f, n, measurement, maxError, (timeAdded - f.lastUpdate) as real).offset +
        SampleVariance(maxError) > VARIANCE_FLOOR
    ensures Measured(f, n, measurement, maxError, timeAdded).offsetVariance.Some?
    ensures 0.0 <= Measured(f, n, measurement, maxError, timeAdded).offsetVariance.value <= SampleVariance(maxError)
  {
    SquareNotNegative(maxError as real * MAX_ERROR_SCALE);
    if f.count >= 2 {
      var dt := (timeAdded - f.lastUpdate) as real;
      PriorPsd(f, n, measurement, maxError, dt);
      CorrectBoundedBySample(Prior(f, n, measurement, maxError, dt), SampleVariance(maxError));
    }
  }

  /** One call of `update`. */
  datatype Sample = Sample(measurement: int, maxError: int, timeAdded: int)

  const INITIAL := Filter(0, 0, 0.0, 0.0, None, 0.0, 0.0, TimeElement(0, 0.0, 0.0, false))

  function Filtered(n: Noise, samples: seq<Sample>): (f: Filter)
    requires NoiseValid(n)
    ensures Sound(f)
  {
    if samples == [] then INITIAL
    else
      var before, s := Filtered(n, samples[..|samples| - 1]), samples[|samples| - 1];
      MeasuredKeepsSound(before, n, s.measurement, s.maxError, s.timeAdded);
      Measured(before, n, s.measurement, s.maxError, s.timeAdded)
  }

  class SendspinTimeFilter {
    const noise: Noise
    var lastUpdate: int
    var count: nat
    var offset: real
    var drift: real
    var offsetVariance: Option<real>
    var cross: real
    var driftVariance: real
    var element: TimeElement

    ghost function AsFilter(): Filter reads this {
      Filter(lastUpdate, count, offset, drift, offsetVariance, cross, driftVariance, element)
    }

    ghost predicate Valid() reads this { NoiseValid(noise) && Sound(AsFilter()) }

    constructor (processStdDev: real, forgetFactor: real, driftProcessStdDev: real)
      ensures Valid() && count == 0 && element == TimeElement(0, 0.0, 0.0, false)
    {
      noise := Noise(Sq(processStdDev), Sq(driftProcessStdDev), Sq(forgetFactor));
      lastUpdate, count, offset, drift := 0, 0, 0.0, 0.0;
      offsetVariance, cross, driftVariance := None, 0.0, 0.0;
      element := TimeElement(0, 0.0, 0.0, false);
      SquareNotNegative(processStdDev);
      SquareNotNegative(driftProcessStdDev);
      SquareNotNegative(forgetFactor);
    }

    method Update(measurement: int, maxError: int, timeAdded: int)
      requires Valid()
      modifies this
      ensures Valid() && AsFilter() == Measured(old(AsFilter()), noise, measurement, maxError, timeAdded)
    {
      MeasuredKeepsSound(AsFilter(), noise, measurement, maxError, timeAdded);
      if timeAdded <= lastUpdate { return; }
      var variance := SampleVariance(maxError);
      if count <= 0 {
        TakeOffset(measurement as real, variance, timeAdded);
      } else if count == 1 {
        TakeDrift(measurement as real, variance, timeAdded);
      } else {
        var prior := PredictAhead(measurement, maxError, (timeAdded - lastUpdate) as real);
        TakeSample(prior, measurement as real, variance, timeAdded);
      }
    }

    method TakeOffset(m: real, variance: real, timeAdded: int)
      modifies this
      ensures AsFilter() == EstablishOffset(old(AsFilter()), m, variance, timeAdded)
    {
      lastUpdate, count := timeAdded, 1;
      offset, offsetVariance, drift := m, Some(variance), 0.0;
      element := TimeElement(lastUpdate, offset, drift, false);
    }

    method TakeDrift(m: real, variance: real, timeAdded: int)
      requires offsetVariance.Some? && timeAdded > lastUpdate
      modifies this
      ensures AsFilter() == EstablishDrift(old(AsFilter()), m, variance, timeAdded)
    {
      var dt := (timeAdded - lastUpdate) as real;
      PositiveProduct(dt, dt);
      lastUpdate, count := timeAdded, 2;
      drift := (m - offset) / dt;
      offset := m;
      driftVariance := (offsetVariance.value + variance) / Product(dt, dt);
      offsetVariance := Some(variance);
      element := TimeElement(lastUpdate, offset, drift, false);
    }

    method PredictAhead(measurement: int, maxError: int, dt: real) returns (prior: Cov)
      requires offsetVariance.Some?
      ensures prior == Prior(AsFilter(), noise, measurement, maxError, dt)
    {
      prior := Predict(Cov(offsetVariance.value, cross, driftVariance), dt, noise.process, noise.driftProcess);
      var residual := measurement as real - Ahead(offset, drift, dt);
      if count >= 100 && Abs(residual) > maxError as real * ADAPTIVE_FORGETTING_CUTOFF {
        prior := Forget(prior, noise.forget);
      }
    }

    method TakeSample(prior: Cov, m: real, variance: real, timeAdded: int)
      modifies this
      ensures AsFilter() == Weigh(old(AsFilter()), prior, m, variance, timeAdded)
    {
      var predicted := Ahead(offset, drift, (timeAdded - lastUpdate) as real);
      var residual := m - predicted;
      lastUpdate := timeAdded;
      if count < 100 { count := count + 1; }
      offset := Ahead(predicted, OffsetGain(prior, variance), residual);
      drift := Ahead(drift, DriftGain(prior, variance), residual);
      var post := Correct(prior, variance);
      driftVariance, cross, offsetVariance := post.drift, post.cross, Some(post.offset);
      element := TimeElement(lastUpdate, offset, drift, Significant(drift, driftVariance));
    }

    method Reset()
      requires Valid()
      modifies this
      ensures Valid() && count == 0 && lastUpdate == 0 && offsetVariance == None
      ensures element == TimeElement(0, 0.0, 0.0, false)
    {
      count, lastUpdate, offset, drift := 0, 0, 0.0, 0.0;
      offsetVariance, cross, driftVariance := None, 0.0, 0.0;
      element := TimeElement(0, 0.0, 0.0, false);
    }

    /** From the first measurement on, and not before, there is a reported error, and just one. */
    lemma ErrorDefined()
      requires Valid()
      ensures count > 0 <==> offsetVariance.Some?
      ensures offsetVariance.Some? ==>
        exists n :: RootRoundsTo(offsetVariance.value, n) &&
          forall m :: RootRoundsTo(offsetVariance.value, m) ==> m == n
    {
      if offsetVariance.Some? {
        var n := RootExists(offsetVariance.value);
        forall m | RootRoundsTo(offsetVariance.value, m) ensures m == n {
          RootMonotone(offsetVariance.value, offsetVariance.value, m, n);
          RootMonotone(offsetVariance.value, offsetVariance.value, n, m);
        }
      }
    }
  }

  // ---------------------------------------------------------------- conversions

  /** Round half to even. */
  function Round(x: real): int {
    var low := x.Floor;
    var part := x - low as real;
    if part < 0.5 then low
    else if part > 0.5 then low + 1
    else if low % 2 == 0 then low else low + 1
  }

  /** Rounding picks a nearest integer, the even one of two. */
  lemma RoundIsNearest(x: real, n: int)
    ensures Round(x) == n <==>
      (Abs(x - n as real) < 0.5 || (Abs(x - n as real) == 0.5 && n % 2 == 0))
  {
  }

  /** The square root of `v`, rounded to the nearest integer, the even one of two, is `n`. */
  predicate RootRoundsTo(v: real, n: int) {
    && n >= 0
    && v <= Sq(n as real + 0.5) && (v == Sq(n as real + 0.5) ==> n % 2 == 0)
    && (n > 0 ==> v >= Sq(n as real - 0.5) && (v == Sq(n as real - 0.5) ==> n % 2 == 0))
  }

  lemma SquareOrder(x: real, y: real)
    requires x >= 0.0 && y >= 0.0
    ensures x < y <==> Sq(x) < Sq(y)
    ensures x == y <==> Sq(x) == Sq(y)
  {
    if x < y {
      SquaresApart(x, y);
    } else if y < x {
      SquaresApart(y, x);
    }
  }

  lemma SquaresApart(x: real, y: real)
    requires 0.0 <= x < y
    ensures Sq(x) < Sq(y)
  {
    PositiveProduct(y - x, y + x);
    assert Product(y - x, y + x) == Sq(y) - Sq(x);
  }

  /** It speaks of the root itself: for any non-negative number, of rounding that number. */
  lemma RootRounds(r: real, n: int)
    requires r >= 0.0
    ensures RootRoundsTo(Sq(r), n) <==> Round(r) == n
  {
    RoundIsNearest(r, n);
    if n >= 0 {
      SquareOrder(r, n as real + 0.5);
      if n > 0 { SquareOrder(r, n as real - 0.5); }
    }
  }

  /** A smaller variance has no larger root; the root is therefore unique. */
  lemma RootMonotone(v: real, w: real, m: int, n: int)
    requires v <= w && RootRoundsTo(v, m) && RootRoundsTo(w, n)
    ensures m <= n
  {
    if m > n { SquareOrder(m as real - 0.5, n as real + 0.5); }
  }

  lemma RootExists(v: real) returns (n: int)
    requires v >= 0.0
    ensures RootRoundsTo(v, n)
  {
    var top := v.Floor + 1;
    var above := top as real + 0.5;
    PositiveProduct(above - 1.0, above);
    assert Product(above - 1.0, above) == Sq(above) - above;
    n := RootBelow(v, top);
  }

  lemma {:induction false} RootBelow(v: real, top: int) returns (n: int)
    requires v >= 0.0 && top >= 0
    requires v <= Sq(top as real + 0.5) && (v == Sq(top as real + 0.5) ==> top % 2 == 0)
    ensures RootRoundsTo(v, n)
    decreases top
  {
    if top == 0 || v > Sq(top as real - 0.5) || (v == Sq(top as real - 0.5) && top % 2 == 0) {
      n := top;
    } else {
      assert (top - 1) as real + 0.5 == top as real - 0.5;
      n := RootBelow(v, top - 1);
    }
  }

  /** After a measurement the reported error is at most half the measurement's own, unless floored. */
  lemma ErrorWithinSample(f: Filter, n: Noise, measurement: int, maxError: nat, timeAdded: int, error: int)
    requires Sound(f) && NoiseValid(n) && timeAdded > f.lastUpdate
    requires f.count >= 2 ==>
      Prior(f, n, measurement, maxError, (timeAdded - f.lastUpdate) as real).offset +
        SampleVariance(maxError) > VARIANCE_FLOOR
    requires var after := Measured(f, n, measurement, maxError, timeAdded);
      after.offsetVariance.Some? && RootRoundsTo(after.offsetVariance.value, error)
    ensures 0 <= error <= Round(maxError as real * MAX_ERROR_SCALE)
  {
    VarianceBoundedBySample(f, n, measurement, maxError, timeAdded);
    var half := maxError as real * MAX_ERROR_SCALE;
    RootRounds(half, Round(half));
    RootMonotone(Measured(f, n, measurement, maxError, timeAdded).offsetVariance.value, Sq(half), error, Round(half));
  }

  function EffectiveDrift(e: TimeElement): real { if e.useDrift then e.drift else 0.0 }

  function OffsetAt(e: TimeElement, clientTime: int): real {
    e.offset + EffectiveDrift(e) * (clientTime - e.lastUpdate) as real
  }

  function ComputeServerTime(e: TimeElement, clientTime: int): int { clientTime + Round(OffsetAt(e, clientTime)) }

  function ComputeClientTime(e: TimeElement, serverTime: int): int
    requires EffectiveDrift(e) != -1.0
  {
    Round(ClientInstant(e, serverTime as real))
  }

  /** The inverse of the linear transformation, before rounding. */
  function ClientInstant(e: TimeElement, server: real): real
    requires EffectiveDrift(e) != -1.0
  {
    (server - e.offset + EffectiveDrift(e) * e.lastUpdate as real) / (1.0 + EffectiveDrift(e))
  }

  /** The linear transformation itself, before the offset is rounded. */
  function ServerInstant(e: TimeElement, client: real): real {
    client + (e.offset + EffectiveDrift(e) * (client - e.lastUpdate as real))
  }

  /** Client to server time never runs backwards while the drift is above -1. */
  lemma ServerTimeMonotone(e: TimeElement, earlier: int, later: int)
    requires EffectiveDrift(e) > -1.0 && earlier <= later
    ensures ComputeServerTime(e, earlier) <= ComputeServerTime(e, later)
  {
    var d, n := EffectiveDrift(e), (later - earlier) as real;
    if earlier < later {
      PositiveProduct(1.0 + d, n);
      assert d * (later - e.lastUpdate) as real == d * (earlier - e.lastUpdate) as real + d * n;
      assert Product(1.0 + d, n) == n + d * n;
      RoundLags(OffsetAt(e, earlier), OffsetAt(e, later), later - earlier);
    }
  }

  /** Rounding a value that fell by less than `n` loses at most `n`. */
  lemma RoundLags(x: real, y: real, n: nat)
    requires y > x - n as real
    ensures Round(y) >= Round(x) - n
  {
    assert (x - n as real).Floor == x.Floor - n;
  }

  /** How far rounding moved the server time of an instant: at most half a microsecond. */
  function Residue(e: TimeElement, clientTime: int): real {
    Round(OffsetAt(e, clientTime)) as real - OffsetAt(e, clientTime)
  }

  lemma ResidueIsSmall(e: TimeElement, t: int)
    ensures Abs(Residue(e, t)) <= 0.5
  {
    RoundIsNearest(OffsetAt(e, t), Round(OffsetAt(e, t)));
  }

  /** There and back, the exact instant is off by the rounding residue, scaled by the clock rate. */
  lemma RoundTripExactly(e: TimeElement, t: int)
    requires EffectiveDrift(e) > -1.0
    ensures Abs(Residue(e, t)) <= 0.5
    ensures ComputeClientTime(e, ComputeServerTime(e, t))
      == Round(t as real + Residue(e, t) / (1.0 + EffectiveDrift(e)))
  {
    ResidueIsSmall(e, t);
    ServerTimeIs(e, t);
    var server := ServerInstant(e, t as real) + Residue(e, t);
    assert ComputeClientTime(e, ComputeServerTime(e, t)) == Round(ClientInstant(e, server));
    InverseExact(e, t as real, Residue(e, t));
  }

  lemma ServerTimeIs(e: TimeElement, t: int)
    ensures ComputeServerTime(e, t) as real == ServerInstant(e, t as real) + Residue(e, t)
  {
    assert (t - e.lastUpdate) as real == t as real - e.lastUpdate as real;
  }

  /** Inverting the linear transformation of an instant that was moved by `r`. */
  lemma InverseExact(e: TimeElement, t: real, r: real)
    requires EffectiveDrift(e) > -1.0
    ensures ClientInstant(e, ServerInstant(e, t) + r) == t + r / (1.0 + EffectiveDrift(e))
  {
    var d, l := EffectiveDrift(e), e.lastUpdate as real;
    var rate, numerator := 1.0 + d, ServerInstant(e, t) + r - e.offset + d * l;
    assert numerator == rate * t + r by {
      assert d * (t - l) == d * t - d * l;
    }
    QuotientCancels(r, rate);
    assert rate * (t + r / rate) == rate * t + rate * (r / rate);
    QuotientUnique(numerator, rate, t + r / rate);
  }

  lemma QuotientUnique(x: real, y: real, q: real)
    requires y != 0.0 && y * q == x
    ensures x / y == q
  {
  }

  /** The round trip is exact precisely when the scaled residue rounds away. */
  lemma RoundTripExactIff(e: TimeElement, t: int)
    requires EffectiveDrift(e) > -1.0
    ensures ComputeClientTime(e, ComputeServerTime(e, t)) == t <==>
      var r, rate := 2.0 * Abs(Residue(e, t)), 1.0 + EffectiveDrift(e);
      r < rate || (r == rate && t % 2 == 0)
  {
    var r, rate := Residue(e, t), 1.0 + EffectiveDrift(e);
    RoundTripExactly(e, t);
    QuotientCancels(r, rate);
    RoundIsNearest(t as real + r / rate, t);
    QuotientSize(r, rate, 0.5);
  }

  lemma QuotientSize(r: real, rate: real, bound: real)
    requires rate > 0.0
    ensures Abs(r / rate) < bound <==> Abs(r) < rate * bound
    ensures Abs(r / rate) == bound <==> Abs(r) == rate * bound
  {
    var q := r / rate;
    QuotientCancels(r, rate);
    AbsProduct(rate, q);
    var a := Abs(q);
    assert Abs(r) == rate * a;
    assert rate * (bound - a) == rate * bound - rate * a;
    if a < bound { PositiveProduct(rate, bound - a); assert Product(rate, bound - a) == rate * (bound - a); }
    if a > bound { NegativeProduct(rate, bound - a); }
  }

  lemma AbsProduct(x: real, y: real)
    requires x > 0.0
    ensures Abs(x * y) == x * Abs(y)
  {
    if y >= 0.0 { ProductNotNegative(x, y); } else { NegativeProduct(x, y); assert x * -y == -(x * y); }
  }

  /** A clock running ahead converts there and back exactly. */
  lemma RoundTripExactForPositiveDrift(e: TimeElement, t: int)
    requires EffectiveDrift(e) > 0.0
    ensures ComputeClientTime(e, ComputeServerTime(e, t)) == t
  {
    RoundTripExactly(e, t);
    RoundTripExactIff(e, t);
  }

  /** For drift above -2/3 the round trip is off by at most a microsecond. */
  lemma RoundTripWithinOne(e: TimeElement, t: int)
    requires EffectiveDrift(e) > -2.0 / 3.0
    ensures -1 <= ComputeClientTime(e, ComputeServerTime(e, t)) - t <= 1
  {
    RoundTripExactly(e, t);
    QuotientSize(Residue(e, t), 1.0 + EffectiveDrift(e), 1.5);
  }

  /** The bound is tight: at any drift from -1 up to -2/3, some offset is off by two microseconds or more. */
  lemma RoundTripWorseBeyond(drift: real) returns (e: TimeElement)
    requires -1.0 < drift <= -2.0 / 3.0
    ensures e == TimeElement(0, 1.5, drift, true)
    ensures ComputeClientTime(e, ComputeServerTime(e, 0)) >= 2
  {
    e := TimeElement(0, 1.5, drift, true);
    assert OffsetAt(e, 0) == 1.5;
    RoundIsNearest(1.5, 2);
    RoundTripExactly(e, 0);
    QuotientSize(0.5, 1.0 + drift, 1.5);
    assert 0.5 / (1.0 + drift) >= 1.5 by { DivisionNotNegative(0.5, 1.0 + drift); }
    RoundIsNearest(1.5, 2);
  }

  // ---------------------------------------------------------------- measurement

  /**
   The four timestamps of one exchange: transmitted by the client, received by the server,
   transmitted by the server, received by the client.
   */
  datatype Exchange = Exchange(clientTransmitted: int, serverReceived: int, serverTransmitted: int, clientReceived: int)

  /** Twice the offset and twice the delay, as whole microseconds. */
  function OffsetSum(x: Exchange): int {
    (x.serverReceived - x.clientTransmitted) + (x.serverTransmitted - x.clientReceived)
  }
  function DelaySum(x: Exchange): int {
    (x.clientReceived - x.clientTransmitted) - (x.serverTransmitted - x.serverReceived)
  }

  function Measurement(x: Exchange): int { Round(OffsetSum(x) as real / 2.0) }
  function MaxError(x: Exchange): int { Round(DelaySum(x) as real / 2.0) }

  /** The clocks are `truth` apart and no message arrives before it was sent. */
  predicate Causal(x: Exchange, truth: real) {
    && x.clientTransmitted as real + truth <= x.serverReceived as real
    && x.serverTransmitted as real <= x.clientReceived as real + truth
  }

  /**
   Whatever the two network delays, the true offset is within the reported error of the measurement, give or
   take rounding.
   */
  lemma MeasurementBracketsTruth(x: Exchange, truth: real)
    requires Causal(x, truth)
    ensures Abs(Measurement(x) as real - truth) <= MaxError(x) as real + 1.0
  {
    RoundIsNearest(OffsetSum(x) as real / 2.0, Measurement(x));
    RoundIsNearest(DelaySum(x) as real / 2.0, MaxError(x));
  }

  /**
   The bracket holds without the extra microsecond, for every offset the timestamps allow, exactly
   when the halves are whole or the half delay rounds up.
   */
  lemma BracketExactIff(x: Exchange)
    requires DelaySum(x) >= 0
    ensures (forall truth | Causal(x, truth) :: Abs(Measurement(x) as real - truth) <= MaxError(x) as real)
      <==> DelaySum(x) % 4 != 1
  {
    var low := (x.serverTransmitted - x.clientReceived) as real;
    var high := (x.serverReceived - x.clientTransmitted) as real;
    assert Causal(x, low) && Causal(x, high);
    HalfRounded(OffsetSum(x));
    HalfRounded(DelaySum(x));
    assert OffsetSum(x) + DelaySum(x) == 2 * (x.serverReceived - x.clientTransmitted);
  }

  /** Half of an integer, rounded: exact when even, to the even neighbour when odd. */
  lemma HalfRounded(n: int)
    ensures n % 4 == 0 || n % 4 == 2 ==> 2 * Round(n as real / 2.0) == n
    ensures n % 4 == 1 ==> 2 * Round(n as real / 2.0) == n - 1
    ensures n % 4 == 3 ==> 2 * Round(n as real / 2.0) == n + 1
  {
    var q := n / 4;
    RoundIsNearest(n as real / 2.0, if n % 4 <= 1 then 2 * q else if n % 4 == 2 then 2 * q + 1 else 2 * q + 2);
  }
}
