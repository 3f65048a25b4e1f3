/** Packaging of the ACF and PACF results. The coefficients and confidence
    intervals themselves come from statsmodels and are inputs here: one
    LagEstimate per lag 0..nlags, or the message of the exception it raised. */
module Correlograms {
  import opened Wrappers

  /** statsmodels' output for one lag: the coefficient and its confidence interval. */
  datatype LagEstimate = LagEstimate(coefficient: real, confLow: real, confHigh: real)

  /** ACF, or PACF together with the estimation method it was asked for ('ywm', 'ols', ...). */
  datatype Kind = Acf | Pacf(estimator: string)

  /** The result dictionary: coefficients, lags, the raw confidence interval and
      the band as offsets from each coefficient. */
  datatype Correlogram = Correlogram(
    kind: Kind,
    values: seq<real>,
    lags: seq<nat>,
    confidenceInterval: seq<(real, real)>,
    lowerBound: seq<real>,
    upperBound: seq<real>,
    alpha: real)

  /** The ValueError raised when the statsmodels call fails, carrying its message. */
  datatype AnalysisError = AcfFailed(reason: string) | PacfFailed(reason: string)

  /** The row-wise layout of a packaged result: one entry per lag in every column,
      lags numbered from 0, and each bound the interval's end minus the coefficient. */
  predicate PackagedFrom(c: Correlogram, estimates: seq<LagEstimate>)
  {
    && |c.values| == |c.lags| == |c.confidenceInterval| == |c.lowerBound| == |c.upperBound| == |estimates|
    && forall k :: 0 <= k < |estimates| ==>
         && c.lags[k] == k
         && c.values[k] == estimates[k].coefficient
         && c.confidenceInterval[k] == (estimates[k].confLow, estimates[k].confHigh)
         && c.values[k] + c.lowerBound[k] == estimates[k].confLow
         && c.values[k] + c.upperBound[k] == estimates[k].confHigh
  }

  function Package(kind: Kind, estimates: seq<LagEstimate>, alpha: real): (c: Correlogram)
    ensures PackagedFrom(c, estimates)
    ensures c.kind == kind && c.alpha == alpha
  {
    Correlogram(
      kind,
      seq(|estimates|, k requires 0 <= k < |estimates| => estimates[k].coefficient),
      seq(|estimates|, k requires 0 <= k < |estimates| => k),
      seq(|estimates|, k requires 0 <= k < |estimates| => (estimates[k].confLow, estimates[k].confHigh)),
      seq(|estimates|, k requires 0 <= k < |estimates| => estimates[k].confLow - estimates[k].coefficient),
      seq(|estimates|, k requires 0 <= k < |estimates| => estimates[k].confHigh - estimates[k].coefficient),
      alpha)
  }

  /** calculate_acf: packages statsmodels' ACF output; a failure of the
      underlying call becomes an ACF error carrying its message. alpha
      defaults to 0.05; the lag count (default 40) only shapes the estimates. */
  function CalculateAcf(estimates: Result<seq<LagEstimate>, string>, alpha: real := 0.05): (r: Result<Correlogram, AnalysisError>)
    ensures r.Failure? <==> estimates.Failure?
    ensures r.Failure? ==> r.error == AcfFailed(estimates.error)
    ensures r.Success? ==> r.value.kind == Acf && r.value.alpha == alpha && PackagedFrom(r.value, estimates.value)
  {
    match estimates
    case Success(rows) => Success(Package(Acf, rows, alpha))
    case Failure(message) => Failure(AcfFailed(message))
  }

  /** calculate_pacf: as calculate_acf, and the result also records the method
      (default 'ywm'). */
  function CalculatePacf(estimates: Result<seq<LagEstimate>, string>, alpha: real := 0.05, estimator: string := "ywm"): (r: Result<Correlogram, AnalysisError>)
    ensures r.Failure? <==> estimates.Failure?
    ensures r.Failure? ==> r.error == PacfFailed(estimates.error)
    ensures r.Success? ==> r.value.kind == Pacf(estimator) && r.value.alpha == alpha && PackagedFrom(r.value, estimates.value)
  {
    match estimates
    case Success(rows) => Success(Package(Pacf(estimator), rows, alpha))
    case Failure(message) => Failure(PacfFailed(message))
  }

  /** An interval of half-width w around the coefficient at lag k is packaged
      as the band -w .. +w, centred on zero whatever the coefficient is. */
  lemma BandOffsetsAreHalfWidth(kind: Kind, estimates: seq<LagEstimate>, alpha: real, k: nat, w: real)
    requires k < |estimates|
    requires estimates[k].confLow == estimates[k].coefficient - w
    requires estimates[k].confHigh == estimates[k].coefficient + w
    ensures Package(kind, estimates, alpha).lowerBound[k] == -w
    ensures Package(kind, estimates, alpha).upperBound[k] == w
  {
  }

  /** A coefficient lies inside its confidence interval exactly when its lower
      offset is non-positive and its upper offset non-negative. */
  lemma BoundsLocateCoefficient(c: Correlogram, estimates: seq<LagEstimate>, k: nat)
    requires PackagedFrom(c, estimates) && k < |estimates|
    ensures (estimates[k].confLow <= estimates[k].coefficient <= estimates[k].confHigh) <==>
            (c.lowerBound[k] <= 0.0 <= c.upperBound[k])
  {
  }
}
