/** Verdicts of the stationarity tests (augmented Dickey-Fuller and KPSS) and
    of the Ljung-Box white-noise test. The statistics and p-values come from
    statsmodels and are inputs here, as is the message of an exception raised
    while computing them. */
module StationarityTests {
  import opened Wrappers

  /** The fixed decision level of all three tests. */
  const SignificanceLevel: real := 0.05

  /** Output of adfuller or kpss that the verdict uses. */
  datatype TestOutput = TestOutput(statistic: real, pValue: real, criticalValues: map<string, real>)

  /** Stands for the interpretation text: stationary or non-stationary. */
  datatype Interpretation = Stationary | NonStationary

  /** The entry stored for one test: its numbers and verdict, or the error message. */
  datatype Verdict =
    | Verdict(statistic: real, pValue: real, criticalValues: map<string, real>,
              isStationary: bool, interpretation: Interpretation)
    | TestError(message: string)

  /** ADF: the null hypothesis is a unit root, so a small p-value means stationary. */
  function AdfVerdict(outcome: Result<TestOutput, string>): (v: Verdict)
    ensures v.TestError? <==> outcome.Failure?
    ensures v.TestError? ==> v.message == outcome.error
    ensures v.Verdict? ==>
              && v.statistic == outcome.value.statistic
              && v.pValue == outcome.value.pValue
              && v.criticalValues == outcome.value.criticalValues
              && (v.isStationary <==> outcome.value.pValue < SignificanceLevel)
              && (v.interpretation == Stationary <==> v.isStationary)
  {
    match outcome
    case Success(o) =>
      Verdict(o.statistic, o.pValue, o.criticalValues,
              o.pValue < SignificanceLevel,
              if o.pValue < SignificanceLevel then Stationary else NonStationary)
    case Failure(message) => TestError(message)
  }

  /** KPSS: the null hypothesis is stationarity, so a large p-value means stationary. */
  function KpssVerdict(outcome: Result<TestOutput, string>): (v: Verdict)
    ensures v.TestError? <==> outcome.Failure?
    ensures v.TestError? ==> v.message == outcome.error
    ensures v.Verdict? ==>
              && v.statistic == outcome.value.statistic
              && v.pValue == outcome.value.pValue
              && v.criticalValues == outcome.value.criticalValues
              && (v.isStationary <==> outcome.value.pValue > SignificanceLevel)
              && (v.interpretation == Stationary <==> v.isStationary)
  {
    match outcome
    case Success(o) =>
      Verdict(o.statistic, o.pValue, o.criticalValues,
              o.pValue > SignificanceLevel,
              if o.pValue > SignificanceLevel then Stationary else NonStationary)
    case Failure(message) => TestError(message)
  }

  /** test_stationarity: fills the results dictionary one test at a time; a
      failure of one test is stored as its error entry and the other test still
      runs, so both keys are always present. */
  method TestStationarity(adf: Result<TestOutput, string>, kpss: Result<TestOutput, string>)
    returns (results: map<string, Verdict>)
    ensures results.Keys == {"adf", "kpss"}
    ensures results["adf"] == AdfVerdict(adf)
    ensures results["kpss"] == KpssVerdict(kpss)
    ensures results["adf"].TestError? <==> adf.Failure?
    ensures results["kpss"].TestError? <==> kpss.Failure?
  {
    results := map[];
    results := results["adf" := AdfVerdict(adf)];
    results := results["kpss" := KpssVerdict(kpss)];
  }

  /** The two tests have opposite polarity: for one and the same p-value they
      never both declare stationarity, and they agree only at p == 0.05, where
      both declare non-stationarity. */
  lemma OppositePolarity(o: TestOutput)
    ensures !(AdfVerdict(Success(o)).isStationary && KpssVerdict(Success(o)).isStationary)
    ensures AdfVerdict(Success(o)).isStationary == KpssVerdict(Success(o)).isStationary <==> o.pValue == SignificanceLevel
  {
  }

  /** One row of acorr_ljungbox's table: the statistic and p-value at one lag. */
  datatype LjungBoxRow = LjungBoxRow(statistic: real, pValue: real)

  /** Stands for the interpretation text: white noise or not. */
  datatype NoiseInterpretation = WhiteNoise | NotWhiteNoise

  datatype WhiteNoiseReport =
    | WhiteNoiseReport(statistics: seq<real>, pValues: seq<real>, lags: seq<int>,
                       isWhiteNoise: bool, interpretation: NoiseInterpretation)
    | WhiteNoiseError(message: string)

  /** Python's all(p > level for p in pValues), scanned from the first lag. */
  function AllAbove(pValues: seq<real>, level: real): (b: bool)
    ensures b <==> forall i :: 0 <= i < |pValues| ==> pValues[i] > level
  {
    if |pValues| == 0 then true
    else pValues[0] > level && AllAbove(pValues[1..], level)
  }

  /** ljung_box_test: splits the table into its columns, numbers the lags
      1..lags and calls the series white noise when every p-value exceeds 0.05;
      a failure becomes the error entry. lags defaults to 10. */
  function LjungBoxTest(outcome: Result<seq<LjungBoxRow>, string>, lags: int := 10): (r: WhiteNoiseReport)
    ensures r.WhiteNoiseError? <==> outcome.Failure?
    ensures r.WhiteNoiseError? ==> r.message == outcome.error
    ensures r.WhiteNoiseReport? ==>
              && |r.statistics| == |r.pValues| == |outcome.value|
              && (forall i :: 0 <= i < |outcome.value| ==>
                    r.statistics[i] == outcome.value[i].statistic && r.pValues[i] == outcome.value[i].pValue)
              && |r.lags| == (if lags < 0 then 0 else lags)
              && (forall i :: 0 <= i < |r.lags| ==> r.lags[i] == i + 1)
              && (r.isWhiteNoise <==> forall i :: 0 <= i < |outcome.value| ==> outcome.value[i].pValue > SignificanceLevel)
              && (r.interpretation == WhiteNoise <==> r.isWhiteNoise)
  {
    match outcome
    case Success(rows) =>
      var pValues := seq(|rows|, i requires 0 <= i < |rows| => rows[i].pValue);
      var white := AllAbove(pValues, SignificanceLevel);
      WhiteNoiseReport(
        seq(|rows|, i requires 0 <= i < |rows| => rows[i].statistic),
        pValues,
        seq(if lags < 0 then 0 else lags, i => i + 1),
        white,
        if white then WhiteNoise else NotWhiteNoise)
    case Failure(message) => WhiteNoiseError(message)
  }

  /** The Ljung-Box p-value at a lag does not depend on how many lags are
      requested, so the table for fewer lags is a prefix of the table for more:
      white noise up to some lag implies white noise up to any smaller lag. */
  lemma WhiteNoiseAtFewerLags(rows: seq<LjungBoxRow>, fewer: nat, lags: int)
    requires fewer <= |rows|
    requires LjungBoxTest(Success(rows), lags).isWhiteNoise
    ensures LjungBoxTest(Success(rows[..fewer]), fewer).isWhiteNoise
  {
  }
}
