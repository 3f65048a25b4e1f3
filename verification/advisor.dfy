/** The model-order advisor: turns the ACF and PACF cutoffs into AR, MA or
    ARMA suggestions with (p, d, q) orders. */
module OrderAdvisor {
  import opened Wrappers
  import opened CutoffDetector
  import opened Correlograms

  datatype ModelKind = AR | MA | ARMA

  /** A (p, d, q) order. */
  datatype Order = Order(p: nat, d: nat, q: nat)

  /** Stands for the explanation text: which pattern fired and the lags the text mentions. */
  datatype Explanation =
    | PacfCutsOffAcfTailsOff(lag: nat)
    | AcfCutsOffPacfTailsOff(lag: nat)
    | BothTailOff
    | BothCutOff(pacfLag: nat, acfLag: nat)
    | DefaultChoice(kind: ModelKind)

  datatype Suggestion = Suggestion(model: ModelKind, order: Order, explanation: Explanation)

  /** The returned dictionary: the suggestions, both cutoffs and the threshold used. */
  datatype Report = Report(suggestions: seq<Suggestion>, acfCutoff: Option<nat>, pacfCutoff: Option<nat>, threshold: real)

  /** The three generic choices used when no pattern produced a suggestion. */
  const DefaultSuggestions: seq<Suggestion> := [
    Suggestion(AR, Order(1, 0, 0), DefaultChoice(AR)),
    Suggestion(MA, Order(0, 0, 1), DefaultChoice(MA)),
    Suggestion(ARMA, Order(1, 0, 1), DefaultChoice(ARMA))
  ]

  /** The coefficients without lag 0 (Python's values[1:], empty for an empty array). */
  function DropLagZero(values: seq<real>): (r: seq<real>)
    ensures |r| == if |values| == 0 then 0 else |values| - 1
    ensures forall i :: 0 <= i < |r| ==> r[i] == values[i + 1]
  {
    if |values| == 0 then [] else values[1..]
  }

  /** threshold = 1.96 / sqrt(n): the positive number whose square times n is
      1.96 squared. For n == 0 numpy yields infinity, which no real stands for,
      so any threshold is admitted there. */
  predicate IsSignificanceThreshold(threshold: real, n: nat)
  {
    n > 0 ==> threshold > 0.0 && threshold * threshold * (n as real) == 1.96 * 1.96
  }

  /** The decision table over the four cutoff combinations, one rule per
      combination: the reference the advisor is checked against. */
  function DecisionTable(acfCutoff: Option<nat>, pacfCutoff: Option<nat>): seq<Suggestion>
  {
    match (acfCutoff, pacfCutoff)
    case (None, Some(p)) => [Suggestion(AR, Order(p, 0, 0), PacfCutsOffAcfTailsOff(p))]
    case (Some(q), None) => [Suggestion(MA, Order(0, 0, q), AcfCutsOffPacfTailsOff(q))]
    case (None, None) => [Suggestion(ARMA, Order(1, 0, 1), BothTailOff)]
    case (Some(q), Some(p)) => [Suggestion(ARMA, Order(p, 0, q), BothCutOff(p, q))]
  }

  /** suggest_arima_order: drops lag 0, runs the detector on both sequences,
      walks the if/elif chain (including the truthiness test of the mixed case)
      and falls back to the defaults when nothing was appended. On the
      detector's outputs exactly one suggestion is made, so the list is never
      empty and the fallback is never taken. max_order defaults to 5. */
  method SuggestArimaOrder(acf: Correlogram, pacf: Correlogram, threshold: real, maxOrder: int := 5)
    returns (report: Report)
    requires IsSignificanceThreshold(threshold, |DropLagZero(acf.values)|)
    ensures report.acfCutoff == Cutoff(DropLagZero(acf.values), threshold, maxOrder)
    ensures report.pacfCutoff == Cutoff(DropLagZero(pacf.values), threshold, maxOrder)
    ensures report.threshold == threshold
    ensures report.suggestions == DecisionTable(report.acfCutoff, report.pacfCutoff)
    ensures |report.suggestions| == 1
  {
    var acfValues := DropLagZero(acf.values);
    var pacfValues := DropLagZero(pacf.values);
    var acfCutoff := FindCutoff(acfValues, threshold, maxOrder);
    var pacfCutoff := FindCutoff(pacfValues, threshold, maxOrder);
    CutoffInRange(acfValues, threshold, maxOrder);
    CutoffInRange(pacfValues, threshold, maxOrder);

    var suggestions: seq<Suggestion> := [];
    if pacfCutoff.Some? && acfCutoff.None? {
      var p := pacfCutoff.value;
      suggestions := suggestions + [Suggestion(AR, Order(p, 0, 0), PacfCutsOffAcfTailsOff(p))];
    } else if acfCutoff.Some? && pacfCutoff.None? {
      var q := acfCutoff.value;
      suggestions := suggestions + [Suggestion(MA, Order(0, 0, q), AcfCutsOffPacfTailsOff(q))];
    } else if acfCutoff.None? && pacfCutoff.None? {
      suggestions := suggestions + [Suggestion(ARMA, Order(1, 0, 1), BothTailOff)];
    } else {
      // Python truthiness: an int cutoff is true when it is not 0
      if pacfCutoff.value != 0 && acfCutoff.value != 0 {
        var p, q := pacfCutoff.value, acfCutoff.value;
        suggestions := suggestions + [Suggestion(ARMA, Order(p, 0, q), BothCutOff(p, q))];
      }
    }

    if |suggestions| == 0 {
      suggestions := suggestions + DefaultSuggestions;
    }

    report := Report(suggestions, acfCutoff, pacfCutoff, threshold);
  }

  /** Every suggestion has d == 0; AR suggestions have q == 0 and p >= 1, MA
      suggestions p == 0 and q >= 1, and every ARMA suggestion p, q >= 1. */
  lemma SuggestionShapes(acfValues: seq<real>, pacfValues: seq<real>, threshold: real, maxOrder: int)
    ensures forall s :: s in DecisionTable(Cutoff(acfValues, threshold, maxOrder), Cutoff(pacfValues, threshold, maxOrder)) ==>
              && s.order.d == 0
              && (s.model == AR ==> s.order.p >= 1 && s.order.q == 0)
              && (s.model == MA ==> s.order.p == 0 && s.order.q >= 1)
              && (s.model == ARMA ==> s.order.p >= 1 && s.order.q >= 1)
  {
    CutoffInRange(acfValues, threshold, maxOrder);
    CutoffInRange(pacfValues, threshold, maxOrder);
  }

  /** Orders taken from a cutoff never exceed max_order; only the tail-off
      default ARMA(1, 0, 1) is fixed, so with max_order >= 1 no suggested p or q
      exceeds max_order. */
  lemma SuggestedOrdersBounded(acfValues: seq<real>, pacfValues: seq<real>, threshold: real, maxOrder: int)
    ensures forall s :: s in DecisionTable(Cutoff(acfValues, threshold, maxOrder), Cutoff(pacfValues, threshold, maxOrder)) ==>
              (s.explanation.BothTailOff? || (s.order.p as int <= maxOrder && s.order.q as int <= maxOrder))
    ensures maxOrder >= 1 ==>
              forall s :: s in DecisionTable(Cutoff(acfValues, threshold, maxOrder), Cutoff(pacfValues, threshold, maxOrder)) ==>
                s.order.p as int <= maxOrder && s.order.q as int <= maxOrder
  {
    CutoffInRange(acfValues, threshold, maxOrder);
    CutoffInRange(pacfValues, threshold, maxOrder);
  }

  /** The mixed-case truthiness test `pacf_cutoff and acf_cutoff` holds whenever
      both cutoffs are present, because the detector only returns lags >= 1. */
  lemma MixedCaseAlwaysTruthy(acfValues: seq<real>, pacfValues: seq<real>, threshold: real, maxOrder: int)
    requires Cutoff(acfValues, threshold, maxOrder).Some? && Cutoff(pacfValues, threshold, maxOrder).Some?
    ensures Cutoff(acfValues, threshold, maxOrder).value != 0 && Cutoff(pacfValues, threshold, maxOrder).value != 0
  {
    CutoffInRange(acfValues, threshold, maxOrder);
    CutoffInRange(pacfValues, threshold, maxOrder);
  }

  /** When every scanned ACF and PACF coefficient is significant, the advice is the tail-off ARMA(1, 0, 1). */
  lemma AllSignificantGivesArma11(acfValues: seq<real>, pacfValues: seq<real>, threshold: real, maxOrder: int)
    requires forall i :: 0 <= i < ScanLength(acfValues, maxOrder) ==> Abs(acfValues[i]) >= threshold
    requires forall i :: 0 <= i < ScanLength(pacfValues, maxOrder) ==> Abs(pacfValues[i]) >= threshold
    ensures DecisionTable(Cutoff(acfValues, threshold, maxOrder), Cutoff(pacfValues, threshold, maxOrder))
            == [Suggestion(ARMA, Order(1, 0, 1), BothTailOff)]
  {
    NoCutoffWhenAllSignificant(acfValues, threshold, maxOrder);
    NoCutoffWhenAllSignificant(pacfValues, threshold, maxOrder);
  }
}
