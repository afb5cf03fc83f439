/** The side-by-side comparison of two reports: which one wins, the metric
    rows with one highlighted column each, and the verdict's numbers. */
module ComparisonView {

  import opened Types
  import opened Text

  /** `betterProduct` is the first report exactly when its viability is
      strictly higher, that is when its failure risk is strictly lower; on a
      tie the second report wins. */
  function FirstIsBetter(p1: AnalysisResult, p2: AnalysisResult): (b: bool)
    ensures b <==> p1.failureRiskScore < p2.failureRiskScore
    ensures b <==> Viability(p1) > Viability(p2)
  {
    100 - p1.failureRiskScore > 100 - p2.failureRiskScore
  }

  /** `betterProduct`. */
  function BetterProduct(p1: AnalysisResult, p2: AnalysisResult): (w: AnalysisResult)
    ensures w == p1 || w == p2
    ensures Viability(w) >= Viability(p1) && Viability(w) >= Viability(p2)
    ensures Viability(p1) == Viability(p2) ==> w == p2
  {
    if FirstIsBetter(p1, p2) then p1 else p2
  }

  /** The figures the verdict sentence quotes. */
  datatype Verdict = Verdict(winnerName: string, winnerViability: int, otherViability: int)

  /** The verdict: the winner's name and viability, then the viability of the
      report that lost, which is never higher. */
  function VerdictFor(p1: AnalysisResult, p2: AnalysisResult): (v: Verdict)
    ensures v.winnerViability >= v.otherViability
    ensures v.winnerName == BetterProduct(p1, p2).productName
    ensures (v.winnerViability, v.otherViability) == (Viability(p1), Viability(p2))
         || (v.winnerViability, v.otherViability) == (Viability(p2), Viability(p1))
  {
    var first := FirstIsBetter(p1, p2);
    var winner := if first then p1 else p2;
    Verdict(winner.productName, 100 - winner.failureRiskScore,
            if first then 100 - p2.failureRiskScore else 100 - p1.failureRiskScore)
  }

  /** One metric row: its metric name, the two values as shown, and which column
      is highlighted. */
  datatype Row = Row(metric: string, shown1: string, shown2: string, v1Highlighted: bool, v2Highlighted: bool)

  /** `MetricRow`: the first column is highlighted when `isV1Better`, the
      second otherwise, so exactly one column is. */
  function MetricRow(metric: string, shown1: string, shown2: string, isV1Better: bool): (r: Row)
    ensures r.v1Highlighted != r.v2Highlighted
    ensures r.v1Highlighted == isV1Better
    ensures r.metric == metric && r.shown1 == shown1 && r.shown2 == shown2
  {
    Row(metric, shown1, shown2, isV1Better, !isV1Better)
  }

  /** `isV1Better` on numbers: strictly higher, or strictly lower when lower
      is better. */
  function NumV1Better(v1: int, v2: int, higherIsBetter: bool): (b: bool)
    ensures v1 == v2 ==> !b
  {
    if higherIsBetter then v1 > v2 else v1 < v2
  }

  /** `isV1Better` on strings: JavaScript's string order. */
  function StrV1Better(v1: string, v2: string, higherIsBetter: bool): (b: bool)
    ensures v1 == v2 ==> !b
  {
    JsLessIrreflexive(v1);
    if higherIsBetter then JsLess(v2, v1) else JsLess(v1, v2)
  }

  /** Swapping the two values swaps the highlight, except that equal values
      always highlight the second column. */
  lemma NumV1BetterSwaps(v1: int, v2: int, higherIsBetter: bool)
    ensures v1 != v2 ==> (NumV1Better(v1, v2, higherIsBetter) <==> !NumV1Better(v2, v1, higherIsBetter))
    ensures !(NumV1Better(v1, v2, higherIsBetter) && NumV1Better(v2, v1, higherIsBetter))
  {
  }

  /** The same holds for the string order. */
  lemma StrV1BetterSwaps(v1: string, v2: string, higherIsBetter: bool)
    ensures v1 != v2 ==> (StrV1Better(v1, v2, higherIsBetter) <==> !StrV1Better(v2, v1, higherIsBetter))
    ensures !(StrV1Better(v1, v2, higherIsBetter) && StrV1Better(v2, v1, higherIsBetter))
  {
    JsLessAsymmetric(v1, v2);
    JsLessTotal(v1, v2);
  }

  /** The viability as the row shows it: `${100 - failureRiskScore}%`. */
  function ViabilityText(p: AnalysisResult): (s: string)
    ensures |s| >= 2 && s[|s| - 1] == '%'
    ensures s[..|s| - 1] == IntToString(Viability(p))
  {
    var digits := IntToString(Viability(p));
    var s := digits + "%";
    assert s[..|s| - 1] == digits;
    s
  }

  /** The text before the percent sign denotes the viability. */
  lemma ViabilityTextValue(p: AnalysisResult)
    ensures var s := ViabilityText(p);
            Viability(p) >= 0 ==> AllDigits(s[..|s| - 1]) && DigitsValue(s[..|s| - 1]) == Viability(p)
  {
    IntToStringValue(Viability(p));
  }

  /** Reports shown with the same viability text have the same viability. */
  lemma ViabilityTextInjective(p: AnalysisResult, q: AnalysisResult)
    ensures ViabilityText(p) == ViabilityText(q) ==> Viability(p) == Viability(q)
  {
    if ViabilityText(p) == ViabilityText(q) {
      IntToStringInjective(Viability(p), Viability(q));
    }
  }

  /** The viability row as written: it compares the two percentage strings,
      so the highlight follows string order, not the numbers. */
  function ViabilityRowAsWritten(p1: AnalysisResult, p2: AnalysisResult): (r: Row)
    ensures r.v1Highlighted <==> JsLess(ViabilityText(p2), ViabilityText(p1))
    ensures r.v1Highlighted != r.v2Highlighted
  {
    var t1 := ViabilityText(p1);
    var t2 := ViabilityText(p2);
    MetricRow("Viability Score", t1, t2, StrV1Better(t1, t2, true))
  }

  /** Risk 91 (viability 9) against risk 20 (viability 80): the row
      highlights the first column, "9%" being after "80%" in string order,
      although the second report is the more viable one and wins the
      verdict. */
  lemma ViabilityRowAsWrittenMisranks(p1: AnalysisResult, p2: AnalysisResult)
    requires p1.failureRiskScore == 91 && p2.failureRiskScore == 20
    ensures ViabilityRowAsWritten(p1, p2).v1Highlighted
    ensures Viability(p1) < Viability(p2) && !FirstIsBetter(p1, p2)
  {
    assert IntToString(9) == "9";
    assert NatToString(80) == NatToString(8) + [DigitChar(0)];
    assert IntToString(80) == "80";
    assert ViabilityText(p1) == "9%";
    assert ViabilityText(p2) == "80%";
    assert JsLess("80%", "9%");
  }

  /** The viability row as intended: the viabilities compared as numbers.
      Its highlight always agrees with the verdict. */
  function ViabilityRowCorrected(p1: AnalysisResult, p2: AnalysisResult): (r: Row)
    ensures r.v1Highlighted <==> Viability(p1) > Viability(p2)
    ensures r.v1Highlighted <==> FirstIsBetter(p1, p2)
    ensures r.v1Highlighted != r.v2Highlighted
    ensures r.shown1 == ViabilityText(p1) && r.shown2 == ViabilityText(p2)
  {
    MetricRow("Viability Score", ViabilityText(p1), ViabilityText(p2),
              NumV1Better(Viability(p1), Viability(p2), true))
  }

  /** A row over two numbers, each shown as `${n}`: the first column is
      highlighted exactly when its value is strictly better. */
  function NumericRow(metric: string, v1: int, v2: int, higherIsBetter: bool): (r: Row)
    ensures r.v1Highlighted <==> (if higherIsBetter then v1 > v2 else v1 < v2)
    ensures r.v1Highlighted != r.v2Highlighted
    ensures r.metric == metric && r.shown1 == IntToString(v1) && r.shown2 == IntToString(v2)
  {
    MetricRow(metric, IntToString(v1), IntToString(v2), NumV1Better(v1, v2, higherIsBetter))
  }

  /** The four metric rows: viability (as corrected), risk and critical
      issues (lower is better) and growth strategies (higher is better). */
  function Rows(p1: AnalysisResult, p2: AnalysisResult): (rows: seq<Row>)
    ensures |rows| == 4
    ensures forall i :: 0 <= i < |rows| ==> rows[i].v1Highlighted != rows[i].v2Highlighted
    ensures rows[0].v1Highlighted <==> FirstIsBetter(p1, p2)
    ensures rows[1].v1Highlighted <==> FirstIsBetter(p1, p2)
    ensures rows[2].v1Highlighted <==> |p1.topMistakes| < |p2.topMistakes|
    ensures rows[3].v1Highlighted <==> |p1.optimizationStrategies| > |p2.optimizationStrategies|
  {
    [ ViabilityRowCorrected(p1, p2),
      NumericRow("Risk Score", p1.failureRiskScore, p2.failureRiskScore, false),
      NumericRow("Critical Issues", |p1.topMistakes|, |p2.topMistakes|, false),
      NumericRow("Growth Strategies", |p1.optimizationStrategies|, |p2.optimizationStrategies|, true) ]
  }

  /** In the viability and risk rows the highlighted column is the report the
      verdict names. */
  lemma HighlightsAgreeWithVerdict(p1: AnalysisResult, p2: AnalysisResult)
    ensures Rows(p1, p2)[0].v1Highlighted <==> BetterProduct(p1, p2) == p1 && p1 != p2
    ensures Rows(p1, p2)[1].v1Highlighted <==> BetterProduct(p1, p2) == p1 && p1 != p2
  {
  }
}
