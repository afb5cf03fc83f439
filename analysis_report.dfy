/** The report screen: the owner check, the colour of the viability score,
    the export guard, the listing flag, and which sections the viewer is
    shown. The owner's sections read the first competitor and the first
    strategy, so rendering them fails when either list is empty. */
module AnalysisReport {

  import opened Wrappers
  import opened Types
  import HistoryList

  /** `getRiskColor`: red from 70 up, amber from 40 up, emerald below. */
  function RiskColor(score: int): (c: Color)
    ensures c == Red <==> score >= 70
    ensures c == Amber <==> 40 <= score < 70
    ensures c == Emerald <==> score < 40
  {
    if score >= 70 then Red
    else if score >= 40 then Amber
    else Emerald
  }

  /** The report and the history list colour every score alike. */
  lemma RiskColorMatchesHistory(score: int)
    ensures RiskColor(score) == HistoryList.ScoreColor(score)
  {
  }

  /** `handlePrint`: whether the print dialog opens; only for the owner. */
  function HandlePrint(data: AnalysisResult, currentUser: Option<User>): (prints: bool)
    ensures prints <==> currentUser.Some? && currentUser.value.id == data.userId
  {
    IsOwner(currentUser, data.userId)
  }

  /** What the two back buttons do: start a new analysis, or reload the page. */
  datatype FooterAction = Reset | Reload

  /** The sections only the owner sees: the first competitor with its
      weaknesses (the wins) and strengths (the gaps), the verdict's focus
      category, the roadmap, and the listing choice with its highlighted
      button. */
  datatype OwnerSections = OwnerSections(
    rival: Competitor,
    wins: seq<string>,
    gaps: seq<string>,
    marketPricing: string,
    focus: StrategyCategory,
    launchAngle: string,
    timeline: Timeline,
    listedPublicly: bool)

  /** What the report screen shows. `owner` is `None` when the locked
      placeholder is shown instead of the private sections. */
  datatype ReportView = ReportView(
    backLabel: string,
    shareAndExport: bool,
    mode: AnalysisMode,
    confidence: Confidence,
    normalization: Normalization,
    productName: string,
    summary: string,
    viability: int,
    scoreColor: Color,
    owner: Option<OwnerSections>,
    footerLabel: string,
    footerAction: FooterAction)

  /** Rendering fails when a section reads an element that is not there. */
  datatype RenderError = MissingCompetitor | MissingStrategy

  /** The report as `currentUser` sees it. The public part (mode, confidence,
      normalization, name, summary, viability) is shown to everyone; share,
      export and the private sections only to the owner, who needs at least
      one competitor and one strategy for them to render. */
  function RenderReport(data: AnalysisResult, currentUser: Option<User>): (r: Result<ReportView, RenderError>)
    ensures r.Failure? <==> IsOwner(currentUser, data.userId)
                            && (data.competitiveAnalysis == [] || data.optimizationStrategies == [])
    ensures r.Success? ==> (r.value.owner.Some? <==> IsOwner(currentUser, data.userId))
    ensures r.Success? ==> (r.value.shareAndExport <==> IsOwner(currentUser, data.userId))
    ensures r.Success? ==> r.value.viability == 100 - data.failureRiskScore
                           && r.value.scoreColor == RiskColor(data.failureRiskScore)
    ensures r.Success? ==> r.value.mode == data.selectedMode && r.value.normalization == data.normalization
    ensures r.Success? && r.value.owner.Some? ==>
              var o := r.value.owner.value;
              o.rival == data.competitiveAnalysis[0]
              && o.wins == data.competitiveAnalysis[0].weaknesses
              && o.gaps == data.competitiveAnalysis[0].strengths
              && o.focus == data.optimizationStrategies[0].category
              && o.launchAngle == data.gtmPlan.launchAngle
              && (o.listedPublicly <==> data.isPublic == Some(true))
    ensures r.Success? ==> (r.value.footerAction == Reset <==> IsOwner(currentUser, data.userId))
  {
    var isOwner := IsOwner(currentUser, data.userId);
    if isOwner && data.competitiveAnalysis == [] then Failure(MissingCompetitor)
    else if isOwner && data.optimizationStrategies == [] then Failure(MissingStrategy)
    else
      var owner :=
        if isOwner then
          var rival := data.competitiveAnalysis[0];
          Some(OwnerSections(rival, rival.weaknesses, rival.strengths, rival.pricing,
                             data.optimizationStrategies[0].category,
                             data.gtmPlan.launchAngle, data.gtmPlan.timeline,
                             IsPublicOf(data)))
        else None;
      Success(ReportView(
        if isOwner then "New Analysis" else "Back to Feed",
        isOwner,
        data.selectedMode,
        data.dataConfidence,
        data.normalization,
        data.productName,
        data.summary,
        100 - data.failureRiskScore,
        RiskColor(data.failureRiskScore),
        owner,
        if isOwner then "New Analysis" else "Discovery Hub",
        if isOwner then Reset else Reload))
  }

  /** Anyone but the owner always gets the report, and what they see does
      not depend on the competitors, the strategies, the mistakes, the sales
      channels or the launch plan. */
  lemma PrivateSectionsDoNotLeak(data: AnalysisResult, currentUser: Option<User>,
                                 competitors: seq<Competitor>, strategies: seq<Strategy>,
                                 mistakes: seq<Mistake>, channels: seq<SalesChannel>, plan: GtmPlan)
    requires !IsOwner(currentUser, data.userId)
    ensures RenderReport(data, currentUser).Success?
    ensures RenderReport(data, currentUser).value.owner == None
    ensures RenderReport(data, currentUser) ==
            RenderReport(data.(competitiveAnalysis := competitors, optimizationStrategies := strategies,
                               topMistakes := mistakes, salesStrategy := channels, gtmPlan := plan),
                         currentUser)
  {
  }
}
