/** The records and string-literal unions of the application's data model.
    Optional fields (`x?: T`) are `Option`s; JavaScript numbers that hold
    scores, counts and timestamps are `int`s. */
module Types {

  import opened Wrappers
  import opened Seqs

  datatype User = User(id: string, name: string, email: string, createdAt: int)

  datatype Suggestion = Suggestion(userId: string, userName: string, text: string, timestamp: int)

  datatype Rating = Rating(userId: string, score: int)

  datatype SavedProduct = SavedProduct(
    id: string,
    userId: string,
    name: string,
    link: Option<string>,
    description: string,
    category: string,
    timestamp: int)

  datatype ProductInput = ProductInput(
    name: string,
    productLink: Option<string>,
    description: string,
    category: string,
    price: string,
    targetAudience: string,
    country: string,
    platform: string)

  /** `AnalysisResult.selectedMode`. */
  datatype AnalysisMode = LinkBased | ManualData

  /** `AnalysisResult.dataConfidence`. */
  datatype Confidence = HighConfidence | MediumConfidence | LowConfidence

  /** `Mistake.severity`. */
  datatype Severity = Critical | HighSeverity | Moderate

  /** `Strategy.category`. */
  datatype StrategyCategory = Pricing | FeaturesBundles | Repositioning | Trust

  /** `Strategy.impact`. */
  datatype Impact = LowImpact | MediumImpact | HighImpact

  datatype Mistake = Mistake(
    rank: int,
    title: string,
    whyItMatters: string,
    conversionImpact: string,
    severity: Severity)

  datatype Strategy = Strategy(
    category: StrategyCategory,
    whatToChange: string,
    whyItWorks: string,
    impact: Impact)

  datatype SalesChannel = SalesChannel(
    rank: int,
    platform: string,
    contentFormat: string,
    creatorType: string,
    conversionLogic: string)

  datatype Timeline = Timeline(days1to7: string, days8to21: string, days22to30: string)

  datatype FunnelStage = FunnelStage(stage: string, action: string)

  datatype GtmPlan = GtmPlan(
    launchAngle: string,
    timeline: Timeline,
    adHooks: seq<string>,
    outreachAngle: string,
    funnelStages: seq<FunnelStage>)

  datatype Competitor = Competitor(
    name: string,
    pricing: string,
    strengths: seq<string>,
    weaknesses: seq<string>,
    positioning: string)

  datatype Normalization = Normalization(
    coreProblem: string,
    buyerPersona: string,
    valueProp: string,
    pricePositioning: string,
    initialRiskFlags: seq<string>)

  datatype AnalysisResult = AnalysisResult(
    id: string,
    userId: string,
    userName: Option<string>,
    timestamp: int,
    productName: string,
    selectedMode: AnalysisMode,
    dataConfidence: Confidence,
    normalization: Normalization,
    failureRiskScore: int,
    topMistakes: seq<Mistake>,
    optimizationStrategies: seq<Strategy>,
    salesStrategy: seq<SalesChannel>,
    gtmPlan: GtmPlan,
    competitiveAnalysis: seq<Competitor>,
    summary: string,
    isPublic: Option<bool>,
    ratings: Option<seq<Rating>>,
    suggestions: Option<seq<Suggestion>>)

  /** The screens the application can show. */
  datatype ViewState =
    | Auth | Home | Form | Loading | Result | History | SavedProducts | CompareTwo | Trending

  /** The text colours used for scores. */
  datatype Color = Emerald | Amber | Red

  /** The string each mode is written as in a report. */
  function ModeLabel(m: AnalysisMode): (s: string)
    ensures s == "LINK-BASED ANALYSIS" || s == "MANUAL DATA ANALYSIS"
  {
    match m
    case LinkBased => "LINK-BASED ANALYSIS"
    case ManualData => "MANUAL DATA ANALYSIS"
  }

  /** The string each view state is written as. */
  function ViewLabel(v: ViewState): string
  {
    match v
    case Auth => "auth"
    case Home => "home"
    case Form => "form"
    case Loading => "loading"
    case Result => "result"
    case History => "history"
    case SavedProducts => "saved-products"
    case CompareTwo => "compare-two"
    case Trending => "trending"
  }

  /** Every view state, each once: there are nine, with distinct labels. */
  function AllViewStates(): (vs: seq<ViewState>)
    ensures |vs| == 9 && NoDup(vs)
    ensures forall i, j :: 0 <= i < j < |vs| ==> ViewLabel(vs[i]) != ViewLabel(vs[j])
  {
    [Auth, Home, Form, Loading, Result, History, SavedProducts, CompareTwo, Trending]
  }

  /** No view state is missing from `AllViewStates`. */
  lemma ViewStatesExhaustive(v: ViewState)
    ensures v in AllViewStates()
  {
    var vs := AllViewStates();
    match v
    case Auth => assert vs[0] == v;
    case Home => assert vs[1] == v;
    case Form => assert vs[2] == v;
    case Loading => assert vs[3] == v;
    case Result => assert vs[4] == v;
    case History => assert vs[5] == v;
    case SavedProducts => assert vs[6] == v;
    case CompareTwo => assert vs[7] == v;
    case Trending => assert vs[8] == v;
  }

  /** Every strategy category, each once: there are four. */
  function AllStrategyCategories(): (cs: seq<StrategyCategory>)
    ensures |cs| == 4 && NoDup(cs)
  {
    [Pricing, FeaturesBundles, Repositioning, Trust]
  }

  /** No strategy category is missing from `AllStrategyCategories`. */
  lemma StrategyCategoriesExhaustive(c: StrategyCategory)
    ensures c in AllStrategyCategories()
  {
    var cs := AllStrategyCategories();
    match c
    case Pricing => assert cs[0] == c;
    case FeaturesBundles => assert cs[1] == c;
    case Repositioning => assert cs[2] == c;
    case Trust => assert cs[3] == c;
  }

  /** A report's public flag; an absent flag reads as private. */
  function IsPublicOf(r: AnalysisResult): (b: bool)
    ensures b <==> r.isPublic == Some(true)
  {
    r.isPublic.GetOr(false)
  }

  /** A report's ratings; absent ratings read as none. */
  function RatingsOf(r: AnalysisResult): (rs: seq<Rating>)
    ensures r.ratings.None? ==> rs == []
    ensures r.ratings.Some? ==> rs == r.ratings.value
  {
    r.ratings.GetOr([])
  }

  /** A report's suggestions; absent suggestions read as none. */
  function SuggestionsOf(r: AnalysisResult): (ss: seq<Suggestion>)
    ensures r.suggestions.None? ==> ss == []
    ensures r.suggestions.Some? ==> ss == r.suggestions.value
  {
    r.suggestions.GetOr([])
  }

  /** `currentUser?.id === ownerId`: there is a signed-in user and it owns the
      record. This one rule decides full access everywhere. */
  predicate IsOwner(currentUser: Option<User>, ownerId: string): (b: bool)
    ensures currentUser.None? ==> !b
    ensures currentUser.Some? ==> (b <==> currentUser.value.id == ownerId)
  {
    currentUser.Some? && currentUser.value.id == ownerId
  }

  /** `list.find(h => h.id === id)`: the first report with that id. */
  function FindReport(list: seq<AnalysisResult>, id: string): (r: Option<AnalysisResult>)
    ensures r.None? <==> forall i :: 0 <= i < |list| ==> list[i].id != id
    ensures r.Some? ==> r.value.id == id && r.value in list
    ensures r.Some? ==> exists i :: 0 <= i < |list| && list[i] == r.value && forall j :: 0 <= j < i ==> list[j].id != id
  {
    Find(list, (h: AnalysisResult) => h.id == id)
  }

  /** The viability score shown to users: `100 - failureRiskScore`. */
  function Viability(r: AnalysisResult): (v: int)
    ensures v + r.failureRiskScore == 100
    ensures 0 <= r.failureRiskScore <= 100 ==> 0 <= v <= 100
  {
    100 - r.failureRiskScore
  }
}
