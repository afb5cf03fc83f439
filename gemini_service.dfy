/** The analysis client: choosing the analysis mode from the product link,
    filling the prompt's input block with defaults, choosing the protocol
    block, and turning the model's reply into a report or an error. The
    request to the generative model and the JSON decoder are parameters. */
module GeminiService {

  import opened Wrappers
  import opened Types
  import opened Text

  const ModeASelection: string := "MODE A — LINK-BASED ANALYSIS"
  const ModeBSelection: string := "MODE B — MANUAL DATA ANALYSIS"
  const EmptyResponseError: string := "Empty response from AI engine."
  const ParseError: string := "Failed to parse market data. Please try again."

  /** `isModeA`: the input carries a product link that is not blank. A link of
      only whitespace selects the manual mode. */
  function IsModeA(input: ProductInput): (b: bool)
    ensures b <==> input.productLink.Some? && !Blank(input.productLink.value)
  {
    match input.productLink
    case None => false
    case Some(link) =>
      TrimEmptyIffBlank(link);
      link != "" && Trim(link) != ""
  }

  /** `modeSelection`: the mode sentence written into the prompt. */
  function ModeSelection(input: ProductInput): (s: string)
    ensures s == ModeASelection <==> IsModeA(input)
    ensures s == ModeBSelection <==> !IsModeA(input)
  {
    if IsModeA(input) then ModeASelection else ModeBSelection
  }

  /** Each mode sentence ends with the label the prompt asks the model to
      state, so the two parts of the prompt agree. */
  lemma SelectionNamesMode(modeA: bool)
    ensures modeA ==> Contains(ModeASelection, "LINK-BASED ANALYSIS")
    ensures !modeA ==> Contains(ModeBSelection, "MANUAL DATA ANALYSIS")
  {
    if modeA {
      assert ModeASelection[9..] == "LINK-BASED ANALYSIS";
      ContainsAt(ModeASelection, "LINK-BASED ANALYSIS", 9);
    } else {
      assert ModeBSelection[9..] == "MANUAL DATA ANALYSIS";
      ContainsAt(ModeBSelection, "MANUAL DATA ANALYSIS", 9);
    }
  }

  /** The protocol block the prompt carries: auto-extraction from the link
      (mode A) or strict use of the manual fields (mode B). */
  datatype Protocol = AutoExtract | StrictData

  /** The values the prompt template interpolates. The fixed prose around
      them is not part of this record. */
  datatype Prompt = Prompt(
    modeSelection: string,
    productLink: string,
    referenceName: string,
    description: string,
    price: string,
    audience: string,
    region: string,
    platform: string,
    protocol: Protocol,
    requiredMode: string)

  /** `given || fallback` on a string: JavaScript treats "" as false. */
  function Or(given: string, fallback: string): (shown: string)
    ensures given != "" ==> shown == given
    ensures given == "" ==> shown == fallback
    ensures fallback != "" ==> shown != ""
  {
    if given == "" then fallback else given
  }

  /** `shown` is what `given || fallback` displays. */
  ghost predicate FilledFrom(shown: string, given: string, fallback: string)
  {
    (given == "" ==> shown == fallback) && (given != "" ==> shown == given)
  }

  /** The prompt built for one input. */
  function BuildPrompt(input: ProductInput): (p: Prompt)
    ensures p.modeSelection == ModeSelection(input)
    ensures p.protocol == AutoExtract <==> IsModeA(input)
    ensures p.requiredMode == ModeLabel(if IsModeA(input) then LinkBased else ManualData)
    ensures Contains(p.modeSelection, p.requiredMode)
    ensures FilledFrom(p.productLink, input.productLink.GetOr(""), "N/A")
    ensures p.referenceName == input.name
    ensures FilledFrom(p.description, input.description, "N/A")
    ensures FilledFrom(p.price, input.price, "N/A")
    ensures FilledFrom(p.audience, input.targetAudience, "N/A")
    ensures FilledFrom(p.region, input.country, "Global")
    ensures FilledFrom(p.platform, input.platform, "General Web")
  {
    var modeA := IsModeA(input);
    var required := if modeA then "LINK-BASED ANALYSIS" else "MANUAL DATA ANALYSIS";
    var selection := ModeSelection(input);
    SelectionNamesMode(modeA);
    Prompt(
      selection,
      Or(input.productLink.GetOr(""), "N/A"),
      input.name,
      Or(input.description, "N/A"),
      Or(input.price, "N/A"),
      Or(input.targetAudience, "N/A"),
      Or(input.country, "Global"),
      Or(input.platform, "General Web"),
      if modeA then AutoExtract else StrictData,
      required)
  }

  /** What the generative model gives back: a reply whose text may be
      missing, or a failed request. */
  datatype Reply = Reply(text: Option<string>) | RequestFailed(message: string)

  /** Turning the reply text into a report: empty text and text the decoder
      rejects are the two errors; the decoded value is passed on unchecked. */
  function InterpretText(text: Option<string>, decode: string -> Option<AnalysisResult>): (r: Result<AnalysisResult, string>)
    ensures r == Failure(EmptyResponseError) <==> text.None? || text.value == ""
    ensures r == Failure(ParseError) <==> text.Some? && text.value != "" && decode(text.value).None?
    ensures r.Success? <==> text.Some? && text.value != "" && decode(text.value).Some?
    ensures r.Success? ==> decode(text.value) == Some(r.value)
  {
    match text
    case None => Failure(EmptyResponseError)
    case Some(t) =>
      if t == "" then Failure(EmptyResponseError)
      else match decode(t)
        case None => Failure(ParseError)
        case Some(result) => Success(result)
  }

  /** `analyzeProduct`: the prompt for `input` goes to the model `ai`; its
      reply is interpreted, and a failed request is passed on as an error. */
  function AnalyzeProduct(input: ProductInput, ai: Prompt -> Reply, decode: string -> Option<AnalysisResult>): (r: Result<AnalysisResult, string>)
    ensures ai(BuildPrompt(input)).RequestFailed? ==> r == Failure(ai(BuildPrompt(input)).message)
    ensures ai(BuildPrompt(input)).Reply? ==> r == InterpretText(ai(BuildPrompt(input)).text, decode)
  {
    match ai(BuildPrompt(input))
    case RequestFailed(message) => Failure(message)
    case Reply(text) => InterpretText(text, decode)
  }
}
