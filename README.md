# InsightCart in Dafny

InsightCart is a client-side web application that audits a product's market
viability. It works in three steps. A product is described by a link (mode A)
or by manual data (mode B). A generative model returns a structured report
with a failure-risk score, mistakes, strategies, competitors and a 30-day
launch plan. Users keep a history of their reports, compare two of them, list
reports on a public discovery feed, and rate and comment on other users'
listings.

This project models the application's logic in Dafny and proves properties
of that model:

- `wrappers.dfy`: optional values and outcomes.
- `seqs.dfy`: the array built-ins the application relies on. These are
  `filter`, `find`/`findIndex`, a stable numeric sort, and insertion-ordered
  de-duplication through `new Set`.
- `text.dfy`: the string built-ins. These are `trim` with the ECMAScript
  whitespace set, `includes`, `split(' ')[0]`, the string `<` order, and
  `${n}` rendering of integers.
- `types.dfy`: the records and string-literal unions of the data model.
- `gemini_service.dfy`: mode selection, the prompt's interpolated values and
  defaults, the protocol choice, and the two error outcomes of the analysis
  client.
- `product_form.dfy`: the input form as a class holding its mode and values.
- `history_list.dfy`: the history vault. It covers the two-id selection
  (a class), the compare action, the newest-first order, the score colours
  and the mode icon.
- `public_feed.dfy`: the discovery feed. It covers average ratings, the
  category filter, the four sort orders, the category list, each card, and
  the feed's own state (a class).
- `analysis_report.dfy`: the report screen. It covers the owner check, the
  risk colours, the export guard, and which sections each viewer sees.
- `comparison_view.dfy`: the comparison screen. It covers the winner, the
  metric rows with exactly one highlighted column each, and the verdict.
- `app.dfy`: the application controller, a class. It holds the signed-in
  user, the screen, the displayed report, the shared lists of reports and
  saved products, the compared pair and the error banner. Its handlers keep
  an invariant: at most one rating per rater in every report.

Some parts of the running system are inputs of the model rather than parts of
it:

- Browser storage contents are parameters of `AppController.App.Load`.
- Random ids and clock readings are parameters of the handlers.
- The generative model is a function from the prompt to a reply.
- The JSON decoder is a function from text to an optional report.

Scores, counts and timestamps are integers. Average ratings are exact
rationals (`real`).

## Model

| member | source | states |
|---|---|---|
| `Seqs.Filter` | App.tsx:39-41 | `filter` keeps exactly the elements satisfying the predicate, each as often as before, in their original order |
| `Seqs.FilterAll` | PublicFeed.tsx:25 | when every element passes, filtering returns the sequence unchanged |
| `Seqs.FilterNoDup` | HistoryList.tsx:18 | filtering a sequence without repeats leaves none |
| `Seqs.Find` | App.tsx:99 | `find` is absent exactly when nothing matches, otherwise the first matching element |
| `Seqs.SortDesc` | HistoryList.tsx:67 | sorting with a descending numeric comparator yields a permutation of the input whose keys never increase |
| `Seqs.Distinct` | PublicFeed.tsx:33 | `new Set` iteration: no repeats, the same members, in first-occurrence order |
| `Text.Trim` | geminiService.ts:9 | the input with a blank prefix and a blank suffix cut off, leaving a string that starts and ends with a non-whitespace character or is empty |
| `Text.TrimEmptyIffBlank` | geminiService.ts:9 | trimming gives the empty string exactly when every character is whitespace |
| `Text.Contains` | PublicFeed.tsx:25 | `includes` holds exactly when the needle starts at some position of the string |
| `Text.ContainsAt` | PublicFeed.tsx:25 | `includes` finds a string that starts at any position |
| `Text.MissingCharNotContained` | HistoryList.tsx:81 | a string lacking one of the characters of the needle does not include it |
| `Text.FirstWord` | PublicFeed.tsx:33 | `split(' ')[0]` is the longest prefix without a space, followed by a space or the end |
| `Text.JsLess` | ComparisonView.tsx:15 | `a < b` exactly when `a` is a proper prefix of `b`, or at the first position where they differ `a` has the smaller character |
| `Text.JsLessIrreflexive` | ComparisonView.tsx:15 | no string is `<` itself |
| `Text.JsLessAsymmetric` | ComparisonView.tsx:15 | two strings are never each `<` the other |
| `Text.JsLessTotal` | ComparisonView.tsx:15 | of two different strings one is `<` the other |
| `Text.IntToString` | ComparisonView.tsx:53 | `${n}` starts with a minus sign exactly when `n` is negative |
| `Text.NatToStringValue` | ComparisonView.tsx:53 | the decimal form of a natural number is digits only, has no leading zero, and denotes the number |
| `Text.NatToStringInjective` | ComparisonView.tsx:53 | different natural numbers are written differently |
| `Text.IntToStringValue` | ComparisonView.tsx:53 | `${n}` denotes `n`: the digits of `n`, or a minus sign and the digits of its magnitude, in either case without a leading zero |
| `Text.IntToStringInjective` | ComparisonView.tsx:53 | different integers are written differently |
| `Types.ModeLabel` | types.ts:99 | a report's mode is one of exactly two labels |
| `Types.AllViewStates` | types.ts:122 | there are nine view states with nine distinct labels |
| `Types.ViewStatesExhaustive` | types.ts:122 | every view state is among the nine |
| `Types.AllStrategyCategories` | types.ts:51 | there are four strategy categories, none repeated |
| `Types.StrategyCategoriesExhaustive` | types.ts:51 | every strategy category is among the four |
| `Types.IsPublicOf` | AnalysisReport.tsx:27 | a report is public exactly when its flag is present and true; an absent flag reads as private |
| `Types.RatingsOf` | types.ts:110 | absent ratings read as none |
| `Types.SuggestionsOf` | types.ts:111 | absent suggestions read as none |
| `Types.FindReport` | App.tsx:99 | the lookup by id fails exactly when no report has the id; otherwise it is the first report in the list with the id |
| `Types.IsOwner` | AnalysisReport.tsx:14 | there is a signed-in user and their id is the owner's id |
| `Types.Viability` | AnalysisReport.tsx:116 | viability and failure risk add up to 100, so a risk from 0 to 100 gives a viability from 0 to 100 |
| `GeminiService.IsModeA` | geminiService.ts:9 | link mode exactly when a link is present and not blank; a whitespace-only link means manual mode |
| `GeminiService.ModeSelection` | geminiService.ts:10 | the mode A sentence exactly in link mode, the mode B sentence otherwise |
| `GeminiService.SelectionNamesMode` | geminiService.ts:41 | each mode sentence contains the label the prompt requires for that mode |
| `GeminiService.Or` | geminiService.ts:19-25 | `given || fallback` on strings: the given value unless it is empty, and so never empty when the fallback is not |
| `GeminiService.BuildPrompt` | geminiService.ts:12-41 | one protocol chosen by the mode; the required label matches the report enum; "N/A", "Global" and "General Web" stand in for empty fields; the name is verbatim |
| `GeminiService.InterpretText` | geminiService.ts:172-181 | missing or empty text fails with the empty-response error, undecodable text with the parse error, anything else succeeds with the decoded value |
| `GeminiService.AnalyzeProduct` | geminiService.ts:162-181 | the model receives the built prompt; a failed request is passed on and a reply is interpreted |
| `ProductForm.SetField` | ProductForm.tsx:22-24 | typing stores the value under the named field and no other field changes |
| `ProductForm.Submission` | ProductForm.tsx:29 | mode A submits the form as it is; mode B submits an empty link and every other field unchanged |
| `ProductForm.Submittable` | ProductForm.tsx:65-171 | mode A submits only with a non-empty link and name; mode B only with all seven of name, category, description, price, audience, country and platform non-empty |
| `ProductForm.EmptyFormNotSubmittable` | ProductForm.tsx:10-20 | the freshly opened form cannot be submitted on either tab |
| `ProductForm.ModeARequiresLink` | ProductForm.tsx:77-79 | a submittable mode A form always carries a non-empty link, and a filled mode B form with no link is not submittable in mode A |
| `ProductForm.ModeBSubmissionIsManual` | ProductForm.tsx:28-29 | a mode B submission is always analysed in manual mode with link "N/A" |
| `ProductForm.ModeASubmissionFollowsLink` | ProductForm.tsx:29 | a mode A submission is analysed in link mode exactly when the typed link is not blank |
| `ProductForm.FormState.constructor` | ProductForm.tsx:10-20 | the form opens on mode A with every field empty |
| `ProductForm.FormState.HandleChange` | ProductForm.tsx:22-24 | editing a field changes that field only and keeps the mode |
| `ProductForm.FormState.SetMode` | ProductForm.tsx:44-58 | switching tabs keeps every typed value |
| `ProductForm.FormState.HandleSubmit` | ProductForm.tsx:26-31 | an input is handed to the analysis exactly when the visible tab's required inputs are filled; it is then the form's submission for its mode, carries a link in mode A and never selects link mode in mode B |
| `HistoryList.ToggleSelect` | HistoryList.tsx:16-20 | a selected id is removed with the rest kept in order; a new id is appended below two and ignored at two; at most two ids and no repeats are preserved |
| `HistoryList.ComparePair` | HistoryList.tsx:22-26 | a pair exists exactly when two ids are selected and both resolve; it is in selection order, each the first report with its id |
| `HistoryList.SortedHistory` | HistoryList.tsx:67 | the listing is a permutation of the history, newest first |
| `HistoryList.ScoreColor` | HistoryList.tsx:95 | emerald below 40, amber from 40 to 69, red from 70 |
| `HistoryList.LinkInLabelIffLinkBased` | HistoryList.tsx:81 | of the two mode labels only the link-based one contains "LINK" |
| `HistoryList.ModeIcon` | HistoryList.tsx:81 | the link icon is shown exactly for link-based reports |
| `HistoryList.Selection.constructor` | HistoryList.tsx:14 | the selection starts empty and valid |
| `HistoryList.Selection.Toggle` | HistoryList.tsx:16-20 | clicking a box applies the toggle and keeps at most two distinct ids |
| `HistoryList.Selection.CompareButtonShown` | HistoryList.tsx:43 | the compare button shows exactly when two ids are ticked, and then they differ |
| `HistoryList.Selection.CompareClick` | HistoryList.tsx:22-26 | the compare action hands over the resolved pair in selection order, or nothing |
| `PublicFeed.ScoreSum` | PublicFeed.tsx:21 | the `reduce` starts at 0, and one rating sums to its score |
| `PublicFeed.ScoreSumAppend` | PublicFeed.tsx:21 | the sum of two lists joined is the sum of their sums |
| `PublicFeed.ScoreSumBounds` | PublicFeed.tsx:21 | the sum of scores in a range lies between the count times each bound |
| `PublicFeed.MeanWithinScoreRange` | PublicFeed.tsx:21 | the mean of scores from 1 to 10 is from 1 to 10 |
| `PublicFeed.AvgRating` | PublicFeed.tsx:19-22 | 0 for absent or empty ratings, otherwise the value whose product with the count is the sum, between 1 and 10 for button scores |
| `PublicFeed.Matches` | PublicFeed.tsx:25 | "All" keeps every product; any other value keeps a product exactly when it occurs in the product's price positioning |
| `PublicFeed.FilterByCategory` | PublicFeed.tsx:25 | "All" keeps every product; any other filter keeps exactly the products whose price positioning includes it, each copy, in order |
| `PublicFeed.SortKeyOrders` | PublicFeed.tsx:26-31 | each comparator's descending key order is newest first, lowest risk first, or highest average first |
| `PublicFeed.SortedProducts` | PublicFeed.tsx:24-31 | the listing is a permutation of the filtered products, ordered as the selected sort order asks |
| `PublicFeed.TrendingIsNewest` | PublicFeed.tsx:27-30 | the trending order is the newest-first order |
| `PublicFeed.FirstWords` | PublicFeed.tsx:33 | one first word of price positioning per product, in feed order |
| `PublicFeed.Categories` | PublicFeed.tsx:33 | "All", then each first word once, exactly the words that occur, in first-occurrence order |
| `PublicFeed.CategoryKeepsItsSource` | PublicFeed.tsx:25-33 | every product's word is offered, and filtering by it keeps that product under any sort order |
| `PublicFeed.UserRating` | PublicFeed.tsx:72 | nothing when signed out or not rated, otherwise the score of the viewer's first rating |
| `PublicFeed.CardFor` | PublicFeed.tsx:71-114 | the owner sees "You" and "Full Analysis"; others see the name or "Market Pro" and "Public Summary"; viability is 100 minus risk |
| `PublicFeed.RatingButtons` | PublicFeed.tsx:130-133 | the rating buttons send exactly the scores 1 to 10 |
| `PublicFeed.ToggleDetails` | PublicFeed.tsx:117 | a card's panel closes if open and otherwise opens in place of any other |
| `PublicFeed.SuggestionToSend` | PublicFeed.tsx:164-168 | a draft is sent, untrimmed, exactly when it is not blank |
| `PublicFeed.Feed.constructor` | PublicFeed.tsx:14-17 | the feed opens trending, unfiltered, with no panel open and an empty draft |
| `PublicFeed.Feed.SetSort` | PublicFeed.tsx:45 | choosing a sort order changes nothing else |
| `PublicFeed.Feed.SetFilter` | PublicFeed.tsx:55 | choosing a category changes nothing else |
| `PublicFeed.Feed.ClickFeedback` | PublicFeed.tsx:117 | the clicked card's panel flips and no other panel is open |
| `PublicFeed.Feed.TypeSuggestion` | PublicFeed.tsx:161 | typing replaces the shared draft only |
| `PublicFeed.Feed.SubmitSuggestion` | PublicFeed.tsx:163-169 | with a panel open, a non-blank draft is sent as typed to that panel's product and cleared; a blank one is kept and nothing is sent |
| `AnalysisReport.RiskColor` | AnalysisReport.tsx:16-20 | red from 70, amber from 40 to 69, emerald below 40 |
| `AnalysisReport.RiskColorMatchesHistory` | AnalysisReport.tsx:16-20 | the report and the history list colour every score alike |
| `AnalysisReport.HandlePrint` | AnalysisReport.tsx:22-25 | the print dialog opens exactly for the owner |
| `AnalysisReport.RenderReport` | AnalysisReport.tsx:33-224 | share, export, competitors, roadmap and listing choice exactly for the owner, who needs a first competitor and a first strategy; everyone sees viability 100 minus risk in its colour |
| `AnalysisReport.PrivateSectionsDoNotLeak` | AnalysisReport.tsx:124-224 | a non-owner always gets the public report, and it does not depend on the private sections |
| `ComparisonView.FirstIsBetter` | ComparisonView.tsx:12 | the first report wins exactly when its viability is strictly higher, that is its risk strictly lower |
| `ComparisonView.BetterProduct` | ComparisonView.tsx:12 | the winner is one of the two with the higher viability, and ties go to the second |
| `ComparisonView.VerdictFor` | ComparisonView.tsx:67-69 | the verdict names the winner and quotes its viability and then the other's, which is never higher |
| `ComparisonView.MetricRow` | ComparisonView.tsx:14-21 | exactly one column of a row is highlighted, the first when `isV1Better` |
| `ComparisonView.NumV1Better` | ComparisonView.tsx:15 | equal numbers never highlight the first column |
| `ComparisonView.StrV1Better` | ComparisonView.tsx:15 | equal strings never highlight the first column |
| `ComparisonView.NumV1BetterSwaps` | ComparisonView.tsx:15-20 | swapping two different numbers swaps the highlight; both columns never win |
| `ComparisonView.StrV1BetterSwaps` | ComparisonView.tsx:15-20 | swapping two different strings swaps the highlight; both columns never win |
| `ComparisonView.ViabilityText` | ComparisonView.tsx:53 | the viability's `${n}` followed by a percent sign |
| `ComparisonView.ViabilityTextValue` | ComparisonView.tsx:53 | the text before the percent sign denotes the viability |
| `ComparisonView.ViabilityTextInjective` | ComparisonView.tsx:53 | equal viability texts mean equal viabilities |
| `ComparisonView.ViabilityRowAsWritten` | ComparisonView.tsx:53 | the viability row as written highlights by the string order of the two percentages |
| `ComparisonView.ViabilityRowAsWrittenMisranks` | ComparisonView.tsx:53 | viability 9 against 80 highlights the first column, against the verdict |
| `ComparisonView.ViabilityRowCorrected` | ComparisonView.tsx:53 | compared as numbers, the viability row highlights the verdict's winner |
| `ComparisonView.NumericRow` | ComparisonView.tsx:54-56 | a row over two numbers shown as `${n}` highlights the first exactly when it is strictly better |
| `ComparisonView.Rows` | ComparisonView.tsx:53-56 | four rows with one highlight each: the corrected viability row and the risk row follow the winner, fewer mistakes and more strategies win |
| `ComparisonView.HighlightsAgreeWithVerdict` | ComparisonView.tsx:12-54 | the viability and risk rows highlight the report the verdict names |
| `AppController.UserHistory` | App.tsx:39 | signed out, nothing; signed in, exactly the user's reports, in order, each copy kept |
| `AppController.UserProducts` | App.tsx:40 | signed out, nothing; signed in, exactly the user's saved products, in order, each copy kept |
| `AppController.PublicListings` | App.tsx:41 | exactly the reports whose public flag is true, in order, each copy kept |
| `AppController.ReplaceById` | App.tsx:84-88 | every report with the updated id is replaced; the others keep their place; the length is kept |
| `AppController.ReplaceByIdIdempotent` | App.tsx:85 | replacing twice with the same report is replacing once |
| `AppController.RaterIndex` | App.tsx:103 | -1 exactly when the user has not rated, otherwise the position of the first rating |
| `AppController.UpsertRating` | App.tsx:102-110 | the first rating is overwritten in place or one is appended; other raters keep value and position; with one rating per rater, the rater's score is the new one |
| `AppController.UpsertTwiceLastWins` | App.tsx:102-110 | rating twice leaves the second score and no extra entry |
| `AppController.UpsertKeepsScoreRange` | App.tsx:107-109 | ratings from the buttons keep every score, and so the average, within 1 to 10 |
| `AppController.WithRating` | App.tsx:112 | only the ratings of the report change |
| `AppController.RatingShownInFeed` | App.tsx:105-112 | after rating, the feed shows the rater their own new score |
| `AppController.WithSuggestion` | App.tsx:129 | the suggestion is appended after the earlier ones and nothing else changes |
| `AppController.Enrich` | App.tsx:61-70 | a new report gets the id, author, name and time given, is private, with no ratings or suggestions, the rest as returned |
| `AppController.NewReportIsPrivate` | App.tsx:61-74 | a new report heads its author's history and leaves the public listings unchanged |
| `AppController.ListedIsPublic` | App.tsx:90-95 | listing a report in the list makes it a public listing |
| `AppController.UnlistedIsNotPublic` | App.tsx:90-95 | unlisting a report removes its id from the public listings |
| `AppController.InputFromSaved` | App.tsx:217 | analysing a saved product sends its name, link, description and category with the other fields empty |
| `AppController.SavedProductPrompt` | App.tsx:217 | a saved product is analysed in link mode exactly when its link is present and not blank, with the prompt's defaults elsewhere |
| `AppController.DeleteById` | App.tsx:147-151 | every product with the id is removed and the others are kept, each copy, in order |
| `AppController.DeleteUndoesAdd` | App.tsx:134-151 | deleting a product just added under an unused id restores the list |
| `AppController.App.constructor` | App.tsx:16-22 | signed out on the sign-in screen with empty lists |
| `AppController.App.Load` | App.tsx:25-36 | a stored user signs in to the home screen; stored lists replace the empty ones |
| `AppController.App.Login` | App.tsx:43-47 | the user is signed in and the home screen shown; nothing else changes |
| `AppController.App.Logout` | App.tsx:49-53 | signed out on the sign-in screen; the private views are empty |
| `AppController.App.Analyze` | App.tsx:55-82 | signed out, nothing; on success the enriched report is prepended and shown; on failure the fixed banner on the form, lists unchanged |
| `AppController.App.Finish` | App.tsx:61-81 | a report is enriched, put first and displayed; any failure shows the fixed banner on the form with the list unchanged; one rating per rater is kept |
| `AppController.App.ToggleListing` | App.tsx:90-95 | only the owner of the displayed report changes its flag, there and in the list; nothing else changes |
| `AppController.App.Rate` | App.tsx:97-115 | signed in with a known id, the report's rating is upserted in the list and on display; otherwise nothing changes; one rating per rater is kept |
| `AppController.App.Suggest` | App.tsx:117-132 | signed in with a known id, one suggestion with the user's id and name is appended, in the list and on display; otherwise nothing changes |
| `AppController.App.AddSavedProduct` | App.tsx:134-145 | signed in, the user's new product comes first; signed out, nothing changes |
| `AppController.App.DeleteSavedProduct` | App.tsx:147-151 | products with the id are deleted, whoever owns them |
| `AppController.App.Compare` | App.tsx:153-156 | the pair is kept and the comparison screen shown |
| `AppController.App.ShowReport` | App.tsx:223 | the report is displayed on the result screen |
| `AppController.App.Navigate` | App.tsx:174-178 | only the screen changes |
| `AppController.App.ClickLogo` | App.tsx:162 | the logo leads home only when signed in |

## Findings

| source | as written | input that shows it | evidently intended | confidence | as-written member | corrected member |
|---|---|---|---|---|---|---|
| ComparisonView.tsx:53 | the Viability row passes the strings "NN%" to a row that compares with `>`, so JavaScript compares them as strings | risk 91 against risk 20: "9%" against "80%"; '9' is after '8', so the first column is highlighted although 9 < 80 and the verdict names the second report | compare the viabilities as numbers, as the Risk row does | not executed | `ComparisonView.ViabilityRowAsWrittenMisranks` | `ComparisonView.ViabilityRowCorrected` |

`ComparisonView.ViabilityRowAsWritten` models the row as written.
`ComparisonView.Rows` uses the corrected row.

## Left out

- Browser storage is read at start-up and written after every change. The reads are the parameters of `AppController.App.Load`; the writes are not modelled.
- Random ids and `Date.now` readings are handler parameters. Nothing proves them unique.
- The request to the generative model is a function parameter. So are the JSON parsing and its failure. The cast of parsed JSON to a report checks nothing at run time, so the enums are not enforced on data from the model. The model name, schema and temperature are left out.
- `AppController.App.Analyze` is one atomic step. It leaves out the intermediate loading screen, the `await`, and the stale copy of the report list captured before it. It also leaves out the logging of the error.
- Clipboard, `alert`, `window.print` and `window.location.reload` are left out. `AnalysisReport.HandlePrint` says only whether printing happens.
- Floating point is left out. Average ratings are exact rationals, and `toFixed(1)` and the `Math.round` that fills the stars are not modelled. Risk scores are integers, although the model may return fractions.
- `GeminiService.BuildPrompt` covers the interpolated values, the protocol choice and the required label. It leaves out the fixed prose of the prompt.
- `AnalysisReport.RenderReport` does not model the lower-casing of strengths, weaknesses and the strategy category in the owner's text, nor the date formatting.
- `Seqs.SortDesc` does not state stability in its contract. The definition places earlier elements first among equal keys, as JavaScript's sort does.
- `ProductForm.FormState.HandleSubmit` checks only that each required input is non-empty. The browser's own checks go further: the link input must also hold a syntactically valid absolute URL, and its surrounding whitespace is stripped. Neither is modelled, so a mode A link of spaces counts as filled.
- `Text.JsLess` orders strings by Dafny characters (Unicode scalar values). JavaScript orders them by UTF-16 code units. The two differ only for characters outside the Basic Multilingual Plane.
- `Text.IntToString` writes every integer in plain digits. JavaScript switches to exponent notation from 1e21.
- The mapping from screen to component, the error banner rendering, and every other part of the markup and styling are left out. So are AdSlot.tsx, TrendingInsights.tsx (sample data plus the same public filter), Auth.tsx and SavedProducts.tsx (form fields only; their effects are the controller's handlers).
- The share link built from the report id in the history list and the report screen is left out. It exists only for the clipboard.
