# spider: a verified model of the pitch-deck analyser's rules

spider is a React application. A founder uploads a pitch deck as a PDF. A language
model analyses it. The app then shows an investment report, keeps past reports in a
history list, and signs users in before they can upload anything. Most of the code is
view markup. This project models the deterministic rules inside it and proves what
they promise.

- **Analysis** (`analysis.dfy`): the last step of `analyzePitchDeck`.
  - It strips Markdown code fences from the model's reply, parses the reply as JSON and rejects a falsy result.
  - It then reshapes the camelCase answer into the snake_case record the pages read.
  - Reads the source does not guard make the whole mapping throw a `TypeError`. The model has that error outcome instead of defaults.
- **Report** (`report.dfy`): the display rules of the analysis report.
  - The four-band verdict text and the risk qualifier.
  - The five stars per reputation score and the sentiment badge.
  - The percentage, the deal-structure placeholder and the per-term fallback sentences.
  - The key-question defaults and the four-column competitor table.
- **Insight** (`insight.dfy`): the stored-report page.
  - Loading a report under its storage key, and the spinner/notice/report choice.
  - The score, industry and founding-date fallback chains.
  - The list sections and their placeholders.
- **History** (`history.dfy`): the history page.
  - Loading the list, where a missing list becomes `[]`.
  - The text of each card.
  - The route a card opens.
- **Login** (`login.dfy`): the sign-in/sign-up form.
  - Password-strength counting and the five-criterion password rule.
  - Per-field error messages in both modes.
  - The input and tab handlers.
- **Tokens** (`tokens.dfy`): the 20000-token quota. The `token_usage` table is a map from user id to used tokens.
- **Upload** (`upload.dfy`): the upload page.
  - The `handleAnalyze` sequence of state updates with its fixed progress checkpoints and its deferred reset.
  - The analyze-button rule, and the panel and heading choice.
- **Loading** (`loading.dfy`): which step of the loading screen is current, active or completed for a progress value.
- **Navbar** (`navbar.dfy`): page classification from the path, where the back button leads, the menu and modal flags, the profile line and the menu items.
- **Protected** (`protected.dfy`): the route guard's tri-state `isAuthenticated`, the `checkAuth` decision, the auth-change listener and the render choice.
- **Js** (`js.dfy`): the JavaScript semantics the rest relies on.
  - One `Value` datatype for loosely typed JSON.
  - Truthiness, `||` (`Or`), `??` (`Coalesce`), `?.` (`Get`) and `.` (`Prop`, which throws on null/undefined).
  - `trim`, ASCII `toLowerCase`, `join`, `String()`, `Number()` on decimal strings, and the `%` operator with JavaScript's sign rule.

Scores are exact `real` numbers, so the gaps between the verdict bands show up as
they are. Effects stay outside the model:
- The network, the Supabase auth and database calls, `JSON.parse` and the storage services are parameters. A parameter is either an outcome or a function value.
- An imperative handler becomes a method of a class whose fields are the component's state.
- Navigation and toasts are sequences that the methods append to.

The report pages read the record by property paths. `Analysis.ToJs` builds the
JavaScript object of a normalized record, and `Analysis.Presents(data, r)` says that
`data` answers those paths as record `r` does. The display lemmas "...OfRecord"
state what each rule shows for a record the mapping produced.

### Behaviour of the code

Two facts about the code shape the model.
- No score is clamped into [0, 10] anywhere in the code, so none is clamped in the model.
- The mapping reads `profile`, `marketComparison.metrics.*`, `competitors`, `expertOpinions`, `expertConclusion` and `strengthsWeaknesses.weaknesses` without a guard. `Analysis.Normalize` therefore fails with a `TypeError` exactly when one of those reads would throw.

## Model

| member | source | states |
|---|---|---|
| Analysis.NoFenceAt | src/services/apiService.ts:213 | a character that can begin neither alternative of the fence pattern starts no match |
| Analysis.RemoveFencesPrefix | src/services/apiService.ts:213 | backtick-free text stays, unchanged and in front, when the fence removal runs over it and what follows |
| Analysis.ParsedTextWithoutBacktick | src/services/apiService.ts:213 | content with no backtick reaches JSON.parse as exactly its trimmed form |
| Analysis.ClosingFence | src/services/apiService.ts:213 | the closing "\n```" is removed entirely |
| Analysis.FencedJsonBody | src/services/apiService.ts:213 | a body wrapped in "```json\n" … "\n```" reaches JSON.parse as the trimmed body |
| Analysis.FencedPlainBody | src/services/apiService.ts:213 | a body wrapped in a plain "```" fence reaches JSON.parse as the trimmed body |
| Analysis.AnalyzeContent | src/services/apiService.ts:212-217 | a parse failure is a SyntaxError; the fixed "No valid analysis results" rejection happens exactly when the parsed value is falsy; a truthy parsed value gives exactly the mapping's outcome, so every success is its mapping |
| Analysis.Normalize | src/services/apiService.ts:220-338 | succeeds exactly when every unguarded read can be made, and otherwise fails with a TypeError; pitch clarity is 8, founded is "N/A", the investment score is the product viability, the market growth rate is the startup's comparison growth rate, the industry appears twice unchanged, there are as many metric columns as competitors, the deal is DealOf of the input, and the record is well formed |
| Analysis.FundingOf | src/services/apiService.ts:241-247 | a falsy history gives no rounds; otherwise one round per element in input order; TypeError exactly when the history is truthy but not an array of non-null elements |
| Analysis.MapRounds | src/services/apiService.ts:242-246 | `.map` over rounds: same length and order, and a TypeError exactly when some element is null or undefined |
| Analysis.RoundFieldsTruthy | src/services/apiService.ts:243-245 | type, amount and investors of a round are the input's when truthy and otherwise "Unknown", "Not specified" and []; so none is falsy |
| Analysis.ArrayItems | src/services/apiService.ts:249 | `.map` exists only on arrays; anything else is a TypeError |
| Analysis.CompetitorsOf | src/services/apiService.ts:248-259 | one competitor per input element in order; TypeError exactly when the list is no array of non-null elements |
| Analysis.MapCompetitors | src/services/apiService.ts:249-258 | same length and order as the input, and a TypeError exactly when an element is null or undefined |
| Analysis.ComparisonOf | src/services/apiService.ts:260-274 | the startup column holds the "startup" key of each of the four metric rows; there are `count` competitor columns and column i reads key competitor{i+1} of each row; TypeError exactly when an unguarded read fails |
| Analysis.CompetitorKeyInjective | src/services/apiService.ts:268-273 | different positions read different metric keys |
| Analysis.StartupIsNoCompetitorKey | src/services/apiService.ts:262-272 | no competitor column reads the startup's key |
| Analysis.OpinionsOf | src/services/apiService.ts:276-282 | one expert opinion per input element in order; TypeError exactly when the list is no array of non-null elements |
| Analysis.MapOpinions | src/services/apiService.ts:276-282 | same length and order as the input, and a TypeError exactly when an element is null or undefined |
| Analysis.InsightOpinionsOf | src/services/apiService.ts:284-291 | an absent insight list gives none; otherwise one entry per element |
| Analysis.MapInsightOpinions | src/services/apiService.ts:284-291 | same length and order as the input, and a TypeError exactly when an element is null or undefined |
| Analysis.InsightOpinionFieldsTruthy | src/services/apiService.ts:285-290 | each of the six expert-insight fields is the input's when truthy and "Unknown" otherwise; so none is falsy |
| Analysis.ReputationDefaults | src/services/apiService.ts:292-300 | each of the six reputation scores is the input's value when truthy and 0 otherwise; the sentiment is the input's when truthy and "Neutral" otherwise, so never falsy |
| Analysis.DealOf | src/services/apiService.ts:311-323 | seven terms exactly when the structure is truthy with at least one key, otherwise only the fixed message; each of anti-dilution and board seat is "Yes" exactly when its input is truthy, and always "Yes" or "No" |
| Analysis.QuestionsOf | src/services/apiService.ts:324-337 | the three fixed question strings; TypeError exactly when `keyOfferings` or the weaknesses cannot be joined |
| Analysis.QuestionAnswersMention | src/services/apiService.ts:327-335 | whenever the answers can be built, the strategy answer contains the company name, the retention answer contains the key offerings joined by ", ", and the regulatory answer contains both the industry and the weaknesses joined by ", " |
| Analysis.ToJsInsights | src/services/apiService.ts:283-301 | the reputation sits under `expert_insights`, and the record has no top-level `reputation_analysis` |
| Analysis.ToJsPresents | src/services/apiService.ts:220-338 | the snake_case object of a record answers, with that record's fields, every top-level path the modelled display rules read, and also `weaknesses` and `market_comparison` |
| Report.HighRiskScores | src/components/AnalysisReport.tsx:272-283 | the high-risk text is chosen exactly for non-numbers, scores below 1 and scores strictly inside (4, 5) or (7, 8) |
| Report.WholeScoreBands | src/components/AnalysisReport.tsx:1437-1448 | for whole scores the bands leave no gap: 8 and up, 5 to 7, 1 to 4, and below 1 |
| Report.GapScoresAreHighRisk | src/components/AnalysisReport.tsx:1437-1448 | 7.5, 4.5 and 0.5 get the high-risk text; 7 is promising and 8 excellent |
| Report.NumericStringScore | src/components/AnalysisReport.tsx:1437-1448 | a numeric string compares as its number: "9" is excellent |
| Report.VerdictTemplate | src/components/AnalysisReport.tsx:1437-1448 | every verdict opens with the company name |
| Report.VerdictText | src/components/AnalysisReport.tsx:272-283 | throws exactly when the overview is missing or the industry is not a string; otherwise the template of the score's band with the name and the lower-cased industry |
| Report.VerdictOfRecord | src/components/AnalysisReport.tsx:1437-1448 | for a normalized record the verdict fails exactly when its industry is not a string, and otherwise uses the record's score, name and industry |
| Report.RiskMonotone | src/components/AnalysisReport.tsx:490-494 | a higher risk factor never gives a milder qualifier |
| Report.RiskIntervals | src/components/AnalysisReport.tsx:490-494 | "high" exactly from 7, "moderate" exactly on [4, 7), "low" exactly below 4 |
| Report.GrowthLineOf | src/components/AnalysisReport.tsx:482-500 | no growth rate shows the unavailable line; a growth rate shows itself with the qualifier of the verdict's risk factor; the line's property reads fail exactly when the verdict is missing |
| Report.StarRow | src/components/AnalysisReport.tsx:971-997 | n icons, where icon i is filled, half or empty by the full-star count and the half flag |
| Report.Stars | src/components/AnalysisReport.tsx:964-1000 | exactly five icons for any score |
| Report.ReputationStars | src/components/AnalysisReport.tsx:964-1000 | five icons for a reputation score read with `|| 0` |
| Report.StarRowCounts | src/components/AnalysisReport.tsx:971-997 | the row holds `full` filled icons clamped to its length, one half icon exactly when the flag is set and `full` lies inside the row, and empty icons for the rest |
| Report.StarsOfScore | src/components/AnalysisReport.tsx:964-1000 | a score x in [0, 10] shows ⌊x/2⌋ filled stars, a half star exactly when x % 2 ≥ 1 below 10, and five icons in all |
| Report.NoScoreNoStars | src/components/AnalysisReport.tsx:964-1000 | a falsy or non-numeric score shows five empty stars |
| Report.StarExamples | src/components/AnalysisReport.tsx:964-1000 | 0 shows no filled star, 5 shows two filled and a half, and 10 shows five filled |
| Report.SentimentColour | src/components/AnalysisReport.tsx:424-431 | green exactly for "positive" in any letter case, red exactly for "negative", yellow for anything else and for a missing value; a non-string value throws |
| Report.SentimentAsWrittenIsAlwaysNeutral | src/components/AnalysisReport.tsx:424-431 | as written, every normalized record shows a yellow "Neutral" badge |
| Report.SentimentIntendedFollowsRecord | src/components/AnalysisReport.tsx:424-431 | read from where the record keeps it, the badge shows the record's sentiment, green exactly when it says positive |
| Report.PercentOfWholeScore | src/components/AnalysisReport.tsx:1425 | a whole score k shows "10k%" |
| Report.StrengthCountOfRecord | src/components/AnalysisReport.tsx:442 | the strengths count is the length of the record's strengths list |
| Report.CompetitorSummary | src/components/AnalysisReport.tsx:533-543 | no competitor list shows "Competitor data not available"; a truthy list shows "Competing with N established players" with N its rendered length, failing exactly when that length cannot be rendered; for an array N is its element count |
| Report.CompetitorSummaryOfRecord | src/components/AnalysisReport.tsx:533-543 | a normalized record states how many competitors it has |
| Report.FoundedShown | src/components/AnalysisReport.tsx:561 | the founding-date read fails exactly when the overview is missing; otherwise the value is the founding date or "N/A" |
| Report.ExitValueOfRecord | src/components/AnalysisReport.tsx:881 | without disclosed terms the valuation shows the fallback; with a truthy cap it shows the cap |
| Report.DealPlaceholderOfRecord | src/components/AnalysisReport.tsx:1223-1240 | the no-deal placeholder shows exactly for the message-only structure |
| Report.DealPlaceholderOfDeal | src/components/AnalysisReport.tsx:1223-1240 | for any well-formed deal, the placeholder shows exactly when the deal is the message-only shape |
| Report.DealFieldDisplay | src/components/AnalysisReport.tsx:1242-1354 | a term shows its value exactly when it is truthy and not "Not specified", otherwise its own fixed sentence |
| Report.YesNoTermsShown | src/components/AnalysisReport.tsx:1306-1334 | with seven terms, anti-dilution and board seat always show their "Yes"/"No" value |
| Report.YesNoOfDeal | src/components/AnalysisReport.tsx:1306-1334 | the same for the deal object on its own |
| Report.QuestionDefaults | src/components/AnalysisReport.tsx:1366-1388 | without key questions the three default questions and "N/A" answers show |
| Report.QuestionsOfRecord | src/components/AnalysisReport.tsx:1366-1388 | a normalized record shows the fixed questions and its own answers, with "N/A" for an empty one |
| Report.CompetitorColumnList | src/components/AnalysisReport.tsx:762-771 | one column per competitor in order; throws exactly when one is null or undefined |
| Report.ComparisonColumns | src/components/AnalysisReport.tsx:762-846 | the competitor columns can be read exactly when the competitors are an array whose first min(4, n) elements are present; then there are that many columns, the first competitors in order |
| Report.StartupColumn | src/components/AnalysisReport.tsx:758-846 | the startup's cells can be read exactly when the overview, the market analysis and the strengths are present; they are then the company name, market position, growth rate, business model and first strength (or "N/A") |
| Report.ComparisonOfRecord | src/components/AnalysisReport.tsx:762-846 | a normalized record shows min(4, n) competitors named as its first ones |
| Insight.ReportKey | src/pages/Insight.tsx:22 | the key is "analysis-" followed by the id |
| Insight.ReportKeyInjective | src/pages/Insight.tsx:22 | different ids are stored under different keys |
| Insight.LoadOutcome | src/pages/Insight.tsx:17-23 | a missing or empty id fails; otherwise success exactly when the fetch succeeds with a non-null result, giving its `insights` |
| Insight.ViewOf | src/pages/Insight.tsx:36-55 | spinner exactly while loading; the report exactly when loaded and truthy; otherwise the notice |
| Insight.InsightPage.constructor | src/pages/Insight.tsx:12-13 | no report yet, loading |
| Insight.InsightPage.LoadInsight | src/pages/Insight.tsx:15-34 | on success the report is set; on failure a toast and a navigation to "/history", with the report unchanged; loading always ends |
| Insight.MissingIdReturnsToHistory | src/pages/Insight.tsx:19-21 | a missing or empty id always fails, whatever the storage holds |
| Insight.VerdictScore | src/pages/Insight.tsx:182 | the investment score unless it is null or undefined, then the product viability |
| Insight.ZeroScoreKept | src/pages/Insight.tsx:182 | a score of 0 is kept and gets the high-risk text |
| Insight.IndustryShown | src/pages/Insight.tsx:184 | industry type, else the overview industry, else "the industry"; never falsy |
| Insight.InsightVerdict | src/pages/Insight.tsx:181-194 | throws exactly when the overview is missing or the industry is no string; otherwise the report's template for the score and industry chains |
| Insight.InsightAgreesWithReport | src/pages/Insight.tsx:185-193 | with a present score and a non-empty string industry this page prints the same verdict as the report |
| Insight.InsightVerdictOfRecord | src/pages/Insight.tsx:182-184 | a normalized record's industry falls back to "the industry", and its band is that of the product viability |
| Insight.FoundedOn | src/pages/Insight.tsx:76 | the founding-date read fails exactly when the overview is missing; the value is never falsy, and "Not available" when both dates are falsy |
| Insight.FoundedOfRecord | src/pages/Insight.tsx:76 | a normalized record shows "N/A" |
| Insight.RenderAll | src/pages/Insight.tsx:114-118 | every item renders or the list fails, one entry per item in order |
| Insight.Listed | src/pages/Insight.tsx:112-122 | the placeholder shows exactly when the list is falsy or empty; a non-empty array shows one entry per item |
| Insight.RoundEntry | src/pages/Insight.tsx:116 | a round renders exactly when it is present, its type and amount are renderable and its investors are an array; the line is "type: Amount: amount, Key Investors: " followed by the investors joined by ", " |
| Insight.OpinionEntry | src/pages/Insight.tsx:132-136 | an opinion renders exactly when it is present and its five fields are renderable; the five lines are the labelled rendered fields |
| Insight.CompetitorEntry | src/pages/Insight.tsx:152 | a competitor renders exactly when it is present and its five fields are renderable; the line lists name, market position, key investors, amount raised and strengths as rendered |
| Insight.CompetitorListing | src/pages/Insight.tsx:148-158 | a missing analysis or list throws; a list of no length shows the placeholder; a positive-length non-array throws a TypeError; a non-empty array renders exactly when every competitor renders, one entry per competitor in order |
| Insight.FundingListingOfRecord | src/pages/Insight.tsx:112-122 | a normalized record shows the funding placeholder with no rounds, and otherwise one entry per round |
| Insight.OpinionListingOfRecord | src/pages/Insight.tsx:128-142 | the opinions placeholder with no opinions, and otherwise one entry per opinion |
| Insight.CompetitorListingOfRecord | src/pages/Insight.tsx:148-158 | the competitors placeholder with no competitors, and otherwise one entry per competitor |
| Insight.RoundEntryOfStrings | src/pages/Insight.tsx:116 | a round of strings names its type and amount and joins the investors with ", " |
| Insight.MappedRoundEntry | src/services/apiService.ts:242-246 | a mapped round renders on the page exactly when its defaulted type and amount are renderable and its `investors` was falsy or an array; a truthy string of investors makes the page throw |
| History.HistoryPage.constructor | src/pages/History.tsx:9-10 | an empty list, loading |
| History.HistoryPage.LoadInsights | src/pages/History.tsx:13-28 | a result is stored with null becoming []; a failure keeps the list and raises the toast; loading always ends |
| History.HistoryPage.ViewInsight | src/pages/History.tsx:30-32 | a click appends the insight route of that id and changes nothing else |
| History.InsightPath | src/pages/History.tsx:31 | "/insight/" followed by the id's text |
| History.LoadedList | src/pages/History.tsx:18 | null or undefined becomes [], and a list is kept |
| History.InsightPathTargets | src/pages/History.tsx:30-32 | every card route is an insight page whose back button leads to "/history", and different ids give different routes |
| History.PotentialText | src/pages/History.tsx:75 | score × 10 and "%" exactly when the score is a number, otherwise "N/A" |
| History.OutOfTen | src/pages/History.tsx:84 | "x/10" exactly when x is a number, otherwise "N/A" |
| History.CardOf | src/pages/History.tsx:51-91 | throws exactly for a null or undefined entry; name falls back to "Company Name", timestamp placeholder exactly when falsy, the score lines are "N/A" exactly for non-numbers, and market position is never falsy |
| History.CardOfRecord | src/pages/History.tsx:65-90 | a stored normalized record shows its name or the placeholder, clarity "8/10", its score lines, and its market position or "N/A" |
| History.PotentialOfWholeScore | src/pages/History.tsx:75 | a whole score k shows "10k%" |
| Login.Satisfied | src/pages/auth/login.tsx:34-38 | exactly the criteria the password meets, each once |
| Login.GetStrength | src/pages/auth/login.tsx:32-40 | the number of satisfied criteria, at most 5 |
| Login.ValidatePasswordIffFullStrength | src/pages/auth/login.tsx:83-97 | the password rule holds exactly when all five criteria count |
| Login.SamplePasswordIsValid | src/pages/auth/login.tsx:83-97 | "Passw0rd!" passes the rule |
| Login.LabelAsWritten | src/pages/auth/login.tsx:43-45 | a label exists exactly for strengths below 5 |
| Login.ColourAsWritten | src/pages/auth/login.tsx:46-48 | a colour exists exactly for strengths below 5 |
| Login.ValidPasswordHasNoLabel | src/pages/auth/login.tsx:43-48 | as written, every valid password shows no label and no colour |
| Login.StrengthLabel | src/pages/auth/login.tsx:43-45 | always one of the five labels; agrees with the source below 5 and reads "Very Strong" from 4 up |
| Login.StrengthColour | src/pages/auth/login.tsx:46-48 | always one of the five colours; agrees with the source below 5 |
| Login.ValidPasswordIsVeryStrong | src/pages/auth/login.tsx:43-48 | with the capped lookup every valid password is labelled "Very Strong" |
| Login.BarWidth | src/pages/auth/login.tsx:57 | 20% per strength point, within 0..100 for strengths up to 5 |
| Login.EmailMatchExamples | src/pages/auth/login.tsx:123 | an address matches, also in the middle of other text |
| Login.EmailMismatchExamples | src/pages/auth/login.tsx:123 | no "." after the "@", or a space before it, and nothing matches |
| Login.WithField | src/pages/auth/login.tsx:101-104 | the named field takes the value and every other field keeps its own |
| Login.FormErrorsEntries | src/pages/auth/login.tsx:114-150 | the error object has an entry exactly for each field with a message, holding that message |
| Login.FormErrorsEntry | src/pages/auth/login.tsx:114-150 | the same for one field |
| Login.NoErrorsIff | src/pages/auth/login.tsx:153 | the form is accepted exactly when no field has a message |
| Login.MessagesNonEmpty | src/pages/auth/login.tsx:105 | every recorded message is non-empty, so a shown error is truthy |
| Login.LoginModeErrors | src/pages/auth/login.tsx:142-150 | login mode reports only email and password, each exactly when empty |
| Login.SignupAcceptedIff | src/pages/auth/login.tsx:116-141 | sign-up accepts exactly: a name, a matching email, a valid password confirmed identically, and an empty or ten-digit mobile |
| Login.RequiredFirst | src/pages/auth/login.tsx:121-137 | an empty required field gets its "required" message, not a format message |
| Login.LoginPage.constructor | src/pages/auth/login.tsx:70-78 | login tab, empty form, no errors |
| Login.LoginPage.ValidateForm | src/pages/auth/login.tsx:113-154 | stores the error object of the current tab and form, and answers whether it is empty |
| Login.LoginPage.HandleInputChange | src/pages/auth/login.tsx:99-111 | only the named field changes, and only its error is cleared |
| Login.LoginPage.SwitchTab | src/pages/auth/login.tsx:246-256 | selects the tab and empties the form and the errors |
| Tokens.CalculateTokens | src/services/tokenService.ts:102-105 | ⌈length / 4⌉ |
| Tokens.CalculateTokensGrowth | src/services/tokenService.ts:102-105 | longer texts never cost fewer tokens, and four more characters cost exactly one more |
| Tokens.TokenLedger.GetTokenUsage | src/services/tokenService.ts:10-53 | the maximum is always 20000; the stored count or 0, and 0 on any error; a missing record is created with 0 unless the insert fails |
| Tokens.TokenLedger.UpdateTokenUsage | src/services/tokenService.ts:55-100 | a fetch error or a total above 20000 rejects and writes nothing; a success stores old count (0 if missing) plus the new tokens, at most 20000, and leaves every other user unchanged |
| Tokens.TokenLedger.HasEnoughTokens | src/services/tokenService.ts:107-115 | exactly the limit check of an update, on the usage read; the only write is the zero record of a new user, unless the read or the insert fails |
| Tokens.ZeroRecordIsInvisible | src/services/tokenService.ts:27-43 | the zero record created for a new user changes neither the count nor the limit check of anyone |
| Tokens.UpdatePreservesCap | src/services/tokenService.ts:70-75 | a successful update keeps every stored count within 20000 |
| Upload.FailureText | src/pages/Index.tsx:83-85 | an Error's message, otherwise "An unknown error occurred" |
| Upload.ProgressTrace | src/pages/Index.tsx:50-78 | starts 0, 5; strictly increasing; ends at 100 exactly when both services succeed, at 5 when processing fails, at 80 when saving fails |
| Upload.FailureTraceIsPrefix | src/pages/Index.tsx:56-78 | a failed run's progress is a prefix of the successful run's |
| Upload.StepsAdvance | src/pages/Index.tsx:56-78 | the loading screen's step never moves back during an analysis, and ends on the last step exactly when processing succeeded |
| Upload.PanelOf | src/pages/Index.tsx:148-230 | exactly one of upload form, loading view and report is shown |
| Upload.Heading | src/pages/Index.tsx:140-144 | "Analyzing", "Analysis Report" or the default title, exactly with the panel |
| Upload.ButtonOnForm | src/pages/Index.tsx:196 | on the form the button is enabled exactly with a file and an accepted disclaimer |
| Upload.AnalyzePage.constructor | src/pages/Index.tsx:27-32 | no file, not loading, no insights, progress 0, disclaimer not accepted |
| Upload.AnalyzePage.HandleFileSelected | src/pages/Index.tsx:36-38 | stores the file and nothing else |
| Upload.AnalyzePage.SetDisclaimerAccepted | src/pages/Index.tsx:179 | stores the checkbox and nothing else |
| Upload.AnalyzePage.SetProgress | src/pages/Index.tsx:52 | progress takes the value, which is logged |
| Upload.AnalyzePage.StartAnalysis | src/pages/Index.tsx:50-56 | loading on, insights null, progress through 0 to 5 |
| Upload.AnalyzePage.ProcessingSteps | src/pages/Index.tsx:58-71 | progress through 30, 40, 50, 60, 70 to 80 |
| Upload.AnalyzePage.FinishAnalysis | src/pages/Index.tsx:73-78 | 90 and 95, the analysis shown, then 100 |
| Upload.AnalyzePage.HandleAnalyze | src/pages/Index.tsx:44-93 | without a file only the toast; otherwise progress follows ProgressTrace, insights hold the analysis exactly on full success and null on any failure, one toast names the outcome, and the reset is scheduled |
| Upload.AnalyzePage.ResetTimerFires | src/pages/Index.tsx:88-91 | loading off and progress 0 |
| Upload.PanelAfterReset | src/pages/Index.tsx:88-91 | after the reset a success shows the report exactly when the analysis is truthy, and a failure shows the upload form and default title |
| Loading.CurrentStep | src/components/LoadingScreen.tsx:55 | at most 4, at least 0 for non-negative progress, the fifth of the bar the progress is in, and the last step exactly from 80 |
| Loading.CurrentStepMonotone | src/components/LoadingScreen.tsx:55 | higher progress never gives an earlier step |
| Loading.StepBoundaries | src/components/LoadingScreen.tsx:55 | 0 to below 20 is step 0; 80 and above, 100 included, is step 4 |
| Loading.ExactlyOneActive | src/components/LoadingScreen.tsx:85-86 | for non-negative progress exactly one step is active and none is both active and completed |
| Loading.NegativeProgressHasNoActiveStep | src/components/LoadingScreen.tsx:85-86 | negative progress leaves no step active or completed |
| Navbar.Classify | src/components/Navbar.tsx:22-27 | each page class exactly when its path test holds |
| Navbar.PagesDisjoint | src/components/Navbar.tsx:22-27 | an insight path is none of the exact pages |
| Navbar.BackTarget | src/components/Navbar.tsx:57-65 | history goes to "/spider", the three legal pages to "/", insight pages to "/history" |
| Navbar.BackShownIffTarget | src/components/Navbar.tsx:57-79 | the back button is shown exactly when it leads somewhere |
| Navbar.SpiderHasNoBack | src/components/Navbar.tsx:79 | the upload page shows no back button and has no back target |
| Navbar.BackChain | src/components/Navbar.tsx:58-63 | every report page goes back to the history list, which goes back to the upload page |
| Navbar.ProfileName | src/components/Navbar.tsx:162 | "Please Sign In" when signed out, the full name when it is truthy, otherwise the email or "Please Sign In", and never falsy |
| Navbar.MenuItems | src/components/Navbar.tsx:176-199 | History, Upgrade Plan and Logout when signed in, only Sign In otherwise |
| Navbar.SignedOutMenu | src/components/Navbar.tsx:195-198 | every item a signed-out visitor sees leads to "/auth/login" |
| Navbar.NavbarState.constructor | src/components/Navbar.tsx:17-19 | menu and modal closed, no user |
| Navbar.NavbarState.ToggleMenu | src/components/Navbar.tsx:47-49 | flips the menu and nothing else |
| Navbar.NavbarState.HandleLogout | src/components/Navbar.tsx:51-55 | goes home and leaves the menu closed |
| Navbar.NavbarState.OpenSubscriptionModal | src/components/Navbar.tsx:67-70 | closes the menu and opens the modal |
| Navbar.NavbarState.CloseSubscriptionModal | src/components/Navbar.tsx:72-74 | closes the modal and nothing else |
| Navbar.NavbarState.HandleBack | src/components/Navbar.tsx:57-65 | navigates to the back target when there is one, otherwise nowhere |
| Navbar.NavbarState.OnAuthStateChange | src/components/Navbar.tsx:38-40 | the user is that of the session, or null |
| Navbar.NavbarState.SetUser | src/components/Navbar.tsx:31-34 | stores the reported user |
| Protected.CheckAuthDecision | src/components/ProtectedRoute.tsx:15-44 | let in exactly when the session reply is clean and has a session, or the user reply is clean and has a user |
| Protected.SessionDecidesFirst | src/components/ProtectedRoute.tsx:18-29 | a live session admits and a session error refuses, whatever the user reply says |
| Protected.Render | src/components/ProtectedRoute.tsx:62-75 | spinner exactly while unknown, children exactly when true, a replacing redirect to "/auth/signin" that remembers the location exactly when false |
| Protected.ChildrenOnlyWhenSignedIn | src/components/ProtectedRoute.tsx:62-75 | the children render only after a check that found a session or a user |
| Protected.AuthGate.constructor | src/components/ProtectedRoute.tsx:11 | unknown at first |
| Protected.AuthGate.CheckAuth | src/components/ProtectedRoute.tsx:15-44 | step by step, sets exactly the decision above, and never back to unknown |
| Protected.AuthGate.OnAuthStateChange | src/components/ProtectedRoute.tsx:51-54 | true exactly when the event carries a session |

## Left out

- The OpenAI request, its assembly and its HTTP error path (`src/services/apiService.ts` before line 212): network I/O. The message content is a parameter of `Analysis.AnalyzeContent`.
- `JSON.parse` is a function parameter (None for a SyntaxError); the JSON grammar is not modelled.
- The PDF service and the history service (`processPitchDeck`, `saveToHistory`, `getHistory`, `getAnalysisReport`) are not part of this model: their results and rejections are parameters.
- Upload.AnalyzePage.HandleAnalyze: does not model the destructuring of `processPitchDeck`'s result, which is taken as already split into URL and analysis.
- The Supabase auth calls (`getSession`, `getUser`, `signOut`, `onAuthStateChange`) are outside the model; their replies or events are parameters.
- Tokens: the database round trips are booleans that say whether a call failed. The read-then-write of `updateTokenUsage` is not atomic in the source; concurrent updates are not modelled.
- Tokens.TokenLedger.HasEnoughTokens: a database error inside `getTokenUsage` is reported there as 0 used, so `hasEnoughTokens` then answers whether the required tokens alone fit. Its own `catch`, which would answer false, is unreachable because `getTokenUsage` never rejects, and it is not modelled.
- Timers: the half-second pauses and the one-second reset are not timed; the reset is the separate method `ResetTimerFires`. The interval stepping of Index.tsx lines 104-119 and the loading screen's animation frames are not modelled.
- Floating point: numbers are exact reals. `NumberText` writes whole numbers exactly and other numbers with a bounded number of decimals, so the text of a non-integer score may differ from JavaScript's shortest round-trip form. Whole numbers of 1e21 and above are written with every digit, where JavaScript writes them in exponent form ("1e+21").
- `toLowerCase` is modelled on ASCII letters only, string lengths count UTF-16 code units as characters, and `Number()` on strings accepts only plain decimal forms (other forms are NaN).
- `Get(v, "length")` is the only built-in property modelled; other built-ins read as undefined.
- Locale formatting of timestamps (`toLocaleString`) is kept as the raw value, and `date-fns` is not used by the core.
- `handleInputChange` writes `[name]: undefined` into the error object; the model removes the key, which is what every later `errors[name]` read sees.
- React's error on a plain object as a child is modelled only for the Insight list entries (`Insight.RoundEntry`, `OpinionEntry`, `CompetitorEntry`) and the competitor count (`Report.CompetitorSummary`). The members below return the values a cell shows, and their failure cases are only those of the property reads.
- Report.ComparisonColumns: a competitor whose name or another shown field is a plain object, which the mapping passes through unguarded, makes the table throw when it renders; the model still returns its column. The header cell of line 760 also throws when the overview is missing; that read belongs to `Report.StartupColumn`.
- Report.StartupColumn: an object-valued cell (name, market position, growth rate, business model or first strength) throws in React but is returned here.
- Report.GrowthLineOf: an object-valued growth rate throws in React but is returned here.
- Report.FoundedShown: an object-valued founding date throws in React but is returned here.
- Insight.FoundedOn: an object-valued founding date throws in React but is returned here.
- Rendering: the PDF layout, the radar chart input, styling and routing; the subscription modal and the token-usage widget.
- The fields Insight.tsx and the report print as plain reads, with no fallback or rule, are not modelled one by one; their unguarded reads are modelled where a rule depends on them.

## Findings

| source | as written | input that shows it | evidently intended | confidence | as-written member | corrected member |
|---|---|---|---|---|---|---|
| src/components/AnalysisReport.tsx:424-431 | the sentiment badge reads `data.reputation_analysis?.overall?.sentiment`, a path the mapping (src/services/apiService.ts:292-300) never produces | any normalized record whose deck sentiment is "Positive": the badge is yellow and reads "Neutral" | read `expert_insights.reputation_analysis.sentiment`, where the mapping stores it | not executed | Report.SentimentAsWrittenIsAlwaysNeutral | Report.SentimentIntendedFollowsRecord |
| src/pages/auth/login.tsx:43-48 | the label and colour arrays have five entries and are indexed by a strength of 0 to 5 | any password passing the rule, e.g. "Passw0rd!" (strength 5): the label is undefined and the bar has no colour | cap the index at the last entry, so a valid password reads "Very Strong" | not executed | Login.ValidPasswordHasNoLabel | Login.ValidPasswordIsVeryStrong |
