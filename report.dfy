/** The display rules of the analysis report (src/components/AnalysisReport.tsx).
    Every rule reads the report record `data` as a JavaScript value; the lemmas at
    the end of each part say what the rule shows for a record built by
    `Analysis.Normalize`. The report is only rendered with a truthy record, so
    `data` itself is never null or undefined. */
module Report {
  import opened Js
  import opened Analysis

  // ---------------------------------------------------------------- verdict

  /** The four verdict templates. */
  datatype Band = Excellent | Promising | Moderate | HighRisk

  /** `score >= 8`, then `score >= 5 && score <= 7`, then `score >= 1 && score <= 4`,
      otherwise the high-risk text. A score that is not a number compares false. */
  function BandOf(score: Value): Band {
    if AtLeast(score, 8.0) then Excellent
    else if AtLeast(score, 5.0) && AtMost(score, 7.0) then Promising
    else if AtLeast(score, 1.0) && AtMost(score, 4.0) then Moderate
    else HighRisk
  }

  /** The high-risk text covers everything below 1, the open gaps (4, 5) and (7, 8),
      and anything that is not a number. */
  lemma HighRiskScores(score: Value)
    ensures BandOf(score) == HighRisk <==>
              match ToNumber(score)
              case None => true
              case Some(x) => x < 1.0 || (4.0 < x < 5.0) || (7.0 < x < 8.0)
  {
  }

  /** For whole-number scores the bands leave no gap: 8 and above, 5 to 7, 1 to 4, 0 and below. */
  lemma WholeScoreBands(k: int)
    ensures BandOf(Num(k as real)) == (if k >= 8 then Excellent else if k >= 5 then Promising
                                       else if k >= 1 then Moderate else HighRisk)
  {
  }

  /** Concrete gap scores. */
  lemma GapScoresAreHighRisk()
    ensures BandOf(Num(7.5)) == HighRisk && BandOf(Num(4.5)) == HighRisk && BandOf(Num(0.5)) == HighRisk
    ensures BandOf(Num(7.0)) == Promising && BandOf(Num(8.0)) == Excellent
  {
  }

  /** A numeric string compares as its number. */
  lemma NumericStringScore()
    ensures BandOf(Str("9")) == Excellent
  {
    assert Trim("9") == "9" by {
      assert !IsSpace('9');
      assert TrimStart("9") == "9";
      assert TrimEnd("9") == "9";
    }
    assert IndexOf("9", '.') == 1;
    assert "9"[..1] == "9";
    assert DigitsValue("9") == 9;
    assert UnsignedDecimal("9") == Some(9.0);
    assert ToNumber(Str("9")) == Some(9.0);
  }

  /** Every template opens with the company name. */
  function VerdictTemplate(b: Band, name: string, industry: string): (r: string)
    ensures |name| <= |r| && r[..|name|] == name
  {
    name + VerdictTail(b, industry)
  }

  function VerdictTail(b: Band, industry: string): string {
    match b
    case Excellent =>
      " presents an excellent investment opportunity with a strong position in the " + industry
      + " sector. The company demonstrates exceptional market potential, innovative solutions, and a clear"
      + " competitive advantage, making it a highly attractive investment prospect."
    case Promising =>
      " shows promising investment potential in the " + industry
      + " sector. While there are some areas for improvement, the company's market position and growth"
      + " trajectory indicate good potential for returns."
    case Moderate =>
      " presents a moderate investment opportunity in the " + industry
      + " sector. The company shows some potential but faces significant challenges that need to be"
      + " addressed for better investment prospects."
    case HighRisk =>
      " currently presents a high-risk investment opportunity in the " + industry
      + " sector. The company faces substantial challenges and requires significant improvements before"
      + " being considered a viable investment option."
  }

  /** The verdict IIFE, identical in the PDF document and on screen. */
  function VerdictText(data: Value): (r: Result<string>)
    requires !Nullish(data)
    ensures r.Ok? <==> !Nullish(Get(data, "company_overview")) && Get(data, "industry_type").Str?
    ensures r.Ok? ==> r.value == VerdictTemplate(BandOf(Get(data, "investment_score")),
                                                  ToText(Get(Get(data, "company_overview"), "company_name")),
                                                  ToLower(Get(data, "industry_type").s))
  {
    var score := Get(data, "investment_score");
    var name :- Prop(Get(data, "company_overview"), "company_name");
    var industry :- LowerCaseOf(Get(data, "industry_type"));
    Ok(VerdictTemplate(BandOf(score), ToText(name), industry))
  }

  /** For a normalized record the verdict fails exactly when the industry is not a
      string, and otherwise picks its band from the expert conclusion's product viability. */
  lemma VerdictOfRecord(data: Value, r: Record)
    requires Presents(data, r)
    ensures VerdictText(data).Ok? <==> r.industryType.Str?
    ensures VerdictText(data).Ok? ==>
              VerdictText(data).value
              == VerdictTemplate(BandOf(r.investmentScore), ToText(r.companyOverview.companyName),
                                 ToLower(r.industryType.s))
  {
    OverviewReads(r.companyOverview);
  }

  // ---------------------------------------------------------------- growth line and risk

  datatype Risk = HighRiskFactors | ModerateRiskFactors | LowRiskFactors

  /** `risk_factor >= 7 ? "high" : risk_factor >= 4 ? "moderate" : "low"` */
  function RiskOf(riskFactor: Value): Risk {
    if AtLeast(riskFactor, 7.0) then HighRiskFactors
    else if AtLeast(riskFactor, 4.0) then ModerateRiskFactors
    else LowRiskFactors
  }

  function RiskWord(k: Risk): string {
    match k
    case HighRiskFactors => "high"
    case ModerateRiskFactors => "moderate"
    case LowRiskFactors => "low"
  }

  function RiskRank(k: Risk): nat {
    match k
    case LowRiskFactors => 0
    case ModerateRiskFactors => 1
    case HighRiskFactors => 2
  }

  /** A higher risk factor never gives a milder qualifier. */
  lemma RiskMonotone(x: real, y: real)
    requires x <= y
    ensures RiskRank(RiskOf(Num(x))) <= RiskRank(RiskOf(Num(y)))
  {
  }

  /** The qualifier as intervals: [7, ∞) high, [4, 7) moderate, below 4 or not a number low. */
  lemma RiskIntervals(x: real)
    ensures RiskOf(Num(x)) == HighRiskFactors <==> x >= 7.0
    ensures RiskOf(Num(x)) == ModerateRiskFactors <==> 4.0 <= x < 7.0
    ensures RiskOf(Num(x)) == LowRiskFactors <==> x < 4.0
  {
  }

  datatype GrowthLine = GrowthWithRisk(rate: Value, risk: Risk) | MarketDataUnavailable

  /** Lines 482-500: the growth rate and the risk qualifier when a growth rate is present. */
  function GrowthLineOf(data: Value): (r: Result<GrowthLine>)
    requires !Nullish(data)
    ensures !Truthy(Get(Get(data, "market_analysis"), "growth_rate")) ==> r == Ok(MarketDataUnavailable)
    ensures Truthy(Get(Get(data, "market_analysis"), "growth_rate")) ==>
              (r.Ok? <==> !Nullish(Get(data, "final_verdict")))
    ensures r.Ok? && r.value.GrowthWithRisk? ==>
              r.value.rate == Get(Get(data, "market_analysis"), "growth_rate")
              && r.value.risk == RiskOf(Get(Get(data, "final_verdict"), "risk_factor"))
  {
    var rate := Get(Get(data, "market_analysis"), "growth_rate");
    if Truthy(rate) then
      var riskFactor :- Prop(Get(data, "final_verdict"), "risk_factor");
      Ok(GrowthWithRisk(rate, RiskOf(riskFactor)))
    else Ok(MarketDataUnavailable)
  }

  const MarketDataUnavailableText := "Market analysis data not available"

  // ---------------------------------------------------------------- stars

  datatype Icon = Filled | HalfFilled | EmptyStar

  /** Icon i of five, given `fullStars` and `halfStar`. */
  function StarIcon(full: int, half: bool, i: int): Icon {
    if i < full then Filled else if i == full && half then HalfFilled else EmptyStar
  }

  /** The first n icons. */
  function StarRow(full: int, half: bool, n: nat): (r: seq<Icon>)
    ensures |r| == n
    ensures forall i :: 0 <= i < n ==> r[i] == StarIcon(full, half, i)
  {
    if n == 0 then [] else StarRow(full, half, n - 1) + [StarIcon(full, half, n - 1)]
  }

  /** `Array.from({length: 5}).map(…)` for a score that has already been through `|| 0`.
      Math.floor of NaN is NaN, which no index equals or exceeds: five empty stars. */
  function Stars(score: Value): (r: seq<Icon>)
    ensures |r| == 5
  {
    match ToNumber(score)
    case None => StarRow(0, false, 5)
    case Some(x) => StarRow((x / 2.0).Floor, Rem(x, 2.0) >= 1.0, 5)
  }

  /** The stars of one reputation row: `expert_insights?.reputation_analysis?.key || 0`. */
  function ReputationStars(data: Value, key: string): (r: seq<Icon>)
    ensures |r| == 5
  {
    Stars(Or(Get(Get(Get(data, "expert_insights"), "reputation_analysis"), key), Num(0.0)))
  }

  function Count(icon: Icon, s: seq<Icon>): (n: nat)
    ensures n <= |s|
  {
    if |s| == 0 then 0 else Count(icon, s[..|s| - 1]) + (if s[|s| - 1] == icon then 1 else 0)
  }

  function Clamp(x: int, lo: int, hi: int): int
    requires lo <= hi
  {
    if x < lo then lo else if x > hi then hi else x
  }

  /** The row of n icons has `full` filled icons (clamped to the row) and one half
      icon exactly when the half flag is set and `full` falls inside the row. */
  lemma {:induction false} StarRowCounts(full: int, half: bool, n: nat)
    ensures Count(Filled, StarRow(full, half, n)) == Clamp(full, 0, n)
    ensures Count(HalfFilled, StarRow(full, half, n)) == (if half && 0 <= full < n then 1 else 0)
    ensures Count(EmptyStar, StarRow(full, half, n))
            == n - Clamp(full, 0, n) - (if half && 0 <= full < n then 1 else 0)
  {
    if n > 0 {
      var prev := StarRow(full, half, n - 1);
      var icon := StarIcon(full, half, n - 1);
      var row := StarRow(full, half, n);
      assert row == prev + [icon];
      assert row[..n - 1] == prev;
      StarRowCounts(full, half, n - 1);
      assert Count(Filled, row) == Count(Filled, prev) + (if icon == Filled then 1 else 0);
      assert Count(HalfFilled, row) == Count(HalfFilled, prev) + (if icon == HalfFilled then 1 else 0);
      assert Count(EmptyStar, row) == Count(EmptyStar, prev) + (if icon == EmptyStar then 1 else 0);
    }
  }

  /** A score x from 0 to 10 shows ⌊x/2⌋ filled stars, a half star iff x % 2 ≥ 1
      (never beside five filled ones), and empty stars for the rest. */
  lemma StarsOfScore(x: real)
    requires 0.0 <= x <= 10.0
    ensures Count(Filled, Stars(Num(x))) == (x / 2.0).Floor
    ensures Count(HalfFilled, Stars(Num(x))) == (if Rem(x, 2.0) >= 1.0 && x < 10.0 then 1 else 0)
    ensures Count(Filled, Stars(Num(x))) + Count(HalfFilled, Stars(Num(x))) + Count(EmptyStar, Stars(Num(x))) == 5
  {
    var full := (x / 2.0).Floor;
    assert 0 <= full <= 5;
    if full == 5 {
      assert x == 10.0;
      assert Rem(x, 2.0) == 0.0;
    }
    StarRowCounts(full, Rem(x, 2.0) >= 1.0, 5);
  }

  /** A falsy or non-numeric score shows five empty stars. */
  lemma NoScoreNoStars(score: Value)
    requires !Truthy(score) || ToNumber(score).None?
    ensures Stars(Or(score, Num(0.0))) == [EmptyStar, EmptyStar, EmptyStar, EmptyStar, EmptyStar]
  {
    var row := Stars(Or(score, Num(0.0)));
    if !Truthy(score) {
      assert (0.0 / 2.0).Floor == 0;
      assert Rem(0.0, 2.0) == 0.0;
    }
    assert forall i :: 0 <= i < 5 ==> row[i] == EmptyStar;
  }

  lemma StarExamples()
    ensures Stars(Num(0.0)) == [EmptyStar, EmptyStar, EmptyStar, EmptyStar, EmptyStar]
    ensures Stars(Num(5.0)) == [Filled, Filled, HalfFilled, EmptyStar, EmptyStar]
    ensures Stars(Num(10.0)) == [Filled, Filled, Filled, Filled, Filled]
  {
    assert (5.0 / 2.0).Floor == 2;
    assert Rem(5.0, 2.0) == 1.0;
    assert (10.0 / 2.0).Floor == 5;
    assert (0.0 / 2.0).Floor == 0;
  }

  // ---------------------------------------------------------------- sentiment

  datatype Colour = Green | Red | Yellow

  /** `sentiment?.toLowerCase() === "positive" ? green : … === "negative" ? red : yellow`.
      A sentiment that is present but not a string has no toLowerCase: a TypeError. */
  function SentimentColour(sentiment: Value): (r: Result<Colour>)
    ensures Nullish(sentiment) ==> r == Ok(Yellow)
    ensures sentiment.Str? ==> r.Ok? && (r.value == Green <==> ToLower(sentiment.s) == "positive")
                               && (r.value == Red <==> ToLower(sentiment.s) == "negative")
    ensures r.Err? <==> !Nullish(sentiment) && !sentiment.Str?
  {
    if Nullish(sentiment) then Ok(Yellow)
    else
      var lower :- LowerCaseOf(sentiment);
      Ok(if lower == "positive" then Green else if lower == "negative" then Red else Yellow)
  }

  function SentimentLabel(sentiment: Value): Value {
    Or(sentiment, Str("Neutral"))
  }

  /** Lines 424-431 as written: `data.reputation_analysis?.overall?.sentiment`. */
  function SentimentAsWritten(data: Value): Value {
    Get(Get(Get(data, "reputation_analysis"), "overall"), "sentiment")
  }

  /** Where a normalized record keeps the sentiment: `expert_insights.reputation_analysis.sentiment`. */
  function SentimentIntended(data: Value): Value {
    Get(Get(Get(data, "expert_insights"), "reputation_analysis"), "sentiment")
  }

  /** As written, no normalized record has a top-level `reputation_analysis`, so every
      report shows a yellow "Neutral" badge whatever the deck's sentiment. */
  lemma SentimentAsWrittenIsAlwaysNeutral(data: Value, r: Record)
    requires Presents(data, r)
    ensures SentimentColour(SentimentAsWritten(data)) == Ok(Yellow)
    ensures SentimentLabel(SentimentAsWritten(data)) == Str("Neutral")
  {
  }

  /** Read from where the record keeps it, the badge follows the deck: green for a
      "positive" sentiment in any letter case, red for "negative". */
  lemma SentimentIntendedFollowsRecord(data: Value, r: Record)
    requires Presents(data, r)
    ensures SentimentIntended(data) == r.reputation.sentiment
    ensures SentimentLabel(SentimentIntended(data)) == Or(r.reputation.sentiment, Str("Neutral"))
    ensures r.reputation.sentiment.Str? ==>
              (SentimentColour(SentimentIntended(data)) == Ok(Green) <==> ToLower(r.reputation.sentiment.s) == "positive")
  {
  }

  // ---------------------------------------------------------------- percentages and counts

  /** `${investment_score * 10}%` as rendered; a non-number gives NaN. */
  function PercentLabel(score: Value): string {
    match ToNumber(score)
    case Some(x) => NumberText(x * 10.0) + "%"
    case None => "NaN%"
  }

  lemma PercentOfWholeScore(k: int)
    ensures PercentLabel(Num(k as real)) == IntText(10 * k) + "%"
  {
    assert (k as real) * 10.0 == (10 * k) as real;
    NumberTextOfInt(10 * k);
  }

  /** Line 442: `data.strengths?.length || 0`. */
  function StrengthCount(data: Value): Value {
    Or(Get(Get(data, "strengths"), "length"), Num(0.0))
  }

  lemma StrengthCountOfRecord(data: Value, r: Record)
    requires Presents(data, r)
    requires r.strengths.Arr?
    ensures StrengthCount(data) == Num(|r.strengths.items| as real)
  {
  }

  /** Lines 533-543. */
  function CompetitorSummary(data: Value): (r: Result<string>)
    requires !Nullish(data)
    ensures !Truthy(Get(Get(data, "competitor_analysis"), "competitors")) ==> r == Ok("Competitor data not available")
    ensures var list := Get(Get(data, "competitor_analysis"), "competitors");
            Truthy(list) ==>
              && (r.Ok? <==> Renderable(Get(list, "length")))
              && (r.Ok? ==> r.value == "Competing with " + ReactText(Get(list, "length")).value + " established players")
    ensures var list := Get(Get(data, "competitor_analysis"), "competitors");
            list.Arr? ==> r == Ok("Competing with " + IntText(|list.items|) + " established players")
  {
    var list := Get(Get(data, "competitor_analysis"), "competitors");
    if list.Arr? then
      NumberTextOfInt(|list.items|);
      Ok("Competing with " + ReactText(Get(list, "length")).value + " established players")
    else if Truthy(list) then
      var count :- ReactText(Get(list, "length"));
      Ok("Competing with " + count + " established players")
    else Ok("Competitor data not available")
  }

  lemma CompetitorSummaryOfRecord(data: Value, r: Record)
    requires Presents(data, r)
    ensures CompetitorSummary(data) == Ok("Competing with " + IntText(|r.competitors|) + " established players")
  {
    NumberTextOfInt(|r.competitors|);
  }

  /** Lines 189 and 561: `company_overview.founded_on || "N/A"`. */
  function FoundedShown(data: Value): (r: Result<Value>)
    requires !Nullish(data)
    ensures r.Ok? <==> !Nullish(Get(data, "company_overview"))
    ensures r.Ok? ==> r.value == Or(Get(Get(data, "company_overview"), "founded_on"), Str("N/A"))
  {
    var founded :- Prop(Get(data, "company_overview"), "founded_on");
    Ok(Or(founded, Str("N/A")))
  }

  /** Lines 475 and 881: the exit value falls back to "Not specified" or "Not disclosed". */
  function ExitValue(data: Value, fallback: string): Value {
    Or(Get(Get(data, "proposed_deal_structure"), "valuation_cap"), Str(fallback))
  }

  lemma ExitValueOfRecord(data: Value, r: Record, fallback: string)
    requires Presents(data, r)
    ensures r.dealStructure.NotDisclosed? ==> ExitValue(data, fallback) == Str(fallback)
    ensures r.dealStructure.Terms? && Truthy(r.dealStructure.valuationCap) ==>
              ExitValue(data, fallback) == r.dealStructure.valuationCap
  {
  }

  // ---------------------------------------------------------------- deal structure

  /** Lines 1223-1230: the placeholder when there is no structure or all seven terms are falsy. */
  predicate DealPlaceholderShown(deal: Value) {
    || !Truthy(deal)
    || (&& !Truthy(Get(deal, "investment_amount"))
        && !Truthy(Get(deal, "valuation_cap"))
        && !Truthy(Get(deal, "equity_stake"))
        && !Truthy(Get(deal, "liquidation_preference"))
        && !Truthy(Get(deal, "anti_dilution_protection"))
        && !Truthy(Get(deal, "board_seat"))
        && !Truthy(Get(deal, "vesting_schedule")))
  }

  /** The message-only shape always shows the placeholder, and the seven-term shape
      never does, because its Yes/No terms are non-empty strings. */
  lemma DealPlaceholderOfRecord(data: Value, r: Record)
    requires Presents(data, r)
    requires DealWellFormed(r.dealStructure)
    ensures DealPlaceholderShown(Get(data, "proposed_deal_structure")) <==> r.dealStructure.NotDisclosed?
  {
    assert Get(data, "proposed_deal_structure") == DealJs(r.dealStructure);
    DealPlaceholderOfDeal(r.dealStructure);
  }

  lemma DealPlaceholderOfDeal(d: DealStructure)
    requires DealWellFormed(d)
    ensures DealPlaceholderShown(DealJs(d)) <==> d.NotDisclosed?
  {
    DealReads(d);
    var deal := DealJs(d);
    if d.Terms? {
      assert Truthy(Get(deal, "board_seat"));
    } else {
      assert "investment_amount" !in deal.fields && "valuation_cap" !in deal.fields;
      assert "equity_stake" !in deal.fields && "liquidation_preference" !in deal.fields;
      assert "anti_dilution_protection" !in deal.fields && "board_seat" !in deal.fields;
      assert "vesting_schedule" !in deal.fields;
    }
  }

  /** The deal terms in the order the report lays them out (lines 1242-1354). */
  datatype DealField = InvestmentAmount | EquityStake | ValuationCap | LiquidationPreference
                     | AntiDilutionProtection | BoardSeat | VestingSchedule

  function DealFieldKey(f: DealField): string {
    match f
    case InvestmentAmount => "investment_amount"
    case EquityStake => "equity_stake"
    case ValuationCap => "valuation_cap"
    case LiquidationPreference => "liquidation_preference"
    case AntiDilutionProtection => "anti_dilution_protection"
    case BoardSeat => "board_seat"
    case VestingSchedule => "vesting_schedule"
  }

  function DealFieldSentence(f: DealField): string {
    match f
    case InvestmentAmount => "The company has not disclosed their investment ask in the pitch deck"
    case EquityStake => "The company has not specified the equity stake they are offering"
    case ValuationCap => "The company has not provided their valuation expectations"
    case LiquidationPreference => "Liquidation preference terms have not been specified in the deck"
    case AntiDilutionProtection => "Anti-dilution protection terms have not been disclosed"
    case BoardSeat => "Board seat arrangements have not been mentioned in the deck"
    case VestingSchedule => "The company has not outlined their vesting schedule in the pitch deck"
  }

  datatype FieldDisplay = ShowValue(v: Value) | ShowSentence(sentence: string)

  /** `x && x !== "Not specified" ? x : <fixed sentence>` */
  function DealFieldDisplay(deal: Value, f: DealField): (r: FieldDisplay)
    ensures r.ShowValue? <==> Truthy(Get(deal, DealFieldKey(f))) && Get(deal, DealFieldKey(f)) != Str("Not specified")
    ensures r.ShowValue? ==> r.v == Get(deal, DealFieldKey(f))
    ensures r.ShowSentence? ==> r.sentence == DealFieldSentence(f)
  {
    var v := Get(deal, DealFieldKey(f));
    if Truthy(v) && v != Str("Not specified") then ShowValue(v) else ShowSentence(DealFieldSentence(f))
  }

  /** With a seven-term record the Yes/No terms always show "Yes" or "No". */
  lemma YesNoTermsShown(data: Value, r: Record)
    requires Presents(data, r)
    requires DealWellFormed(r.dealStructure) && r.dealStructure.Terms?
    ensures DealFieldDisplay(Get(data, "proposed_deal_structure"), AntiDilutionProtection)
            == ShowValue(Str(r.dealStructure.antiDilutionProtection))
    ensures DealFieldDisplay(Get(data, "proposed_deal_structure"), BoardSeat)
            == ShowValue(Str(r.dealStructure.boardSeat))
  {
    assert Get(data, "proposed_deal_structure") == DealJs(r.dealStructure);
    YesNoOfDeal(r.dealStructure);
  }

  lemma YesNoOfDeal(d: DealStructure)
    requires DealWellFormed(d) && d.Terms?
    ensures DealFieldDisplay(DealJs(d), AntiDilutionProtection) == ShowValue(Str(d.antiDilutionProtection))
    ensures DealFieldDisplay(DealJs(d), BoardSeat) == ShowValue(Str(d.boardSeat))
  {
    DealReads(d);
    YesNoIsShowable(d.antiDilutionProtection);
    YesNoIsShowable(d.boardSeat);
  }

  lemma YesNoIsShowable(x: string)
    requires x in {"Yes", "No"}
    ensures Truthy(Str(x)) && Str(x) != Str("Not specified")
  {
    assert |x| <= 3;
  }

  // ---------------------------------------------------------------- key questions

  datatype QuestionSlot = MarketStrategy | UserRetention | RegulatoryRisks

  function SlotKey(q: QuestionSlot): string {
    match q
    case MarketStrategy => "market_strategy"
    case UserRetention => "user_retention"
    case RegulatoryRisks => "regulatory_risks"
  }

  function DefaultQuestion(q: QuestionSlot): string {
    match q
    case MarketStrategy => MarketStrategyQuestion
    case UserRetention => UserRetentionQuestion
    case RegulatoryRisks => RegulatoryRisksQuestion
  }

  /** Lines 1366-1388: `key_questions?.slot?.question || default` and `…?.answer || "N/A"`. */
  function QuestionShown(data: Value, q: QuestionSlot): Value {
    Or(Get(Get(Get(data, "key_questions"), SlotKey(q)), "question"), Str(DefaultQuestion(q)))
  }

  function AnswerShown(data: Value, q: QuestionSlot): Value {
    Or(Get(Get(Get(data, "key_questions"), SlotKey(q)), "answer"), Str("N/A"))
  }

  function SlotOf(k: KeyQuestions, q: QuestionSlot): QuestionAnswer {
    match q
    case MarketStrategy => k.marketStrategy
    case UserRetention => k.userRetention
    case RegulatoryRisks => k.regulatoryRisks
  }

  /** A record without key questions shows the three default questions and "N/A". */
  lemma QuestionDefaults(data: Value, q: QuestionSlot)
    requires !Get(data, "key_questions").Obj?
    ensures QuestionShown(data, q) == Str(DefaultQuestion(q))
    ensures AnswerShown(data, q) == Str("N/A")
  {
  }

  /** A normalized record shows its own questions and answers. */
  lemma QuestionsOfRecord(data: Value, r: Record, q: QuestionSlot)
    requires Presents(data, r)
    requires WellFormed(r)
    ensures QuestionShown(data, q) == Str(DefaultQuestion(q))
    ensures AnswerShown(data, q) == Or(Str(SlotOf(r.keyQuestions, q).answer), Str("N/A"))
  {
    assert Get(data, "key_questions") == QuestionsJs(r.keyQuestions);
    QuestionsOfKeys(r.keyQuestions, q);
  }

  lemma QuestionsOfKeys(k: KeyQuestions, q: QuestionSlot)
    requires k.marketStrategy.question == MarketStrategyQuestion
    requires k.userRetention.question == UserRetentionQuestion
    requires k.regulatoryRisks.question == RegulatoryRisksQuestion
    ensures Get(Get(QuestionsJs(k), SlotKey(q)), "question") == Str(DefaultQuestion(q))
    ensures Get(Get(QuestionsJs(k), SlotKey(q)), "answer") == Str(SlotOf(k, q).answer)
  {
    assert Get(QuestionsJs(k), SlotKey(q)) == QuestionJs(SlotOf(k, q));
  }

  // ---------------------------------------------------------------- market comparison

  datatype Column = Column(name: Value, marketShare: Value, growthRate: Value, revenueModel: Value, differentiator: Value)

  function CompetitorColumn(c: Value): Column {
    Column(Get(c, "name"), Get(c, "market_position"), Or(Get(c, "growth_rate"), Str("N/A")),
           Or(Get(c, "business_model"), Str("N/A")), Or(Get(c, "key_differentiator"), Str("N/A")))
  }

  function CompetitorColumnList(items: seq<Value>): (r: Result<seq<Column>>)
    ensures r.Ok? <==> AllPresent(items)
    ensures r.Ok? ==> |r.value| == |items| && forall i :: 0 <= i < |items| ==> r.value[i] == CompetitorColumn(items[i])
  {
    if |items| == 0 then Ok([])
    else if Nullish(items[0]) then Err(TypeError)
    else
      var rest :- CompetitorColumnList(items[1..]);
      Ok([CompetitorColumn(items[0])] + rest)
  }

  /** Lines 762-846: the competitor columns of the comparison table,
      `competitor_analysis.competitors.slice(0, 4)`. */
  function ComparisonColumns(data: Value): (r: Result<seq<Column>>)
    requires !Nullish(data)
    ensures var list := Get(Get(data, "competitor_analysis"), "competitors");
            r.Ok? <==> list.Arr? && AllPresent(list.items[..Min(4, |list.items|)])
    ensures r.Ok? ==> var list := Get(Get(data, "competitor_analysis"), "competitors");
                      && list.Arr?
                      && |r.value| == Min(4, |list.items|)
                      && forall i :: 0 <= i < |r.value| ==> r.value[i] == CompetitorColumn(list.items[i])
  {
    var list :- Prop(Get(data, "competitor_analysis"), "competitors");
    var items :- ArrayItems(list);
    CompetitorColumnList(items[..Min(4, |items|)])
  }

  /** The startup's own column: `market_position`, `market_analysis.growth_rate`,
      `company_overview.business_model` and `strengths[0] || "N/A"`. */
  function StartupColumn(data: Value): (r: Result<Column>)
    requires !Nullish(data)
    ensures r.Ok? <==> !Nullish(Get(data, "company_overview")) && !Nullish(Get(data, "market_analysis"))
                       && !Nullish(Get(data, "strengths"))
    ensures var overview := Get(data, "company_overview");
            r.Ok? ==> r.value == Column(Get(overview, "company_name"), Get(data, "market_position"),
                                        Get(Get(data, "market_analysis"), "growth_rate"),
                                        Get(overview, "business_model"),
                                        Or(At(Get(data, "strengths"), 0), Str("N/A")))
  {
    var name :- Prop(Get(data, "company_overview"), "company_name");
    var growth :- Prop(Get(data, "market_analysis"), "growth_rate");
    var model := Get(Get(data, "company_overview"), "business_model");
    var strengths := Get(data, "strengths");
    if Nullish(strengths) then Err(TypeError)
    else Ok(Column(name, Get(data, "market_position"), growth, model, Or(At(strengths, 0), Str("N/A"))))
  }

  /** A normalized record shows at most four competitors, the first ones in input order. */
  lemma ComparisonOfRecord(data: Value, r: Record)
    requires Presents(data, r)
    ensures ComparisonColumns(data).Ok?
    ensures |ComparisonColumns(data).value| == Min(4, |r.competitors|)
    ensures forall i :: 0 <= i < Min(4, |r.competitors|) ==>
              ComparisonColumns(data).value[i].name == r.competitors[i].name
  {
    var list := CompetitorsJs(r.competitors);
    assert Get(Get(data, "competitor_analysis"), "competitors") == Arr(list);
    assert ComparisonColumns(data) == CompetitorColumnList(list[..Min(4, |list|)]);
    ColumnsOfCompetitors(r.competitors);
  }

  lemma ColumnsOfCompetitors(cs: seq<Competitor>)
    ensures var shown := CompetitorsJs(cs)[..Min(4, |cs|)];
            && CompetitorColumnList(shown).Ok?
            && |CompetitorColumnList(shown).value| == Min(4, |cs|)
            && forall i :: 0 <= i < Min(4, |cs|) ==> CompetitorColumnList(shown).value[i].name == cs[i].name
  {
    var list := CompetitorsJs(cs);
    var shown := list[..Min(4, |list|)];
    assert AllPresent(shown) by {
      forall i | 0 <= i < |shown| ensures !Nullish(shown[i]) {
        assert shown[i] == CompetitorJs(cs[i]);
      }
    }
    var cols := CompetitorColumnList(shown);
    forall i | 0 <= i < Min(4, |cs|) ensures cols.value[i].name == cs[i].name {
      assert cols.value[i] == CompetitorColumn(shown[i]);
      assert shown[i] == CompetitorJs(cs[i]);
      CompetitorReads(cs[i]);
    }
  }
}
