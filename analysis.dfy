/** The response-mapping step of `analyzePitchDeck` (src/services/apiService.ts):
    strip Markdown code fences from the model's message content, parse it as JSON,
    reject a falsy result, and reshape the camelCase JSON into the snake_case record
    the pages read. Reads that the source does not guard (`x.y` on null or undefined,
    `.map`/`.join` on a non-array) make the whole mapping throw a TypeError. */
module Analysis {
  import opened Js

  // ---------------------------------------------------------------- fences and parsing

  /** Length of the match of /```json\n?|\n?```/ at the start of s, or 0 when there is
      none. The first alternative ("```json" with an optional newline) is tried
      before the second (an optional newline followed by "```"). */
  function FenceAt(s: string): (k: nat)
    ensures k <= |s|
  {
    if |s| >= 8 && s[..8] == "```json\n" then 8
    else if |s| >= 7 && s[..7] == "```json" then 7
    else if |s| >= 4 && s[..4] == "\n```" then 4
    else if |s| >= 3 && s[..3] == "```" then 3
    else 0
  }

  /** `s.replace(/```json\n?|\n?```/g, '')`: matches are removed left to right
      without overlapping. */
  function RemoveFences(s: string): string
    decreases |s|
  {
    if |s| == 0 then ""
    else if FenceAt(s) > 0 then RemoveFences(s[FenceAt(s)..])
    else [s[0]] + RemoveFences(s[1..])
  }

  /** The text handed to JSON.parse. */
  function ParsedText(content: string): string {
    Trim(RemoveFences(content))
  }

  predicate NoBacktick(s: string) {
    forall i :: 0 <= i < |s| ==> s[i] != '`'
  }

  /** A character that cannot begin a match is kept. */
  lemma NoFenceAt(s: string)
    requires |s| > 0 && s[0] != '`'
    requires !(s[0] == '\n' && |s| >= 4 && s[1..4] == "```")
    ensures FenceAt(s) == 0
  {
    if |s| >= 8 { assert s[..8][0] == s[0]; }
    if |s| >= 7 { assert s[..7][0] == s[0]; }
    if |s| >= 3 { assert s[..3][0] == s[0]; }
    if |s| >= 4 { assert s[..4] == [s[0]] + s[1..4]; }
  }

  /** Text without backticks keeps its characters in front of whatever follows,
      unless its last newline would begin a "\n```" match with that continuation. */
  lemma {:induction false} RemoveFencesPrefix(b: string, t: string)
    requires NoBacktick(b)
    requires !(|b| > 0 && b[|b| - 1] == '\n' && |t| >= 3 && t[..3] == "```")
    ensures RemoveFences(b + t) == b + RemoveFences(t)
    decreases |b|
  {
    if |b| > 0 {
      var s := b + t;
      assert s[0] == b[0];
      if |s| >= 4 && |b| >= 2 {
        assert s[1..4][0] == b[1];
      } else if |s| >= 4 {
        assert |b| == 1;
        forall j | 0 <= j < 3 ensures s[1..4][j] == t[..3][j] {
          assert s[1..4][j] == s[1 + j] == t[j];
        }
        assert s[1..4] == t[..3];
      }
      NoFenceAt(s);
      NoBacktickTail(b);
      assert s[1..] == b[1..] + t;
      assert RemoveFences(s) == [s[0]] + RemoveFences(s[1..]);
      RemoveFencesPrefix(b[1..], t);
      ConsSplit(b, RemoveFences(t));
    } else {
      assert b + t == t;
    }
  }

  lemma NoBacktickTail(b: string)
    requires |b| > 0 && NoBacktick(b)
    ensures NoBacktick(b[1..])
  {
    forall i | 0 <= i < |b[1..]| ensures b[1..][i] != '`' {
      assert b[1..][i] == b[i + 1];
    }
  }

  lemma ConsSplit(b: string, u: string)
    requires |b| > 0
    ensures b + u == [b[0]] + (b[1..] + u)
  {
    assert b == [b[0]] + b[1..];
  }

  /** Content without a backtick is parsed exactly as trimmed. */
  lemma ParsedTextWithoutBacktick(content: string)
    requires NoBacktick(content)
    ensures ParsedText(content) == Trim(content)
  {
    RemoveFencesPrefix(content, "");
    assert content + "" == content;
  }

  /** The closing fence "\n```" removes to nothing. */
  lemma ClosingFence()
    ensures RemoveFences("\n```") == ""
  {
    var t := "\n```";
    assert t[..4] == "\n```";
    assert t[4..] == "";
  }

  /** A body wrapped as "```json\n" + body + "\n```" is parsed as the trimmed body. */
  lemma FencedJsonBody(body: string)
    requires NoBacktick(body)
    ensures ParsedText("```json\n" + body + "\n```") == Trim(body)
  {
    var s := "```json\n" + body + "\n```";
    assert s[..8] == "```json\n";
    assert s[8..] == body + "\n```";
    var t := "\n```";
    assert t[..3][0] == '\n';
    RemoveFencesPrefix(body, t);
    ClosingFence();
    assert body + "" == body;
  }

  /** A body wrapped in a plain "```" fence is parsed as the trimmed body. */
  lemma FencedPlainBody(body: string)
    requires NoBacktick(body)
    requires |body| > 0 && body[0] == '\n'
    ensures ParsedText("```" + body + "\n```") == Trim(body)
  {
    var s := "```" + body + "\n```";
    assert s[3] == '\n';
    assert s[..8] != "```json\n" by { assert s[..8][3] == s[3]; }
    assert s[..7] != "```json" by { assert s[..7][3] == s[3]; }
    assert s[..4] != "\n```" by { assert s[..4][0] == '`'; }
    assert s[..3] == "```" && s[3..] == body + "\n```";
    var t := "\n```";
    assert t[..3][0] == '\n';
    RemoveFencesPrefix(body, t);
    ClosingFence();
    assert body + "" == body;
  }

  const NoResultsMessage := "No valid analysis results received from OpenAI API"

  /** Lines 213-217 and the mapping after them. `jsonParse` stands for JSON.parse:
      None when it throws a SyntaxError. */
  function AnalyzeContent(content: string, jsonParse: string -> Option<Value>): (r: Result<Record>)
    ensures var parsed := jsonParse(ParsedText(content));
            && (parsed.None? ==> r == Err(SyntaxError))
            && (r == Err(Thrown(NoResultsMessage)) <==> parsed.Some? && !Truthy(parsed.value))
            && (r.Ok? ==> parsed.Some? && Normalize(parsed.value) == r)
            && (parsed.Some? && Truthy(parsed.value) ==> r == Normalize(parsed.value))
  {
    match jsonParse(ParsedText(content))
    case None => Err(SyntaxError)
    case Some(parsed) =>
      if !Truthy(parsed) then Err(Thrown(NoResultsMessage)) else Normalize(parsed)
  }

  // ---------------------------------------------------------------- the normalized record

  datatype MarketAnalysis = MarketAnalysis(marketSize: Value, growthRate: Value, trends: seq<string>, challenges: seq<string>)

  datatype CompanyOverview = CompanyOverview(
    companyName: Value, industry: Value, businessModel: Value, keyOfferings: Value,
    marketPosition: Value, foundedOn: string)

  datatype FundingRound = FundingRound(roundType: Value, amount: Value, keyInvestors: Value)

  datatype Competitor = Competitor(
    name: Value, keyInvestors: Value, amountRaised: Value, marketPosition: Value,
    strengths: Value, growthRate: Value, businessModel: Value, keyDifferentiator: Value)

  datatype Metrics = Metrics(marketShare: Value, growthRate: Value, revenueModel: Value, differentiator: Value)

  datatype ExpertOpinion = ExpertOpinion(name: Value, affiliation: Value, summary: Value, reference: Value, date: Value)

  datatype InsightOpinion = InsightOpinion(
    name: Value, title: Value, affiliation: Value, analysis: Value, reference: Value, date: Value)

  datatype Reputation = Reputation(
    newsMedia: Value, socialMedia: Value, investorReviews: Value, customerFeedback: Value,
    overall: Value, sentiment: Value, rating: Value)

  datatype FinalVerdict = FinalVerdict(
    productViability: Value, marketPotential: Value, sustainability: Value, innovation: Value,
    exitPotential: Value, riskFactor: Value, competitiveEdge: Value)

  datatype DealStructure =
    | Terms(investmentAmount: Value, valuationCap: Value, equityStake: Value,
            antiDilutionProtection: string, boardSeat: string,
            liquidationPreference: Value, vestingSchedule: Value)
    | NotDisclosed(message: string)

  datatype QuestionAnswer = QuestionAnswer(question: string, answer: string)

  datatype KeyQuestions = KeyQuestions(marketStrategy: QuestionAnswer, userRetention: QuestionAnswer, regulatoryRisks: QuestionAnswer)

  datatype Record = Record(
    industryType: Value,
    pitchClarity: real,
    investmentScore: Value,
    marketPosition: Value,
    marketAnalysis: MarketAnalysis,
    companyOverview: CompanyOverview,
    strengths: Value,
    weaknesses: Value,
    fundingRounds: seq<FundingRound>,
    competitors: seq<Competitor>,
    startupMetrics: Metrics,
    competitorMetrics: seq<Metrics>,
    expertOpinions: seq<ExpertOpinion>,
    insightOpinions: seq<InsightOpinion>,
    reputation: Reputation,
    finalVerdict: FinalVerdict,
    dealStructure: DealStructure,
    keyQuestions: KeyQuestions)

  const DealMessage := "No deal structure information was proposed or disclosed in the deck"
  const MarketStrategyQuestion := "What is the market strategy?"
  const UserRetentionQuestion := "How is user retention handled?"
  const RegulatoryRisksQuestion := "What are the regulatory risks?"

  predicate AllPresent(items: seq<Value>) {
    forall i :: 0 <= i < |items| ==> !Nullish(items[i])
  }

  // ---------------------------------------------------------------- per-element mappings

  function RoundOf(round: Value): FundingRound {
    FundingRound(
      Or(Get(round, "round"), Str("Unknown")),
      Or(Get(round, "amount"), Str("Not specified")),
      Or(Get(round, "investors"), Arr([])))
  }

  function CompetitorOf(c: Value): Competitor {
    Competitor(Get(c, "name"), Get(c, "keyInvestors"), Get(c, "amountRaised"), Get(c, "marketPosition"),
               Get(c, "strengths"), Get(c, "growthRate"), Get(c, "businessModel"), Get(c, "keyDifferentiator"))
  }

  function OpinionOf(o: Value): ExpertOpinion {
    ExpertOpinion(Get(o, "name"), Get(o, "affiliation"), Get(o, "summary"), Get(o, "reference"), Get(o, "date"))
  }

  function InsightOpinionOf(o: Value): InsightOpinion {
    var unknown := Str("Unknown");
    InsightOpinion(Or(Get(o, "name"), unknown), Or(Get(o, "title"), unknown), Or(Get(o, "affiliation"), unknown),
                   Or(Get(o, "analysis"), unknown), Or(Get(o, "reference"), unknown), Or(Get(o, "date"), unknown))
  }

  /** The key of competitor i's column in every market-comparison metric. */
  function CompetitorKey(i: nat): string {
    "competitor" + IntText(i + 1)
  }

  /** `rows.map(round => …)` over an array value: a null or undefined element throws. */
  function MapRounds(items: seq<Value>): (r: Result<seq<FundingRound>>)
    ensures r.Ok? <==> AllPresent(items)
    ensures r.Err? ==> r.error == TypeError
    ensures r.Ok? ==> |r.value| == |items| && forall i :: 0 <= i < |items| ==> r.value[i] == RoundOf(items[i])
  {
    if |items| == 0 then Ok([])
    else if Nullish(items[0]) then Err(TypeError)
    else
      var rest :- MapRounds(items[1..]);
      Ok([RoundOf(items[0])] + rest)
  }

  function MapCompetitors(items: seq<Value>): (r: Result<seq<Competitor>>)
    ensures r.Ok? <==> AllPresent(items)
    ensures r.Err? ==> r.error == TypeError
    ensures r.Ok? ==> |r.value| == |items| && forall i :: 0 <= i < |items| ==> r.value[i] == CompetitorOf(items[i])
  {
    if |items| == 0 then Ok([])
    else if Nullish(items[0]) then Err(TypeError)
    else
      var rest :- MapCompetitors(items[1..]);
      Ok([CompetitorOf(items[0])] + rest)
  }

  function MapOpinions(items: seq<Value>): (r: Result<seq<ExpertOpinion>>)
    ensures r.Ok? <==> AllPresent(items)
    ensures r.Err? ==> r.error == TypeError
    ensures r.Ok? ==> |r.value| == |items| && forall i :: 0 <= i < |items| ==> r.value[i] == OpinionOf(items[i])
  {
    if |items| == 0 then Ok([])
    else if Nullish(items[0]) then Err(TypeError)
    else
      var rest :- MapOpinions(items[1..]);
      Ok([OpinionOf(items[0])] + rest)
  }

  function MapInsightOpinions(items: seq<Value>): (r: Result<seq<InsightOpinion>>)
    ensures r.Ok? <==> AllPresent(items)
    ensures r.Err? ==> r.error == TypeError
    ensures r.Ok? ==> |r.value| == |items| && forall i :: 0 <= i < |items| ==> r.value[i] == InsightOpinionOf(items[i])
  {
    if |items| == 0 then Ok([])
    else if Nullish(items[0]) then Err(TypeError)
    else
      var rest :- MapInsightOpinions(items[1..]);
      Ok([InsightOpinionOf(items[0])] + rest)
  }

  /** `v.map(…)` needs an array. */
  function ArrayItems(v: Value): (r: Result<seq<Value>>)
    ensures r.Ok? <==> v.Arr?
    ensures r.Err? ==> r.error == TypeError
    ensures r.Ok? ==> r.value == v.items
  {
    if v.Arr? then Ok(v.items) else Err(TypeError)
  }

  /** Lines 311-323: the seven terms when the deck's deal structure is an object with
      at least one key, otherwise a single message. */
  function DealOf(ds: Value): (r: DealStructure)
    ensures r.Terms? <==> Truthy(ds) && KeyCount(ds) > 0
    ensures r.NotDisclosed? ==> r.message == DealMessage
    ensures r.Terms? ==> (r.antiDilutionProtection == "Yes" <==> Truthy(Get(ds, "antiDilution")))
                         && (r.boardSeat == "Yes" <==> Truthy(Get(ds, "boardSeat")))
                         && r.antiDilutionProtection in {"Yes", "No"} && r.boardSeat in {"Yes", "No"}
  {
    if Truthy(ds) && KeyCount(ds) > 0 then
      Terms(Get(ds, "investmentAmount"), Get(ds, "valuationCap"), Get(ds, "equityStake"),
            if Truthy(Get(ds, "antiDilution")) then "Yes" else "No",
            if Truthy(Get(ds, "boardSeat")) then "Yes" else "No",
            Get(ds, "liquidationPreference"), Get(ds, "vestingSchedule"))
    else NotDisclosed(DealMessage)
  }

  // ---------------------------------------------------------------- the mapping, section by section

  /** `(fundingHistory || []).map(…)`: a falsy history maps to no rounds. */
  predicate FundingReadable(a: Value) {
    var f := Get(a, "fundingHistory");
    Truthy(f) ==> f.Arr? && AllPresent(f.items)
  }

  function FundingOf(a: Value): (r: Result<seq<FundingRound>>)
    ensures r.Ok? <==> FundingReadable(a)
    ensures r.Err? ==> r.error == TypeError
    ensures r.Ok? ==> var f := Get(a, "fundingHistory");
                      && |r.value| == (if Truthy(f) then |f.items| else 0)
                      && forall i :: 0 <= i < |r.value| ==> r.value[i] == RoundOf(f.items[i])
  {
    var list :- ArrayItems(Or(Get(a, "fundingHistory"), Arr([])));
    MapRounds(list)
  }

  /** `competitors.map(…)`: unguarded. */
  predicate CompetitorsReadable(a: Value) {
    var c := Get(a, "competitors");
    c.Arr? && AllPresent(c.items)
  }

  function CompetitorsOf(a: Value): (r: Result<seq<Competitor>>)
    ensures r.Ok? <==> CompetitorsReadable(a)
    ensures r.Err? ==> r.error == TypeError
    ensures r.Ok? ==> var c := Get(a, "competitors").items;
                      && |r.value| == |c|
                      && forall i :: 0 <= i < |c| ==> r.value[i] == CompetitorOf(c[i])
  {
    var list :- ArrayItems(Get(a, "competitors"));
    MapCompetitors(list)
  }

  /** `expertOpinions.map(…)`: unguarded. */
  predicate OpinionsReadable(a: Value) {
    var o := Get(a, "expertOpinions");
    o.Arr? && AllPresent(o.items)
  }

  function OpinionsOf(a: Value): (r: Result<seq<ExpertOpinion>>)
    ensures r.Ok? <==> OpinionsReadable(a)
    ensures r.Err? ==> r.error == TypeError
    ensures r.Ok? ==> var o := Get(a, "expertOpinions").items;
                      && |r.value| == |o|
                      && forall i :: 0 <= i < |o| ==> r.value[i] == OpinionOf(o[i])
  {
    var list :- ArrayItems(Get(a, "expertOpinions"));
    MapOpinions(list)
  }

  /** `(expertInsights?.expertOpinions || []).map(…)` */
  function InsightList(a: Value): Value {
    Or(Get(Get(a, "expertInsights"), "expertOpinions"), Arr([]))
  }

  predicate InsightsReadable(a: Value) {
    InsightList(a).Arr? && AllPresent(InsightList(a).items)
  }

  function InsightOpinionsOf(a: Value): (r: Result<seq<InsightOpinion>>)
    ensures r.Ok? <==> InsightsReadable(a)
    ensures r.Err? ==> r.error == TypeError
    ensures r.Ok? ==> |r.value| == |InsightList(a).items|
                      && forall i :: 0 <= i < |r.value| ==> r.value[i] == InsightOpinionOf(InsightList(a).items[i])
  {
    var list :- ArrayItems(InsightList(a));
    MapInsightOpinions(list)
  }

  /** `expertInsights?.reputationAnalysis?.x || default`: never throws. */
  function ReputationOf(a: Value): (r: Reputation)
  {
    var rep := Get(Get(a, "expertInsights"), "reputationAnalysis");
    Reputation(Or(Get(rep, "newsMedia"), Num(0.0)), Or(Get(rep, "socialMedia"), Num(0.0)),
               Or(Get(rep, "investorReviews"), Num(0.0)), Or(Get(rep, "customerFeedback"), Num(0.0)),
               Or(Get(rep, "overall"), Num(0.0)), Or(Get(rep, "sentiment"), Str("Neutral")),
               Or(Get(rep, "rating"), Num(0.0)))
  }

  datatype Comparison = Comparison(startup: Metrics, competitors: seq<Metrics>)

  /** The four metric rows of `marketComparison.metrics`, all read without a guard. */
  function MetricsRows(a: Value): Value {
    Get(Get(a, "marketComparison"), "metrics")
  }

  predicate ComparisonReadable(a: Value) {
    var m := MetricsRows(a);
    && !Nullish(Get(a, "marketComparison")) && !Nullish(m)
    && !Nullish(Get(m, "marketShare")) && !Nullish(Get(m, "growthRate"))
    && !Nullish(Get(m, "revenueModel")) && !Nullish(Get(m, "differentiator"))
  }

  /** Lines 261-274: the startup's column and one column per competitor, keyed
      `competitor1`, `competitor2`, … by position. */
  function ComparisonOf(a: Value, count: nat): (r: Result<Comparison>)
    ensures r.Ok? <==> ComparisonReadable(a)
    ensures r.Err? ==> r.error == TypeError
    ensures r.Ok? ==> var m := MetricsRows(a);
                      && r.value.startup.marketShare == Get(Get(m, "marketShare"), "startup")
                      && r.value.startup.growthRate == Get(Get(m, "growthRate"), "startup")
                      && r.value.startup.revenueModel == Get(Get(m, "revenueModel"), "startup")
                      && r.value.startup.differentiator == Get(Get(m, "differentiator"), "startup")
                      && |r.value.competitors| == count
                      && forall i :: 0 <= i < count ==>
                           r.value.competitors[i].marketShare == Get(Get(m, "marketShare"), CompetitorKey(i))
                           && r.value.competitors[i].growthRate == Get(Get(m, "growthRate"), CompetitorKey(i))
                           && r.value.competitors[i].revenueModel == Get(Get(m, "revenueModel"), CompetitorKey(i))
                           && r.value.competitors[i].differentiator == Get(Get(m, "differentiator"), CompetitorKey(i))
  {
    var comparison :- Prop(a, "marketComparison");
    var metrics :- Prop(comparison, "metrics");
    var shareRow :- Prop(metrics, "marketShare");
    var growthRow := Get(metrics, "growthRate");
    var revenueRow := Get(metrics, "revenueModel");
    var diffRow := Get(metrics, "differentiator");
    var startupShare :- Prop(shareRow, "startup");
    var startupGrowth :- Prop(growthRow, "startup");
    var startupRevenue :- Prop(revenueRow, "startup");
    var startupDifferentiator :- Prop(diffRow, "startup");
    Ok(Comparison(
      Metrics(startupShare, startupGrowth, startupRevenue, startupDifferentiator),
      seq(count, i requires 0 <= i < count =>
        Metrics(Get(shareRow, CompetitorKey(i)), Get(growthRow, CompetitorKey(i)),
                Get(revenueRow, CompetitorKey(i)), Get(diffRow, CompetitorKey(i))))))
  }

  predicate QuestionsReadable(profile: Value, sw: Value) {
    Get(profile, "keyOfferings").Arr? && !Nullish(sw) && Get(sw, "weaknesses").Arr?
  }

  /** Lines 324-337: three fixed questions whose answers are built from profile fields;
      `keyOfferings.join` and `strengthsWeaknesses.weaknesses.join` are unguarded. */
  function QuestionsOf(profile: Value, industry: Value, sw: Value): (r: Result<KeyQuestions>)
    ensures r.Ok? <==> QuestionsReadable(profile, sw)
    ensures r.Err? ==> r.error == TypeError
    ensures r.Ok? ==> r.value.marketStrategy.question == MarketStrategyQuestion
                      && r.value.userRetention.question == UserRetentionQuestion
                      && r.value.regulatoryRisks.question == RegulatoryRisksQuestion
  {
    var offerings :- Join(Get(profile, "keyOfferings"), ", ");
    var weaknessList :- Prop(sw, "weaknesses");
    var weaknessText :- Join(weaknessList, ", ");
    Ok(KeyQuestions(
      QuestionAnswer(MarketStrategyQuestion,
        "Based on the analysis, " + ToText(Get(profile, "companyName")) + "'s market strategy focuses on "
        + ToText(Get(profile, "marketPosition")) + " in the " + ToText(industry)
        + " sector. The company leverages " + ToText(Get(profile, "competitiveAdvantage"))
        + " to capture market share."),
      QuestionAnswer(UserRetentionQuestion,
        "The company's user retention strategy is built around " + offerings
        + ". This approach is supported by " + ToText(Get(profile, "teamHighlights")) + "."),
      QuestionAnswer(RegulatoryRisksQuestion,
        "In the " + ToText(industry) + " sector, key regulatory considerations include " + weaknessText
        + ". The company addresses these through " + ToText(Get(profile, "solution")) + ".")))
  }

  /** t occurs somewhere in s. */
  predicate Mentions(s: string, t: string) {
    exists i | 0 <= i <= |s| :: OccursAt(s, t, i)
  }

  predicate OccursAt(s: string, t: string, i: int) {
    0 <= i <= |s| - |t| && s[i..i + |t|] == t
  }

  lemma MentionedLast(s: string, t: string)
    ensures Mentions(s + t, t)
  {
    assert OccursAt(s + t, t, |s|);
  }

  lemma MentionedStill(s: string, t: string, u: string)
    requires Mentions(s, t)
    ensures Mentions(s + u, t)
  {
    var i :| 0 <= i <= |s| && OccursAt(s, t, i);
    assert 0 <= i <= |s| - |t| && s[i..i + |t|] == t;
    assert (s + u)[i..i + |t|] == s[i..i + |t|];
    assert OccursAt(s + u, t, i);
  }

  lemma {:induction false} StrategyNamesCompany(name: string, position: string, sector: string, advantage: string)
    ensures Mentions("Based on the analysis, " + name + "'s market strategy focuses on "
                     + position + " in the " + sector
                     + " sector. The company leverages " + advantage
                     + " to capture market share.", name)
  {
    var s := "Based on the analysis, " + name;
    MentionedLast("Based on the analysis, ", name);
    MentionedStill(s, name, "'s market strategy focuses on ");
    s := s + "'s market strategy focuses on ";
    MentionedStill(s, name, position);
    s := s + position;
    MentionedStill(s, name, " in the ");
    s := s + " in the ";
    MentionedStill(s, name, sector);
    s := s + sector;
    MentionedStill(s, name, " sector. The company leverages ");
    s := s + " sector. The company leverages ";
    MentionedStill(s, name, advantage);
    s := s + advantage;
    MentionedStill(s, name, " to capture market share.");
  }

  lemma {:induction false} RetentionListsOfferings(offerings: string, team: string)
    ensures Mentions("The company's user retention strategy is built around " + offerings
                     + ". This approach is supported by " + team + ".", offerings)
  {
    var s := "The company's user retention strategy is built around " + offerings;
    MentionedLast("The company's user retention strategy is built around ", offerings);
    MentionedStill(s, offerings, ". This approach is supported by ");
    s := s + ". This approach is supported by ";
    MentionedStill(s, offerings, team);
    s := s + team;
    MentionedStill(s, offerings, ".");
  }

  lemma {:induction false} RegulationNamesSectorAndWeaknesses(sector: string, weaknesses: string, solution: string)
    ensures var answer := "In the " + sector + " sector, key regulatory considerations include " + weaknesses
                          + ". The company addresses these through " + solution + ".";
            Mentions(answer, sector) && Mentions(answer, weaknesses)
  {
    var s := "In the " + sector;
    MentionedLast("In the ", sector);
    MentionedStill(s, sector, " sector, key regulatory considerations include ");
    s := s + " sector, key regulatory considerations include ";
    MentionedStill(s, sector, weaknesses);
    MentionedLast(s, weaknesses);
    s := s + weaknesses;
    MentionedStill(s, sector, ". The company addresses these through ");
    MentionedStill(s, weaknesses, ". The company addresses these through ");
    s := s + ". The company addresses these through ";
    MentionedStill(s, sector, solution);
    MentionedStill(s, weaknesses, solution);
    s := s + solution;
    MentionedStill(s, sector, ".");
    MentionedStill(s, weaknesses, ".");
  }

  /** Each answer is built from the deck: the strategy names the company, the
      retention answer lists the key offerings joined by ", ", and the regulatory
      answer names the industry and lists the weaknesses joined by ", ". */
  lemma {:induction false} QuestionAnswersMention(profile: Value, industry: Value, sw: Value)
    requires QuestionsReadable(profile, sw)
    ensures QuestionsOf(profile, industry, sw).Ok?
    ensures var q := QuestionsOf(profile, industry, sw).value;
            && Mentions(q.marketStrategy.answer, ToText(Get(profile, "companyName")))
            && Mentions(q.userRetention.answer, JoinText(Get(profile, "keyOfferings").items, ", "))
            && Mentions(q.regulatoryRisks.answer, ToText(industry))
            && Mentions(q.regulatoryRisks.answer, JoinText(Get(sw, "weaknesses").items, ", "))
  {
    StrategyNamesCompany(ToText(Get(profile, "companyName")), ToText(Get(profile, "marketPosition")),
                         ToText(industry), ToText(Get(profile, "competitiveAdvantage")));
    RetentionListsOfferings(JoinText(Get(profile, "keyOfferings").items, ", "), ToText(Get(profile, "teamHighlights")));
    RegulationNamesSectorAndWeaknesses(ToText(industry), JoinText(Get(sw, "weaknesses").items, ", "),
                                       ToText(Get(profile, "solution")));
  }

  // ---------------------------------------------------------------- the mapping itself

  /** Every input path the mapping reads without a guard, stated on its own. */
  predicate Mappable(a: Value) {
    && !Nullish(a)
    && !Nullish(Get(a, "profile"))
    && !Nullish(Get(a, "expertConclusion"))
    && FundingReadable(a)
    && CompetitorsReadable(a)
    && ComparisonReadable(a)
    && OpinionsReadable(a)
    && InsightsReadable(a)
    && QuestionsReadable(Get(a, "profile"), Get(a, "strengthsWeaknesses"))
  }

  /** The two Yes/No terms are "Yes" or "No"; the message is the fixed one. */
  predicate DealWellFormed(d: DealStructure) {
    && (d.Terms? ==> d.antiDilutionProtection in {"Yes", "No"} && d.boardSeat in {"Yes", "No"})
    && (d.NotDisclosed? ==> d.message == DealMessage)
  }

  /** What every record the mapping produces satisfies. */
  predicate WellFormed(r: Record) {
    && r.pitchClarity == 8.0
    && r.companyOverview.foundedOn == "N/A"
    && r.marketAnalysis.trends == ["Market trend 1", "Market trend 2"]
    && r.marketAnalysis.challenges == ["Challenge 1", "Challenge 2"]
    && r.marketAnalysis.growthRate == r.startupMetrics.growthRate
    && r.industryType == r.companyOverview.industry
    && r.investmentScore == r.finalVerdict.productViability
    && |r.competitorMetrics| == |r.competitors|
    && DealWellFormed(r.dealStructure)
    && r.keyQuestions.marketStrategy.question == MarketStrategyQuestion
    && r.keyQuestions.userRetention.question == UserRetentionQuestion
    && r.keyQuestions.regulatoryRisks.question == RegulatoryRisksQuestion
    && Truthy(r.reputation.sentiment)
  }

  /** The object literal of lines 220-338. */
  function Normalize(a: Value): (r: Result<Record>)
    ensures r.Ok? ==> Mappable(a)
    ensures Mappable(a) ==> r.Ok?
    ensures r.Err? ==> r.error == TypeError
    ensures r.Ok? ==> r.value.pitchClarity == 8.0 && r.value.companyOverview.foundedOn == "N/A"
    ensures r.Ok? ==> r.value.investmentScore == Get(Get(a, "expertConclusion"), "productViability")
                      && r.value.investmentScore == r.value.finalVerdict.productViability
    ensures r.Ok? ==> r.value.marketAnalysis.growthRate == r.value.startupMetrics.growthRate
    ensures r.Ok? ==> r.value.industryType == r.value.companyOverview.industry == Get(Get(a, "profile"), "industry")
    ensures r.Ok? ==> |r.value.competitorMetrics| == |r.value.competitors| == |Get(a, "competitors").items|
    ensures r.Ok? ==> r.value.dealStructure == DealOf(Get(a, "dealStructure"))
    ensures r.Ok? ==> WellFormed(r.value)
  {
    var profile :- Prop(a, "profile");
    var industry :- Prop(profile, "industry");
    var conclusion := Get(a, "expertConclusion");
    var viability :- Prop(conclusion, "productViability");
    var rounds :- FundingOf(a);
    var competitors :- CompetitorsOf(a);
    var comparison :- ComparisonOf(a, |competitors|);
    var opinions :- OpinionsOf(a);
    var insightOpinions :- InsightOpinionsOf(a);
    var sw := Get(a, "strengthsWeaknesses");
    var questions :- QuestionsOf(profile, industry, sw);
    Ok(Record(
      industryType := industry,
      pitchClarity := 8.0,
      investmentScore := viability,
      marketPosition := Get(profile, "marketPosition"),
      marketAnalysis := MarketAnalysis(Get(profile, "marketSize"), comparison.startup.growthRate,
                                       ["Market trend 1", "Market trend 2"], ["Challenge 1", "Challenge 2"]),
      companyOverview := CompanyOverview(Get(profile, "companyName"), industry, Get(profile, "businessModel"),
                                         Get(profile, "keyOfferings"), Get(profile, "marketPosition"), "N/A"),
      strengths := Or(Get(sw, "strengths"), Arr([])),
      weaknesses := Or(Get(sw, "weaknesses"), Arr([])),
      fundingRounds := rounds,
      competitors := competitors,
      startupMetrics := comparison.startup,
      competitorMetrics := comparison.competitors,
      expertOpinions := opinions,
      insightOpinions := insightOpinions,
      reputation := ReputationOf(a),
      finalVerdict := FinalVerdict(viability, Get(conclusion, "marketPotential"),
                                   Get(conclusion, "sustainability"), Get(conclusion, "innovation"),
                                   Get(conclusion, "exitPotential"), Get(conclusion, "riskFactors"),
                                   Get(conclusion, "competitiveAdvantage")),
      dealStructure := DealOf(Get(a, "dealStructure")),
      keyQuestions := questions))
  }

  // ---------------------------------------------------------------- defaults

  /** `x || d` with a truthy default never yields a falsy value, and a truthy
      input is passed through. */
  lemma OrDefault(x: Value, d: Value)
    requires Truthy(d)
    ensures Truthy(Or(x, d))
    ensures Truthy(x) ==> Or(x, d) == x
  {
  }

  /** `shown` is what was read when that is truthy, and the fallback otherwise. */
  predicate Defaulted(shown: Value, read: Value, fallback: Value) {
    && (Truthy(read) ==> shown == read)
    && (!Truthy(read) ==> shown == fallback)
  }

  /** Every funding-round field shown in the report is truthy: the defaults
      "Unknown", "Not specified" and [] fill the gaps. */
  lemma RoundFieldsTruthy(round: Value)
    ensures Truthy(RoundOf(round).roundType) && Truthy(RoundOf(round).amount)
    ensures Truthy(RoundOf(round).keyInvestors)
    ensures Defaulted(RoundOf(round).roundType, Get(round, "round"), Str("Unknown"))
    ensures Defaulted(RoundOf(round).amount, Get(round, "amount"), Str("Not specified"))
    ensures Defaulted(RoundOf(round).keyInvestors, Get(round, "investors"), Arr([]))
  {
  }

  /** Every expert-insight field is the source's value when truthy and "Unknown"
      otherwise, so none is falsy. */
  lemma InsightOpinionFieldsTruthy(o: Value)
    ensures var e := InsightOpinionOf(o);
            var unknown := Str("Unknown");
            && Defaulted(e.name, Get(o, "name"), unknown) && Defaulted(e.title, Get(o, "title"), unknown)
            && Defaulted(e.affiliation, Get(o, "affiliation"), unknown)
            && Defaulted(e.analysis, Get(o, "analysis"), unknown)
            && Defaulted(e.reference, Get(o, "reference"), unknown) && Defaulted(e.date, Get(o, "date"), unknown)
    ensures var e := InsightOpinionOf(o);
            && Truthy(e.name) && Truthy(e.title) && Truthy(e.affiliation)
            && Truthy(e.analysis) && Truthy(e.reference) && Truthy(e.date)
  {
  }

  /** A reputation score is the source's value when that is truthy and 0 otherwise;
      the sentiment falls back to "Neutral". */
  lemma ReputationDefaults(a: Value)
    ensures var rep := Get(Get(a, "expertInsights"), "reputationAnalysis");
            var r := ReputationOf(a);
            && Defaulted(r.newsMedia, Get(rep, "newsMedia"), Num(0.0))
            && Defaulted(r.socialMedia, Get(rep, "socialMedia"), Num(0.0))
            && Defaulted(r.investorReviews, Get(rep, "investorReviews"), Num(0.0))
            && Defaulted(r.customerFeedback, Get(rep, "customerFeedback"), Num(0.0))
            && Defaulted(r.overall, Get(rep, "overall"), Num(0.0))
            && Defaulted(r.rating, Get(rep, "rating"), Num(0.0))
            && Defaulted(r.sentiment, Get(rep, "sentiment"), Str("Neutral"))
            && Truthy(r.sentiment)
  {
  }

  // ---------------------------------------------------------------- the record as JavaScript sees it

  function Texts(xs: seq<string>): (r: Value)
    ensures r.Arr? && |r.items| == |xs|
    ensures forall i :: 0 <= i < |xs| ==> r.items[i] == Str(xs[i])
  {
    if |xs| == 0 then Arr([]) else Arr([Str(xs[0])] + Texts(xs[1..]).items)
  }

  function RoundJs(x: FundingRound): Value {
    Obj(map["type" := x.roundType, "amount" := x.amount, "key_investors" := x.keyInvestors])
  }

  function CompetitorJs(c: Competitor): Value {
    Obj(map["name" := c.name, "key_investors" := c.keyInvestors, "amount_raised" := c.amountRaised,
            "market_position" := c.marketPosition, "strengths" := c.strengths, "growth_rate" := c.growthRate,
            "business_model" := c.businessModel, "key_differentiator" := c.keyDifferentiator])
  }

  function MetricsJs(m: Metrics): Value {
    Obj(map["market_share" := m.marketShare, "growth_rate" := m.growthRate,
            "revenue_model" := m.revenueModel, "differentiator" := m.differentiator])
  }

  function OpinionJs(o: ExpertOpinion): Value {
    Obj(map["name" := o.name, "affiliation" := o.affiliation, "summary" := o.summary,
            "reference" := o.reference, "date" := o.date])
  }

  function InsightOpinionJs(o: InsightOpinion): Value {
    Obj(map["name" := o.name, "title" := o.title, "affiliation" := o.affiliation,
            "analysis" := o.analysis, "reference" := o.reference, "date" := o.date])
  }

  function RoundsJs(xs: seq<FundingRound>): (r: seq<Value>)
    ensures |r| == |xs| && forall i :: 0 <= i < |xs| ==> r[i] == RoundJs(xs[i])
  {
    if |xs| == 0 then [] else [RoundJs(xs[0])] + RoundsJs(xs[1..])
  }

  function CompetitorsJs(xs: seq<Competitor>): (r: seq<Value>)
    ensures |r| == |xs| && forall i :: 0 <= i < |xs| ==> r[i] == CompetitorJs(xs[i])
  {
    if |xs| == 0 then [] else [CompetitorJs(xs[0])] + CompetitorsJs(xs[1..])
  }

  function OpinionsJs(xs: seq<ExpertOpinion>): (r: seq<Value>)
    ensures |r| == |xs| && forall i :: 0 <= i < |xs| ==> r[i] == OpinionJs(xs[i])
  {
    if |xs| == 0 then [] else [OpinionJs(xs[0])] + OpinionsJs(xs[1..])
  }

  function InsightOpinionsJs(xs: seq<InsightOpinion>): (r: seq<Value>)
    ensures |r| == |xs| && forall i :: 0 <= i < |xs| ==> r[i] == InsightOpinionJs(xs[i])
  {
    if |xs| == 0 then [] else [InsightOpinionJs(xs[0])] + InsightOpinionsJs(xs[1..])
  }

  function MetricsListJs(xs: seq<Metrics>): (r: seq<Value>)
    ensures |r| == |xs| && forall i :: 0 <= i < |xs| ==> r[i] == MetricsJs(xs[i])
  {
    if |xs| == 0 then [] else [MetricsJs(xs[0])] + MetricsListJs(xs[1..])
  }

  function DealJs(d: DealStructure): Value {
    match d
    case Terms(amount, cap, stake, antiDilution, board, preference, vesting) =>
      Obj(map["investment_amount" := amount, "valuation_cap" := cap, "equity_stake" := stake,
              "anti_dilution_protection" := Str(antiDilution), "board_seat" := Str(board),
              "liquidation_preference" := preference, "vesting_schedule" := vesting])
    case NotDisclosed(message) => Obj(map["message" := Str(message)])
  }

  function QuestionJs(q: QuestionAnswer): Value {
    Obj(map["question" := Str(q.question), "answer" := Str(q.answer)])
  }

  function MarketAnalysisJs(m: MarketAnalysis): Value {
    Obj(map["market_size" := m.marketSize, "growth_rate" := m.growthRate,
            "trends" := Texts(m.trends), "challenges" := Texts(m.challenges)])
  }

  function OverviewJs(c: CompanyOverview): Value {
    Obj(map["company_name" := c.companyName, "industry" := c.industry, "business_model" := c.businessModel,
            "key_offerings" := c.keyOfferings, "market_position" := c.marketPosition, "founded_on" := Str(c.foundedOn)])
  }

  function ComparisonJs(startup: Metrics, competitors: seq<Metrics>): Value {
    Obj(map["metrics" := Obj(map["startup" := MetricsJs(startup), "competitors" := Arr(MetricsListJs(competitors))])])
  }

  function ReputationJs(p: Reputation): Value {
    Obj(map["news_media" := p.newsMedia, "social_media" := p.socialMedia, "investor_reviews" := p.investorReviews,
            "customer_feedback" := p.customerFeedback, "overall" := p.overall, "sentiment" := p.sentiment,
            "rating" := p.rating])
  }

  function InsightsJs(opinions: seq<InsightOpinion>, p: Reputation): Value {
    Obj(map["expert_opinions" := Arr(InsightOpinionsJs(opinions)), "reputation_analysis" := ReputationJs(p)])
  }

  function VerdictJs(v: FinalVerdict): Value {
    Obj(map["product_viability" := v.productViability, "market_potential" := v.marketPotential,
            "sustainability" := v.sustainability, "innovation" := v.innovation,
            "exit_potential" := v.exitPotential, "risk_factor" := v.riskFactor,
            "competitive_edge" := v.competitiveEdge])
  }

  function QuestionsJs(k: KeyQuestions): Value {
    Obj(map["market_strategy" := QuestionJs(k.marketStrategy), "user_retention" := QuestionJs(k.userRetention),
            "regulatory_risks" := QuestionJs(k.regulatoryRisks)])
  }

  /** The record under the snake_case property names the pages read. */
  function ToJs(r: Record): Value {
    Obj(map[
      "industry_type" := r.industryType,
      "pitch_clarity" := Num(r.pitchClarity),
      "investment_score" := r.investmentScore,
      "market_position" := r.marketPosition,
      "market_analysis" := MarketAnalysisJs(r.marketAnalysis),
      "company_overview" := OverviewJs(r.companyOverview),
      "strengths" := r.strengths,
      "weaknesses" := r.weaknesses,
      "funding_history" := Obj(map["rounds" := Arr(RoundsJs(r.fundingRounds))]),
      "competitor_analysis" := Obj(map["competitors" := Arr(CompetitorsJs(r.competitors))]),
      "market_comparison" := ComparisonJs(r.startupMetrics, r.competitorMetrics),
      "expert_opinions" := Arr(OpinionsJs(r.expertOpinions)),
      "expert_insights" := InsightsJs(r.insightOpinions, r.reputation),
      "final_verdict" := VerdictJs(r.finalVerdict),
      "proposed_deal_structure" := DealJs(r.dealStructure),
      "key_questions" := QuestionsJs(r.keyQuestions)
    ])
  }

  /** Distinct positions get distinct keys. */
  lemma CompetitorKeyInjective(i: nat, j: nat)
    requires i != j
    ensures CompetitorKey(i) != CompetitorKey(j)
  {
    NatTextInjective(i + 1, j + 1);
    assert CompetitorKey(i)[10..] == NatText(i + 1);
    assert CompetitorKey(j)[10..] == NatText(j + 1);
  }

  /** "startup" is never a competitor column. */
  lemma StartupIsNoCompetitorKey(i: nat)
    ensures CompetitorKey(i) != "startup"
  {
    assert CompetitorKey(i)[0] == 'c';
  }

  // The properties of the JavaScript record that the pages read, a few at a time.

  lemma ToJsScores(r: Record)
    ensures Get(ToJs(r), "industry_type") == r.industryType
    ensures Get(ToJs(r), "investment_score") == r.investmentScore
    ensures Get(ToJs(r), "pitch_clarity") == Num(r.pitchClarity)
    ensures Get(ToJs(r), "market_position") == r.marketPosition
  {
    var js := ToJs(r);
    assert js.Obj?;
  }

  lemma ToJsOverview(r: Record)
    ensures Get(ToJs(r), "strengths") == r.strengths
    ensures Get(ToJs(r), "market_analysis") == MarketAnalysisJs(r.marketAnalysis)
    ensures Get(ToJs(r), "company_overview") == OverviewJs(r.companyOverview)
  {
    var js := ToJs(r);
    assert js.Obj?;
  }

  lemma ToJsLists(r: Record)
    ensures Get(ToJs(r), "funding_history") == Obj(map["rounds" := Arr(RoundsJs(r.fundingRounds))])
    ensures Get(ToJs(r), "competitor_analysis") == Obj(map["competitors" := Arr(CompetitorsJs(r.competitors))])
    ensures Get(ToJs(r), "expert_opinions") == Arr(OpinionsJs(r.expertOpinions))
    ensures Get(ToJs(r), "weaknesses") == r.weaknesses
    ensures Get(ToJs(r), "market_comparison") == ComparisonJs(r.startupMetrics, r.competitorMetrics)
  {
    var js := ToJs(r);
    assert js.Obj?;
  }

  lemma ToJsInsights(r: Record)
    ensures Get(ToJs(r), "expert_insights") == InsightsJs(r.insightOpinions, r.reputation)
    ensures Get(ToJs(r), "final_verdict") == VerdictJs(r.finalVerdict)
    ensures "reputation_analysis" !in ToJs(r).fields
  {
    var js := ToJs(r);
    assert js.Obj?;
  }

  lemma ToJsDeal(r: Record)
    ensures Get(ToJs(r), "proposed_deal_structure") == DealJs(r.dealStructure)
    ensures Get(ToJs(r), "key_questions") == QuestionsJs(r.keyQuestions)
  {
    var js := ToJs(r);
    assert js.Obj?;
  }

  /** The overview object answers the reads the report makes of it. */
  lemma OverviewReads(c: CompanyOverview)
    ensures Get(OverviewJs(c), "company_name") == c.companyName
    ensures Get(OverviewJs(c), "business_model") == c.businessModel
    ensures Get(OverviewJs(c), "industry") == c.industry
    ensures Get(OverviewJs(c), "founded_on") == Str(c.foundedOn)
  {
    var js := OverviewJs(c);
    assert js.Obj?;
  }

  /** A seven-term deal object answers each term; a message-only one answers only its message. */
  lemma DealReads(d: DealStructure)
    ensures d.Terms? ==> && Get(DealJs(d), "investment_amount") == d.investmentAmount
                         && Get(DealJs(d), "valuation_cap") == d.valuationCap
                         && Get(DealJs(d), "equity_stake") == d.equityStake
                         && Get(DealJs(d), "anti_dilution_protection") == Str(d.antiDilutionProtection)
                         && Get(DealJs(d), "board_seat") == Str(d.boardSeat)
                         && Get(DealJs(d), "liquidation_preference") == d.liquidationPreference
                         && Get(DealJs(d), "vesting_schedule") == d.vestingSchedule
    ensures d.NotDisclosed? ==> DealJs(d).fields.Keys == {"message"}
  {
  }

  /** The verdict object answers the reads of the verdict and growth lines. */
  lemma VerdictReads(v: FinalVerdict)
    ensures Get(VerdictJs(v), "product_viability") == v.productViability
    ensures Get(VerdictJs(v), "risk_factor") == v.riskFactor
  {
    var js := VerdictJs(v);
    assert js.Obj?;
  }

  /** A competitor object answers the reads of the comparison table. */
  lemma CompetitorReads(c: Competitor)
    ensures Get(CompetitorJs(c), "name") == c.name
    ensures Get(CompetitorJs(c), "market_position") == c.marketPosition
    ensures Get(CompetitorJs(c), "growth_rate") == c.growthRate
    ensures Get(CompetitorJs(c), "business_model") == c.businessModel
    ensures Get(CompetitorJs(c), "key_differentiator") == c.keyDifferentiator
  {
    var js := CompetitorJs(c);
    assert js.Obj?;
  }

  /** `data` reads, property by property, as the JavaScript form of record r. */
  predicate Presents(data: Value, r: Record) {
    && data.Obj?
    && Get(data, "industry_type") == r.industryType
    && Get(data, "investment_score") == r.investmentScore
    && Get(data, "pitch_clarity") == Num(r.pitchClarity)
    && Get(data, "market_position") == r.marketPosition
    && Get(data, "strengths") == r.strengths
    && Get(data, "weaknesses") == r.weaknesses
    && Get(data, "market_comparison") == ComparisonJs(r.startupMetrics, r.competitorMetrics)
    && Get(data, "market_analysis") == MarketAnalysisJs(r.marketAnalysis)
    && Get(data, "company_overview") == OverviewJs(r.companyOverview)
    && Get(data, "funding_history") == Obj(map["rounds" := Arr(RoundsJs(r.fundingRounds))])
    && Get(data, "competitor_analysis") == Obj(map["competitors" := Arr(CompetitorsJs(r.competitors))])
    && Get(data, "expert_opinions") == Arr(OpinionsJs(r.expertOpinions))
    && Get(data, "expert_insights") == InsightsJs(r.insightOpinions, r.reputation)
    && Get(data, "final_verdict") == VerdictJs(r.finalVerdict)
    && Get(data, "proposed_deal_structure") == DealJs(r.dealStructure)
    && Get(data, "key_questions") == QuestionsJs(r.keyQuestions)
    && "reputation_analysis" !in data.fields
  }

  /** The JavaScript object built from a record presents it. */
  lemma ToJsPresents(r: Record)
    ensures Presents(ToJs(r), r)
  {
    ToJsScores(r);
    ToJsOverview(r);
    ToJsLists(r);
    ToJsInsights(r);
    ToJsDeal(r);
  }
}
