/** The stored-report page (src/pages/Insight.tsx): loading a saved report by id,
    the choice between spinner, empty notice and report, and the fallback rules the
    page applies when it renders a report. */
module Insight {
  import opened Js
  import opened Analysis
  import opened Report

  // ---------------------------------------------------------------- loading a stored report

  /** The storage key of report `id`. */
  function ReportKey(id: string): (k: string)
    ensures |k| == |id| + 9 && k[..9] == "analysis-" && k[9..] == id
  {
    "analysis-" + id
  }

  /** Distinct ids are stored under distinct keys. */
  lemma ReportKeyInjective(a: string, b: string)
    ensures ReportKey(a) == ReportKey(b) ==> a == b
  {
    if ReportKey(a) == ReportKey(b) {
      assert a == ReportKey(a)[9..];
    }
  }

  const NoIdMessage := "No insight ID provided"
  const LoadFailedToast := "Failed to load insight details"

  /** `!id` holds for a missing route parameter and for the empty one. */
  predicate HasId(id: Option<string>) {
    id.Some? && id.value != ""
  }

  /** What the `try` block of lines 17-23 produces: the `insights` of the stored
      report, or the error that sends the page back to the history list.
      `fetchReport` stands for the storage service, which either resolves with the
      stored object or rejects. */
  function LoadOutcome(id: Option<string>, fetchReport: string -> Result<Value>): (r: Result<Value>)
    ensures !HasId(id) ==> r == Err(Thrown(NoIdMessage))
    ensures HasId(id) ==> (r.Ok? <==> fetchReport(ReportKey(id.value)).Ok?
                                      && !Nullish(fetchReport(ReportKey(id.value)).value))
    ensures r.Ok? ==> r.value == Get(fetchReport(ReportKey(id.value)).value, "insights")
  {
    if !HasId(id) then Err(Thrown(NoIdMessage))
    else
      var data :- fetchReport(ReportKey(id.value));
      Prop(data, "insights")
  }

  /** What the page shows: a spinner while loading, a notice when there is no report. */
  datatype View = Spinner | NoInsight | ReportView

  function ViewOf(loading: bool, insight: Value): (v: View)
    ensures v == Spinner <==> loading
    ensures v == ReportView <==> !loading && Truthy(insight)
  {
    if loading then Spinner else if !Truthy(insight) then NoInsight else ReportView
  }

  class InsightPage {
    var loading: bool
    var insight: Value
    var toasts: seq<string>
    var navigations: seq<string>

    /** `useState(null)` and `useState(true)`. */
    constructor ()
      ensures loading && insight == Null && toasts == [] && navigations == []
    {
      loading := true;
      insight := Null;
      toasts := [];
      navigations := [];
    }

    /** The `loadInsight` effect: on success the report is shown; on any failure a
        toast is raised, the page navigates to "/history" and the report stays as it
        was; in both cases loading ends. */
    method LoadInsight(id: Option<string>, fetchReport: string -> Result<Value>)
      modifies this
      ensures !loading
      ensures LoadOutcome(id, fetchReport).Ok? ==>
                insight == LoadOutcome(id, fetchReport).value
                && toasts == old(toasts) && navigations == old(navigations)
      ensures LoadOutcome(id, fetchReport).Err? ==>
                insight == old(insight)
                && toasts == old(toasts) + [LoadFailedToast]
                && navigations == old(navigations) + ["/history"]
    {
      loading := true;
      var outcome: Result<Value>;
      if id.None? || id.value == "" {
        outcome := Err(Thrown(NoIdMessage));
      } else {
        var data := fetchReport(ReportKey(id.value));
        if data.Err? {
          outcome := Err(data.error);
        } else {
          outcome := Prop(data.value, "insights");
        }
      }
      if outcome.Ok? {
        insight := outcome.value;
      } else {
        toasts := toasts + [LoadFailedToast];
        navigations := navigations + ["/history"];
      }
      loading := false;
    }
  }

  /** A missing id never reaches the storage service and always returns to the history list. */
  lemma MissingIdReturnsToHistory(fetchReport: string -> Result<Value>)
    ensures LoadOutcome(None, fetchReport).Err?
    ensures LoadOutcome(Some(""), fetchReport).Err?
  {
  }

  // ---------------------------------------------------------------- the verdict paragraph

  /** Line 182: `investment_score ?? final_verdict?.product_viability`. */
  function VerdictScore(data: Value): (score: Value)
    ensures !Nullish(Get(data, "investment_score")) ==> score == Get(data, "investment_score")
    ensures Nullish(Get(data, "investment_score")) ==>
              score == Get(Get(data, "final_verdict"), "product_viability")
  {
    Coalesce(Get(data, "investment_score"), Get(Get(data, "final_verdict"), "product_viability"))
  }

  /** A score of 0 is kept, not replaced by the product viability, and is high-risk. */
  lemma ZeroScoreKept(data: Value)
    requires Get(data, "investment_score") == Num(0.0)
    ensures VerdictScore(data) == Num(0.0)
    ensures BandOf(VerdictScore(data)) == HighRisk
  {
  }

  /** Line 184: `industry_type || company_overview.industry || "the industry"`,
      read after `company_overview.company_name`, so the overview is known to be present. */
  function IndustryShown(data: Value): (r: Value)
    ensures Truthy(Get(data, "industry_type")) ==> r == Get(data, "industry_type")
    ensures !Truthy(Get(data, "industry_type")) && Truthy(Get(Get(data, "company_overview"), "industry")) ==>
              r == Get(Get(data, "company_overview"), "industry")
    ensures Truthy(r)
  {
    Or(Or(Get(data, "industry_type"), Get(Get(data, "company_overview"), "industry")), Str("the industry"))
  }

  /** Lines 181-194: the same four templates as the report, with the score and
      industry chains above. The overview is read without a guard, and
      `toLowerCase` exists only on strings. */
  function InsightVerdict(data: Value): (r: Result<string>)
    requires !Nullish(data)
    ensures r.Ok? <==> !Nullish(Get(data, "company_overview")) && IndustryShown(data).Str?
    ensures r.Ok? ==> r.value == VerdictTemplate(BandOf(VerdictScore(data)),
                                                  ToText(Get(Get(data, "company_overview"), "company_name")),
                                                  ToLower(IndustryShown(data).s))
  {
    var score := Coalesce(Get(data, "investment_score"), Get(Get(data, "final_verdict"), "product_viability"));
    var companyName :- Prop(Get(data, "company_overview"), "company_name");
    var industry := Or(Or(Get(data, "industry_type"), Get(Get(data, "company_overview"), "industry")),
                       Str("the industry"));
    var lower :- LowerCaseOf(industry);
    Ok(VerdictTemplate(BandOf(score), ToText(companyName), lower))
  }

  /** Where the record carries a score and a string industry, this page and the
      report print the same verdict. */
  lemma InsightAgreesWithReport(data: Value)
    requires !Nullish(data)
    requires !Nullish(Get(data, "investment_score"))
    requires Get(data, "industry_type").Str? && Get(data, "industry_type").s != ""
    ensures InsightVerdict(data) == VerdictText(data)
  {
    assert VerdictScore(data) == Get(data, "investment_score");
    assert IndustryShown(data) == Get(data, "industry_type");
    var name := ToText(Get(Get(data, "company_overview"), "company_name"));
    var industry := ToLower(Get(data, "industry_type").s);
    if !Nullish(Get(data, "company_overview")) {
      assert InsightVerdict(data) == Ok(VerdictTemplate(BandOf(Get(data, "investment_score")), name, industry));
      assert VerdictText(data) == Ok(VerdictTemplate(BandOf(Get(data, "investment_score")), name, industry));
    }
  }

  /** For a normalized record the industry shown is the record's industry when it is
      truthy, and "the industry" otherwise; the score is the product viability. */
  lemma InsightVerdictOfRecord(data: Value, r: Record)
    requires Presents(data, r) && WellFormed(r)
    ensures IndustryShown(data) == Or(r.industryType, Str("the industry"))
    ensures BandOf(VerdictScore(data)) == BandOf(r.finalVerdict.productViability)
  {
    OverviewReads(r.companyOverview);
    assert Get(Get(data, "company_overview"), "industry") == r.industryType;
    var fv := Get(data, "final_verdict");
    VerdictReads(r.finalVerdict);
    assert Get(fv, "product_viability") == r.finalVerdict.productViability;
  }

  // ---------------------------------------------------------------- company overview

  /** Line 76: `founded_on || founded_year || 'Not available'`, the overview read unguarded. */
  function FoundedOn(data: Value): (r: Result<Value>)
    requires !Nullish(data)
    ensures r.Ok? <==> !Nullish(Get(data, "company_overview"))
    ensures r.Ok? ==> Truthy(r.value)
    ensures r.Ok? && !Truthy(Get(Get(data, "company_overview"), "founded_on"))
                  && !Truthy(Get(Get(data, "company_overview"), "founded_year")) ==>
              r.value == Str("Not available")
  {
    var overview := Get(data, "company_overview");
    var foundedOn :- Prop(overview, "founded_on");
    Ok(Or(Or(foundedOn, Get(overview, "founded_year")), Str("Not available")))
  }

  /** A normalized record always shows its fixed "N/A". */
  lemma FoundedOfRecord(data: Value, r: Record)
    requires Presents(data, r) && WellFormed(r)
    ensures FoundedOn(data) == Ok(Str("N/A"))
  {
    OverviewReads(r.companyOverview);
  }

  // ---------------------------------------------------------------- lists with a placeholder

  /** A list section either shows one entry (a few lines of text) per item, or a fixed sentence. */
  datatype Listing = Entries(entries: seq<seq<string>>) | Placeholder(text: string)

  /** `items.map(render)`: fails when any item fails. */
  function RenderAll(items: seq<Value>, render: Value -> Result<seq<string>>): (r: Result<seq<seq<string>>>)
    ensures r.Ok? <==> forall i :: 0 <= i < |items| ==> render(items[i]).Ok?
    ensures r.Ok? ==> |r.value| == |items| && forall i :: 0 <= i < |items| ==> r.value[i] == render(items[i]).value
  {
    if |items| == 0 then Ok([])
    else
      var first :- render(items[0]);
      var rest :- RenderAll(items[1..], render);
      assert forall i :: 1 <= i < |items| ==> items[i] == items[1..][i - 1];
      Ok([first] + rest)
  }

  /** `list && list.length > 0 ? list.map(render) : placeholder`. Only arrays have `map`. */
  function Listed(list: Value, render: Value -> Result<seq<string>>, placeholder: string): (r: Result<Listing>)
    ensures !(Truthy(list) && Above(Get(list, "length"), 0.0)) ==> r == Ok(Placeholder(placeholder))
    ensures list.Arr? && |list.items| > 0 ==>
              r.Ok? == (forall i :: 0 <= i < |list.items| ==> render(list.items[i]).Ok?)
              && (r.Ok? ==> r.value.Entries? && |r.value.entries| == |list.items|
                            && forall i :: 0 <= i < |list.items| ==> r.value.entries[i] == render(list.items[i]).value)
    ensures Truthy(list) && Above(Get(list, "length"), 0.0) && !list.Arr? ==> r == Err(TypeError)
  {
    if Truthy(list) && Above(Get(list, "length"), 0.0) then
      if list.Arr? then
        var entries :- RenderAll(list.items, render);
        Ok(Entries(entries))
      else Err(TypeError)
    else Ok(Placeholder(placeholder))
  }

  const NoFundingText := "No funding history specified in the pitch deck."
  const NoOpinionsText := "No expert opinions available."
  const NoCompetitorsText := "No competitor data available."

  /** Line 116: `<strong>{type}:</strong> Amount: {amount}, Key Investors: {key_investors.join(", ")}`. */
  function RoundEntry(round: Value): (r: Result<seq<string>>)
    ensures r.Ok? <==> && !Nullish(round)
                       && Renderable(Get(round, "type")) && Renderable(Get(round, "amount"))
                       && Get(round, "key_investors").Arr?
    ensures r.Ok? ==> r.value == [ReactText(Get(round, "type")).value + ": Amount: "
                                  + ReactText(Get(round, "amount")).value + ", Key Investors: "
                                  + JoinText(Get(round, "key_investors").items, ", ")]
  {
    var roundType :- Prop(round, "type");
    var typeText :- ReactText(roundType);
    var amountText :- ReactText(Get(round, "amount"));
    var investors :- Join(Get(round, "key_investors"), ", ");
    Ok([typeText + ": Amount: " + amountText + ", Key Investors: " + investors])
  }

  /** Lines 132-136: five labelled lines per opinion. */
  function OpinionEntry(opinion: Value): (r: Result<seq<string>>)
    ensures r.Ok? <==> && !Nullish(opinion)
                       && Renderable(Get(opinion, "name")) && Renderable(Get(opinion, "affiliation"))
                       && Renderable(Get(opinion, "summary")) && Renderable(Get(opinion, "reference"))
                       && Renderable(Get(opinion, "date"))
    ensures r.Ok? ==> r.value == ["Name: " + ReactText(Get(opinion, "name")).value,
                                  "Affiliation: " + ReactText(Get(opinion, "affiliation")).value,
                                  "Summary: " + ReactText(Get(opinion, "summary")).value,
                                  "Reference: " + ReactText(Get(opinion, "reference")).value,
                                  "Date: " + ReactText(Get(opinion, "date")).value]
  {
    var name :- Prop(opinion, "name");
    var nameText :- ReactText(name);
    var affiliation :- ReactText(Get(opinion, "affiliation"));
    var summary :- ReactText(Get(opinion, "summary"));
    var reference :- ReactText(Get(opinion, "reference"));
    var date :- ReactText(Get(opinion, "date"));
    Ok(["Name: " + nameText, "Affiliation: " + affiliation, "Summary: " + summary,
        "Reference: " + reference, "Date: " + date])
  }

  /** Line 152. */
  function CompetitorEntry(c: Value): (r: Result<seq<string>>)
    ensures r.Ok? <==> && !Nullish(c)
                       && Renderable(Get(c, "name")) && Renderable(Get(c, "market_position"))
                       && Renderable(Get(c, "key_investors")) && Renderable(Get(c, "amount_raised"))
                       && Renderable(Get(c, "strengths"))
    ensures r.Ok? ==> r.value == [ReactText(Get(c, "name")).value + " - Market Position: "
                                  + ReactText(Get(c, "market_position")).value + ", Key Investors: "
                                  + ReactText(Get(c, "key_investors")).value + ", Amount Raised: "
                                  + ReactText(Get(c, "amount_raised")).value + ", Strengths: "
                                  + ReactText(Get(c, "strengths")).value]
  {
    var name :- Prop(c, "name");
    var nameText :- ReactText(name);
    var position :- ReactText(Get(c, "market_position"));
    var investors :- ReactText(Get(c, "key_investors"));
    var raised :- ReactText(Get(c, "amount_raised"));
    var strengths :- ReactText(Get(c, "strengths"));
    Ok([nameText + " - Market Position: " + position + ", Key Investors: " + investors
        + ", Amount Raised: " + raised + ", Strengths: " + strengths])
  }

  /** Lines 112-122: `funding_history?.rounds && ….length > 0`. */
  function FundingListing(data: Value): Result<Listing> {
    Listed(Get(Get(data, "funding_history"), "rounds"), RoundEntry, NoFundingText)
  }

  /** Lines 128-142: `expert_opinions && expert_opinions.length > 0`. */
  function OpinionListing(data: Value): Result<Listing> {
    Listed(Get(data, "expert_opinions"), OpinionEntry, NoOpinionsText)
  }

  /** Lines 148-158: `competitor_analysis.competitors.length > 0`, both reads unguarded. */
  function CompetitorListing(data: Value): (r: Result<Listing>)
    ensures Nullish(Get(data, "competitor_analysis")) ==> r.Err?
    ensures Nullish(Get(Get(data, "competitor_analysis"), "competitors")) ==> r.Err?
    ensures var list := Get(Get(data, "competitor_analysis"), "competitors");
            && (!Nullish(list) && !Above(Get(list, "length"), 0.0) ==> r == Ok(Placeholder(NoCompetitorsText)))
            && (!Nullish(list) && !list.Arr? && Above(Get(list, "length"), 0.0) ==> r == Err(TypeError))
            && (list.Arr? && |list.items| > 0 ==>
                  (r.Ok? <==> forall i :: 0 <= i < |list.items| ==> CompetitorEntry(list.items[i]).Ok?)
                  && (r.Ok? ==> r.value.Entries? && |r.value.entries| == |list.items|
                                && forall i :: 0 <= i < |list.items| ==>
                                     r.value.entries[i] == CompetitorEntry(list.items[i]).value))
  {
    var list :- Prop(Get(data, "competitor_analysis"), "competitors");
    var length :- Prop(list, "length");
    if Above(length, 0.0) then
      if list.Arr? then
        var entries :- RenderAll(list.items, CompetitorEntry);
        Ok(Entries(entries))
      else Err(TypeError)
    else Ok(Placeholder(NoCompetitorsText))
  }

  /** A normalized record shows the funding placeholder exactly when it has no rounds. */
  lemma FundingListingOfRecord(data: Value, r: Record)
    requires Presents(data, r)
    ensures |r.fundingRounds| == 0 ==> FundingListing(data) == Ok(Placeholder(NoFundingText))
    ensures |r.fundingRounds| > 0 && FundingListing(data).Ok? ==>
              FundingListing(data).value.Entries? && |FundingListing(data).value.entries| == |r.fundingRounds|
  {
    var rounds := Get(Get(data, "funding_history"), "rounds");
    assert rounds == Arr(RoundsJs(r.fundingRounds));
  }

  /** A normalized record shows the opinions placeholder exactly when it has no opinions. */
  lemma OpinionListingOfRecord(data: Value, r: Record)
    requires Presents(data, r)
    ensures |r.expertOpinions| == 0 ==> OpinionListing(data) == Ok(Placeholder(NoOpinionsText))
    ensures |r.expertOpinions| > 0 && OpinionListing(data).Ok? ==>
              |OpinionListing(data).value.entries| == |r.expertOpinions|
  {
    assert Get(data, "expert_opinions") == Arr(OpinionsJs(r.expertOpinions));
  }

  /** A normalized record shows the competitors placeholder exactly when it has none. */
  lemma CompetitorListingOfRecord(data: Value, r: Record)
    requires Presents(data, r)
    ensures |r.competitors| == 0 ==> CompetitorListing(data) == Ok(Placeholder(NoCompetitorsText))
    ensures |r.competitors| > 0 && CompetitorListing(data).Ok? ==>
              |CompetitorListing(data).value.entries| == |r.competitors|
  {
    assert Get(Get(data, "competitor_analysis"), "competitors") == Arr(CompetitorsJs(r.competitors));
  }

  /** A round with string fields and string investors renders as one line that names
      its type and amount, with the investors joined by ", ". */
  lemma RoundEntryOfStrings(t: string, amount: string, investors: seq<string>)
    ensures RoundEntry(Obj(map["type" := Str(t), "amount" := Str(amount), "key_investors" := Texts(investors)]))
            == Ok([t + ": Amount: " + amount + ", Key Investors: " + JoinText(Texts(investors).items, ", ")])
  {
    var round := Obj(map["type" := Str(t), "amount" := Str(amount), "key_investors" := Texts(investors)]);
    assert Get(round, "type") == Str(t);
    assert Get(round, "amount") == Str(amount);
    assert Get(round, "key_investors") == Texts(investors);
  }

  /** A mapped round renders exactly when its type and amount can be shown and the deck's
      `investors` was a list or falsy. A truthy non-list, such as one investor given as a
      plain string, survives the `|| []` default and makes `.join` throw. */
  lemma {:induction false} MappedRoundEntry(round: Value)
    ensures var investors := Get(round, "investors");
            RoundEntry(RoundJs(RoundOf(round))).Ok? <==>
              && Renderable(Or(Get(round, "round"), Str("Unknown")))
              && Renderable(Or(Get(round, "amount"), Str("Not specified")))
              && (!Truthy(investors) || investors.Arr?)
    ensures Truthy(Get(round, "investors")) && Get(round, "investors").Str? ==>
              RoundEntry(RoundJs(RoundOf(round))).Err?
  {
    var shown := RoundJs(RoundOf(round));
    assert Get(shown, "type") == Or(Get(round, "round"), Str("Unknown"));
    assert Get(shown, "amount") == Or(Get(round, "amount"), Str("Not specified"));
    assert Get(shown, "key_investors") == Or(Get(round, "investors"), Arr([]));
  }
}
