/** The history page (src/pages/History.tsx): loading the stored analyses, the text of
    each card with its fallbacks, and the navigation a card click causes. The history
    service is not part of this model: what `getHistory` resolved to, or that it threw,
    is a parameter. */
module History {
  import opened Js
  import Analysis
  import Navbar

  const LoadFailedToast := "Failed to load insights history"
  const CompanyPlaceholder := "Company Name"
  const NotAvailable := "N/A"

  class HistoryPage {
    var insights: Value
    var loading: bool
    var toasts: seq<string>
    var navigations: seq<string>

    /** Lines 9-10: an empty list, loading. */
    constructor ()
      ensures insights == Arr([]) && loading && toasts == [] && navigations == []
    {
      insights := Arr([]);
      loading := true;
      toasts := [];
      navigations := [];
    }

    /** Lines 13-28: `setInsights(data || [])`, a toast when `getHistory` throws, and
        loading off in every case. */
    method LoadInsights(fetched: Result<Value>)
      modifies this
      ensures !loading && navigations == old(navigations)
      ensures fetched.Ok? ==> insights == Or(fetched.value, Arr([])) && toasts == old(toasts)
      ensures fetched.Err? ==> insights == old(insights) && toasts == old(toasts) + [LoadFailedToast]
    {
      loading := true;
      match fetched {
        case Ok(data) =>
          insights := Or(data, Arr([]));
        case Err(_) =>
          toasts := toasts + [LoadFailedToast];
      }
      loading := false;
    }

    /** Lines 30-32 and 55: a card click opens that analysis. */
    method ViewInsight(id: Value)
      modifies this
      ensures navigations == old(navigations) + [InsightPath(id)]
      ensures insights == old(insights) && loading == old(loading) && toasts == old(toasts)
    {
      navigations := navigations + ["/insight/" + ToText(id)];
    }
  }

  /** The template literal `/insight/${id}`. */
  function InsightPath(id: Value): (p: string)
    ensures |p| == 9 + |ToText(id)| && p[..9] == "/insight/" && p[9..] == ToText(id)
  {
    "/insight/" + ToText(id)
  }

  /** A missing result leaves an empty list; a list that arrived is kept as it is. */
  lemma LoadedList(data: Value)
    ensures Nullish(data) ==> Or(data, Arr([])) == Arr([])
    ensures data.Arr? ==> Or(data, Arr([])) == data
  {
  }

  /** Different analyses open different pages, each of which the navigation bar treats
      as a report page whose back button returns to this list. */
  lemma {:induction false} InsightPathTargets(id: Value, other: Value)
    ensures Navbar.Classify(InsightPath(id)) == Navbar.InsightPage
    ensures Navbar.BackTarget(InsightPath(id)) == Some("/history")
    ensures ToText(id) != ToText(other) ==> InsightPath(id) != InsightPath(other)
  {
    var p := InsightPath(id);
    assert Navbar.IsInsightPath(p);
    Navbar.BackChain(ToText(id));
    if ToText(id) != ToText(other) {
      assert p[9..] != InsightPath(other)[9..];
    }
  }

  // ---------------------------------------------------------------- one card

  /** Line 68: a present timestamp is formatted for the locale, which this model keeps
      as the raw value. */
  datatype Stamp = Formatted(raw: Value) | TimestampPlaceholder

  datatype Card = Card(companyName: Value, timestamp: Stamp, potential: string,
                       clarity: string, score: string, marketPosition: Value)

  /** Line 75: `${score * 10}%` for a number, otherwise "N/A". */
  function PotentialText(score: Value): (t: string)
    ensures score.Num? ==> t == NumberText(score.n * 10.0) + "%"
    ensures !score.Num? ==> t == NotAvailable
    ensures t == NotAvailable <==> !score.Num?
  {
    if IsNumber(score) then
      var r := NumberText(score.n * 10.0) + "%";
      assert r[|r| - 1] != NotAvailable[|NotAvailable| - 1];
      r
    else NotAvailable
  }

  /** Lines 84 and 87: `${x}/10` for a number, otherwise "N/A". */
  function OutOfTen(x: Value): (t: string)
    ensures x.Num? ==> t == NumberText(x.n) + "/10"
    ensures !x.Num? ==> t == NotAvailable
    ensures t == NotAvailable <==> !x.Num?
  {
    if IsNumber(x) then
      var r := NumberText(x.n) + "/10";
      assert r[|r| - 1] != NotAvailable[|NotAvailable| - 1];
      r
    else NotAvailable
  }

  /** Lines 52-91 for one entry of the list. `insight.id` and `insight.insights` are plain
      reads, so an entry that is null or undefined throws; everything below them uses
      optional chaining. */
  function CardOf(entry: Value): (c: Result<Card>)
    ensures c.Err? <==> Nullish(entry)
    ensures c.Ok? ==>
      var data := Get(entry, "insights");
      && (Truthy(Get(Get(data, "company_overview"), "company_name")) ==>
            c.value.companyName == Get(Get(data, "company_overview"), "company_name"))
      && (!Truthy(Get(Get(data, "company_overview"), "company_name")) ==>
            c.value.companyName == Str(CompanyPlaceholder))
      && (c.value.timestamp.TimestampPlaceholder? <==> !Truthy(Get(entry, "timestamp")))
      && (c.value.potential == NotAvailable <==> !IsNumber(Get(data, "investment_score")))
      && (c.value.clarity == NotAvailable <==> !IsNumber(Get(data, "pitch_clarity")))
      && (c.value.score == NotAvailable <==> !IsNumber(Get(data, "investment_score")))
      && (Truthy(c.value.marketPosition))
  {
    if Nullish(entry) then Err(TypeError)
    else
    var data := Get(entry, "insights");
    var overview := Get(data, "company_overview");
    var stamp := Get(entry, "timestamp");
    Ok(Card(
      Or(Get(overview, "company_name"), Str(CompanyPlaceholder)),
      if Truthy(stamp) then Formatted(stamp) else TimestampPlaceholder,
      PotentialText(Get(data, "investment_score")),
      OutOfTen(Get(data, "pitch_clarity")),
      OutOfTen(Get(data, "investment_score")),
      Or(Get(data, "market_position"), Str(NotAvailable))))
  }

  /** The card of a stored analysis: the company name from its overview (or the
      placeholder), pitch clarity always as "x/10", and the score lines as numbers or
      "N/A" according to the stored score. */
  lemma {:induction false} CardOfRecord(entry: Value, data: Value, r: Analysis.Record)
    requires entry.Obj? && "insights" in entry.fields
    requires entry.fields["insights"] == data && Analysis.Presents(data, r)
    ensures CardOf(entry).Ok?
    ensures CardOf(entry).value.companyName == Or(r.companyOverview.companyName, Str(CompanyPlaceholder))
    ensures CardOf(entry).value.clarity == NumberText(r.pitchClarity) + "/10"
    ensures r.investmentScore.Num? ==>
              CardOf(entry).value.score == NumberText(r.investmentScore.n) + "/10"
              && CardOf(entry).value.potential == NumberText(r.investmentScore.n * 10.0) + "%"
    ensures !r.investmentScore.Num? ==>
              CardOf(entry).value.score == NotAvailable && CardOf(entry).value.potential == NotAvailable
    ensures CardOf(entry).value.marketPosition == Or(r.marketPosition, Str(NotAvailable))
  {
    Analysis.OverviewReads(r.companyOverview);
    CardOfScores(entry, data, r.companyOverview.companyName, r.pitchClarity, r.investmentScore, r.marketPosition);
  }

  lemma CardOfScores(entry: Value, data: Value, name: Value, clarity: real, score: Value, position: Value)
    requires entry.Obj? && "insights" in entry.fields && entry.fields["insights"] == data
    requires Get(Get(data, "company_overview"), "company_name") == name
    requires Get(data, "pitch_clarity") == Num(clarity)
    requires Get(data, "investment_score") == score
    requires Get(data, "market_position") == position
    ensures CardOf(entry).Ok?
    ensures CardOf(entry).value.companyName == Or(name, Str(CompanyPlaceholder))
    ensures CardOf(entry).value.clarity == NumberText(clarity) + "/10"
    ensures score.Num? ==>
              CardOf(entry).value.score == NumberText(score.n) + "/10"
              && CardOf(entry).value.potential == NumberText(score.n * 10.0) + "%"
    ensures !score.Num? ==>
              CardOf(entry).value.score == NotAvailable && CardOf(entry).value.potential == NotAvailable
    ensures CardOf(entry).value.marketPosition == Or(position, Str(NotAvailable))
  {
    CardReads(entry, data);
    var c := CardOf(entry).value;
    assert c.clarity == OutOfTen(Num(clarity));
    assert c.score == OutOfTen(score);
    assert c.potential == PotentialText(score);
  }

  /** The card of an entry whose `insights` is `data`, read field by field. */
  lemma CardReads(entry: Value, data: Value)
    requires entry.Obj? && "insights" in entry.fields && entry.fields["insights"] == data
    ensures CardOf(entry).Ok?
    ensures CardOf(entry).value.companyName == Or(Get(Get(data, "company_overview"), "company_name"), Str(CompanyPlaceholder))
    ensures CardOf(entry).value.potential == PotentialText(Get(data, "investment_score"))
    ensures CardOf(entry).value.clarity == OutOfTen(Get(data, "pitch_clarity"))
    ensures CardOf(entry).value.score == OutOfTen(Get(data, "investment_score"))
    ensures CardOf(entry).value.marketPosition == Or(Get(data, "market_position"), Str(NotAvailable))
  {
  }

  /** With a whole score the potential is that score as a percentage of ten. */
  lemma PotentialOfWholeScore(k: int)
    ensures PotentialText(Num(k as real)) == IntText(10 * k) + "%"
  {
    NumberTextOfInt(10 * k);
  }
}
