/** The upload page (src/pages/Index.tsx): the `handleAnalyze` sequence of state updates
    around the two awaited services, the deferred reset, the analyze-button rule, and
    which of the three panels and headings is shown. The PDF service and the history
    service are not part of this model: their results are parameters. */
module Upload {
  import opened Js
  import Loading

  const NoFileMessage := "Please select a PDF file first"
  const CompleteMessage := "Analysis complete!"
  const UnknownErrorMessage := "An unknown error occurred"

  /** What an awaited call rejected with: an `Error` object, or any other value. */
  datatype Rejection = ErrorObject(message: string) | OtherValue

  /** What `processPitchDeck` resolves to, or why it rejected. */
  datatype Processed = Processed(pdfUrl: string, analysis: Value) | ProcessRejected(reason: Rejection)

  datatype Toast = ErrorToast(text: string) | SuccessToast(text: string)

  /** Lines 83-85: `error instanceof Error ? error.message : "An unknown error occurred"`. */
  function FailureText(r: Rejection): (t: string)
    ensures r.ErrorObject? ==> t == r.message
    ensures r.OtherValue? ==> t == UnknownErrorMessage
  {
    match r
    case ErrorObject(m) => m
    case OtherValue => UnknownErrorMessage
  }

  predicate StrictlyIncreasing(t: seq<real>) {
    forall i, j :: 0 <= i < j < |t| ==> t[i] < t[j]
  }

  /** Lines 52-78: the values `setProgress` receives during one analysis, given whether
      `processPitchDeck` and `saveToHistory` resolved. */
  function ProgressTrace(processed: bool, saved: bool): (t: seq<real>)
    ensures |t| >= 2 && t[0] == 0.0 && t[1] == 5.0
    ensures StrictlyIncreasing(t)
    ensures t[|t| - 1] == 100.0 <==> processed && saved
    ensures !processed ==> t[|t| - 1] == 5.0
    ensures processed && !saved ==> t[|t| - 1] == 80.0
  {
    if !processed then [0.0, 5.0]
    else if !saved then [0.0, 5.0, 30.0, 40.0, 50.0, 60.0, 70.0, 80.0]
    else [0.0, 5.0, 30.0, 40.0, 50.0, 60.0, 70.0, 80.0, 90.0, 95.0, 100.0]
  }

  /** A failed analysis stops somewhere along the successful one's progress. */
  lemma FailureTraceIsPrefix(processed: bool, saved: bool)
    ensures ProgressTrace(processed, saved) <= ProgressTrace(true, true)
  {
  }

  /** The loading screen's step list never moves back during an analysis. It ends on its
      last step whenever the deck was processed, so a failed save also leaves
      "Report Generation" active until the reset. */
  lemma {:induction false} StepsAdvance(processed: bool, saved: bool)
    ensures var t := ProgressTrace(processed, saved);
      forall i, j :: 0 <= i <= j < |t| ==> Loading.CurrentStep(t[i]) <= Loading.CurrentStep(t[j])
    ensures var t := ProgressTrace(processed, saved);
      Loading.CurrentStep(t[|t| - 1]) == 4 <==> processed
  {
    var t := ProgressTrace(processed, saved);
    forall i, j | 0 <= i <= j < |t|
      ensures Loading.CurrentStep(t[i]) <= Loading.CurrentStep(t[j])
    {
      Loading.CurrentStepMonotone(t[i], t[j]);
    }
    Loading.StepBoundaries(t[|t| - 1]);
    if !processed {
      assert t[|t| - 1] < 20.0;
    }
  }

  // ---------------------------------------------------------------- what is shown

  /** Line 196. */
  predicate AnalyzeDisabled(hasFile: bool, isLoading: bool, disclaimerAccepted: bool) {
    !hasFile || isLoading || !disclaimerAccepted
  }

  datatype Panel = UploadForm | LoadingView | ReportView

  predicate ShowsUploadForm(isLoading: bool, insights: Value) { !Truthy(insights) && !isLoading }   // line 148
  predicate ShowsLoadingView(isLoading: bool) { isLoading }                                        // line 209
  predicate ShowsReport(isLoading: bool, insights: Value) { Truthy(insights) && !isLoading }       // line 230

  /** Exactly one of the three panels is rendered. */
  function PanelOf(isLoading: bool, insights: Value): (p: Panel)
    ensures p == UploadForm <==> ShowsUploadForm(isLoading, insights)
    ensures p == LoadingView <==> ShowsLoadingView(isLoading)
    ensures p == ReportView <==> ShowsReport(isLoading, insights)
  {
    if isLoading then LoadingView
    else if Truthy(insights) then ReportView
    else UploadForm
  }

  const AnalyzingHeading := "Analyzing"
  const ReportHeading := "Analysis Report"
  const DefaultHeading := "AI-Powered Pitch Deck & Investment Analysis"

  /** Lines 140-144: the heading follows the panel. */
  function Heading(isLoading: bool, insights: Value): (h: string)
    ensures h == AnalyzingHeading <==> PanelOf(isLoading, insights) == LoadingView
    ensures h == ReportHeading <==> PanelOf(isLoading, insights) == ReportView
    ensures h == DefaultHeading <==> PanelOf(isLoading, insights) == UploadForm
  {
    if isLoading then AnalyzingHeading
    else if Truthy(insights) && !isLoading then ReportHeading
    else DefaultHeading
  }

  /** The button sits on the upload form, where loading is already off: there it is
      enabled exactly when a file is chosen and the disclaimer accepted, and a click
      then never takes the no-file branch. */
  lemma ButtonOnForm(hasFile: bool, isLoading: bool, accepted: bool, insights: Value)
    requires ShowsUploadForm(isLoading, insights)
    ensures !AnalyzeDisabled(hasFile, isLoading, accepted) <==> hasFile && accepted
    ensures !AnalyzeDisabled(hasFile, isLoading, accepted) ==> hasFile
  {
  }

  // ---------------------------------------------------------------- the page state

  class AnalyzePage {
    var file: Option<string>
    var isLoading: bool
    var insights: Value
    var progress: real
    var isDisclaimerAccepted: bool
    var toasts: seq<Toast>
    /** Set when the `finally` block has scheduled its one-second reset. */
    var resetScheduled: bool
    /** Every value `setProgress` has received, in order. */
    ghost var progressLog: seq<real>

    /** Lines 27-32. */
    constructor ()
      ensures file == None && !isLoading && insights == Null && progress == 0.0
      ensures !isDisclaimerAccepted && toasts == [] && !resetScheduled && progressLog == []
    {
      file := None;
      isLoading := false;
      insights := Null;
      progress := 0.0;
      isDisclaimerAccepted := false;
      toasts := [];
      resetScheduled := false;
      progressLog := [];
    }

    /** Lines 36-38. */
    method HandleFileSelected(name: string)
      modifies this
      ensures file == Some(name)
      ensures isLoading == old(isLoading) && insights == old(insights) && progress == old(progress)
      ensures isDisclaimerAccepted == old(isDisclaimerAccepted) && toasts == old(toasts)
      ensures resetScheduled == old(resetScheduled) && progressLog == old(progressLog)
    {
      file := Some(name);
    }

    /** Line 179. */
    method SetDisclaimerAccepted(checked: bool)
      modifies this
      ensures isDisclaimerAccepted == checked
      ensures file == old(file) && isLoading == old(isLoading) && insights == old(insights)
      ensures progress == old(progress) && toasts == old(toasts)
      ensures resetScheduled == old(resetScheduled) && progressLog == old(progressLog)
    {
      isDisclaimerAccepted := checked;
    }

    method SetProgress(p: real)
      modifies this
      ensures progress == p && progressLog == old(progressLog) + [p]
      ensures file == old(file) && isLoading == old(isLoading) && insights == old(insights)
      ensures isDisclaimerAccepted == old(isDisclaimerAccepted) && toasts == old(toasts)
      ensures resetScheduled == old(resetScheduled)
    {
      progress := p;
      progressLog := progressLog + [p];
    }

    /** Lines 50-56: loading on, insights cleared, progress reset and then at 5. */
    method StartAnalysis()
      modifies this
      ensures isLoading && insights == Null && progress == 5.0
      ensures progressLog == old(progressLog) + [0.0, 5.0]
      ensures file == old(file) && isDisclaimerAccepted == old(isDisclaimerAccepted)
      ensures toasts == old(toasts) && resetScheduled == old(resetScheduled)
    {
      isLoading := true;
      insights := Null;
      SetProgress(0.0);
      SetProgress(5.0);
    }

    /** Lines 58-71: from 30 to 80 around the two half-second pauses. */
    method ProcessingSteps()
      modifies this
      ensures progress == 80.0
      ensures progressLog == old(progressLog) + [30.0, 40.0, 50.0, 60.0, 70.0, 80.0]
      ensures isLoading == old(isLoading) && insights == old(insights)
      ensures file == old(file) && isDisclaimerAccepted == old(isDisclaimerAccepted)
      ensures toasts == old(toasts) && resetScheduled == old(resetScheduled)
    {
      SetProgress(30.0);
      SetProgress(40.0);
      SetProgress(50.0);
      SetProgress(60.0);
      SetProgress(70.0);
      SetProgress(80.0);
    }

    /** Lines 73-78: 90 and 95, then the analysis is shown, then 100. */
    method FinishAnalysis(analysis: Value)
      modifies this
      ensures insights == analysis && progress == 100.0
      ensures progressLog == old(progressLog) + [90.0, 95.0, 100.0]
      ensures isLoading == old(isLoading)
      ensures file == old(file) && isDisclaimerAccepted == old(isDisclaimerAccepted)
      ensures toasts == old(toasts) && resetScheduled == old(resetScheduled)
    {
      SetProgress(90.0);
      SetProgress(95.0);
      insights := analysis;
      SetProgress(100.0);
    }

    /** Lines 44-93, up to the timer the `finally` block schedules. Without a file only
        the toast is raised. Otherwise loading stays on, progress runs through
        ProgressTrace, insights holds the analysis only when both services resolved and
        stays null on any failure, one toast reports the outcome, and the reset is
        scheduled in every case. */
    method HandleAnalyze(process: Processed, saveRejection: Option<Rejection>)
      modifies this
      ensures old(file).None? ==>
                && toasts == old(toasts) + [ErrorToast(NoFileMessage)]
                && isLoading == old(isLoading) && insights == old(insights) && progress == old(progress)
                && resetScheduled == old(resetScheduled) && progressLog == old(progressLog)
      ensures old(file).Some? ==> isLoading && resetScheduled
      ensures old(file).Some? ==>
                var trace := ProgressTrace(process.Processed?, saveRejection.None?);
                progressLog == old(progressLog) + trace && progress == trace[|trace| - 1]
      ensures old(file).Some? ==>
                insights == (if process.Processed? && saveRejection.None? then process.analysis else Null)
      ensures old(file).Some? ==>
                toasts == old(toasts) + [if process.Processed? && saveRejection.None? then SuccessToast(CompleteMessage)
                                         else if process.ProcessRejected? then ErrorToast(FailureText(process.reason))
                                         else ErrorToast(FailureText(saveRejection.value))]
      ensures file == old(file) && isDisclaimerAccepted == old(isDisclaimerAccepted)
    {
      if file.None? {
        toasts := toasts + [ErrorToast(NoFileMessage)];
        return;
      }
      StartAnalysis();
      if process.ProcessRejected? {
        toasts := toasts + [ErrorToast(FailureText(process.reason))];
        resetScheduled := true;
        return;
      }
      ProcessingSteps();
      if saveRejection.Some? {
        toasts := toasts + [ErrorToast(FailureText(saveRejection.value))];
        resetScheduled := true;
        return;
      }
      FinishAnalysis(process.analysis);
      toasts := toasts + [SuccessToast(CompleteMessage)];
      resetScheduled := true;
    }

    /** Lines 88-91: the scheduled reset turns loading off and progress back to 0. */
    method ResetTimerFires()
      modifies this
      ensures !isLoading && progress == 0.0 && !resetScheduled
      ensures progressLog == old(progressLog) + [0.0]
      ensures file == old(file) && insights == old(insights)
      ensures isDisclaimerAccepted == old(isDisclaimerAccepted) && toasts == old(toasts)
    {
      isLoading := false;
      SetProgress(0.0);
      resetScheduled := false;
    }
  }

  /** After the reset, a successful analysis shows the report exactly when it is truthy,
      and a failed one shows the upload form again. */
  lemma PanelAfterReset(ok: bool, analysis: Value)
    ensures ok ==> (PanelOf(false, analysis) == ReportView <==> Truthy(analysis))
    ensures !ok ==> PanelOf(false, Null) == UploadForm && Heading(false, Null) == DefaultHeading
  {
  }
}
