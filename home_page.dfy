/**
 * The home page's analysis flow: submitting a URL fetches a mobile and a
 * desktop analysis, merges the two answers into the page state, and the
 * state decides which result is shown, whether the results section is
 * rendered and which tab buttons are enabled. Score tiers colour the cards
 * and metric statuses.
 *
 * The two requests are inputs: each answer is an analysis or an error
 * message, or awaiting them threw.
 */
module HomePage {
  import opened Wrappers
  import opened ExportPdf

  datatype Tab = Mobile | Desktop

  /** An `error` field the page treats as set: JavaScript's empty string is falsy. */
  type ErrorText = s: string | s != "" witness "error"

  /** The JSON the analyze endpoint answered for one strategy. */
  datatype AnalyzeResponse = Success(results: AnalysisResults) | Failure(message: ErrorText)

  /** What awaiting both requests and their bodies produced. */
  datatype Fetched = Responses(mobile: AnalyzeResponse, desktop: AnalyzeResponse) | Thrown

  /** The page's state variables. */
  datatype HomeState = HomeState(
    url: string,
    isAnalyzing: bool,
    activeTab: Tab,
    showResults: bool,
    mobileResults: Option<AnalysisResults>,
    desktopResults: Option<AnalysisResults>,
    error: string)

  const Initial := HomeState("", false, Mobile, false, None, None, "")

  const UnexpectedError := "An unexpected error occurred. Please try again."

  // -------------------------------------------------------------- tiers

  /** The text colour class of a score. */
  function ScoreColor(score: int): (cls: string)
    ensures cls == "text-green-500" <==> score >= 90
    ensures cls == "text-yellow-500" <==> 50 <= score < 90
    ensures cls == "text-red-500" <==> score < 50
  {
    if score >= 90 then "text-green-500"
    else if score >= 50 then "text-yellow-500"
    else "text-red-500"
  }

  /** The status of a metric whose score is on the 0..1 scale. */
  function MetricStatus(score: real): (status: string)
    ensures status == "Good" <==> score >= 0.9
    ensures status == "Needs Improvement" <==> 0.5 <= score < 0.9
    ensures status == "Poor" <==> score < 0.5
  {
    if score >= 0.9 then "Good"
    else if score >= 0.5 then "Needs Improvement"
    else "Poor"
  }

  /** The page and the PDF report put a score in the same tier. */
  lemma PageAndReportTiersAgree(score: int)
    ensures ScoreColor(score) == "text-green-500" <==> ScoreRgb(score) == Green
    ensures ScoreColor(score) == "text-yellow-500" <==> ScoreRgb(score) == Yellow
    ensures ScoreColor(score) == "text-red-500" <==> ScoreRgb(score) == Red
  {
  }

  // ---------------------------------------------------------- display

  /** `activeResults`: the result of the selected tab. */
  function ActiveResults(s: HomeState): (r: Option<AnalysisResults>)
    ensures s.activeTab == Mobile ==> r == s.mobileResults
    ensures s.activeTab == Desktop ==> r == s.desktopResults
  {
    if s.activeTab == Mobile then s.mobileResults else s.desktopResults
  }

  /**
   * The results section renders only when shown and some result is present,
   * that is, exactly when it is shown with at least one tab button enabled.
   */
  predicate ResultsSectionRendered(s: HomeState): (rendered: bool)
    ensures rendered <==> s.showResults && !(TabDisabled(s, Mobile) && TabDisabled(s, Desktop))
  {
    s.showResults && (s.mobileResults.Some? || s.desktopResults.Some?)
  }

  /** A tab button is disabled exactly when its result is missing. */
  function TabDisabled(s: HomeState, tab: Tab): (disabled: bool)
    ensures disabled <==> (if tab == Mobile then s.mobileResults else s.desktopResults) == None
  {
    match tab
    case Mobile => s.mobileResults.None?
    case Desktop => s.desktopResults.None?
  }

  // ----------------------------------------------------------- analyse

  /** The state while the two requests are in flight. */
  function Pending(s: HomeState): (r: HomeState)
    ensures r.isAnalyzing && !r.showResults && r.error == ""
    ensures r.mobileResults == None && r.desktopResults == None
    ensures r.url == s.url && r.activeTab == s.activeTab
    ensures !ResultsSectionRendered(r)
  {
    s.(isAnalyzing := true, showResults := false, error := "", mobileResults := None, desktopResults := None)
  }

  /** The state `handleAnalyze` leaves once the requests have settled. */
  function Settled(s: HomeState, fetched: Fetched): (r: HomeState)
    ensures !r.isAnalyzing && r.url == s.url
  {
    var p := Pending(s);
    match fetched
    case Thrown =>
      p.(error := UnexpectedError, isAnalyzing := false)
    case Responses(mobile, desktop) =>
      if mobile.Failure? && desktop.Failure? then
        p.(error := mobile.message, isAnalyzing := false)
      else
        p.(mobileResults := if mobile.Success? then Some(mobile.results) else None,
           desktopResults := if desktop.Success? then Some(desktop.results) else None,
           activeTab := Mobile,
           showResults := true,
           isAnalyzing := false)
  }

  class Home {
    var url: string
    var isAnalyzing: bool
    var activeTab: Tab
    var showResults: bool
    var mobileResults: Option<AnalysisResults>
    var desktopResults: Option<AnalysisResults>
    var error: string
    /** The state rendered while the last analysis was awaiting its requests. */
    ghost var whileFetching: HomeState

    function State(): HomeState
      reads this
    {
      HomeState(url, isAnalyzing, activeTab, showResults, mobileResults, desktopResults, error)
    }

    constructor ()
      ensures State() == Initial
    {
      url, isAnalyzing, activeTab, showResults := "", false, Mobile, false;
      mobileResults, desktopResults, error := None, None, "";
      whileFetching := Initial;
    }

    /** Typing in the URL field. */
    method SetUrl(text: string)
      modifies this
      ensures State() == old(State()).(url := text)
    {
      url := text;
    }

    /** `handleAnalyze`: with an empty URL nothing happens. */
    method HandleAnalyze(fetched: Fetched)
      modifies this
      ensures old(url) == "" ==> State() == old(State())
      ensures old(url) != "" ==> whileFetching == Pending(old(State()))
      ensures old(url) != "" ==> State() == Settled(old(State()), fetched)
    {
      if url == "" {
        return;
      }
      isAnalyzing := true;
      showResults := false;
      error := "";
      mobileResults := None;
      desktopResults := None;
      whileFetching := State();

      match fetched {
        case Thrown =>
          error := UnexpectedError;
        case Responses(mobile, desktop) =>
          if mobile.Failure? && desktop.Failure? {
            error := mobile.message;
          } else {
            if mobile.Success? { mobileResults := Some(mobile.results); }
            if desktop.Success? { desktopResults := Some(desktop.results); }
            activeTab := Mobile;
            showResults := true;
          }
      }
      isAnalyzing := false;
    }

    /** A tab button of the results section: a click on a disabled button does nothing. */
    method SelectTab(tab: Tab)
      requires ResultsSectionRendered(State())
      modifies this
      ensures TabDisabled(old(State()), tab) ==> State() == old(State())
      ensures !TabDisabled(old(State()), tab) ==> State() == old(State()).(activeTab := tab)
    {
      if !TabDisabled(State(), tab) {
        activeTab := tab;
      }
    }

    /** "New Test", in the results section: hide the results, clear the URL and both results. */
    method NewTest()
      requires ResultsSectionRendered(State())
      modifies this
      ensures State() == old(State()).(showResults := false, url := "", mobileResults := None, desktopResults := None)
    {
      showResults := false;
      url := "";
      mobileResults := None;
      desktopResults := None;
    }

    /** "Export PDF", in the results section: the report of the current URL and results. */
    method ExportReport(generatedAt: string) returns (doc: Doc, fileName: string)
      requires ResultsSectionRendered(State())
      ensures fresh(doc) && doc.pages == Report(url, generatedAt, mobileResults, desktopResults)
      ensures fileName == FileName(url)
    {
      doc, fileName := ExportAnalysisPdf(url, generatedAt, mobileResults, desktopResults);
    }
  }

  // -------------------------------------------------------- properties

  /** Both requests failing reports the mobile error and shows no results. */
  lemma BothFailed(s: HomeState, mobileError: ErrorText, desktopError: ErrorText)
    ensures var r := Settled(s, Responses(Failure(mobileError), Failure(desktopError)));
      r.error == mobileError && !r.showResults && !ResultsSectionRendered(r)
      && r.mobileResults == None && r.desktopResults == None
  {
  }

  /**
   * When at least one request succeeds, each success is kept, each failure
   * leaves its result empty, the mobile tab is selected and the results
   * section is rendered with no error.
   */
  lemma SomeSucceeded(s: HomeState, mobile: AnalyzeResponse, desktop: AnalyzeResponse)
    requires mobile.Success? || desktop.Success?
    ensures var r := Settled(s, Responses(mobile, desktop));
      && r.mobileResults == (if mobile.Success? then Some(mobile.results) else None)
      && r.desktopResults == (if desktop.Success? then Some(desktop.results) else None)
      && r.activeTab == Mobile && r.error == "" && ResultsSectionRendered(r)
  {
  }

  /**
   * With only the desktop analysis, the page still selects the mobile tab:
   * no active result, the mobile button disabled, the desktop one enabled.
   */
  lemma OnlyDesktopSucceeded(s: HomeState, mobileError: ErrorText, desktop: AnalysisResults)
    ensures var r := Settled(s, Responses(Failure(mobileError), Success(desktop)));
      && ResultsSectionRendered(r) && ActiveResults(r) == None
      && TabDisabled(r, Mobile) && !TabDisabled(r, Desktop)
  {
  }

  /** An exception while fetching shows the fixed message and no results. */
  lemma FetchThrew(s: HomeState)
    ensures var r := Settled(s, Thrown);
      r.error == UnexpectedError && !ResultsSectionRendered(r)
  {
  }

  /** After an analysis the results section is rendered exactly when some request succeeded. */
  lemma RenderedIffSomeSuccess(s: HomeState, fetched: Fetched)
    ensures ResultsSectionRendered(Settled(s, fetched)) <==>
      fetched.Responses? && (fetched.mobile.Success? || fetched.desktop.Success?)
  {
  }
}
