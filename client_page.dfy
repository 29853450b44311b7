/**
  The page's visible state and the handlers of script.js that change it:
  analyzeFile, displayResults, showError, resetUpload, resetToUpload and
  toggleDetails. Each handler is a method of Page whose new state is given
  by a function on Screen values; the lemmas below are about those functions.
 */
module ClientPage {
  import opened Wrappers
  import opened ClientValidation
  import opened ClientRender

  const ViewLabel: string := "View detailed analysis"
  const HideLabel: string := "Hide detailed analysis"
  const GenericFailure: string := "Failed to analyze file"
  const AnalysisFailed: string := "Analysis failed"

  /**
    Everything the handlers write: the visibility of the upload section,
    the loading indicator, the error box and the results; the texts shown in
    them; the model rows; the detail panel and its toggle; and whether the
    file picker still holds a file.
   */
  datatype Screen = Screen(
    uploadShown: bool,
    loadingShown: bool,
    processingText: string,
    errorActive: bool,
    errorText: string,
    resultsShown: bool,
    badgeText: string,
    badgeClass: string,
    scorePercent: int,
    confidenceLabel: string,
    modelRows: seq<Row>,
    detailsExpanded: bool,
    toggleLabel: string,
    pickerHasFile: bool)

  /**
    How one request ended, as analyzeFile sees it: either something threw
    (the fetch, or the JSON parse of the body) with a message, or a reply
    arrived with its ok flag and its parsed body.
   */
  datatype Reply = Thrown(message: string) | Answered(ok: bool, body: ReplyBody)

  predicate Succeeded(reply: Reply) {
    reply.Answered? && reply.ok
  }

  /** The message shown after a failed request: the thrown message or the server's detail, with their fallbacks. */
  function FailureMessage(reply: Reply): (m: string)
    ensures m != ""
  {
    match reply
    case Thrown(message) => if message != "" then message else GenericFailure
    case Answered(_, body) => if Truthy(body.detail) then body.detail.value else AnalysisFailed
  }

  function ShowErrorOn(s: Screen, message: string): Screen {
    s.(errorText := message, errorActive := true)
  }

  function ResetToUploadOn(s: Screen): Screen {
    s.(uploadShown := true, loadingShown := false)
  }

  function ResetUploadOn(s: Screen): Screen {
    ResetToUploadOn(s.(pickerHasFile := false)).(resultsShown := false, errorActive := false,
                                                  detailsExpanded := false, toggleLabel := ViewLabel)
  }

  function ToggleOn(s: Screen): Screen {
    if s.detailsExpanded then s.(detailsExpanded := false, toggleLabel := ViewLabel)
    else s.(detailsExpanded := true, toggleLabel := HideLabel)
  }

  function DisplayOn(s: Screen, body: ReplyBody, fileType: string): Screen {
    var score := ScoreOf(body.score);
    s.(badgeText := BadgeText(score), badgeClass := BadgeClass(score), scorePercent := Percent(score),
       confidenceLabel := ConfidenceLabel(fileType),
       modelRows := if HasModels(body.models) then Rows(body.models.value) else s.modelRows,
       resultsShown := true)
  }

  function ProcessingOn(s: Screen, c: Category): Screen {
    s.(uploadShown := false, loadingShown := true, processingText := "Analyzing your " + CategoryName(c) + "...",
       errorActive := false, resultsShown := false)
  }

  /** The whole of analyzeFile on one file and one way the request can end. */
  function AnalyzeOn(s: Screen, f: FileInfo, reply: Reply): Screen {
    match Validate(f)
    case Failure(message) => ShowErrorOn(s, message)
    case Success(c) =>
      var p := ProcessingOn(s, c);
      var t := if Succeeded(reply) then DisplayOn(p, reply.body, CategoryName(c))
               else ResetToUploadOn(ShowErrorOn(p, FailureMessage(reply)));
      t.(loadingShown := false)
  }

  /** The toggle's label names the action it will take next. */
  predicate LabelMatches(s: Screen) {
    s.toggleLabel == if s.detailsExpanded then HideLabel else ViewLabel
  }

  /** The page elements, with the fields the handlers write. */
  class Page {
    var uploadShown: bool
    var loadingShown: bool
    var processingText: string
    var errorActive: bool
    var errorText: string
    var resultsShown: bool
    var badgeText: string
    var badgeClass: string
    var scorePercent: int
    var confidenceLabel: string
    var modelRows: seq<Row>
    var detailsExpanded: bool
    var toggleLabel: string
    var pickerHasFile: bool

    function Snapshot(): Screen
      reads this
    {
      Screen(uploadShown, loadingShown, processingText, errorActive, errorText, resultsShown,
             badgeText, badgeClass, scorePercent, confidenceLabel, modelRows,
             detailsExpanded, toggleLabel, pickerHasFile)
    }

    /** The page as its markup first shows it. */
    constructor (initial: Screen)
      ensures Snapshot() == initial
    {
      uploadShown, loadingShown, processingText := initial.uploadShown, initial.loadingShown, initial.processingText;
      errorActive, errorText, resultsShown := initial.errorActive, initial.errorText, initial.resultsShown;
      badgeText, badgeClass, scorePercent := initial.badgeText, initial.badgeClass, initial.scorePercent;
      confidenceLabel, modelRows := initial.confidenceLabel, initial.modelRows;
      detailsExpanded, toggleLabel, pickerHasFile := initial.detailsExpanded, initial.toggleLabel, initial.pickerHasFile;
    }

    /** showError: sets the error text and makes the error box active. */
    method ShowError(message: string)
      modifies this
      ensures errorActive && errorText == message
      ensures Snapshot() == ShowErrorOn(old(Snapshot()), message)
    {
      errorText := message;
      errorActive := true;
    }

    /** resetToUpload: shows the upload section and hides the loading indicator. */
    method ResetToUpload()
      modifies this
      ensures uploadShown && !loadingShown
      ensures Snapshot() == ResetToUploadOn(old(Snapshot()))
    {
      uploadShown := true;
      loadingShown := false;
    }

    /** resetUpload: clears the picker and returns to a fresh upload prompt. */
    method ResetUpload()
      modifies this
      ensures uploadShown && !loadingShown && !resultsShown && !errorActive
      ensures !detailsExpanded && toggleLabel == ViewLabel && !pickerHasFile
      ensures Snapshot() == ResetUploadOn(old(Snapshot()))
    {
      pickerHasFile := false;
      ResetToUpload();
      resultsShown := false;
      errorActive := false;
      detailsExpanded := false;
      toggleLabel := ViewLabel;
    }

    /** toggleDetails: expands or collapses the model panel and relabels its toggle. */
    method ToggleDetails()
      modifies this
      ensures detailsExpanded == !old(detailsExpanded)
      ensures LabelMatches(Snapshot())
      ensures Snapshot() == ToggleOn(old(Snapshot()))
    {
      if detailsExpanded {
        detailsExpanded := false;
        toggleLabel := ViewLabel;
      } else {
        detailsExpanded := true;
        toggleLabel := HideLabel;
      }
    }

    /** displayResults: writes the verdict, replaces the rows when models are present, shows the results. */
    method DisplayResults(body: ReplyBody, fileType: string)
      modifies this
      ensures resultsShown
      ensures HasModels(body.models) ==> |modelRows| == |body.models.value|
      ensures !HasModels(body.models) ==> modelRows == old(modelRows)
      ensures Snapshot() == DisplayOn(old(Snapshot()), body, fileType)
    {
      var score := ScoreOf(body.score);
      var percentage := Percent(score);
      badgeText := BadgeText(score);
      badgeClass := BadgeClass(score);
      scorePercent := percentage;
      confidenceLabel := ConfidenceLabel(fileType);
      if HasModels(body.models) {
        var rows := BuildRows(body.models.value);
        assert rows == Rows(body.models.value);
        modelRows := rows;
      }
      resultsShown := true;
    }

    /**
      analyzeFile: validates the file, and for an accepted one enters the
      processing state, issues the request and renders its result or its
      error; the loading indicator is hidden at the end in every case.
      `requested` tells whether the request was made.
     */
    method AnalyzeFile(file: FileInfo, reply: Reply) returns (requested: bool)
      modifies this
      ensures requested <==> Validate(file).Success?
      ensures Snapshot() == AnalyzeOn(old(Snapshot()), file, reply)
    {
      var category := Classify(file.mimeType, file.name);
      if category.None? {
        ShowError(UnsupportedMessage);
        return false;
      }
      var fileType := category.value;
      if file.size > MaxSize(fileType) {
        ShowError(TooLargeMessage(fileType));
        return false;
      }

      ghost var before := old(Snapshot());
      assert Validate(file) == Success(fileType);
      uploadShown := false;
      loadingShown := true;
      processingText := "Analyzing your " + CategoryName(fileType) + "...";
      errorActive := false;
      resultsShown := false;
      ghost var processing := Snapshot();
      assert processing == ProcessingOn(before, fileType);

      requested := true;
      if Succeeded(reply) {
        DisplayResults(reply.body, CategoryName(fileType));
      } else {
        ShowError(FailureMessage(reply));
        ResetToUpload();
      }
      assert Snapshot() == (if Succeeded(reply) then DisplayOn(processing, reply.body, CategoryName(fileType))
                            else ResetToUploadOn(ShowErrorOn(processing, FailureMessage(reply))));
      loadingShown := false;
    }
  }

  /** A refused file changes the error text and activates the error box, and nothing else. */
  lemma RejectedFileOnlyShowsError(s: Screen, f: FileInfo, reply: Reply)
    requires Validate(f).Failure?
    ensures var t := AnalyzeOn(s, f, reply);
            && t.errorActive
            && t.errorText == (if Classify(f.mimeType, f.name).None? then UnsupportedMessage
                               else "File size exceeds limit for " + CategoryName(Classify(f.mimeType, f.name).value) + " files")
            && t.(errorActive := s.errorActive, errorText := s.errorText) == s
  {
  }

  /**
    After any attempt on an accepted file the loading indicator is hidden;
    the results are shown, and the upload section and the error box hidden,
    exactly when the request succeeded; a failed request shows its message.
    The detail panel, its toggle and the picker are not touched.
   */
  lemma AttemptOutcome(s: Screen, f: FileInfo, reply: Reply)
    requires Validate(f).Success?
    ensures var t := AnalyzeOn(s, f, reply);
            && !t.loadingShown
            && t.resultsShown == Succeeded(reply)
            && t.uploadShown == !Succeeded(reply)
            && t.errorActive == !Succeeded(reply)
            && (!Succeeded(reply) ==> t.errorText == FailureMessage(reply))
            && (Succeeded(reply) ==> t.errorText == s.errorText)
            && t.processingText == "Analyzing your " + CategoryName(Validate(f).value) + "..."
            && t.detailsExpanded == s.detailsExpanded && t.toggleLabel == s.toggleLabel
            && t.pickerHasFile == s.pickerHasFile
  {
  }

  /** A successful request shows the verdict of its score and the label of the file's category. */
  lemma SuccessShowsVerdict(s: Screen, f: FileInfo, body: ReplyBody)
    requires Validate(f).Success?
    ensures var t := AnalyzeOn(s, f, Answered(true, body));
            && t.badgeText == (if ScoreOf(body.score) < 0.5 then "Authentic" else "AI Generated")
            && t.scorePercent == Percent(ScoreOf(body.score))
            && t.confidenceLabel == MediaTypeLabel(CategoryName(Validate(f).value)) + " Deepfake Probability"
            && (HasModels(body.models) ==> t.modelRows == Rows(body.models.value))
            && (!HasModels(body.models) ==> t.modelRows == s.modelRows)
  {
  }

  /** The error text after a failed reply: its detail when truthy, 'Analysis failed' otherwise; a throw shows its own message. */
  lemma FailureMessages(detail: string, other: ReplyBody)
    ensures FailureMessage(Answered(false, ReplyBody(Some("corrupt file"), None, None))) == "corrupt file"
    ensures detail != "" ==> FailureMessage(Answered(false, other.(detail := Some(detail)))) == detail
    ensures FailureMessage(Answered(false, other.(detail := None))) == AnalysisFailed
    ensures FailureMessage(Answered(false, other.(detail := Some("")))) == AnalysisFailed
    ensures detail != "" ==> FailureMessage(Thrown(detail)) == detail
    ensures FailureMessage(Thrown("")) == GenericFailure
  {
  }

  /** toggleDetails and resetUpload make the toggle's label agree with the panel, whatever it said before. */
  lemma LabelMatchesEstablished(s: Screen)
    ensures LabelMatches(ToggleOn(s))
    ensures LabelMatches(ResetUploadOn(s))
  {
  }

  /** The other handlers leave the panel and its label alone, so they keep the two in agreement. */
  lemma LabelMatchesPreserved(s: Screen, f: FileInfo, reply: Reply, message: string, body: ReplyBody, fileType: string)
    requires LabelMatches(s)
    ensures LabelMatches(AnalyzeOn(s, f, reply))
    ensures LabelMatches(ShowErrorOn(s, message))
    ensures LabelMatches(ResetToUploadOn(s))
    ensures LabelMatches(DisplayOn(s, body, fileType))
  {
  }

  /** Toggling twice gives back the state toggled, and the label reads 'Hide' exactly when expanded. */
  lemma ToggleTwice(s: Screen)
    requires LabelMatches(s)
    ensures ToggleOn(ToggleOn(s)) == s
    ensures ToggleOn(s).detailsExpanded == !s.detailsExpanded
    ensures ToggleOn(s).toggleLabel == HideLabel <==> ToggleOn(s).detailsExpanded
  {
  }

  /** Two screens look the same as far as a user can see. */
  predicate SameAppearance(a: Screen, b: Screen) {
    && a.uploadShown == b.uploadShown
    && a.loadingShown == b.loadingShown
    && a.errorActive == b.errorActive
    && (a.errorActive ==> a.errorText == b.errorText)
    && a.resultsShown == b.resultsShown
    && (a.resultsShown ==> a.badgeText == b.badgeText && a.badgeClass == b.badgeClass
                           && a.scorePercent == b.scorePercent && a.confidenceLabel == b.confidenceLabel)
    && a.detailsExpanded == b.detailsExpanded
    && a.toggleLabel == b.toggleLabel
    && a.pickerHasFile == b.pickerHasFile
  }

  /**
    After resetUpload, an attempt looks the same whatever happened before:
    no earlier error, verdict, expanded panel or label shows through.
    The model rows are the exception, as StaleRowsSurviveReset shows.
   */
  lemma ResetForgetsHistory(s1: Screen, s2: Screen, f: FileInfo, reply: Reply)
    ensures SameAppearance(AnalyzeOn(ResetUploadOn(s1), f, reply), AnalyzeOn(ResetUploadOn(s2), f, reply))
  {
  }

  /**
    Rows from an earlier result outlive resetUpload: a successful reply
    without models leaves them in the panel, so expanding it shows them.
   */
  lemma StaleRowsSurviveReset(s: Screen, f: FileInfo, score: Option<real>)
    requires Validate(f).Success?
    ensures var t := AnalyzeOn(ResetUploadOn(s), f, Answered(true, ReplyBody(None, score, None)));
            && t.modelRows == s.modelRows
            && t.resultsShown
            && ToggleOn(t).detailsExpanded
  {
  }
}
