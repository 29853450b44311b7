/**
  How the page turns an analysis reply into what it shows (script.js,
  displayResults): the verdict from the 0.5 threshold, the badge, the
  rounded percentage, the headline label and one row per detection model.
 */
module ClientRender {
  import opened Wrappers

  /**
    One constituent model's verdict as the reply carries it. An absent or
    null score or status is None, and so is a score of 0; an empty status
    string is kept as Some(""), which Truthy treats as falsy.
   */
  datatype ModelVerdict = ModelVerdict(name: string, score: Option<real>, status: Option<string>)

  /** The parsed JSON body of a reply: the error detail, the overall score and the per-model list. */
  datatype ReplyBody = ReplyBody(detail: Option<string>, score: Option<real>, models: Option<seq<ModelVerdict>>)

  /** One rendered model row: name, status text, status class and percentage. */
  datatype Row = Row(name: string, statusText: string, statusClass: string, percent: int)

  /** `x || 0` for a score: a missing or falsy score reads as 0. */
  function ScoreOf(score: Option<real>): real {
    match score
    case Some(x) => x
    case None => 0.0
  }

  /** JavaScript truthiness of an optional string: present and non-empty. */
  predicate Truthy(s: Option<string>) {
    s.Some? && s.value != ""
  }

  predicate IsAuthentic(score: real) {
    score < 0.5
  }

  /**
    Math.round(score * 100) over the reals: the integer nearest to
    100 * score, halves rounded up.
   */
  function Percent(score: real): (p: int)
    ensures score * 100.0 - 0.5 < p as real <= score * 100.0 + 0.5
  {
    (score * 100.0 + 0.5).Floor
  }

  function BadgeText(score: real): string {
    if IsAuthentic(score) then "Authentic" else "AI Generated"
  }

  function BadgeClass(score: real): string {
    "result-badge " + (if IsAuthentic(score) then "authentic" else "not-authentic")
  }

  /** Human-readable form of the file type, 'Media' for any other value. */
  function MediaTypeLabel(fileType: string): string {
    if fileType == "image" then "Image"
    else if fileType == "video" then "Video"
    else if fileType == "audio" then "Audio"
    else if fileType == "text" then "Text"
    else "Media"
  }

  function ConfidenceLabel(fileType: string): string {
    MediaTypeLabel(fileType) + " Deepfake Probability"
  }

  function StatusClass(score: real): string {
    if IsAuthentic(score) then "authentic" else "manipulated"
  }

  function DerivedStatus(score: real): string {
    if IsAuthentic(score) then "AUTHENTIC" else "MANIPULATED"
  }

  /** The row for one model: the server's status text when truthy, otherwise one derived from the score. */
  function RowOf(m: ModelVerdict): Row {
    var score := ScoreOf(m.score);
    Row(m.name, if Truthy(m.status) then m.status.value else DerivedStatus(score), StatusClass(score), Percent(score))
  }

  /** The model list is replaced only when it is present and non-empty. */
  predicate HasModels(models: Option<seq<ModelVerdict>>) {
    models.Some? && |models.value| > 0
  }

  /** The rows for a model list, one per model, in the list's order. */
  function Rows(models: seq<ModelVerdict>): seq<Row> {
    seq(|models|, i requires 0 <= i < |models| => RowOf(models[i]))
  }

  /** The forEach loop of displayResults, appending one row per model. */
  method BuildRows(models: seq<ModelVerdict>) returns (rows: seq<Row>)
    ensures |rows| == |models|
    ensures forall k :: 0 <= k < |models| ==> rows[k] == RowOf(models[k])
  {
    rows := [];
    for i := 0 to |models|
      invariant |rows| == i
      invariant forall k :: 0 <= k < i ==> rows[k] == RowOf(models[k])
    {
      rows := rows + [RowOf(models[i])];
    }
  }

  /** For a score in [0, 1] the percentage lies in [0, 100]. */
  lemma PercentInRange(score: real)
    requires 0.0 <= score <= 1.0
    ensures 0 <= Percent(score) <= 100
  {
  }

  /**
    The verdict and the rounded percentage never contradict each other:
    an authentic verdict shows at most 50%, an AI-generated one at least 50%.
   */
  lemma VerdictAgreesWithPercent(score: real)
    ensures IsAuthentic(score) ==> Percent(score) <= 50
    ensures !IsAuthentic(score) ==> Percent(score) >= 50
  {
  }

  /** Rounding examples, among them a score shown as 50% with an 'Authentic' badge. */
  lemma PercentExamples()
    ensures Percent(0.0) == 0 && Percent(0.5) == 50 && Percent(0.999) == 100 && Percent(1.0) == 100
    ensures Percent(0.82) == 82
    ensures Percent(0.497) == 50 && BadgeText(0.497) == "Authentic"
  {
  }

  /** A missing score reads as 0, which is authentic and 0%. */
  lemma MissingScoreIsAuthentic()
    ensures BadgeText(ScoreOf(None)) == "Authentic" && BadgeClass(ScoreOf(None)) == "result-badge authentic"
    ensures Percent(ScoreOf(None)) == 0
  {
  }

  /**
    A row's status text is the server's status exactly when that status is
    truthy; its class and percentage always come from the score.
   */
  lemma RowStatusSources(m: ModelVerdict)
    ensures Truthy(m.status) ==> RowOf(m).statusText == m.status.value
    ensures !Truthy(m.status) ==> RowOf(m).statusText == (if ScoreOf(m.score) < 0.5 then "AUTHENTIC" else "MANIPULATED")
    ensures RowOf(m).statusClass == (if ScoreOf(m.score) < 0.5 then "authentic" else "manipulated")
    ensures RowOf(m).name == m.name && RowOf(m).percent == Percent(ScoreOf(m.score))
  {
  }

  /** The rows follow the model list: same length, i-th row from the i-th model, so no reordering. */
  lemma RowsFollowModels(models: seq<ModelVerdict>, i: nat)
    requires i < |models|
    ensures |Rows(models)| == |models|
    ensures Rows(models)[i] == RowOf(models[i])
  {
  }

  /**
    A reply with a score of 0.82 and two models, M1 at 0.9 without status
    and M2 at 0.3 with status CLEAN, renders as an AI-generated 82% with
    rows M1 MANIPULATED 90% and M2 CLEAN 30%, in that order.
   */
  lemma TwoModelExample()
    ensures var models := [ModelVerdict("M1", Some(0.9), None), ModelVerdict("M2", Some(0.3), Some("CLEAN"))];
            && BadgeText(0.82) == "AI Generated"
            && Percent(0.82) == 82
            && Rows(models) == [Row("M1", "MANIPULATED", "manipulated", 90), Row("M2", "CLEAN", "authentic", 30)]
  {
  }
}
