# AI detector: upload checks, verdict rendering and the analyze endpoint

The AI detector is a web page that sends an image, video, audio or text file
to a server. The server passes the file to a deepfake detection library and
returns a score. The page then shows a verdict. This project models and proves
the logic on both sides of that exchange:

- **The page's acceptance rules** (`ClientValidation`, from `script.js`).
  A file's MIME type, and for audio and text the end of its name, gives its
  category. The checks run in the order image, video, audio, text. Each
  category has a byte ceiling, and only a size strictly above it is refused.
- **The page's rendering** (`ClientRender`, from `script.js`). A score
  becomes a verdict (authentic iff the score is below 0.5), a badge, a rounded
  percentage and a label. The per-model list becomes rows in the list's order.
- **The page's state** (`ClientPage`, from `script.js`). A `Page` class holds
  the visibility flags and texts. Its handlers `AnalyzeFile`, `DisplayResults`,
  `ShowError`, `ResetUpload`, `ResetToUpload` and `ToggleDetails` change them.
  Each handler's new state is given by a function on `Screen` values, and the
  lemmas are proved about those functions.
- **The server's analyze endpoint** (`ServerAnalyze`, from `app.py`). The
  extension is taken as POSIX `os.path.splitext` takes it, then lower-cased.
  The file type is the first of image, video, audio whose list holds the
  extension. The size guard follows. The detection library's result is
  projected into the reply, with defaults for absent keys. Exceptions map to
  HTTP errors.
- **Client against server** (`ClientServerAgreement`). Both sides use the
  same ceilings. A file `notes.txt` of type text/plain and at most 5 MiB
  passes the page's checks, but the server refuses it. A file `SONG.M4A`
  whose MIME type is in none of the page's lists (here the empty type) is
  refused by the page, whose suffix test is case-sensitive, but admitted by
  the server up to 20 MiB.

The network reply is an input to the page model (`Reply`: a thrown message,
or an ok flag with a parsed body). On the server, the detection library's
behaviour is an input (`Upstream`: what each call returns or raises), and so
is the file's size.

Two behaviours of the page worth knowing:
- A non-ok reply without a detail shows 'Analysis failed'. The generic
  'Failed to analyze file' appears only when a thrown error has an empty
  message.
- `resetUpload` does not clear the model rows. A later successful reply
  without models leaves the old rows in the panel
  (`ClientPage.StaleRowsSurviveReset`). Everything else that is visible does
  start afresh (`ClientPage.ResetForgetsHistory`).

## Model

| member | source | states |
|---|---|---|
| ClientValidation.Classify | script.js:54-69 | The result is None iff no category accepts the file. Otherwise the category accepts it and no category checked earlier does. |
| ClientValidation.Validate | script.js:54-74 | The unsupported message appears iff no category accepts the file. Success holds iff the file is classified and its size is at most that category's ceiling. Any other failure is the too-large message of the classified category, whose ceiling the size exceeds. |
| ClientValidation.ImageMimeWins | script.js:46-56 | A MIME type in the image list gives Image whatever the name, and the file is accepted iff its size is at most 50 MiB. |
| ClientValidation.PrecedenceExamples | script.js:46-65 | audio/mp4 is audio and video/mp4 is video even with an .m4a name. image/png named .txt is an image. A .m4a, .alac or .txt name with an unknown MIME type gives audio, audio and text. |
| ClientValidation.SuffixIsCaseSensitive | script.js:60-69 | With an unknown MIME type, the names SONG.M4A and NOTES.TXT are refused with the unsupported message. |
| ClientValidation.SizeCeilingIsInclusive | script.js:71-74 | A size equal to the ceiling is accepted. One byte more gives "File size exceeds limit for {type} files". |
| ClientValidation.PlainTextAccepted | script.js:49-65 | text/plain named notes.txt is text and is accepted up to 5 MiB. |
| ClientRender.Percent | script.js:110 | The result is the integer nearest to 100 times the score, with halves rounded up. |
| ClientRender.BuildRows | script.js:133-148 | One row per model, and the k-th row is built from the k-th model. |
| ClientRender.PercentInRange | script.js:110 | A score in [0, 1] gives a percentage in [0, 100]. |
| ClientRender.VerdictAgreesWithPercent | script.js:110-113 | An authentic verdict never shows more than 50%. An AI-generated verdict never shows less than 50%. |
| ClientRender.PercentExamples | script.js:110-123 | 0, 0.5, 0.999 and 1 give 0, 50, 100 and 100 percent. 0.82 gives 82. A score of 0.497 shows 50% with an 'Authentic' badge. |
| ClientRender.MissingScoreIsAuthentic | script.js:109-125 | A missing score reads as 0. That is authentic, class 'result-badge authentic', and 0%. |
| ClientRender.RowStatusSources | script.js:134-137 | The status text is the server's status iff that status is truthy, otherwise AUTHENTIC or MANIPULATED from score < 0.5. The class always comes from the score. |
| ClientRender.RowsFollowModels | script.js:129-148 | The rows have the models' length, and row i is built from model i. |
| ClientRender.TwoModelExample | script.js:108-148 | Score 0.82 with M1 (0.9, no status) and M2 (0.3, CLEAN) gives 'AI Generated', 82%, then rows M1 MANIPULATED 90% and M2 CLEAN 30%, in that order. |
| ClientPage.FailureMessage | script.js:94-101 | The message shown after a failed request is never empty. |
| ClientPage.Page.ShowError | script.js:154-157 | The error box is active with the given text. Nothing else changes. |
| ClientPage.Page.ResetToUpload | script.js:168-171 | The upload section is shown and loading is hidden. Nothing else changes. |
| ClientPage.Page.ResetUpload | script.js:159-166 | The picker is cleared. Upload is shown. Loading, results and error are hidden. The panel is collapsed with the label 'View detailed analysis'. Nothing else changes. |
| ClientPage.Page.ToggleDetails | script.js:173-184 | The panel's expanded flag flips and the label matches it. Nothing else changes. |
| ClientPage.Page.DisplayResults | script.js:108-152 | Writes the badge, class, percentage and label. Replaces the rows only when models are present and non-empty, otherwise keeps the old rows. Shows the results. |
| ClientPage.Page.AnalyzeFile | script.js:44-106 | A request is made iff the file passes validation. The new state is the one given by AnalyzeOn. |
| ClientPage.RejectedFileOnlyShowsError | script.js:66-74 | A refused file sets the unsupported or too-large message, activates the error box and changes nothing else. |
| ClientPage.AttemptOutcome | script.js:76-105 | After an accepted file, loading is hidden. Results are shown iff the reply succeeded. Upload and error are shown iff it failed, and the error text is then the failure message. The panel, label and picker are untouched. |
| ClientPage.SuccessShowsVerdict | script.js:98-151 | On success the badge follows score < 0.5, the percentage and the category's label are shown, and the rows are replaced only when models are present. |
| ClientPage.FailureMessages | script.js:94-101 | Any non-empty detail of a non-ok reply is shown exactly. An absent or empty detail gives 'Analysis failed'. A thrown message is shown as it is, or 'Failed to analyze file' when it is empty. |
| ClientPage.LabelMatchesEstablished | script.js:159-184 | After toggleDetails or resetUpload, the label reads 'Hide' iff the panel is expanded. |
| ClientPage.LabelMatchesPreserved | script.js:44-157 | analyzeFile, showError, resetToUpload and displayResults keep that agreement. |
| ClientPage.ToggleTwice | script.js:173-184 | Two toggles restore the state. One toggle flips the expanded flag, and the label reads 'Hide' iff expanded. |
| ClientPage.ResetForgetsHistory | script.js:44-166 | After resetUpload, an attempt shows the same flags, error text, verdict, panel and label whatever the earlier state. |
| ClientPage.StaleRowsSurviveReset | script.js:129-166 | After resetUpload and a successful reply without models, the earlier rows remain, and expanding the panel shows them. |
| ServerAnalyze.LastIndexOf | app.py:51 | The result is the last index holding the character, or -1 when none does. |
| ServerAnalyze.SplitExt | app.py:51 | The two parts concatenate to the path. A non-empty extension is a dot followed by no dot or slash, and its stem has a non-dot in the last component. An empty extension means every dot of the last component has only dots before it in that component. |
| ServerAnalyze.Lower | app.py:51 | The length is kept, no upper-case ASCII letter remains, and other characters are unchanged. |
| ServerAnalyze.FileTypeOf | app.py:67-72 | The loop returns the first match. A found type's list holds the extension. None is returned iff no list does. |
| ServerAnalyze.Admit | app.py:51-84 | An admitted file's extension is in its type's list and its size is within the limit. The unsupported-type 400 is returned iff no list holds the extension. When type t's list holds it, a size above t's limit gets 400 "File size exceeds {n}.0MB limit for {type} files" and any other size is admitted as t. |
| ServerAnalyze.ProjectModels | app.py:110-117 | Success iff every entry is a dict. Then the output has the same length and order, with entry i projected from item i. Otherwise the first non-dict entry raises "'{type}' object has no attribute 'get'". |
| ServerAnalyze.ModelsFrom | app.py:116 | A list is projected entry by entry. None, bool, int or float raises "'{type}' object is not iterable". An empty string or dict gives no models. A non-empty one raises "'str' object has no attribute 'get'". |
| ServerAnalyze.Surface | app.py:127-130 | An HTTPException keeps its status and detail. Any other exception becomes a 500 with its text. |
| ServerAnalyze.Respond | app.py:107-121 | A reply is built iff the models value can be iterated and projected, and otherwise that error is raised. The reply has exactly six keys. status, score and media_id default only when absent. request_id and file_type are filled in. models is the projected list. |
| ServerAnalyze.Consult | app.py:94-104 | The first step that raises gives the outcome: upload's exception, KeyError "'request_id'" when request_id is missing, then get_result's exception, then cleanup's. When none raises, the outcome is the built reply. Success holds iff upload and get_result return, request_id is present, cleanup does not raise and the reply can be built, and then it is that reply. |
| ServerAnalyze.Handle | app.py:49-130 | A file refused by the type or size check gets a 400 carrying the check's own detail. Otherwise the endpoint succeeds iff the library calls succeed, with their reply, and fails with their exception surfaced. |
| ServerAnalyze.AnalyzeImage | app.py:43-130 | The reply is the one Handle gives. The library is contacted iff the file passes the type and size checks. |
| ServerAnalyze.LastIndexOfIs | app.py:51 | A position holding the character, with none after it, is what rfind returns. |
| ServerAnalyze.ExtensionsAreDotted | app.py:55-59 | Every allowed extension starts with a dot and has at least three characters. |
| ServerAnalyze.SplitExtExamples | app.py:51 | photo.JPG gives .JPG, archive.tar.gz gives .gz and x..mp4 gives .mp4. .txt, ..mp4, dir.v2/notes and notes give an empty extension. |
| ServerAnalyze.UpperCaseExtensionAdmitted | app.py:51-72 | photo.JPG has extension .jpg and is admitted as an image up to 50 MiB. |
| ServerAnalyze.UpperCaseAudioAdmitted | app.py:51-72 | SONG.M4A has extension .m4a and is admitted as audio up to 20 MiB. |
| ServerAnalyze.TextIsUnsupported | app.py:55-75 | notes.txt gets 400 "Unsupported file type: .txt" whatever its size and whatever the library would do. |
| ServerAnalyze.NoExtensionIsUnsupported | app.py:51-75 | A name without an extension gets 400 "Unsupported file type: ". |
| ServerAnalyze.SizeCeilingIsInclusive | app.py:61-84 | A size equal to the limit is admitted. One byte more gets 400 "File size exceeds {n}.0MB limit for {type} files". |
| ServerAnalyze.RefusalPrecedesUpstream | app.py:74-97 | A refused file gets the same 400 whatever the library would do. |
| ServerAnalyze.ExceptionsSurface | app.py:97-130 | An HTTPException raised by upload, get_result or cleanup passes unchanged. Any other exception becomes a 500 with its text. A missing request_id becomes a 500 "'request_id'". |
| ServerAnalyze.ResponseShape | app.py:107-121 | The reply has exactly six keys. status, score and media_id default only when absent. request_id and file_type are filled in. models keeps the count and order. |
| ServerAnalyze.ModelDefaults | app.py:111-115 | Each model has name, status and score, defaulting to 'Unknown Model', 'unknown' and 0 only when absent. A present null is kept. |
| ServerAnalyze.BadModelsBecome500 | app.py:116-130 | A models value of None, bool, int or float makes the request a 500 with Python's "not iterable" message. |
| ServerAnalyze.FirstMatchUnfolded | app.py:67-72 | The first match checks the image list, then video, then audio. |
| ServerAnalyze.ListsAreDisjoint | app.py:55-59 | No extension is in two lists. |
| ServerAnalyze.FirstMatchFindsTheList | app.py:55-72 | The first match is type t iff t's list holds the extension. It is None iff no list does. |
| ClientServerAgreement.SameCeilings | app.py:61-65 | The server's limits for image, video and audio equal the page's. |
| ClientServerAgreement.TextPassesClientOnly | app.py:55-75 | notes.txt of type text/plain and at most 5 MiB passes the page's checks, and the server then refuses it with 400 "Unsupported file type: .txt". |
| ClientServerAgreement.UpperCaseSuffixRefusedByClientOnly | script.js:60-69 | SONG.M4A with the empty MIME type, which is in no list, is refused by the page. The server admits it as audio up to 20 MiB. |

## Left out

- Browser wiring (script.js:1-42) is not modelled: DOM lookups, the change, click and drop listeners, the drag-over class, `fileInput.click()` and the assignment to `fileInput.files`. These are event plumbing with no data consequence.
- Requests and bodies are not modelled: `fetch`, `FormData` and `response.json()` are network I/O. The model takes their outcome as a `Reply`. A fetch rejection and a failed JSON parse are both `Thrown` with their message.
- The HTML of each row and the panel header are not modelled. A row is a record of name, status text, status class and percentage. The score is kept as the integer the page prints before '%'.
- ClientRender.Percent: computed on reals, not IEEE doubles, so rounding near halves may differ from `Math.round` on floating point.
- JavaScript coercions outside the reply's intended types are not modelled: a string or boolean score, a non-string status or detail, a missing model name (printed as 'undefined'), a `models` value that is not an array, and a null body (a TypeError caught by the same handler). Falsy scores, statuses and details collapse to `None`, and an empty status or detail is treated as falsy.
- ClientRender.MediaTypeLabel: object-prototype keys such as 'toString' are not modelled. The file type always comes from the classifier.
- The page's first state comes from index.html, which is not part of this model. The `Page` constructor takes the initial screen as a parameter.
- Overlapping submissions are not modelled. Nothing guards against a second file while a request is in flight, and the point would be concurrency.
- FastAPI plumbing is not modelled (app.py:14-41, 132-134): routing, CORS, static files, serving index.html, `uvicorn.run`, `nest_asyncio` and `dotenv`.
- The detection library (upload, polling get_result, cleanup) is an opaque third-party client. Its behaviour is the `Upstream` input. Its two replies are taken to be dictionaries, as the library returns them.
- File I/O is not modelled: the temporary file, its write, `seek`/`tell` and `os.unlink`. The size is an input. An exception raised by `os.unlink` itself is not modelled.
- A missing filename (`None`, a TypeError in splitext) is not modelled. Neither is the unused `content_type`.
- ServerAnalyze.Lower: only ASCII letters are lower-cased. Python's full Unicode case mapping is not modelled.
- ServerAnalyze.SplitExt: POSIX path rules only. The Windows alternative separator is not modelled.
- ServerAnalyze.LimitText: the limit is given as the text Python prints for the float quotient (50.0, 250.0, 20.0), not computed by float formatting.
