/**
  The checks and the reply of the server's analyze endpoint (app.py,
  analyze_image): the file's extension taken as os.path.splitext takes it
  and lower-cased, the first file type whose extension list holds it, the
  size ceiling of that type, the projection of the upstream detector's
  result into the reply, and the mapping of exceptions to HTTP errors.
 */
module ServerAnalyze {
  import opened Wrappers

  datatype FileType = Image | Video | Audio

  /** A JSON-like Python value, as the upstream detector returns them. */
  datatype PyValue =
    | Null
    | Bool(b: bool)
    | Int(i: int)
    | Float(f: real)
    | Str(s: string)
    | List(items: seq<PyValue>)
    | Dict(entries: map<string, PyValue>)

  /**
    A raised Python exception: FastAPI's HTTPException with its status and
    detail, or any other exception, kept as its string form str(e).
   */
  datatype Exception = HttpException(status: int, detail: string) | OtherException(text: string)

  /** The error response the endpoint answers with. */
  datatype HttpError = HttpError(status: int, detail: string)

  /** How one call into the detection library ended. */
  datatype Step<T> = Returned(value: T) | Raised(exc: Exception)

  /**
    The detection library's behaviour for one request: what upload returns
    or raises, what get_result returns or raises, and whether cleanup raises.
   */
  datatype Upstream = Upstream(upload: Step<map<string, PyValue>>, result: Step<map<string, PyValue>>, cleanup: Option<Exception>)

  const MiB: nat := 1024 * 1024

  function TypeName(t: FileType): string {
    match t
    case Image => "image"
    case Video => "video"
    case Audio => "audio"
  }

  function SizeLimit(t: FileType): nat {
    match t
    case Image => 50 * MiB
    case Video => 250 * MiB
    case Audio => 20 * MiB
  }

  /** The limit in MiB as Python prints the float quotient limit / (1024 * 1024). */
  function LimitText(t: FileType): string {
    match t
    case Image => "50.0"
    case Video => "250.0"
    case Audio => "20.0"
  }

  /** The allowed extensions, in the dictionary's insertion order. */
  const AllowedExtensions: seq<(FileType, seq<string>)> := [
    (Image, [".jpg", ".jpeg", ".png", ".gif", ".webp"]),
    (Video, [".mp4", ".mov"]),
    (Audio, [".flac", ".wav", ".mp3", ".m4a", ".aac", ".alac", ".ogg"])
  ]

  function Extensions(t: FileType): seq<string> {
    match t
    case Image => AllowedExtensions[0].1
    case Video => AllowedExtensions[1].1
    case Audio => AllowedExtensions[2].1
  }

  /** str.rfind for one character: the last index holding c, or -1. */
  function LastIndexOf(s: string, c: char): (r: int)
    ensures -1 <= r < |s|
    ensures r >= 0 ==> s[r] == c
    ensures forall k :: r < k < |s| ==> s[k] != c
  {
    if |s| == 0 then -1
    else if s[|s| - 1] == c then |s| - 1
    else LastIndexOf(s[..|s| - 1], c)
  }

  /**
    POSIX os.path.splitext: the extension runs from the last '.' to the end,
    provided that dot lies in the last path component and something other
    than a dot precedes it in that component; otherwise it is empty.
   */
  function SplitExt(p: string): (parts: (string, string))
    ensures parts.0 + parts.1 == p
    ensures parts.1 != "" ==> parts.1[0] == '.' && forall k :: 1 <= k < |parts.1| ==> parts.1[k] != '.' && parts.1[k] != '/'
    ensures parts.1 != "" ==> exists k :: 0 <= k < |parts.0| && parts.0[k] != '.' && forall j :: k <= j < |parts.0| ==> parts.0[j] != '/'
    ensures parts.1 == "" ==> forall d :: 0 <= d < |p| && p[d] == '.' && (forall j :: d < j < |p| ==> p[j] != '/') ==>
                                  forall k :: 0 <= k < d && (forall j :: k <= j < d ==> p[j] != '/') ==> p[k] == '.'
  {
    var sepIndex := LastIndexOf(p, '/');
    var dotIndex := LastIndexOf(p, '.');
    if dotIndex > sepIndex && exists k :: sepIndex < k < dotIndex && p[k] != '.' then
      (p[..dotIndex], p[dotIndex..])
    else
      (p, "")
  }

  /** str.lower on ASCII letters: upper-case letters become lower-case, every other character stays. */
  function Lower(s: string): (r: string)
    ensures |r| == |s|
    ensures forall i :: 0 <= i < |s| ==> !('A' <= r[i] <= 'Z')
    ensures forall i :: 0 <= i < |s| && !('A' <= s[i] <= 'Z') ==> r[i] == s[i]
    ensures forall i :: 0 <= i < |s| && 'A' <= s[i] <= 'Z' ==> r[i] as int == s[i] as int + 32
  {
    seq(|s|, i requires 0 <= i < |s| => if 'A' <= s[i] <= 'Z' then (s[i] as int + 32) as char else s[i])
  }

  function ExtensionOf(filename: string): string {
    Lower(SplitExt(filename).1)
  }

  /** The file type of the first entry of a table whose list holds the extension. */
  function FirstMatch(table: seq<(FileType, seq<string>)>, ext: string): Option<FileType> {
    if table == [] then None
    else if ext in table[0].1 then Some(table[0].0)
    else FirstMatch(table[1..], ext)
  }

  /** The for loop over the allowed extensions that stops at the first list holding the extension. */
  method FileTypeOf(ext: string) returns (fileType: Option<FileType>)
    ensures fileType == FirstMatch(AllowedExtensions, ext)
    ensures fileType.Some? ==> ext in Extensions(fileType.value)
    ensures fileType.None? <==> forall t :: ext !in Extensions(t)
  {
    fileType := None;
    var i := 0;
    while i < |AllowedExtensions|
      invariant 0 <= i <= |AllowedExtensions|
      invariant FirstMatch(AllowedExtensions[i..], ext) == FirstMatch(AllowedExtensions, ext)
      invariant forall j :: 0 <= j < i ==> ext !in AllowedExtensions[j].1
    {
      var (t, exts) := AllowedExtensions[i];
      if ext in exts {
        fileType := Some(t);
        break;
      }
      i := i + 1;
    }
    assert fileType.Some? ==> ext in Extensions(fileType.value);
    if fileType.None? {
      assert forall t :: ext !in Extensions(t);
    }
  }

  function SizeMessage(t: FileType): string {
    "File size exceeds " + LimitText(t) + "MB limit for " + TypeName(t) + " files"
  }

  /** The two guards before anything is written or uploaded: the file type, then the size. */
  function Admit(filename: string, size: nat): (r: Result<FileType, Exception>)
    ensures r.Success? ==> ExtensionOf(filename) in Extensions(r.value) && size <= SizeLimit(r.value)
    ensures (r == Failure(HttpException(400, "Unsupported file type: " + ExtensionOf(filename))))
              <==> (forall t :: ExtensionOf(filename) !in Extensions(t))
    ensures forall t :: ExtensionOf(filename) in Extensions(t) ==>
              r == (if size > SizeLimit(t) then Failure(HttpException(400, SizeMessage(t))) else Success(t))
  {
    var ext := ExtensionOf(filename);
    FirstMatchFindsTheList(ext);
    match FirstMatch(AllowedExtensions, ext)
    case None => Failure(HttpException(400, "Unsupported file type: " + ext))
    case Some(t) =>
      if size > SizeLimit(t) then
        assert SizeMessage(t)[0] != ("Unsupported file type: " + ext)[0];
        Failure(HttpException(400, SizeMessage(t)))
      else Success(t)
  }

  /** dict.get(key, default). */
  function Get(m: map<string, PyValue>, key: string, default: PyValue): PyValue {
    if key in m then m[key] else default
  }

  /** Python's name for the type of a value, as it appears in TypeError and AttributeError messages. */
  function PyTypeName(v: PyValue): string {
    match v
    case Null => "NoneType"
    case Bool(_) => "bool"
    case Int(_) => "int"
    case Float(_) => "float"
    case Str(_) => "str"
    case List(_) => "list"
    case Dict(_) => "dict"
  }

  function NoGetMessage(typeName: string): string {
    "'" + typeName + "' object has no attribute 'get'"
  }

  /** One entry of the reply's model list, with its defaults. */
  function ProjectModel(m: map<string, PyValue>): PyValue {
    Dict(map["name" := Get(m, "name", Str("Unknown Model")),
             "status" := Get(m, "status", Str("unknown")),
             "score" := Get(m, "score", Int(0))])
  }

  /**
    The list comprehension over a list of upstream models: one entry per
    model, in order; the first entry that is not a dict raises AttributeError.
   */
  function ProjectModels(items: seq<PyValue>): (r: Result<seq<PyValue>, Exception>)
    ensures r.Success? <==> forall i :: 0 <= i < |items| ==> items[i].Dict?
    ensures r.Success? ==> |r.value| == |items| && forall i :: 0 <= i < |items| ==> r.value[i] == ProjectModel(items[i].entries)
    ensures r.Failure? ==> exists i :: 0 <= i < |items| && !items[i].Dict? && (forall j :: 0 <= j < i ==> items[j].Dict?)
                                       && r.error == OtherException(NoGetMessage(PyTypeName(items[i])))
  {
    if items == [] then Success([])
    else if !items[0].Dict? then Failure(OtherException(NoGetMessage(PyTypeName(items[0]))))
    else
      match ProjectModels(items[1..])
      case Failure(e) =>
        assert forall i :: 1 <= i < |items| ==> items[i] == items[1..][i - 1];
        Failure(e)
      case Success(rest) =>
        assert forall i :: 1 <= i < |items| ==> items[i] == items[1..][i - 1];
        Success([ProjectModel(items[0].entries)] + rest)
  }

  /**
    Iterating over whatever result.get("models", []) gave: a list is
    projected entry by entry; an empty string or dict yields nothing; a
    non-empty one yields strings, which have no get; anything else is not
    iterable.
   */
  function ModelsFrom(v: PyValue): (r: Result<seq<PyValue>, Exception>)
    ensures v.List? ==> r == ProjectModels(v.items)
    ensures (v.Null? || v.Bool? || v.Int? || v.Float?) ==> r == Failure(OtherException("'" + PyTypeName(v) + "' object is not iterable"))
    ensures v.Str? ==> r == (if v.s == "" then Success([]) else Failure(OtherException(NoGetMessage("str"))))
    ensures v.Dict? ==> r == (if v.entries == map[] then Success([]) else Failure(OtherException(NoGetMessage("str"))))
  {
    match v
    case List(items) => ProjectModels(items)
    case Str(s) => if s == "" then Success([]) else Failure(OtherException(NoGetMessage("str")))
    case Dict(m) => if m == map[] then Success([]) else Failure(OtherException(NoGetMessage("str")))
    case _ => Failure(OtherException("'" + PyTypeName(v) + "' object is not iterable"))
  }

  /** The dictionary the endpoint returns, built from the upload reply and the detection result. */
  function Respond(upload: map<string, PyValue>, result: map<string, PyValue>, t: FileType): (r: Result<PyValue, Exception>)
    requires "request_id" in upload
    ensures r.Failure? <==> ModelsFrom(Get(result, "models", List([]))).Failure?
    ensures r.Failure? ==> r.error == ModelsFrom(Get(result, "models", List([]))).error
    ensures r.Success? ==> r.value.Dict? && r.value.entries.Keys == {"status", "score", "models", "media_id", "request_id", "file_type"}
    ensures r.Success? ==> r.value.entries["status"] == (if "status" in result then result["status"] else Str("unknown"))
    ensures r.Success? ==> r.value.entries["score"] == (if "score" in result then result["score"] else Int(0))
    ensures r.Success? ==> r.value.entries["media_id"] == (if "media_id" in upload then upload["media_id"] else Str(""))
    ensures r.Success? ==> r.value.entries["request_id"] == upload["request_id"] && r.value.entries["file_type"] == Str(TypeName(t))
    ensures r.Success? ==> r.value.entries["models"] == List(ModelsFrom(Get(result, "models", List([]))).value)
  {
    match ModelsFrom(Get(result, "models", List([])))
    case Failure(e) => Failure(e)
    case Success(models) =>
      Success(Dict(map["status" := Get(result, "status", Str("unknown")),
                       "score" := Get(result, "score", Int(0)),
                       "models" := List(models),
                       "media_id" := Get(upload, "media_id", Str("")),
                       "request_id" := upload["request_id"],
                       "file_type" := Str(TypeName(t))]))
  }

  /**
    The calls into the detection library in order: upload, the request_id
    lookup (a KeyError when missing), get_result, cleanup, then the reply.
   */
  function Consult(u: Upstream, t: FileType): (r: Result<PyValue, Exception>)
    ensures u.upload.Raised? ==> r == Failure(u.upload.exc)
    ensures u.upload.Returned? && "request_id" !in u.upload.value ==> r == Failure(OtherException("'request_id'"))
    ensures u.upload.Returned? && "request_id" in u.upload.value && u.result.Raised? ==> r == Failure(u.result.exc)
    ensures u.upload.Returned? && "request_id" in u.upload.value && u.result.Returned? && u.cleanup.Some? ==>
              r == Failure(u.cleanup.value)
    ensures u.upload.Returned? && "request_id" in u.upload.value && u.result.Returned? && u.cleanup.None? ==>
              r == Respond(u.upload.value, u.result.value, t)
    ensures r.Success? <==> u.upload.Returned? && "request_id" in u.upload.value && u.result.Returned? && u.cleanup.None?
                             && Respond(u.upload.value, u.result.value, t).Success?
  {
    match u.upload
    case Raised(e) => Failure(e)
    case Returned(upload) =>
      if "request_id" !in upload then Failure(OtherException("'request_id'"))
      else
        match u.result
        case Raised(e) => Failure(e)
        case Returned(result) =>
          if u.cleanup.Some? then Failure(u.cleanup.value) else Respond(upload, result, t)
  }

  /** The outer except clauses: an HTTPException passes unchanged, anything else becomes a 500 with its text. */
  function Surface(e: Exception): (r: HttpError)
    ensures e.HttpException? ==> r.status == e.status && r.detail == e.detail
    ensures e.OtherException? ==> r.status == 500 && r.detail == e.text
  {
    match e
    case HttpException(status, detail) => HttpError(status, detail)
    case OtherException(text) => HttpError(500, text)
  }

  /** The whole endpoint on a file name, a size and the library's behaviour. */
  function Handle(filename: string, size: nat, u: Upstream): (r: Result<PyValue, HttpError>)
    ensures Admit(filename, size).Failure? ==> r == Failure(Surface(Admit(filename, size).error)) && r.error.status == 400
    ensures r.Success? <==> Admit(filename, size).Success? && Consult(u, Admit(filename, size).value).Success?
    ensures r.Success? ==> r.value == Consult(u, Admit(filename, size).value).value
    ensures Admit(filename, size).Success? && r.Failure? ==> r.error == Surface(Consult(u, Admit(filename, size).value).error)
  {
    match Admit(filename, size)
    case Failure(e) => Failure(Surface(e))
    case Success(t) =>
      match Consult(u, t)
      case Failure(e) => Failure(Surface(e))
      case Success(reply) => Success(reply)
  }

  /**
    analyze_image: the extension, the loop for the file type, the size
    guard, then the library calls. `contacted` tells whether the library
    was called (and a temporary file written).
   */
  method AnalyzeImage(filename: string, size: nat, u: Upstream) returns (reply: Result<PyValue, HttpError>, contacted: bool)
    ensures reply == Handle(filename, size, u)
    ensures contacted <==> Admit(filename, size).Success?
  {
    var ext := Lower(SplitExt(filename).1);
    var fileType := FileTypeOf(ext);
    if fileType.None? {
      return Failure(HttpError(400, "Unsupported file type: " + ext)), false;
    }
    var t := fileType.value;
    if size > SizeLimit(t) {
      return Failure(HttpError(400, SizeMessage(t))), false;
    }
    contacted := true;
    var outcome := Consult(u, t);
    if outcome.Failure? {
      reply := Failure(Surface(outcome.error));
    } else {
      reply := Success(outcome.value);
    }
  }

  /** The first match over the table, spelled out list by list. */
  lemma FirstMatchUnfolded(ext: string)
    ensures FirstMatch(AllowedExtensions, ext) ==
              if ext in Extensions(Image) then Some(Image)
              else if ext in Extensions(Video) then Some(Video)
              else if ext in Extensions(Audio) then Some(Audio)
              else None
  {
    var table := AllowedExtensions;
    assert FirstMatch(table[1..][1..][1..], ext) == None by { assert table[1..][1..][1..] == []; }
    assert FirstMatch(table[1..][1..], ext) == if ext in Extensions(Audio) then Some(Audio) else None;
    assert FirstMatch(table[1..], ext) == if ext in Extensions(Video) then Some(Video) else FirstMatch(table[1..][1..], ext);
  }

  /** No extension appears in two lists. */
  lemma ListsAreDisjoint(ext: string)
    ensures !(ext in Extensions(Image) && ext in Extensions(Video))
    ensures !(ext in Extensions(Image) && ext in Extensions(Audio))
    ensures !(ext in Extensions(Video) && ext in Extensions(Audio))
  {
  }

  /** Hence the first match is the one list that holds the extension. */
  lemma FirstMatchFindsTheList(ext: string)
    ensures forall t :: FirstMatch(AllowedExtensions, ext) == Some(t) <==> ext in Extensions(t)
    ensures FirstMatch(AllowedExtensions, ext).None? <==> forall t :: ext !in Extensions(t)
  {
    FirstMatchUnfolded(ext);
    ListsAreDisjoint(ext);
  }

  /** A position holding c with no c after it is what LastIndexOf finds. */
  lemma LastIndexOfIs(s: string, c: char, i: int)
    requires -1 <= i < |s|
    requires i >= 0 ==> s[i] == c
    requires forall k :: i < k < |s| ==> s[k] != c
    ensures LastIndexOf(s, c) == i
  {
  }

  /** Every allowed extension is a dot followed by at least two characters. */
  lemma ExtensionsAreDotted(t: FileType, e: string)
    requires e in Extensions(t)
    ensures |e| >= 3 && e[0] == '.'
  {
  }

  /** splitext examples: the last dot of the last component, leading dots not counting. */
  lemma SplitExtExamples()
    ensures SplitExt("photo.JPG").1 == ".JPG"
    ensures SplitExt("archive.tar.gz").1 == ".gz"
    ensures SplitExt("x..mp4").1 == ".mp4"
    ensures SplitExt(".txt").1 == ""
    ensures SplitExt("..mp4").1 == ""
    ensures SplitExt("dir.v2/notes").1 == ""
    ensures SplitExt("notes").1 == ""
  {
    LastIndexOfIs("photo.JPG", '/', -1);
    LastIndexOfIs("photo.JPG", '.', 5);
    assert "photo.JPG"[0] != '.';
    LastIndexOfIs("archive.tar.gz", '/', -1);
    LastIndexOfIs("archive.tar.gz", '.', 11);
    assert "archive.tar.gz"[0] != '.';
    LastIndexOfIs("x..mp4", '/', -1);
    LastIndexOfIs("x..mp4", '.', 2);
    assert "x..mp4"[0] != '.';
    LastIndexOfIs(".txt", '/', -1);
    LastIndexOfIs(".txt", '.', 0);
    LastIndexOfIs("..mp4", '/', -1);
    LastIndexOfIs("..mp4", '.', 1);
    LastIndexOfIs("dir.v2/notes", '/', 6);
    LastIndexOfIs("dir.v2/notes", '.', 3);
    LastIndexOfIs("notes", '/', -1);
    LastIndexOfIs("notes", '.', -1);
  }

  /** The extension is lower-cased before the lookup, so an upper-case name is admitted. */
  lemma UpperCaseExtensionAdmitted(size: nat)
    requires size <= 50 * MiB
    ensures ExtensionOf("photo.JPG") == ".jpg"
    ensures Admit("photo.JPG", size) == Success(Image)
  {
    LastIndexOfIs("photo.JPG", '/', -1);
    LastIndexOfIs("photo.JPG", '.', 5);
    assert "photo.JPG"[0] != '.';
    assert SplitExt("photo.JPG").1 == ".JPG";
    var lowered := Lower(".JPG");
    assert lowered[0] == '.' && lowered[1] == 'j' && lowered[2] == 'p' && lowered[3] == 'g';
    assert lowered == ".jpg";
    assert ".jpg" == Extensions(Image)[0];
    FirstMatchFindsTheList(".jpg");
  }

  /** An upper-case audio suffix is lower-cased too, so SONG.M4A is admitted as audio. */
  lemma UpperCaseAudioAdmitted(size: nat)
    requires size <= 20 * MiB
    ensures ExtensionOf("SONG.M4A") == ".m4a"
    ensures Admit("SONG.M4A", size) == Success(Audio)
  {
    LastIndexOfIs("SONG.M4A", '/', -1);
    LastIndexOfIs("SONG.M4A", '.', 4);
    assert "SONG.M4A"[0] != '.';
    assert SplitExt("SONG.M4A").1 == ".M4A";
    var lowered := Lower(".M4A");
    assert lowered[0] == '.' && lowered[1] == 'm' && lowered[2] == '4' && lowered[3] == 'a';
    assert lowered == ".m4a";
    assert ".m4a" == Extensions(Audio)[3];
    FirstMatchFindsTheList(".m4a");
  }

  /** There is no text type on the server: a .txt file is refused with a 400, whatever its size, before the library is called. */
  lemma TextIsUnsupported(size: nat, u: Upstream)
    ensures Handle("notes.txt", size, u) == Failure(HttpError(400, "Unsupported file type: .txt"))
  {
    LastIndexOfIs("notes.txt", '/', -1);
    LastIndexOfIs("notes.txt", '.', 5);
    assert "notes.txt"[0] != '.';
    assert SplitExt("notes.txt").1 == ".txt";
    assert ExtensionOf("notes.txt") == ".txt";
    ListsAreDisjoint(".txt");
    assert forall t :: ".txt" !in Extensions(t) by {
      assert ".txt"[1] == 't';
    }
    FirstMatchFindsTheList(".txt");
    assert "Unsupported file type: " + ".txt" == "Unsupported file type: .txt";
    assert Admit("notes.txt", size) == Failure(HttpException(400, "Unsupported file type: .txt"));
  }

  /** A name without an extension is refused with a 400 naming the empty extension. */
  lemma NoExtensionIsUnsupported(filename: string, size: nat, u: Upstream)
    requires SplitExt(filename).1 == ""
    ensures Handle(filename, size, u) == Failure(HttpError(400, "Unsupported file type: "))
  {
    assert ExtensionOf(filename) == "";
    forall t | "" in Extensions(t) ensures false { ExtensionsAreDotted(t, ""); }
    FirstMatchFindsTheList("");
    assert "Unsupported file type: " + "" == "Unsupported file type: ";
    assert Admit(filename, size) == Failure(HttpException(400, "Unsupported file type: "));
  }

  /** Only a size strictly above the type's limit is refused: the limit itself is admitted. */
  lemma SizeCeilingIsInclusive(filename: string, t: FileType)
    requires ExtensionOf(filename) in Extensions(t)
    ensures Admit(filename, SizeLimit(t)) == Success(t)
    ensures Admit(filename, SizeLimit(t) + 1) == Failure(HttpException(400, "File size exceeds " + LimitText(t) + "MB limit for " + TypeName(t) + " files"))
  {
    FirstMatchFindsTheList(ExtensionOf(filename));
  }

  /**
    A refused file gets a 400 whatever the library would have done: the
    type and size checks come before any call into it.
   */
  lemma RefusalPrecedesUpstream(filename: string, size: nat, u1: Upstream, u2: Upstream)
    requires Admit(filename, size).Failure?
    ensures Handle(filename, size, u1) == Handle(filename, size, u2)
    ensures Handle(filename, size, u1).Failure? && Handle(filename, size, u1).error.status == 400
  {
  }

  /** An HTTPException raised inside reaches the client unchanged; any other exception becomes a 500 carrying its text. */
  lemma ExceptionsSurface(filename: string, size: nat, u: Upstream, status: int, detail: string, text: string)
    requires Admit(filename, size).Success?
    ensures Handle(filename, size, u.(upload := Raised(HttpException(status, detail)))) == Failure(HttpError(status, detail))
    ensures Handle(filename, size, u.(upload := Raised(OtherException(text)))) == Failure(HttpError(500, text))
    ensures u.upload.Returned? && "request_id" !in u.upload.value ==> Handle(filename, size, u) == Failure(HttpError(500, "'request_id'"))
    ensures u.upload.Returned? && "request_id" in u.upload.value ==>
              Handle(filename, size, u.(result := Raised(HttpException(status, detail)))) == Failure(HttpError(status, detail))
              && Handle(filename, size, u.(result := Raised(OtherException(text)))) == Failure(HttpError(500, text))
    ensures u.upload.Returned? && "request_id" in u.upload.value && u.result.Returned? ==>
              Handle(filename, size, u.(cleanup := Some(HttpException(status, detail)))) == Failure(HttpError(status, detail))
              && Handle(filename, size, u.(cleanup := Some(OtherException(text)))) == Failure(HttpError(500, text))
  {
  }

  /**
    The reply holds exactly the six keys; status, score and media_id take
    their defaults only when the key is absent, a present null included;
    file_type names the admitted type; the models keep count and order.
   */
  lemma ResponseShape(upload: map<string, PyValue>, result: map<string, PyValue>, t: FileType, items: seq<PyValue>)
    requires "request_id" in upload
    requires Get(result, "models", List([])) == List(items)
    requires forall i :: 0 <= i < |items| ==> items[i].Dict?
    ensures var r := Respond(upload, result, t);
            && r.Success? && r.value.Dict?
            && r.value.entries.Keys == {"status", "score", "models", "media_id", "request_id", "file_type"}
            && r.value.entries["status"] == (if "status" in result then result["status"] else Str("unknown"))
            && r.value.entries["score"] == (if "score" in result then result["score"] else Int(0))
            && r.value.entries["media_id"] == (if "media_id" in upload then upload["media_id"] else Str(""))
            && r.value.entries["request_id"] == upload["request_id"]
            && r.value.entries["file_type"] == Str(TypeName(t))
            && r.value.entries["models"].List?
            && |r.value.entries["models"].items| == |items|
            && forall i :: 0 <= i < |items| ==> r.value.entries["models"].items[i] == ProjectModel(items[i].entries)
  {
  }

  /** Each projected model has a name, a status and a score, defaulting to 'Unknown Model', 'unknown' and 0 only when absent. */
  lemma ModelDefaults(m: map<string, PyValue>)
    ensures ProjectModel(m).Dict? && ProjectModel(m).entries.Keys == {"name", "status", "score"}
    ensures ProjectModel(m).entries["name"] == (if "name" in m then m["name"] else Str("Unknown Model"))
    ensures ProjectModel(m).entries["status"] == (if "status" in m then m["status"] else Str("unknown"))
    ensures ProjectModel(m).entries["score"] == (if "score" in m then m["score"] else Int(0))
    ensures ProjectModel(map[]) == Dict(map["name" := Str("Unknown Model"), "status" := Str("unknown"), "score" := Int(0)])
    ensures ProjectModel(map["status" := Null]).entries["status"] == Null
  {
  }

  /** A models value that is not iterable makes the request a 500 carrying Python's TypeError message. */
  lemma BadModelsBecome500(filename: string, size: nat, upload: map<string, PyValue>, result: map<string, PyValue>)
    requires Admit(filename, size).Success? && "request_id" in upload
    requires "models" in result && (result["models"].Null? || result["models"].Int? || result["models"].Float? || result["models"].Bool?)
    ensures Handle(filename, size, Upstream(Returned(upload), Returned(result), None))
            == Failure(HttpError(500, "'" + PyTypeName(result["models"]) + "' object is not iterable"))
  {
  }
}
