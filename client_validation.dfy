/**
  The browser's acceptance rules for a chosen file (script.js, analyzeFile):
  which of the four categories a file falls in, judged from its MIME type
  and, for audio and text, from the end of its name, and the byte ceiling
  of that category.
 */
module ClientValidation {
  import opened Wrappers

  datatype Category = Image | Video | Audio | Text

  /** What the browser's File object tells the page about the chosen file. */
  datatype FileInfo = FileInfo(mimeType: string, name: string, size: nat)

  const MiB: nat := 1024 * 1024

  const ImageTypes: seq<string> := ["image/jpeg", "image/jpg", "image/png", "image/gif", "image/webp"]
  const VideoTypes: seq<string> := ["video/mp4", "video/quicktime"]
  const AudioTypes: seq<string> := ["audio/flac", "audio/wav", "audio/mpeg", "audio/mp3", "audio/mp4", "audio/aac", "audio/ogg"]
  const TextTypes: seq<string> := ["text/plain"]

  const UnsupportedMessage: string := "Please upload a valid file (image, video, audio, or text)"

  /** The category's name as the page spells it in messages. */
  function CategoryName(c: Category): string {
    match c
    case Image => "image"
    case Video => "video"
    case Audio => "audio"
    case Text => "text"
  }

  /** Largest accepted size, in bytes. */
  function MaxSize(c: Category): nat {
    match c
    case Image => 50 * MiB
    case Video => 250 * MiB
    case Audio => 20 * MiB
    case Text => 5 * MiB
  }

  /** JavaScript's String.prototype.endsWith: a case-sensitive suffix test. */
  predicate EndsWith(s: string, suffix: string) {
    |suffix| <= |s| && s[|s| - |suffix|..] == suffix
  }

  /** Whether a category, considered on its own, would take the file. */
  predicate Accepts(c: Category, mimeType: string, name: string) {
    match c
    case Image => mimeType in ImageTypes
    case Video => mimeType in VideoTypes
    case Audio => mimeType in AudioTypes || EndsWith(name, ".m4a") || EndsWith(name, ".alac")
    case Text => mimeType in TextTypes || EndsWith(name, ".txt")
  }

  /** Position of a category in the order the checks are made. */
  function Rank(c: Category): nat {
    match c
    case Image => 0
    case Video => 1
    case Audio => 2
    case Text => 3
  }

  /**
    The if/else-if chain of analyzeFile: the first category, in the order
    image, video, audio, text, that accepts the file; None when none does.
   */
  function Classify(mimeType: string, name: string): (r: Option<Category>)
    ensures r.None? <==> forall c :: !Accepts(c, mimeType, name)
    ensures r.Some? ==> Accepts(r.value, mimeType, name)
    ensures r.Some? ==> forall c :: Rank(c) < Rank(r.value) ==> !Accepts(c, mimeType, name)
  {
    if Accepts(Image, mimeType, name) then Some(Image)
    else if Accepts(Video, mimeType, name) then Some(Video)
    else if Accepts(Audio, mimeType, name) then Some(Audio)
    else if Accepts(Text, mimeType, name) then Some(Text)
    else None
  }

  function TooLargeMessage(c: Category): string {
    "File size exceeds limit for " + CategoryName(c) + " files"
  }

  /**
    The two guards at the top of analyzeFile: the category of an accepted
    file, or the message shown for a rejected one.
   */
  function Validate(f: FileInfo): (r: Result<Category, string>)
    ensures r == Failure(UnsupportedMessage) <==> forall c :: !Accepts(c, f.mimeType, f.name)
    ensures r.Success? <==> Classify(f.mimeType, f.name).Some? && f.size <= MaxSize(Classify(f.mimeType, f.name).value)
    ensures r.Success? ==> r.value == Classify(f.mimeType, f.name).value
    ensures r.Failure? && r.error != UnsupportedMessage ==>
              Classify(f.mimeType, f.name).Some? && r.error == TooLargeMessage(Classify(f.mimeType, f.name).value)
              && f.size > MaxSize(Classify(f.mimeType, f.name).value)
  {
    match Classify(f.mimeType, f.name)
    case None => Failure(UnsupportedMessage)
    case Some(c) => if f.size > MaxSize(c) then Failure(TooLargeMessage(c)) else Success(c)
  }

  /** A MIME type in the image list makes the file an image, whatever its name. */
  lemma ImageMimeWins(f: FileInfo)
    requires f.mimeType in ImageTypes
    ensures Classify(f.mimeType, f.name) == Some(Image)
    ensures Validate(f).Success? <==> f.size <= 50 * MiB
  {
  }

  /** The MIME check comes before the name check: audio/mp4 is audio, video/mp4 is video, image/png named .txt is an image. */
  lemma PrecedenceExamples()
    ensures Classify("audio/mp4", "clip.mp4") == Some(Audio)
    ensures Classify("video/mp4", "clip.m4a") == Some(Video)
    ensures Classify("image/png", "notes.txt") == Some(Image)
    ensures Classify("", "song.m4a") == Some(Audio)
    ensures Classify("application/octet-stream", "voice.alac") == Some(Audio)
    ensures Classify("", "notes.txt") == Some(Text)
  {
  }

  /** The suffix fallbacks are case-sensitive: an unknown MIME type with an upper-case suffix is refused. */
  lemma SuffixIsCaseSensitive(size: nat)
    ensures Classify("", "SONG.M4A") == None
    ensures Validate(FileInfo("", "NOTES.TXT", size)) == Failure(UnsupportedMessage)
  {
  }

  /** Only a size strictly above the ceiling is refused: the ceiling itself passes, one byte more does not. */
  lemma SizeCeilingIsInclusive(mimeType: string, name: string, c: Category)
    requires Classify(mimeType, name) == Some(c)
    ensures Validate(FileInfo(mimeType, name, MaxSize(c))) == Success(c)
    ensures Validate(FileInfo(mimeType, name, MaxSize(c) + 1)) == Failure("File size exceeds limit for " + CategoryName(c) + " files")
  {
  }

  /** A plain-text file named .txt is text, and is accepted up to 5 MiB. */
  lemma PlainTextAccepted(size: nat)
    requires size <= 5 * MiB
    ensures Validate(FileInfo("text/plain", "notes.txt", size)) == Success(Text)
  {
  }
}
