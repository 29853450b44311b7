/**
  Where the browser's checks (script.js) and the server's checks (app.py)
  agree and where they part: the same byte ceilings for the three shared
  categories, but a text file and an upper-case audio suffix are judged
  differently on the two sides.
 */
module ClientServerAgreement {
  import opened Wrappers
  import ClientValidation
  import ServerAnalyze

  /** The three categories both sides know have the same ceilings on both sides. */
  lemma SameCeilings()
    ensures ClientValidation.MaxSize(ClientValidation.Image) == ServerAnalyze.SizeLimit(ServerAnalyze.Image)
    ensures ClientValidation.MaxSize(ClientValidation.Video) == ServerAnalyze.SizeLimit(ServerAnalyze.Video)
    ensures ClientValidation.MaxSize(ClientValidation.Audio) == ServerAnalyze.SizeLimit(ServerAnalyze.Audio)
  {
  }

  /** A small plain-text file passes the browser's checks and is then refused by the server with a 400. */
  lemma TextPassesClientOnly(size: nat, u: ServerAnalyze.Upstream)
    requires size <= 5 * ClientValidation.MiB
    ensures ClientValidation.Validate(ClientValidation.FileInfo("text/plain", "notes.txt", size)) == Success(ClientValidation.Text)
    ensures ServerAnalyze.Handle("notes.txt", size, u) == Failure(ServerAnalyze.HttpError(400, "Unsupported file type: .txt"))
  {
    ClientValidation.PlainTextAccepted(size);
    ServerAnalyze.TextIsUnsupported(size, u);
  }

  /**
    An upper-case audio suffix with an unrecognised MIME type is refused by
    the browser, whose suffix test is case-sensitive, though the server,
    which lower-cases the extension, would admit it.
   */
  lemma UpperCaseSuffixRefusedByClientOnly(size: nat)
    requires size <= 20 * ClientValidation.MiB
    ensures ClientValidation.Validate(ClientValidation.FileInfo("", "SONG.M4A", size)).Failure?
    ensures ServerAnalyze.Admit("SONG.M4A", size) == Success(ServerAnalyze.Audio)
  {
    ClientValidation.SuffixIsCaseSensitive(size);
    ServerAnalyze.UpperCaseAudioAdmitted(size);
  }
}
