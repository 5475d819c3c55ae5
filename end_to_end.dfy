/** Properties of the client and the server together: the times the server
    writes read back on the results screen, what happens to each recording
    format at the upload check, and what the user reads when the route
    raises. */
module EndToEnd {
  import opened Wrappers
  import opened Strings
  import opened Decimal
  import opened JsNumbers
  import opened Js
  import opened ClientTypes
  import opened ResultsScreen
  import opened MediaRecorder
  import Api
  import AppShell
  import CsvParser
  import AnalyzeRoute

  // --------------------------------------------------------- time round trip

  /** `parseTime` on the server's `"M:SS"` text gives back the whole seconds,
      for any number of seconds (negative ones included, since Python floors
      both parts). */
  lemma TimeRoundTrip(x: real)
    ensures ParseTime(Text(CsvParser.FormatSeconds(x))) == Finite(x.Floor as real)
  {
    var minutes, secs := CsvParser.FormatSecondsFields(x);
    ClockReadsBack(minutes, secs, x.Floor);
  }

  /** A clock text `M:SS` reads as its total of seconds. */
  lemma ClockReadsBack(minutes: int, secs: string, total: int)
    requires secs != [] && AllDigits(secs)
    requires minutes * 60 + DigitsValue(secs) == total
    ensures ParseTime(Text(IntToString(minutes) + ":" + secs)) == Finite(total as real)
  {
    DigitsHaveNoColon(secs);
    ParseTimeClock(IntToString(minutes), secs);
    JsParseIntOfInt(minutes);
    JsParseFloatOfDigits(secs);
    ClockToReal(minutes, DigitsValue(secs), total);
  }

  lemma DigitsHaveNoColon(s: string)
    requires AllDigits(s)
    ensures ':' !in s
  {
    forall k | 0 <= k < |s| ensures s[k] != ':' {
      assert IsDigit(s[k]);
    }
  }

  lemma ClockToReal(minutes: int, seconds: nat, total: int)
    requires minutes * 60 + seconds == total
    ensures (minutes as real) * 60.0 + (seconds as real) == total as real
  {
  }

  /** A server time never reads as NaN on the client: a readable field gives
      its whole seconds, an unreadable one "0:00", which reads as 0. */
  lemma ServerTimeReadsBack(field: string)
    ensures ParseTime(Text(CsvParser.FormatTime(field))) ==
      match PyFloat(field)
      case Some(x) => Finite(x.Floor as real)
      case None => Finite(0.0)
  {
    match PyFloat(field)
    case Some(x) =>
      TimeRoundTrip(x);
    case None =>
      ZeroClock(CsvParser.FormatTime(field));
  }

  /** The server's text for an unreadable time reads as 0 seconds. */
  lemma ZeroClock(clock: string)
    requires clock == "0:00"
    ensures ParseTime(Text(clock)) == Finite(0.0)
  {
    assert clock == "0" + ":" + "00";
    ParseTimeClock("0", "00");
    ZeroMinutes("0");
    ZeroSeconds("00");
  }

  lemma ZeroMinutes(m: string)
    requires m == "0"
    ensures JsParseInt(m) == Finite(0.0)
  {
    JsParseIntOfInt(0);
    assert IntToString(0) == m;
  }

  lemma ZeroSeconds(s: string)
    requires s == "00"
    ensures JsParseFloat(s) == Finite(0.0)
  {
    JsParseFloatOfDigits(s);
    assert DigitsValue(s) == 0 by {
      assert s[..|s| - 1] == "0";
      assert "0"[..0] == [];
    }
  }

  // ------------------------------------------------- recordings at the server

  /** What the route sees of a recording uploaded by the client. */
  function ServerView(blob: Blob): AnalyzeRoute.Upload
  {
    var part := Api.UploadPart(blob);
    AnalyzeRoute.Upload(part.fileName, Some(part.contentType))
  }

  /** A character of `sub` that `s` lacks rules out `s.includes(sub)`. */
  lemma MissingCharNotContained(s: string, sub: string, c: char)
    requires c in sub && c !in s
    ensures !Contains(s, sub)
  {
    ContainsIff(s, sub);
  }

  lemma RecordingBaseName()
    ensures AnalyzeRoute.BaseName("recording.webm") == "recording.webm"
  {
    assert '/' !in "recording.webm";
    SplitWithoutSeparator("recording.webm", '/');
  }

  lemma RecordingLastDot()
    ensures AnalyzeRoute.LastIndexOf("recording.webm", '.') == Some(9)
  {
    var name := "recording.webm";
    assert name[..|name| - 1] == "recording.web";
    assert "recording.web"[..12] == "recording.we";
    assert "recording.we"[..11] == "recording.w";
    assert "recording.w"[..10] == "recording.";
  }

  lemma WebmLower()
    ensures Lower(".webm") == ".webm"
  {
  }

  /** The client's file name has the extension `.webm`. */
  lemma RecordingWebmExtension()
    ensures AnalyzeRoute.FileExtension("recording.webm") == ".webm"
  {
    RecordingBaseName();
    RecordingLastDot();
    assert "recording.webm"[9..] == ".webm";
    assert AnalyzeRoute.Suffix("recording.webm") == ".webm";
    WebmLower();
  }

  /** An upload whose name has the extension `.webm` passes exactly when its
      type does. */
  lemma WebmUploadAcceptance(name: string, t: string)
    requires AnalyzeRoute.FileExtension(name) == ".webm"
    ensures AnalyzeRoute.Acceptable(AnalyzeRoute.Upload(name, Some(t))) <==>
      t in AnalyzeRoute.AllowedFormats
    ensures AnalyzeRoute.AcceptableCorrected(AnalyzeRoute.Upload(name, Some(t))) <==>
      AnalyzeRoute.Essence(t) in AnalyzeRoute.AllowedFormats
  {
    WebmNotAllowed(AnalyzeRoute.FileExtension(name));
  }

  lemma WebmNotAllowed(ext: string)
    requires ext == ".webm"
    ensures ext !in AnalyzeRoute.AllowedExtensions
  {
  }

  /** A blob whose type has no "v" is uploaded as `recording.webm` with its
      own type, so only its type can let it pass. */
  lemma NamedWebm(blob: Blob)
    requires 'v' !in blob.mimeType && blob.mimeType != ""
    ensures ServerView(blob) == AnalyzeRoute.Upload("recording.webm", Some(blob.mimeType))
    ensures AnalyzeRoute.Acceptable(ServerView(blob)) <==> blob.mimeType in AnalyzeRoute.AllowedFormats
    ensures AnalyzeRoute.AcceptableCorrected(ServerView(blob)) <==>
      AnalyzeRoute.Essence(blob.mimeType) in AnalyzeRoute.AllowedFormats
  {
    MissingCharNotContained(blob.mimeType, "wav", 'v');
    RecordingWebmExtension();
    WebmUploadAcceptance(ServerView(blob).filename, blob.mimeType);
  }

  /** Every type the recorder can select is non-empty and has no "v", so the
      upload is named `recording.webm`. */
  lemma RecordableTypesNamedWebm(t: string)
    requires t in MimeCandidates
    ensures 'v' !in t && t != ""
  {
  }

  /** A typed blob whose type is not an allowed format is rejected with a
      400, whatever parameters the type carries. */
  lemma UnlistedTypeRejected(blob: Blob)
    requires 'v' !in blob.mimeType && blob.mimeType != ""
    requires blob.mimeType !in AnalyzeRoute.AllowedFormats
    ensures AnalyzeRoute.Validate(ServerView(blob)).Some?
  {
    NamedWebm(blob);
  }

  /** A typed blob whose type is an allowed format passes. */
  lemma ListedTypeAccepted(blob: Blob)
    requires 'v' !in blob.mimeType && blob.mimeType != ""
    requires blob.mimeType in AnalyzeRoute.AllowedFormats
    ensures AnalyzeRoute.Validate(ServerView(blob)).None?
  {
    NamedWebm(blob);
  }

  /** Neither the preferred type nor MP4 is an allowed format. */
  lemma RejectedTypesUnlisted(t: string)
    requires t == MimeCandidates[0] || t == MimeCandidates[2]
    ensures t in MimeCandidates && t !in AnalyzeRoute.AllowedFormats
  {
  }

  /** A recording in the format the recorder prefers,
      `audio/webm;codecs=opus`, is rejected with a 400: the type is compared
      verbatim and the file is named `.webm`. So is an MP4 recording. */
  lemma PreferredFormatRejected(blob: Blob)
    requires blob.mimeType == MimeCandidates[0] || blob.mimeType == "audio/mp4"
    ensures AnalyzeRoute.Validate(ServerView(blob)).Some?
  {
    RejectedTypesUnlisted(blob.mimeType);
    RecordableTypesNamedWebm(blob.mimeType);
    UnlistedTypeRejected(blob);
  }

  /** Plain WebM and Ogg are allowed formats. */
  lemma PlainTypesListed(t: string)
    requires t == MimeCandidates[1] || t == MimeCandidates[3]
    ensures t in MimeCandidates && t in AnalyzeRoute.AllowedFormats
  {
    assert AnalyzeRoute.AllowedFormats[7] == "audio/webm";
    assert AnalyzeRoute.AllowedFormats[8] == "audio/ogg";
  }

  /** Plain WebM (also the fallback when no preference is supported) and Ogg
      recordings pass. */
  lemma PlainFormatsAccepted(blob: Blob)
    requires blob.mimeType == OrDefault("") || blob.mimeType == "audio/ogg"
    ensures AnalyzeRoute.Validate(ServerView(blob)).None?
  {
    PlainTypesListed(blob.mimeType);
    RecordableTypesNamedWebm(blob.mimeType);
    ListedTypeAccepted(blob);
  }

  /** The media type of the preferred format is plain WebM. */
  lemma OpusEssence(t: string)
    requires t == "audio/webm;codecs=opus"
    ensures AnalyzeRoute.Essence(t) == "audio/webm"
  {
    assert t[10] == ';' && ';' !in t[..10];
    AnalyzeRoute.EssenceAt(t, 10);
  }

  /** The media type of the preferred format is allowed. */
  lemma OpusEssenceListed(t: string)
    requires t == MimeCandidates[0]
    ensures AnalyzeRoute.Essence(t) in AnalyzeRoute.AllowedFormats
  {
    OpusEssence(t);
    WebmListed(AnalyzeRoute.Essence(t));
  }

  lemma WebmListed(e: string)
    requires e == "audio/webm"
    ensures e in AnalyzeRoute.AllowedFormats
  {
    assert AnalyzeRoute.AllowedFormats[7] == e;
  }

  /** Plain WebM and Ogg are their own, allowed, media types. */
  lemma PlainEssenceListed(t: string)
    requires t == MimeCandidates[1] || t == MimeCandidates[3]
    ensures AnalyzeRoute.Essence(t) in AnalyzeRoute.AllowedFormats
  {
    PlainTypesListed(t);
    AnalyzeRoute.EssenceOfPlain(t);
  }

  /** The media type of each WebM or Ogg type the recorder can select is an
      allowed format. */
  lemma RecordableEssencesListed(t: string)
    requires t == MimeCandidates[0] || t == MimeCandidates[1] || t == MimeCandidates[3]
    ensures AnalyzeRoute.Essence(t) in AnalyzeRoute.AllowedFormats
  {
    if t == MimeCandidates[0] {
      OpusEssenceListed(t);
    } else {
      PlainEssenceListed(t);
    }
  }

  /** A typed blob whose media type is allowed passes the corrected check. */
  lemma ListedEssenceAccepted(blob: Blob)
    requires 'v' !in blob.mimeType && blob.mimeType != ""
    requires AnalyzeRoute.Essence(blob.mimeType) in AnalyzeRoute.AllowedFormats
    ensures AnalyzeRoute.AcceptableCorrected(ServerView(blob))
  {
    NamedWebm(blob);
  }

  /** With the corrected check, every format the recorder can select except
      MP4 passes. */
  lemma RecordedFormatsAcceptedCorrected(blob: Blob, supported: string -> bool)
    requires blob.mimeType == OrDefault(FirstSupported(MimeCandidates, supported))
    requires blob.mimeType != "audio/mp4"
    ensures AnalyzeRoute.AcceptableCorrected(ServerView(blob))
  {
    var t := blob.mimeType;
    FirstSupportedIsFirst(supported);
    assert t == MimeCandidates[0] || t == MimeCandidates[1] || t == MimeCandidates[3];
    RecordableEssencesListed(t);
    RecordableTypesNamedWebm(t);
    ListedEssenceAccepted(blob);
  }

  // ------------------------------------------------ route errors at the client

  /** The reply the browser receives for a route error: FastAPI's body for an
      `HTTPException` with the route's structured detail. */
  function ErrorReply(e: AnalyzeRoute.HttpError): Api.Reply
  {
    Api.Answered(false, e.status, Success(Api.HttpExceptionBody(Api.ErrorDetail(e.code, e.message))))
  }

  /** As written, every error the route raises is shown to the user as
      "[object Object]" — the format rejection included. */
  lemma RouteErrorsShownAsObject(e: AnalyzeRoute.HttpError, stringify: JsValue -> string)
    ensures AppShell.OutcomeError(Api.AnalyzeAudio(ErrorReply(e)), stringify) == Some("[object Object]")
  {
    Api.StructuredErrorUnreadable(e.status, e.code, e.message);
  }

  /** With the corrected message choice, the user reads the route's message. */
  lemma RouteErrorsShownCorrected(e: AnalyzeRoute.HttpError, stringify: JsValue -> string)
    ensures AppShell.OutcomeError(Api.AnalyzeAudioCorrected(ErrorReply(e)), stringify) == Some(e.message)
  {
    Api.StructuredErrorReadable(e.status, e.code, e.message);
  }
}
