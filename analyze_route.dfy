/** The upload route (server/app/routes/analyze.py): format acceptance, the
    summary of the detections, and how failures become HTTP errors. Saving
    the file, the BirdNET run and the cleanup thread are left out; their
    outcomes are parameters. */
module AnalyzeRoute {
  import opened Wrappers
  import opened Strings
  import opened ServerModels

  // ------------------------------------------------------- format acceptance

  /** `ALLOWED_FORMATS` (server/app/config.py), in order. */
  const AllowedFormats: seq<string> := [
    "audio/wav", "audio/mpeg", "audio/flac", "audio/x-wav", "audio/mp3",
    "audio/x-flac", "audio/wave", "audio/webm", "audio/ogg"]

  /** The accepted file extensions. */
  const AllowedExtensions: set<string> := {".wav", ".mp3", ".flac", ".wave"}

  /** The position of the last `c` in `s`, if any. */
  function LastIndexOf(s: string, c: char): (r: Option<nat>)
    ensures r.None? <==> c !in s
    ensures r.Some? ==> r.value < |s| && s[r.value] == c && c !in s[r.value + 1..]
    decreases |s|
  {
    if s == [] then None
    else if s[|s| - 1] == c then Some(|s| - 1)
    else
      var r := LastIndexOf(s[..|s| - 1], c);
      assert s == s[..|s| - 1] + [s[|s| - 1]];
      if r.Some? then
        assert s[r.value + 1..] == s[..|s| - 1][r.value + 1..] + [s[|s| - 1]];
        r
      else r
  }

  /** The last component of a POSIX path. */
  function BaseName(path: string): (name: string)
    ensures '/' !in name
  {
    var parts := Split(path, '/');
    parts[|parts| - 1]
  }

  /** `PurePath.suffix` of a file name: from its last '.' on, provided that
      dot is neither the first nor the last character; '' otherwise. */
  function Suffix(name: string): string
  {
    match LastIndexOf(name, '.')
    case None => ""
    case Some(i) => if 0 < i < |name| - 1 then name[i..] else ""
  }

  /** A non-empty suffix is a dot followed by at least one character and no
      further dot, and it ends the name without being all of it; the suffix
      is empty exactly when the name has no dot, or only a leading or a
      trailing last one. */
  lemma SuffixShape(name: string)
    ensures var suffix := Suffix(name);
      && (suffix != "" ==>
            && |suffix| >= 2 && suffix[0] == '.' && '.' !in suffix[1..]
            && |suffix| < |name| && name[|name| - |suffix|..] == suffix)
      && (suffix == "" <==> match LastIndexOf(name, '.')
                            case None => true
                            case Some(i) => i == 0 || i == |name| - 1)
  {
  }

  /** `Path(filename).suffix.lower() if filename else ""`. */
  function FileExtension(filename: string): string
  {
    if filename == "" then "" else Lower(Suffix(BaseName(filename)))
  }

  /** What the route sees of the uploaded part. */
  datatype Upload = Upload(filename: string, contentType: Option<string>)

  /** `audio.content_type or ""`. */
  function ContentType(upload: Upload): string
  {
    match upload.contentType
    case Some(t) => t
    case None => ""
  }

  /** The part passes when its content type, taken verbatim, is an allowed
      format, or when its lower-cased extension is an allowed one. */
  predicate Acceptable(upload: Upload)
  {
    ContentType(upload) in AllowedFormats || FileExtension(upload.filename) in AllowedExtensions
  }

  /** A media type without its parameters: the text before the first ';'. */
  function Essence(contentType: string): (e: string)
    ensures ';' !in e
    ensures |e| <= |contentType| && contentType[..|e|] == e
    ensures |e| < |contentType| ==> contentType[|e|] == ';'
  {
    if contentType == [] || contentType[0] == ';' then ""
    else [contentType[0]] + Essence(contentType[1..])
  }

  /** A type without parameters is its own media type. */
  lemma EssenceOfPlain(contentType: string)
    requires ';' !in contentType
    ensures Essence(contentType) == contentType
  {
  }

  /** The media type is the text before the first ';', wherever it is. */
  lemma EssenceAt(contentType: string, i: nat)
    requires i < |contentType| && contentType[i] == ';' && ';' !in contentType[..i]
    ensures Essence(contentType) == contentType[..i]
  {
  }

  /** The evidently intended acceptance: the content type's media type,
      parameters such as `;codecs=opus` dropped, is an allowed format, or the
      extension is allowed. */
  predicate AcceptableCorrected(upload: Upload)
  {
    Essence(ContentType(upload)) in AllowedFormats || FileExtension(upload.filename) in AllowedExtensions
  }

  /** The corrected check accepts everything the check as written accepts;
      it differs only on types carrying parameters. */
  lemma AcceptableCorrectedExtends(upload: Upload)
    ensures Acceptable(upload) ==> AcceptableCorrected(upload)
    ensures ';' !in ContentType(upload) ==> (Acceptable(upload) <==> AcceptableCorrected(upload))
  {
    var t := ContentType(upload);
    if ';' !in t {
      EssenceOfPlain(t);
    }
    if t in AllowedFormats {
      AllowedFormatsPlain();
      var k :| 0 <= k < |AllowedFormats| && AllowedFormats[k] == t;
      assert ';' !in t;
    }
  }

  /** No allowed format carries parameters. */
  lemma AllowedFormatsPlain()
    ensures forall k :: 0 <= k < |AllowedFormats| ==> ';' !in AllowedFormats[k]
  {
    forall k | 0 <= k < |AllowedFormats| ensures ';' !in AllowedFormats[k] {
      assert AllowedFormats[k] in {"audio/wav", "audio/mpeg", "audio/flac", "audio/x-wav", "audio/mp3",
                                   "audio/x-flac", "audio/wave", "audio/webm", "audio/ogg"};
    }
  }

  // ----------------------------------------------------------------- errors

  /** An `HTTPException` whose detail is a code and a message. */
  datatype HttpError = HttpError(status: nat, code: string, message: string)

  const InvalidFormatMessage: string := "Unsupported audio format. Supported: " + Join(AllowedFormats, ", ")

  /** The validation step: the 400 it raises for an unacceptable part. */
  function Validate(upload: Upload): (r: Option<HttpError>)
    ensures r.None? <==> Acceptable(upload)
    ensures r.Some? ==> r.value.status == 400 && r.value.code == "INVALID_FILE_FORMAT"
  {
    if Acceptable(upload) then None
    else Some(HttpError(400, "INVALID_FILE_FORMAT", InvalidFormatMessage))
  }

  /** What the `try` block can raise: an `HTTPException` or anything else,
      known by its text. */
  datatype Raised = HttpException(error: HttpError) | OtherError(message: string)

  /** The two `except` clauses: an `HTTPException` passes through unchanged,
      anything else becomes a 500 carrying the exception's text. */
  function ErrorResponse(e: Raised): (r: HttpError)
    ensures e.HttpException? ==> r == e.error
    ensures e.OtherError? ==> r.status == 500 && r.code == "ANALYSIS_FAILED" && r.message == e.message
  {
    match e
    case HttpException(error) => error
    case OtherError(message) => HttpError(500, "ANALYSIS_FAILED", message)
  }

  // ---------------------------------------------------------------- summary

  /** The scientific names among the detections. */
  function Species(ds: seq<Detection>): set<string>
  {
    set d | d in ds :: d.scientificName
  }

  /** There are never more species than detections, and at least one when
      there is a detection. */
  lemma {:induction false} SpeciesBound(ds: seq<Detection>)
    ensures |Species(ds)| <= |ds|
    ensures ds != [] ==> |Species(ds)| >= 1
    decreases |ds|
  {
    if ds != [] {
      var init := ds[..|ds| - 1];
      var last := ds[|ds| - 1];
      assert ds == init + [last];
      assert Species(ds) == Species(init) + {last.scientificName};
      SpeciesBound(init);
      assert last.scientificName in Species(ds);
    }
  }

  /** `Summary(...)`: the count, the number of distinct species, and the
      last detection's end time (not the latest one), or "0:00". */
  function BuildSummary(ds: seq<Detection>): (s: Summary)
    ensures s.totalDetections == |ds|
    ensures s.speciesCount == |Species(ds)|
    ensures s.audioDuration == if ds == [] then "0:00" else ds[|ds| - 1].endTime
    ensures s.speciesCount <= s.totalDetections
    ensures ds != [] ==> 1 <= s.speciesCount
    ensures forall name :: name in Species(ds) <==> exists k :: 0 <= k < |ds| && ds[k].scientificName == name
  {
    SpeciesBound(ds);
    Summary(|ds|, |Species(ds)|, if ds == [] then "0:00" else ds[|ds| - 1].endTime)
  }

  /** The duration is the last detection's end, even when an earlier one
      ends later: appending a detection makes its end the duration, whatever
      came before, and an empty list gives "0:00". */
  lemma DurationIsLastNotLatest(ds: seq<Detection>, d: Detection)
    ensures BuildSummary(ds + [d]).audioDuration == d.endTime
    ensures BuildSummary([]).audioDuration == "0:00"
  {
  }

  /** Two detections of one species count once. */
  lemma SameSpeciesCountsOnce(a: Detection, b: Detection)
    requires a.scientificName == b.scientificName
    ensures BuildSummary([a, b]).speciesCount == 1
  {
    assert Species([a, b]) == {a.scientificName};
  }

  // --------------------------------------------------------------- handler

  /** Writing the upload to disk. */
  datatype SaveOutcome = Saved | SaveFailed(message: string)

  /** The BirdNET service: its detections and elapsed seconds, or the text of
      the exception it raised. */
  datatype AnalyzerOutcome = Analyzed(detections: seq<Detection>, elapsed: real) | AnalyzerFailed(message: string)

  /** The route's outcome: the response body, or the HTTP error. */
  datatype RouteResult = Responded(response: AnalysisResponse) | Failed(error: HttpError)

  /** The `try` block: validate, save, analyse, build the response.
      `round2` is Python's `round(x, 2)`. */
  function TryBlock(upload: Upload, save: SaveOutcome, analyzer: AnalyzerOutcome,
                    round2: real -> real): Result<AnalysisResponse, Raised>
  {
    match Validate(upload)
    case Some(error) => Failure(HttpException(error))
    case None =>
      match save
      case SaveFailed(message) => Failure(OtherError(message))
      case Saved =>
        match analyzer
        case AnalyzerFailed(message) => Failure(OtherError(message))
        case Analyzed(ds, elapsed) =>
          Success(AnalysisResponse(true, Some(AnalysisData(upload.filename, round2(elapsed), ds, BuildSummary(ds)))))
  }

  /** `analyze_audio`: a 400 exactly for an unacceptable part, a 500 with the
      exception's text for a failure after that, and otherwise a successful
      response carrying the analyser's detections unchanged and their
      summary. */
  function AnalyzeAudio(upload: Upload, save: SaveOutcome, analyzer: AnalyzerOutcome,
                        round2: real -> real): (r: RouteResult)
    ensures r.Failed? && r.error.status == 400 <==> !Acceptable(upload)
    ensures r.Failed? ==> r.error.status == 400 || r.error.status == 500
    ensures r.Failed? && r.error.status == 500 ==>
      && r.error.code == "ANALYSIS_FAILED"
      && (save.SaveFailed? ==> r.error.message == save.message)
      && (save.Saved? ==> analyzer.AnalyzerFailed? && r.error.message == analyzer.message)
    ensures r.Responded? <==> Acceptable(upload) && save.Saved? && analyzer.Analyzed?
    ensures r.Responded? ==>
      && r.response.success && r.response.data.Some?
      && r.response.data.value.fileName == upload.filename
      && r.response.data.value.detections == analyzer.detections
      && r.response.data.value.summary == BuildSummary(analyzer.detections)
  {
    match TryBlock(upload, save, analyzer, round2)
    case Success(response) => Responded(response)
    case Failure(e) => Failed(ErrorResponse(e))
  }
}
