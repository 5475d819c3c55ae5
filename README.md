# bird-echo, modelled in Dafny

bird-echo records birdsong in the browser and uploads it to a small Python
server. The server runs BirdNET on the recording, reads BirdNET's results
table and answers with the detections and a summary. The client then shows a
results screen with the best match, a 60-bar waveform, a heat-map timeline
and a breakdown list.

This project models the decision and transformation rules on both sides of
that one upload:

- the results screen: `parseTime`, the top-match `reduce`, the waveform bars,
  the segment layout and opacity, and the shared `selectedIndex`;
- the recording hook `useMediaRecorder`: MIME-type negotiation, `start`,
  `ondataavailable`, `onstop`, `stop` and the elapsed-time tick. These run
  against a `Browser` object that records live streams, scheduled intervals
  and an ordered log of effects;
- the recording screen: `formatTime`, the mount effect, stop and close;
- the application shell: `getErrorMessage`, `renderContent`'s priority, the
  overlay and navigation-bar conditions, and the state handlers;
- the client's requests: the upload part, the error-message chain, the
  image-URL rule;
- the server's CSV parser: `_format_time` and the row loop;
- the server's `/analyze` route: format acceptance, the summary and the
  error mapping.

The remaining modules are shared groundwork:

- `Strings`: JavaScript `split`, `includes` and `padStart`, and Python
  `lower`;
- `Decimal`: decimal text and Python `float`;
- `JsNumbers`: `parseInt` and `parseFloat` with NaN;
- `Js`: untyped JSON values and truthiness;
- `ClientTypes` and `ServerModels`: the records of `app/types.ts` and
  `server/app/models.py`.

`EndToEnd` states properties of client and server together: times round
trip, uploads are accepted or rejected, and route errors reach the user.

Where the code and its own comments disagree or leave a case open, the model
follows the code:

- The comment at app/screens/ResultsScreen.tsx:40 asks for "the detection
  with highest confidence". On a tie, the `reduce` at lines 47-49 returns
  the *last* such detection, because it keeps the earlier one only when that
  one is strictly more confident.
- The comment at app/screens/ResultsScreen.tsx:185 says 0.99 maps to 0.9.
  The formula at line 187 gives 0.5, and `OpacityExamples` states 0.5.

Recording a second time without stopping, and a `start` that fails after
permission was granted, are modelled as the code behaves.
`RestartOrphansInterval` and `FailedStartLeaksStream` exhibit the outcome:
an orphaned interval and a stream that keeps running.

## Model

| member | source | states |
|---|---|---|
| ResultsScreen.ParseTime | app/screens/ResultsScreen.tsx:13-26 | a number is returned unchanged, for every number; NaN can only come from a text with exactly one ':' |
| ResultsScreen.ParseTimeClock | app/screens/ResultsScreen.tsx:15-18 | a text `a:b` with no other ':' reads as `parseInt(a) * 60 + parseFloat(b)`, NaN included |
| ResultsScreen.ParseTimePlain | app/screens/ResultsScreen.tsx:19-25 | any other text is `parseFloat` of the whole text, or 0 when that is NaN |
| ResultsScreen.ParseTimeClockExample | app/screens/ResultsScreen.tsx:13-18 | `"2:05"` reads as 125 seconds and the number 90 as 90 |
| ResultsScreen.ParseTimeBogusExample | app/screens/ResultsScreen.tsx:19-24 | `"bogus"` reads as 0 |
| ResultsScreen.ParseTimeNaNExample | app/screens/ResultsScreen.tsx:15-18 | `"x:05"` reads as NaN: the clock branch has no NaN guard |
| ResultsScreen.ReduceIsLastMaximal | app/screens/ResultsScreen.tsx:47-49 | the reduce returns the element at a position that is the last one of highest confidence |
| ResultsScreen.TopMatchIsLastMaximal | app/screens/ResultsScreen.tsx:41-52 | for a non-empty list the top match is a detection no other detection beats, and no later one equals |
| ResultsScreen.LastMaximalUnique | app/screens/ResultsScreen.tsx:47-49 | that position is unique, so ties go to the later detection |
| ResultsScreen.EffectiveDuration | app/screens/ResultsScreen.tsx:65 | the duration used for division is always positive |
| ResultsScreen.AnyCovers | app/screens/ResultsScreen.tsx:69-73 | `some` is true exactly when some detection's parsed range contains the time |
| ResultsScreen.WaveformBars | app/screens/ResultsScreen.tsx:62-82 | exactly 60 bars; bar i is in [0.5, 1.0) iff a detection covers `i/60*duration`, else in [0.1, 0.25) |
| ResultsScreen.Opacity | app/screens/ResultsScreen.tsx:187 | the opacity is at least 0.4, and at most 1 for confidences up to 1 |
| ResultsScreen.OpacityMonotone | app/screens/ResultsScreen.tsx:182-187 | opacity never decreases with confidence and strictly increases above 0.988 |
| ResultsScreen.OpacityExamples | app/screens/ResultsScreen.tsx:182-187 | 0.98 gives 0.4, 0.99 gives 0.5 (not the commented 0.9), 1.0 gives 1.0; at or below 0.988 it is 0.4 |
| ResultsScreen.Segments | app/screens/ResultsScreen.tsx:174-180 | one segment per detection, in order |
| ResultsScreen.LayoutWithin | app/screens/ResultsScreen.tsx:177-180 | an interval inside [0, duration] gets left `start/duration*100` and width `(end-start)/duration*100`, both non-negative, ending at `end/duration*100` <= 100 |
| ResultsScreen.SegmentWithinTimeline | app/screens/ResultsScreen.tsx:175-180 | a detection inside [0, duration] gets a finite left and width, both non-negative, with left + width within 100 percent |
| ResultsScreen.Render | app/screens/ResultsScreen.tsx:41-110 | nothing is rendered iff there are no detections. Otherwise it shows the last most-confident detection and one call per detection. The bars are the waveform and the segments the layout of the detections, both against the duration parsed from the summary |
| ResultsScreen.Selection.Highlighted | app/screens/ResultsScreen.tsx:188 | at most one item is highlighted, and it is the selected index when in range |
| ResultsScreen.Selection.Select | app/screens/ResultsScreen.tsx:193 | a tap on segment or breakdown row i (line 335 does the same) leaves i and only i selected |
| MediaRecorder.GetBestMimeType | app/hooks/useMediaRecorder.ts:45-62 | the loop returns the first supported candidate, or '' when none is supported |
| MediaRecorder.FirstSupportedIsFirst | app/hooks/useMediaRecorder.ts:46-61 | '' iff no candidate is supported; otherwise the candidate is supported and no earlier candidate is |
| MediaRecorder.ConcatAppend | app/hooks/useMediaRecorder.ts:86-91 | appending a chunk appends its bytes at the end of the payload |
| MediaRecorder.ConcatLength | app/hooks/useMediaRecorder.ts:95-97 | the payload is as long as all chunks together |
| MediaRecorder.ElapsedSeconds | app/hooks/useMediaRecorder.ts:110 | the whole number of seconds elapsed, floored; non-negative when the clock has not gone back |
| MediaRecorder.Recorder.constructor | app/hooks/useMediaRecorder.ts:30-39 | the hook starts idle with no recorder, stream, chunks or timer |
| MediaRecorder.Recorder.Start | app/hooks/useMediaRecorder.ts:67-120 | a refused microphone reports the error and changes no state. Otherwise the acquired stream stays live and the state is `Opened` with the negotiated type |
| MediaRecorder.Recorder.Open | app/hooks/useMediaRecorder.ts:73-119 | `mimeType` is the selection or 'audio/webm'; a constructor fault changes nothing else; otherwise the refs are set and chunks emptied; recording, start time and interval are set only without a fault; a fault is reported |
| MediaRecorder.Recorder.OnDataAvailable | app/hooks/useMediaRecorder.ts:86-91 | a non-empty chunk is appended at the end and an empty one ignored; nothing else changes |
| MediaRecorder.Recorder.OnStop | app/hooks/useMediaRecorder.ts:94-101 | one blob of all chunks in order, typed with the selection or 'audio/webm', is stored and delivered; recording is off |
| MediaRecorder.Recorder.Stop | app/hooks/useMediaRecorder.ts:125-141 | no effect unless a recorder exists and recording is on; then tracks stop before the recorder, and a truthy interval is cleared and dropped |
| MediaRecorder.Recorder.Tick | app/hooks/useMediaRecorder.ts:109-112 | a scheduled interval sets the elapsed seconds since the start time; a cleared one changes nothing |
| MediaRecorder.RecordTwoChunks | app/hooks/useMediaRecorder.ts:67-141 | a full session delivers one blob of both chunks' bytes, releases the stream and leaves no interval |
| MediaRecorder.RestartOrphansInterval | app/hooks/useMediaRecorder.ts:107-112 | a second `start` while recording leaves the first interval scheduled after `stop` |
| MediaRecorder.FailedStartLeaksStream | app/hooks/useMediaRecorder.ts:114-119 | a start that throws after permission reports the error but leaves the stream live and unreferenced |
| RecordingScreen.FloorDiv60 | app/screens/RecordingScreen.tsx:47 | `Math.floor(t / 60)`: the largest q with q * 60 <= t |
| RecordingScreen.TruncRem60 | app/screens/RecordingScreen.tsx:48 | the remainder lies strictly between -60 and 60 and has the sign of t |
| RecordingScreen.TruncRem60Quotient | app/screens/RecordingScreen.tsx:48 | t is a whole number of minutes plus the remainder, truncating toward zero |
| RecordingScreen.FormatTime | app/screens/RecordingScreen.tsx:46-53 | both parts are at least two characters |
| RecordingScreen.FormatTimeSeconds | app/screens/RecordingScreen.tsx:48-51 | for t >= 0 the seconds are exactly two digits whose value is `t % 60`, below 60 |
| RecordingScreen.FormatTimeMinutes | app/screens/RecordingScreen.tsx:47-50 | for t >= 0 the minutes are the digits of `floor(t / 60)` with only zeros added in front, never truncated |
| RecordingScreen.FormatTimeRoundTrip | app/screens/RecordingScreen.tsx:46-53 | `parseInt(mins) * 60 + parseInt(secs)` gives back t for every t >= 0 |
| RecordingScreen.FormatTimeNegativeExample | app/screens/RecordingScreen.tsx:46-53 | -5 shows as "-1" and "-5" |
| RecordingScreen.Screen.Mount | app/screens/RecordingScreen.tsx:13-28 | `start` runs once. On any failure the error is reported, the alert shown and the screen closed, in that order; a refusal changes no hook state, and a later failure leaves the acquired stream live. On success recording is on with the negotiated type, start time, stream and a newly scheduled interval |
| RecordingScreen.Screen.HandleStopRecording | app/screens/RecordingScreen.tsx:31-33 | the hook's `stop`: the stream is released, then the recorder asked to stop, then a truthy interval cleared and dropped; the rest of the hook is unchanged and recording stays on until `onstop` |
| RecordingScreen.Screen.HandleClose | app/screens/RecordingScreen.tsx:36-44 | when recording, close comes after the stop effects (stream released, interval cleared, recording still on until `onstop`, every other hook field unchanged); otherwise it comes at once and neither the hook nor the streams and intervals change |
| RecordingScreen.Screen.OnRecorderStop | app/screens/RecordingScreen.tsx:14-16 | the recorder's `onstop` stores and delivers the buffered blob to `onFinish` and turns recording off; timer, stream, streams and intervals are unchanged |
| RecordingScreen.CloseWhileRecordingStillDelivers | app/screens/RecordingScreen.tsx:36-44 | closing while recording still delivers the recording after the screen closed |
| Api.UploadExtensionChoice | app/services/api.ts:16 | the extension is 'wav' iff "wav" occurs in the blob type, else 'webm' |
| Api.UploadPart | app/services/api.ts:15-17 | field 'audio', file name `recording.wav` or `recording.webm` by that rule, the blob's type as the part's type |
| Api.ErrorFor | app/services/api.ts:25-29 | a truthy `detail` wins, then a truthy `error`, then `HTTP <status>`; the message is never empty for a non-null body |
| Api.AnalyzeAudio | app/services/api.ts:14-37 | success iff the reply is ok with a parsed body, which is returned unchanged; every failure is an `Error` |
| Api.StructuredErrorUnreadable | app/services/api.ts:28 | the route's object `detail` surfaces as "[object Object]" |
| Api.ErrorForCorrected | app/services/api.ts:28 | the corrected chain always throws an `Error` |
| Api.StructuredErrorReadable | app/services/api.ts:28 | with the corrected chain the user reads the route's message |
| Api.AnalyzeAudioCorrected | app/services/api.ts:14-37 | succeeds exactly when `AnalyzeAudio` does, with the same value; failures are `Error`s |
| Api.FetchBirdImage | app/services/api.ts:42-58 | `imageUrl` iff the reply is ok, parsed, `success` truthy and `imageUrl` truthy; otherwise null |
| AppShell.GetErrorMessage | app/App.tsx:10-20 | a string as is; an object's string `detail`, else its string `message`, else its JSON text; 'Unknown error' otherwise |
| AppShell.DetailWinsOverMessage | app/App.tsx:15-16 | a string `detail` wins over a string `message` |
| AppShell.OutcomeError | app/App.tsx:42-51 | no error iff the response is an object with truthy `success`; a thrown `Error` shows its message, anything else the network text; a failure reply never shows an empty text |
| AppShell.UploadFailureShowsItsMessage | app/App.tsx:43-51 | every failed upload shows the thrown error's own message |
| AppShell.App.constructor | app/App.tsx:23-27 | the initial state: home tab, no overlay, result, analysis or error |
| AppShell.App.Content | app/App.tsx:58-122 | error, then analysing, then result, then home, then the placeholder, each exactly when the earlier ones do not apply |
| AppShell.App.HandleSave | app/App.tsx:30-34 | clears the result, the overlay and the error; the navigation bar shows unless analysing |
| AppShell.App.OnBack | app/App.tsx:104-107 | clears the result and the analysis flag; without an error the tab screen shows |
| AppShell.App.DismissError | app/App.tsx:71-73 | clears the error only |
| AppShell.App.OnRecordStart | app/App.tsx:115 | opens the overlay and hides the navigation bar |
| AppShell.App.OnRecordingClose | app/App.tsx:132 | closes the overlay only |
| AppShell.App.TabChange | app/App.tsx:139 | sets the tab only |
| AppShell.App.BeginAnalysis | app/App.tsx:38-40 | analysing, no overlay, no error: the loading screen shows with neither overlay nor navigation bar |
| AppShell.App.FinishAnalysis | app/App.tsx:42-54 | the error is the one `OutcomeError` decides: when there is none, `response.data` is stored; otherwise the error is set and the result kept; analysing ends on every path |
| AppShell.App.HandleRecordingFinish | app/App.tsx:37-55 | the whole handler: overlay closed, analysis ended, and either the data stored with no error or the error set |
| AppShell.NavBarOnlyOverTabs | app/App.tsx:138 | the navigation bar shows iff a tab screen is shown and the overlay is closed |
| AppShell.OverlayNeverDuringAnalysis | app/App.tsx:130 | the overlay never covers the loading screen |
| CsvParser.FormatSecondsFields | server/app/utils/csv_parser.py:66-70 | the text is `minutes:ss`, two digits below 60, with `minutes * 60 + ss == floor(x)` |
| CsvParser.FormatTime | server/app/utils/csv_parser.py:56-72 | an unreadable field gives "0:00"; a readable one its `M:SS` text |
| CsvParser.Kept | server/app/utils/csv_parser.py:27-29 | the kept rows are rows of the input with at least five fields |
| CsvParser.ToDetection | server/app/utils/csv_parser.py:32-46 | the fields map in order; the label is `row[5]` when present, else `Common (Scientific)` |
| CsvParser.ParseRowsMeaning | server/app/utils/csv_parser.py:27-46 | the parse succeeds iff every kept row's confidence reads as a number, and then yields one detection per kept row, in order |
| CsvParser.ParseCsvCount | server/app/utils/csv_parser.py:25-46 | never more detections than data rows |
| CsvParser.HeaderIgnored | server/app/utils/csv_parser.py:25 | the first row never affects the result |
| CsvParser.ParseResultsCsv | server/app/utils/csv_parser.py:10-53 | the loop computes exactly the parse result, raising on the first unreadable confidence |
| AnalyzeRoute.BaseName | server/app/routes/analyze.py:32 | the file name holds no '/' |
| AnalyzeRoute.SuffixShape | server/app/routes/analyze.py:32 | a suffix is empty or a '.' plus at least one character, with no further '.' |
| AnalyzeRoute.Essence | server/app/routes/analyze.py:33-39 | the media type is the text before the first ';' |
| AnalyzeRoute.AcceptableCorrectedExtends | server/app/routes/analyze.py:39 | the corrected check accepts all the written check does, and agrees with it on types without parameters |
| AnalyzeRoute.AllowedFormatsPlain | server/app/config.py:40-50 | no allowed format carries parameters |
| AnalyzeRoute.Validate | server/app/routes/analyze.py:31-46 | a 400 INVALID_FILE_FORMAT exactly for an unacceptable part |
| AnalyzeRoute.ErrorResponse | server/app/routes/analyze.py:82-96 | an `HTTPException` passes unchanged; anything else becomes 500 ANALYSIS_FAILED with its text |
| AnalyzeRoute.SpeciesBound | server/app/routes/analyze.py:63 | there are never more species than detections, and at least one when there are detections |
| AnalyzeRoute.BuildSummary | server/app/routes/analyze.py:62-75 | `totalDetections` is the number of detections, `speciesCount` the number of distinct scientific names (between 1 and the count when there are any), `audioDuration` the last detection's end or "0:00" |
| AnalyzeRoute.DurationIsLastNotLatest | server/app/routes/analyze.py:64 | for every list, appending a detection makes its end the duration, whatever earlier detections end; "0:00" for none |
| AnalyzeRoute.SameSpeciesCountsOnce | server/app/routes/analyze.py:63 | two detections of one species count as one species |
| AnalyzeRoute.AnalyzeAudio | server/app/routes/analyze.py:17-96 | 400 iff the part is unacceptable; otherwise 500 with the failure's text, or a response with the summary of the detections |
| EndToEnd.TimeRoundTrip | server/app/utils/csv_parser.py:66-70 | the client's `parseTime` reads the server's `M:SS` text back as the floored seconds |
| EndToEnd.ClockReadsBack | app/screens/ResultsScreen.tsx:15-17 | a clock text `M:SS` reads as its total of seconds |
| EndToEnd.ServerTimeReadsBack | server/app/utils/csv_parser.py:66-72 | no server time reads as NaN on the client: a readable field gives its floored seconds, an unreadable one 0 |
| EndToEnd.WebmUploadAcceptance | server/app/routes/analyze.py:32-39 | a `.webm` file passes iff its type is listed (written check) or its media type is (corrected check) |
| EndToEnd.NamedWebm | app/services/api.ts:16-17 | a typed blob without a "v" is sent as `recording.webm` and passes iff its type is listed |
| EndToEnd.RecordableTypesNamedWebm | app/hooks/useMediaRecorder.ts:46-51 | no type the recorder can select contains "v" or is empty |
| EndToEnd.UnlistedTypeRejected | server/app/routes/analyze.py:39-46 | such a blob with an unlisted type is rejected with a 400 |
| EndToEnd.ListedTypeAccepted | server/app/routes/analyze.py:39 | such a blob with a listed type passes |
| EndToEnd.PreferredFormatRejected | app/hooks/useMediaRecorder.ts:47 | a recording in the preferred opus type, or in MP4, is rejected by the server |
| EndToEnd.PlainFormatsAccepted | app/hooks/useMediaRecorder.ts:94-97 | plain WebM (also the fallback type) and Ogg recordings pass |
| EndToEnd.OpusEssence | app/hooks/useMediaRecorder.ts:47 | the media type of the preferred type is 'audio/webm' |
| EndToEnd.RecordableEssencesListed | app/hooks/useMediaRecorder.ts:46-51 | the media types of the WebM and Ogg candidates are allowed formats |
| EndToEnd.RecordedFormatsAcceptedCorrected | app/hooks/useMediaRecorder.ts:45-62 | with the corrected check, every recording except MP4 passes |
| EndToEnd.RouteErrorsShownAsObject | app/services/api.ts:28 | as written, every route error is shown as "[object Object]" |
| EndToEnd.RouteErrorsShownCorrected | app/services/api.ts:28 | corrected, every route error shows the route's message |
| Strings.Split | app/screens/ResultsScreen.tsx:15 | one more piece than separators, none containing the separator |
| Strings.JoinSplit | app/screens/ResultsScreen.tsx:15 | joining the pieces with the separator gives back the text |
| Strings.SplitAtOnlySeparator | app/screens/ResultsScreen.tsx:15-16 | a text with one separator splits into exactly its two sides |
| Strings.ContainsIff | app/services/api.ts:16 | `includes` holds iff the text occurs at some position |
| Strings.PadStart | app/screens/RecordingScreen.tsx:50-51 | pads with the fill on the left to the width, never truncating |
| Strings.Lower | server/app/routes/analyze.py:32 | the same length, each character lower-cased |
| Decimal.NatToString | app/screens/RecordingScreen.tsx:50-51 | canonical digits, no leading zero, of the right value |
| Decimal.LeadingZerosValue | app/screens/RecordingScreen.tsx:50-51 | leading zeros do not change a digit string's value |
| Decimal.PyFloatOfNat | server/app/utils/csv_parser.py:67 | `float` reads back the text of a natural number |
| JsNumbers.JsParseIntOfInt | app/screens/ResultsScreen.tsx:17 | `parseInt` reads back the text of any integer |
| JsNumbers.JsParseIntOfDigits | app/screens/ResultsScreen.tsx:17 | `parseInt` of digits with leading zeros is their value |
| JsNumbers.JsParseFloatOfDigits | app/screens/ResultsScreen.tsx:17 | `parseFloat` of digits is their value |
| Js.TruthyTextNonEmpty | app/services/api.ts:28 | a truthy value's text is never empty |

## Left out

- I/O and the network: `fetch`, `FormData`, `response.json()`, the file
  write, FastAPI routing and the global exception handler. The reply the
  client sees and the save and analysis outcomes on the server are
  parameters.
- The browser: `getUserMedia`, the `MediaRecorder` internals, `setInterval`,
  `Date.now` and `alert`. They are events and parameters acting on the
  `Browser` object, and their effects are entries in its log.
- React's asynchronous scheduling: handlers run to completion one at a time,
  and a `useState` setter takes effect at once.
- The BirdNET service, ffmpeg conversion, the cleanup thread and the
  temporary-file cleaner: foreign calls and concurrency. The route's
  `_cleanup_session` calls are not modelled.
- IEEE-754 numbers: times and confidences are `real`. `Math.random` draws
  are parameters known to lie in [0, 1). `round(…, 2)`, `toFixed(1)` and
  `JSON.stringify` are not computed; the last is a function parameter.
- Number grammars: `parseInt`, `parseFloat` and `float()` read an optional
  sign, then digits with an optional fraction. There is no whitespace, no
  exponent, no Infinity or NaN text, and no `OverflowError` in
  `_format_time`.
- JSON numbers in untyped values are integers only.
- The texts of V8's `TypeError`s for property reads on `null` or
  `undefined` are written out, not derived.
- Js.TruthyTextNonEmpty: JSON arrays are not modelled (`JsValue` has no
  array case). In JavaScript `[]` is truthy but `String([])` is "", so the
  lemma holds only for the values modelled.
- Api.ErrorFor: the "never empty" clause relies on the same omission. A
  body such as `{"detail": []}` (FastAPI's 422 bodies carry `detail` as an
  array) would give an empty message, and the shell would then show no
  error screen.
- Strings.Lower: ASCII letters only; Python's `str.lower()` also maps
  non-ASCII letters. The extensions compared against are all ASCII.
- AnalyzeRoute.BaseName: POSIX paths only; Windows separators and the other
  `pathlib` normalisations are not modelled.
- AnalyzeRoute.Suffix and AnalyzeRoute.FileExtension: their properties are
  stated by `SuffixShape` and the `EndToEnd` lemmas, not by their own
  contracts.
- ResultsScreen.WaveformBars: states each bar's band, not its exact height
  from the random draw.
- ResultsScreen.Selection.Highlighted: stands for the two `isSelected`
  computations at lines 188 and 331.
- The `error` field of a failed `AnalysisResponse` from the server is never
  produced by the route, so it is not modelled.
- The health route, the image proxy route and the markup-only components
  (home screen, navigation bar, icons, animated waveform) are outside the
  model.

## Findings

| source | as written | input that shows it | evidently intended | confidence | as-written member | corrected member |
|---|---|---|---|---|---|---|
| app/services/api.ts:28 | the route raises `HTTPException` with `detail` an object `{code, message}` (server/app/routes/analyze.py:40-46 and 90-96); the client takes the truthy `detail` as the `Error` message, so `String(detail)` is "[object Object]" | a 400 reply with body `{"detail": {"code": "INVALID_FILE_FORMAT", "message": "Unsupported audio format. …"}}` | the user reads `detail.message` | not executed | Api.StructuredErrorUnreadable, EndToEnd.RouteErrorsShownAsObject | Api.ErrorForCorrected, Api.StructuredErrorReadable, EndToEnd.RouteErrorsShownCorrected |
| server/app/routes/analyze.py:39 | the content type is compared verbatim with `ALLOWED_FORMATS`, and the client names every non-WAV blob `recording.webm` (app/services/api.ts:16-17), whose `.webm` suffix is not an allowed extension; the recorder's preferred type `audio/webm;codecs=opus` (app/hooks/useMediaRecorder.ts:47) is therefore rejected | a Chrome recording: blob type `audio/webm;codecs=opus`, file `recording.webm` | the type's media type `audio/webm`, which is listed, is accepted | not executed | AnalyzeRoute.Acceptable, EndToEnd.PreferredFormatRejected | AnalyzeRoute.AcceptableCorrected, EndToEnd.RecordedFormatsAcceptedCorrected |
