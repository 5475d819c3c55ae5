/** The recording hook (app/hooks/useMediaRecorder.ts). The browser is an
    injected object: it holds the microphone streams whose tracks still run,
    the intervals still scheduled, and a log of the observable effects in the
    order they happen. The permission answer, the failures of the
    MediaRecorder constructor and of `start()`, the clock and the handles the
    browser hands out are parameters of the operations. */
module MediaRecorder {
  import opened Wrappers

  type Byte = b: int | 0 <= b < 256

  /** A blob: its bytes and its type tag. */
  datatype Blob = Blob(data: seq<Byte>, mimeType: string)

  type StreamId = nat
  type TimerId = nat

  /** A MediaRecorder instance, with the selection its `onstop` closure captured. */
  datatype RecorderHandle = RecorderHandle(id: nat, selected: string)

  /** Observable effects, in the order the browser sees them. */
  datatype Effect =
    | MicrophoneRequested
    | TracksStopped(stream: StreamId)
    | RecorderStarted(recorder: nat)
    | RecorderStopRequested(recorder: nat)
    | IntervalCleared(timer: TimerId)
    | ErrorReported(message: string)
    | RecordingDelivered(blob: Blob)
    | Alerted(message: string)
    | Closed

  /** The browser side of a recording: running streams, scheduled intervals,
      and the effect log. */
  class Browser {
    var liveStreams: set<StreamId>
    var activeIntervals: set<TimerId>
    var log: seq<Effect>

    constructor ()
      ensures liveStreams == {} && activeIntervals == {} && log == []
    {
      liveStreams, activeIntervals, log := {}, {}, [];
    }
  }

  // ------------------------------------------------------- format negotiation

  /** The preference order: opus in WebM, WebM, MP4, Ogg. */
  const MimeCandidates: seq<string> := ["audio/webm;codecs=opus", "audio/webm", "audio/mp4", "audio/ogg"]

  /** The type used when the selection is '' (the browser's own default). */
  const DefaultMime: string := "audio/webm"

  /** The first candidate the predicate accepts, or '' when it accepts none. */
  function FirstSupported(candidates: seq<string>, supported: string -> bool): string
  {
    if candidates == [] then ""
    else if supported(candidates[0]) then candidates[0]
    else FirstSupported(candidates[1..], supported)
  }

  /** `selectedMimeType || 'audio/webm'`. */
  function OrDefault(selected: string): string
  {
    if selected == "" then DefaultMime else selected
  }

  /** The candidate at `k` is supported and none before it is. */
  predicate FirstSupportedAt(supported: string -> bool, k: int)
  {
    && 0 <= k < |MimeCandidates|
    && supported(MimeCandidates[k])
    && forall j :: 0 <= j < k ==> !supported(MimeCandidates[j])
  }

  /** The negotiated type is the highest-priority supported candidate, and ''
      exactly when no candidate is supported. */
  lemma FirstSupportedIsFirst(supported: string -> bool)
    ensures FirstSupported(MimeCandidates, supported) == "" <==>
      forall k :: 0 <= k < |MimeCandidates| ==> !supported(MimeCandidates[k])
    ensures FirstSupported(MimeCandidates, supported) != "" ==>
      exists k :: FirstSupportedAt(supported, k) && MimeCandidates[k] == FirstSupported(MimeCandidates, supported)
  {
    var c := MimeCandidates;
    assert c[1..][1..][1..][1..] == [];
  }

  /** `getBestMimeType`: the loop over the four candidates with early return. */
  method GetBestMimeType(supported: string -> bool) returns (selected: string)
    ensures selected == FirstSupported(MimeCandidates, supported)
    ensures selected == "" || supported(selected)
  {
    var i := 0;
    while i < |MimeCandidates|
      invariant 0 <= i <= |MimeCandidates|
      invariant FirstSupported(MimeCandidates, supported) == FirstSupported(MimeCandidates[i..], supported)
    {
      var candidate := MimeCandidates[i];
      if supported(candidate) {
        return candidate;
      }
      i := i + 1;
    }
    return "";
  }

  // ------------------------------------------------------------ the payload

  /** The bytes of `new Blob(chunks)`: the chunks' bytes in order. */
  function Concat(chunks: seq<Blob>): seq<Byte>
  {
    if chunks == [] then [] else chunks[0].data + Concat(chunks[1..])
  }

  function TotalSize(chunks: seq<Blob>): nat
  {
    if chunks == [] then 0 else |chunks[0].data| + TotalSize(chunks[1..])
  }

  /** Appending a chunk appends its bytes at the end of the payload. */
  lemma {:induction false} ConcatAppend(chunks: seq<Blob>, c: Blob)
    ensures Concat(chunks + [c]) == Concat(chunks) + c.data
  {
    if chunks == [] {
      assert [] + [c] == [c];
    } else {
      assert (chunks + [c])[1..] == chunks[1..] + [c];
      ConcatAppend(chunks[1..], c);
    }
  }

  /** The payload is as long as all chunks together. */
  lemma {:induction false} ConcatLength(chunks: seq<Blob>)
    ensures |Concat(chunks)| == TotalSize(chunks)
  {
    if chunks != [] {
      ConcatLength(chunks[1..]);
    }
  }

  /** `Math.floor((now - startTime) / 1000)`: whole seconds elapsed. */
  function ElapsedSeconds(now: int, startTime: int): (s: int)
    ensures s * 1000 <= now - startTime < s * 1000 + 1000
    ensures now >= startTime ==> s >= 0
  {
    (now - startTime) / 1000
  }

  // ---------------------------------------------------------------- the hook

  /** What `getUserMedia` answers. */
  datatype Permission = Granted(stream: StreamId) | Refused(reason: string)

  /** Where `start` may throw after permission: in `new MediaRecorder(...)`
      or in `mediaRecorder.start()`. */
  datatype StartFault = NoFault | ConstructorThrows(message: string) | StartThrows(message: string)

  datatype StartOutcome = Started | Failed(message: string)

  /** One instance of the hook: its React state and its refs. */
  class Recorder {
    const browser: Browser
    var isRecording: bool
    var recordingTime: int
    var audioBlob: Option<Blob>
    var mimeType: string
    var recorder: Option<RecorderHandle>   // mediaRecorderRef
    var stream: Option<StreamId>           // streamRef
    var chunks: seq<Blob>                  // chunksRef
    var timer: Option<TimerId>             // timerRef
    var startTime: int                     // startTimeRef

    /** A recording in progress has its recorder and stream; the buffer never
        holds an empty chunk; the held interval is still scheduled. */
    ghost predicate Valid()
      reads this, browser
    {
      && (isRecording ==> recorder.Some? && stream.Some?)
      && (forall k :: 0 <= k < |chunks| ==> |chunks[k].data| > 0)
      && (timer.Some? ==> timer.value in browser.activeIntervals)
    }

    constructor (browser: Browser)
      ensures Valid() && this.browser == browser
      ensures !isRecording && recordingTime == 0 && audioBlob == None && mimeType == ""
      ensures recorder == None && stream == None && chunks == [] && timer == None && startTime == 0
    {
      this.browser := browser;
      isRecording, recordingTime, audioBlob, mimeType := false, 0, None, "";
      recorder, stream, chunks, timer, startTime := None, None, [], None, 0;
    }

    /** `start`. It has no guard against a recording already in progress: a
        second call replaces the refs and the interval handle without stopping
        or clearing the old ones. When it throws after permission was granted,
        the stream it acquired keeps running. */
    method Start(permission: Permission, supported: string -> bool, fault: StartFault,
                 handleId: nat, now: int, timerId: TimerId) returns (outcome: StartOutcome)
      requires Valid()
      modifies this, browser
      ensures Valid()
      ensures permission.Refused? ==>
        && outcome == Failed(permission.reason)
        && browser.log == old(browser.log) + [MicrophoneRequested, ErrorReported(permission.reason)]
        && unchanged(this)
        && browser.liveStreams == old(browser.liveStreams)
        && browser.activeIntervals == old(browser.activeIntervals)
      ensures permission.Granted? ==>
        && Opened([MicrophoneRequested], permission.stream, FirstSupported(MimeCandidates, supported),
                  fault, handleId, now, timerId, outcome)
        // the acquired stream is not released by `start`, not even on failure
        && browser.liveStreams == old(browser.liveStreams) + {permission.stream}
    {
      browser.log := browser.log + [MicrophoneRequested];
      match permission
      case Refused(reason) =>
        browser.log := browser.log + [ErrorReported(reason)];
        return Failed(reason);
      case Granted(s) =>
        browser.liveStreams := browser.liveStreams + {s};
        var selected := GetBestMimeType(supported);
        outcome := Open(s, selected, fault, handleId, now, timerId);
    }

    /** The state after `start` got stream `s` and negotiated type `selected`:
        the type is recorded (with the 'audio/webm' fallback); if the
        MediaRecorder constructor throws nothing else changes; otherwise the
        refs are set and the buffer emptied, and unless `start()` throws,
        recording is on with a fresh start time and interval. A failure is
        reported to `onError`. */
    twostate predicate Opened(earlier: seq<Effect>, s: StreamId, selected: string,
                              fault: StartFault, handleId: nat, now: int, timerId: TimerId,
                              outcome: StartOutcome)
      reads this, browser
    {
      var log0 := old(browser.log) + earlier;
      && mimeType == OrDefault(selected)
      && recordingTime == old(recordingTime) && audioBlob == old(audioBlob)
      && (outcome == Started <==> fault == NoFault)
      && (fault != NoFault ==>
            && outcome == Failed(fault.message)
            && browser.log == log0 + [ErrorReported(fault.message)]
            && isRecording == old(isRecording) && timer == old(timer) && startTime == old(startTime)
            && browser.activeIntervals == old(browser.activeIntervals))
      && (fault.ConstructorThrows? ==> recorder == old(recorder) && stream == old(stream) && chunks == old(chunks))
      && (!fault.ConstructorThrows? ==>
            recorder == Some(RecorderHandle(handleId, selected)) && stream == Some(s) && chunks == [])
      && (fault == NoFault ==>
            && browser.log == log0 + [RecorderStarted(handleId)]
            && isRecording && startTime == now && timer == Some(timerId)
            && browser.activeIntervals == old(browser.activeIntervals) + {timerId})
    }

    /** Steps 2 to 7 of `start`, once the stream `s` is granted and the type
        `selected` negotiated: record the type, create and start the
        recorder, start the clock. */
    method Open(s: StreamId, selected: string, fault: StartFault,
                handleId: nat, now: int, timerId: TimerId) returns (outcome: StartOutcome)
      requires Valid()
      modifies this, browser
      ensures Valid()
      ensures Opened([], s, selected, fault, handleId, now, timerId, outcome)
      ensures browser.liveStreams == old(browser.liveStreams)
    {
      mimeType := OrDefault(selected);
      if fault.ConstructorThrows? {
        browser.log := browser.log + [ErrorReported(fault.message)];
        outcome := Failed(fault.message);
      } else {
        recorder, stream, chunks := Some(RecorderHandle(handleId, selected)), Some(s), [];
        if fault.StartThrows? {
          browser.log := browser.log + [ErrorReported(fault.message)];
          outcome := Failed(fault.message);
        } else {
          browser.log := browser.log + [RecorderStarted(handleId)];
          isRecording, startTime, timer := true, now, Some(timerId);
          browser.activeIntervals := browser.activeIntervals + {timerId};
          outcome := Started;
        }
      }
      assert old(browser.log) + [] == old(browser.log);
    }

    /** `ondataavailable`: a non-empty chunk goes at the end of the buffer;
        an empty one is dropped. */
    method OnDataAvailable(chunk: Blob)
      requires Valid()
      modifies this
      ensures Valid()
      ensures chunks == if |chunk.data| > 0 then old(chunks) + [chunk] else old(chunks)
      ensures Concat(chunks) == old(Concat(chunks)) + chunk.data
      ensures isRecording == old(isRecording) && recorder == old(recorder) && stream == old(stream)
      ensures timer == old(timer) && audioBlob == old(audioBlob) && mimeType == old(mimeType)
      ensures recordingTime == old(recordingTime) && startTime == old(startTime)
    {
      if |chunk.data| > 0 {
        ConcatAppend(chunks, chunk);
        chunks := chunks + [chunk];
      }
    }

    /** `onstop` of recorder `handle`: one blob holding every buffered chunk in
        arrival order, typed with that recorder's selection or 'audio/webm';
        recording ends and the blob is handed to `onStop`. */
    method OnStop(handle: RecorderHandle) returns (blob: Blob)
      requires Valid()
      modifies this, browser
      ensures Valid()
      ensures blob == Blob(Concat(chunks), OrDefault(handle.selected))
      ensures |blob.data| == TotalSize(chunks)
      ensures !isRecording && audioBlob == Some(blob)
      ensures browser.log == old(browser.log) + [RecordingDelivered(blob)]
      ensures chunks == old(chunks) && recorder == old(recorder) && stream == old(stream)
      ensures timer == old(timer) && mimeType == old(mimeType)
      ensures recordingTime == old(recordingTime) && startTime == old(startTime)
      ensures browser.liveStreams == old(browser.liveStreams)
      ensures browser.activeIntervals == old(browser.activeIntervals)
    {
      ConcatLength(chunks);
      blob := Blob(Concat(chunks), OrDefault(handle.selected));
      audioBlob := Some(blob);
      isRecording := false;
      browser.log := browser.log + [RecordingDelivered(blob)];
    }

    /** `stop`: nothing happens unless a recorder exists and recording is on.
        Otherwise the tracks stop first, then the recorder is asked to stop,
        then a (truthy) interval handle is cleared and dropped. Recording stays
        on until the recorder's `onstop` fires. */
    method Stop()
      requires Valid()
      modifies this, browser
      ensures Valid()
      ensures !(old(recorder).Some? && old(isRecording)) ==>
        unchanged(this) && unchanged(browser)
      ensures old(recorder).Some? && old(isRecording) ==>
        var cleared := old(timer).Some? && old(timer).value > 0;
        && browser.log == old(browser.log)
             + [TracksStopped(old(stream).value), RecorderStopRequested(old(recorder).value.id)]
             + (if cleared then [IntervalCleared(old(timer).value)] else [])
        && browser.liveStreams == old(browser.liveStreams) - {old(stream).value}
        && browser.activeIntervals ==
             (if cleared then old(browser.activeIntervals) - {old(timer).value} else old(browser.activeIntervals))
        && timer == (if cleared then None else old(timer))
        && isRecording && recorder == old(recorder) && stream == old(stream) && chunks == old(chunks)
        && audioBlob == old(audioBlob) && mimeType == old(mimeType)
        && recordingTime == old(recordingTime) && startTime == old(startTime)
    {
      if recorder.Some? && isRecording {
        if stream.Some? {
          browser.liveStreams := browser.liveStreams - {stream.value};
          browser.log := browser.log + [TracksStopped(stream.value)];
        }
        browser.log := browser.log + [RecorderStopRequested(recorder.value.id)];
        if timer.Some? && timer.value > 0 {
          browser.activeIntervals := browser.activeIntervals - {timer.value};
          browser.log := browser.log + [IntervalCleared(timer.value)];
          timer := None;
        }
      }
    }

    /** One firing of interval `t`: while it is scheduled it sets the elapsed
        whole seconds since `startTime`. */
    method Tick(t: TimerId, now: int)
      requires Valid()
      modifies this
      ensures Valid()
      ensures recordingTime == if t in browser.activeIntervals then ElapsedSeconds(now, startTime) else old(recordingTime)
      ensures isRecording == old(isRecording) && recorder == old(recorder) && stream == old(stream)
      ensures chunks == old(chunks) && timer == old(timer) && audioBlob == old(audioBlob)
      ensures mimeType == old(mimeType) && startTime == old(startTime)
    {
      if t in browser.activeIntervals {
        recordingTime := ElapsedSeconds(now, startTime);
      }
    }
  }

  // --------------------------------------------------------------- scenarios

  /** A full session: permission, two chunks and an empty one, stop, onstop.
      The tracks stop before the recorder is asked to stop, the interval is
      cleared, and the payload is the two chunks in order, typed with the
      negotiated format. */
  method RecordTwoChunks(a: Blob, b: Blob) returns (browser: Browser, blob: Blob)
    requires |a.data| > 0 && |b.data| > 0
    ensures blob == Blob(a.data + b.data, "audio/webm;codecs=opus")
    ensures browser.log == [MicrophoneRequested, RecorderStarted(1), TracksStopped(7),
                            RecorderStopRequested(1), IntervalCleared(3), RecordingDelivered(blob)]
    ensures browser.liveStreams == {} && browser.activeIntervals == {}
  {
    browser := new Browser();
    var r := new Recorder(browser);
    var outcome := r.Start(Granted(7), _ => true, NoFault, 1, 1000, 3);
    r.OnDataAvailable(a);
    r.OnDataAvailable(Blob([], "audio/webm"));
    r.OnDataAvailable(b);
    r.Stop();
    blob := r.OnStop(r.recorder.value);
    assert Concat([a, b]) == a.data + b.data;
  }

  /** Starting while already recording leaves the first interval scheduled
      with no handle left to clear it, even after `stop`. */
  method RestartOrphansInterval() returns (browser: Browser, r: Recorder)
    ensures 1 in browser.activeIntervals && r.timer == None && r.isRecording
  {
    browser := new Browser();
    r := new Recorder(browser);
    var first := r.Start(Granted(7), _ => true, NoFault, 1, 0, 1);
    var second := r.Start(Granted(8), _ => true, NoFault, 2, 0, 2);
    r.Stop();
  }

  /** When `new MediaRecorder` throws after permission, the error is reported
      but the granted stream keeps running, no ref holds it, and `stop` then
      does nothing. */
  method FailedStartLeaksStream() returns (browser: Browser, r: Recorder)
    ensures 7 in browser.liveStreams && r.stream == None && !r.isRecording
    ensures browser.log == [MicrophoneRequested, ErrorReported("NotSupportedError")]
  {
    browser := new Browser();
    r := new Recorder(browser);
    var outcome := r.Start(Granted(7), _ => true, ConstructorThrows("NotSupportedError"), 1, 0, 1);
    r.Stop();
  }
}
