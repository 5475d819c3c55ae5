/** The recording screen (app/screens/RecordingScreen.tsx): the clock text
    shown while recording, and the screen's wiring of the recording hook —
    start on mount, alert and close on a recording error, stop-then-close. */
module RecordingScreen {
  import opened Wrappers
  import opened Strings
  import opened Decimal
  import opened JsNumbers
  import opened MediaRecorder

  // -------------------------------------------------------------- the clock

  /** `Math.floor(t / 60)`. */
  function FloorDiv60(t: int): (q: int)
    ensures q * 60 <= t < q * 60 + 60
  {
    t / 60
  }

  /** `t % 60` in JavaScript: the remainder takes the sign of `t`. */
  function TruncRem60(t: int): (r: int)
    ensures -60 < r < 60
    ensures t >= 0 ==> r >= 0
    ensures t <= 0 ==> r <= 0
  {
    if t >= 0 then t % 60 else -((-t) % 60)
  }

  /** The remainder is what is left of `t` after a whole number `q` of
      minutes, truncated toward zero; for `t >= 0` that is `Math.floor`. */
  lemma TruncRem60Quotient(t: int) returns (q: int)
    ensures t == q * 60 + TruncRem60(t)
    ensures t >= 0 ==> q == FloorDiv60(t)
    ensures t < 0 ==> q == -FloorDiv60(-t)
  {
    if t >= 0 {
      q := t / 60;
    } else {
      q := -((-t) / 60);
    }
  }

  /** The two texts shown as `mins:secs`. */
  datatype Clock = Clock(mins: string, secs: string)

  /** `formatTime`: each part is `toString()` left-padded with '0' to two
      characters. */
  function FormatTime(totalSeconds: int): (c: Clock)
    ensures |c.mins| >= 2 && |c.secs| >= 2
  {
    Clock(PadStart(IntToString(FloorDiv60(totalSeconds)), 2, '0'),
          PadStart(IntToString(TruncRem60(totalSeconds)), 2, '0'))
  }

  lemma ShortNatToString(n: nat)
    requires n < 100
    ensures |NatToString(n)| <= 2
  {
  }

  /** For a non-negative time the seconds are exactly two digits, "00" to
      "59", and read as the remainder `t % 60`. */
  lemma FormatTimeSeconds(t: int)
    requires t >= 0
    ensures var secs := FormatTime(t).secs;
      && |secs| == 2 && AllDigits(secs)
      && DigitsValue(secs) == TruncRem60(t) && DigitsValue(secs) < 60
  {
    var r := TruncRem60(t);
    assert FormatTime(t).secs == PadStart(NatToString(r), 2, '0');
    PaddedNat(r);
  }

  /** For a non-negative time the minutes are `Math.floor(t / 60)` padded to
      at least two digits: the full number text is kept, only zeros are added
      in front. */
  lemma FormatTimeMinutes(t: int)
    requires t >= 0
    ensures var mins := FormatTime(t).mins;
      && AllDigits(mins)
      && DigitsValue(mins) == FloorDiv60(t)
      && mins == Repeat('0', |mins| - |NatToString(FloorDiv60(t))|) + NatToString(FloorDiv60(t))
      && (FloorDiv60(t) >= 10 ==> mins == NatToString(FloorDiv60(t)))
  {
    MinutesText(t);
    PaddedNat(FloorDiv60(t));
  }

  lemma MinutesText(t: int)
    requires t >= 0
    ensures FloorDiv60(t) >= 0
    ensures FormatTime(t).mins == PadStart(NatToString(FloorDiv60(t)), 2, '0')
  {
  }

  /** A natural number padded to two places keeps its digits and value. */
  lemma PaddedNat(n: nat)
    ensures var padded := PadStart(NatToString(n), 2, '0');
      && AllDigits(padded)
      && DigitsValue(padded) == n
      && padded == Repeat('0', |padded| - |NatToString(n)|) + NatToString(n)
      && (n >= 10 ==> padded == NatToString(n))
      && (n < 100 ==> |padded| == 2)
  {
    var text := NatToString(n);
    LeadingZerosValue(|PadStart(text, 2, '0')| - |text|, text);
    if n >= 10 {
      assert |text| >= 2;
    }
    if n < 100 {
      ShortNatToString(n);
    }
  }

  /** The minutes and the remainder together make up the time. */
  lemma ClockParts(t: int)
    requires t >= 0
    ensures FloorDiv60(t) * 60 + TruncRem60(t) == t
  {
  }

  /** Reading the clock back: `parseInt(mins) * 60 + parseInt(secs)` is the
      time shown, for every non-negative whole number of seconds. */
  lemma FormatTimeRoundTrip(t: int)
    requires t >= 0
    ensures var c := FormatTime(t);
      && JsParseInt(c.mins).Finite? && JsParseInt(c.secs).Finite?
      && JsParseInt(c.mins).value * 60.0 + JsParseInt(c.secs).value == t as real
  {
    var c := FormatTime(t);
    FormatTimeMinutes(t);
    FormatTimeSeconds(t);
    JsParseIntOfDigits(c.mins);
    JsParseIntOfDigits(c.secs);
    ClockParts(t);
    WholeToReal(FloorDiv60(t), TruncRem60(t), t);
  }

  lemma WholeToReal(q: int, r: int, t: int)
    requires q * 60 + r == t
    ensures (q as real) * 60.0 + (r as real) == t as real
  {
  }

  /** A negative time (a clock that went backwards) shows a minus sign in both
      parts, since the remainder keeps the sign. */
  lemma FormatTimeNegativeExample()
    ensures FormatTime(-5) == Clock("-1", "-5")
  {
    assert NatToString(1) == "1";
    assert NatToString(5) == "5";
  }

  // ------------------------------------------------------------- the screen

  /** The alert shown when the microphone cannot be used. */
  const MicrophoneAlert: string := "无法访问麦克风，请允许麦克风权限。"

  /** One mounted recording screen and the hook instance it owns. `onClose`
      is logged as `Closed`; `onFinish(blob)` is the hook's `onStop`, logged
      as `RecordingDelivered(blob)`. */
  class Screen {
    const browser: Browser
    const hook: Recorder

    ghost predicate Valid()
      reads this, hook, browser
    {
      hook.browser == browser && hook.Valid()
    }

    constructor (browser: Browser)
      ensures Valid() && this.browser == browser && fresh(hook)
      ensures !hook.isRecording && hook.recorder == None && hook.stream == None && hook.timer == None
    {
      this.browser := browser;
      hook := new Recorder(browser);
    }

    /** The mount effect: `start` runs once. When it fails, the hook's
        `onError` alerts and then closes the screen. */
    method Mount(permission: Permission, supported: string -> bool, fault: StartFault,
                 handleId: nat, now: int, timerId: TimerId) returns (outcome: StartOutcome)
      requires Valid()
      modifies hook, browser
      ensures Valid()
      ensures permission.Refused? ==>
        && browser.log == old(browser.log)
             + [MicrophoneRequested, ErrorReported(permission.reason), Alerted(MicrophoneAlert), Closed]
        && unchanged(hook)
        && browser.liveStreams == old(browser.liveStreams)
        && browser.activeIntervals == old(browser.activeIntervals)
      ensures permission.Granted? ==>
        && browser.liveStreams == old(browser.liveStreams) + {permission.stream}
        && hook.mimeType == OrDefault(FirstSupported(MimeCandidates, supported))
        && hook.recordingTime == old(hook.recordingTime) && hook.audioBlob == old(hook.audioBlob)
      ensures permission.Granted? && fault != NoFault ==>
        && browser.log == old(browser.log)
             + [MicrophoneRequested, ErrorReported(fault.message), Alerted(MicrophoneAlert), Closed]
        && hook.isRecording == old(hook.isRecording) && hook.timer == old(hook.timer)
        && hook.startTime == old(hook.startTime)
        && browser.activeIntervals == old(browser.activeIntervals)
      ensures permission.Granted? && fault.ConstructorThrows? ==>
        hook.recorder == old(hook.recorder) && hook.stream == old(hook.stream) && hook.chunks == old(hook.chunks)
      ensures permission.Granted? && !fault.ConstructorThrows? ==>
        && hook.stream == Some(permission.stream) && hook.chunks == []
        && hook.recorder == Some(RecorderHandle(handleId, FirstSupported(MimeCandidates, supported)))
      ensures permission.Granted? && fault == NoFault ==>
        && browser.log == old(browser.log) + [MicrophoneRequested, RecorderStarted(handleId)]
        && hook.isRecording && hook.timer == Some(timerId) && hook.startTime == now
        && browser.activeIntervals == old(browser.activeIntervals) + {timerId}
    {
      outcome := hook.Start(permission, supported, fault, handleId, now, timerId);
      if outcome.Failed? {
        browser.log := browser.log + [Alerted(MicrophoneAlert), Closed];
      }
    }

    /** `handleStopRecording`: the hook's `stop`. The screen stays open; the
        recording is delivered when the recorder's `onstop` fires. */
    method HandleStopRecording()
      requires Valid()
      modifies hook, browser
      ensures Valid()
      ensures !old(hook.isRecording) ==> unchanged(hook) && unchanged(browser)
      ensures old(hook.isRecording) ==>
        var cleared := old(hook.timer).Some? && old(hook.timer).value > 0;
        && browser.log == old(browser.log)
             + [TracksStopped(old(hook.stream).value), RecorderStopRequested(old(hook.recorder).value.id)]
             + (if cleared then [IntervalCleared(old(hook.timer).value)] else [])
        && browser.liveStreams == old(browser.liveStreams) - {old(hook.stream).value}
        && browser.activeIntervals ==
             (if cleared then old(browser.activeIntervals) - {old(hook.timer).value} else old(browser.activeIntervals))
        && hook.timer == (if cleared then None else old(hook.timer))
        && hook.isRecording && hook.recorder == old(hook.recorder) && hook.stream == old(hook.stream)
        && hook.chunks == old(hook.chunks) && hook.audioBlob == old(hook.audioBlob)
        && hook.mimeType == old(hook.mimeType) && hook.recordingTime == old(hook.recordingTime)
        && hook.startTime == old(hook.startTime)
    {
      hook.Stop();
    }

    /** `handleClose`: when recording, close only once `stop` has finished;
        otherwise close at once. */
    method HandleClose()
      requires Valid()
      modifies hook, browser
      ensures Valid()
      ensures hook.recorder == old(hook.recorder) && hook.chunks == old(hook.chunks)
      ensures !old(hook.isRecording) ==>
        && unchanged(hook) && browser.log == old(browser.log) + [Closed]
        && browser.liveStreams == old(browser.liveStreams)
        && browser.activeIntervals == old(browser.activeIntervals)
      ensures old(hook.isRecording) ==>
        var cleared := old(hook.timer).Some? && old(hook.timer).value > 0;
        && browser.log == old(browser.log)
             + [TracksStopped(old(hook.stream).value), RecorderStopRequested(old(hook.recorder).value.id)]
             + (if cleared then [IntervalCleared(old(hook.timer).value)] else [])
             + [Closed]
        && browser.liveStreams == old(browser.liveStreams) - {old(hook.stream).value}
        && browser.activeIntervals ==
             (if cleared then old(browser.activeIntervals) - {old(hook.timer).value} else old(browser.activeIntervals))
        && hook.timer == (if cleared then None else old(hook.timer))
        // recording stays on until the recorder's `onstop` fires
        && hook.isRecording && hook.stream == old(hook.stream) && hook.audioBlob == old(hook.audioBlob)
        && hook.mimeType == old(hook.mimeType) && hook.recordingTime == old(hook.recordingTime)
        && hook.startTime == old(hook.startTime)
    {
      if hook.isRecording {
        hook.Stop();
      }
      browser.log := browser.log + [Closed];
    }

    /** The recorder's `onstop`: the hook builds the blob and hands it to
        `onFinish`. */
    method OnRecorderStop() returns (blob: Blob)
      requires Valid() && hook.recorder.Some?
      modifies hook, browser
      ensures Valid() && hook.recorder == old(hook.recorder) && hook.chunks == old(hook.chunks)
      ensures blob == Blob(Concat(hook.chunks), OrDefault(hook.recorder.value.selected))
      ensures !hook.isRecording && hook.audioBlob == Some(blob)
      ensures browser.log == old(browser.log) + [RecordingDelivered(blob)]
      ensures hook.timer == old(hook.timer) && hook.stream == old(hook.stream)
      ensures hook.mimeType == old(hook.mimeType) && hook.startTime == old(hook.startTime)
      ensures hook.recordingTime == old(hook.recordingTime)
      ensures browser.liveStreams == old(browser.liveStreams)
      ensures browser.activeIntervals == old(browser.activeIntervals)
    {
      blob := hook.OnStop(hook.recorder.value);
    }
  }

  /** Closing the screen while recording does not discard the recording: the
      recorder's `onstop` still fires after `Closed` and delivers the audio to
      `onFinish`. */
  method CloseWhileRecordingStillDelivers(a: Blob) returns (browser: Browser, blob: Blob)
    requires |a.data| > 0
    ensures blob.data == a.data
    ensures browser.log == [MicrophoneRequested, RecorderStarted(1), TracksStopped(7),
                            RecorderStopRequested(1), IntervalCleared(3), Closed, RecordingDelivered(blob)]
  {
    browser := new Browser();
    var screen := new Screen(browser);
    var outcome := screen.Mount(Granted(7), _ => true, NoFault, 1, 0, 3);
    screen.hook.OnDataAvailable(a);
    screen.HandleClose();
    assert screen.hook.chunks == [a];
    blob := screen.OnRecorderStop();
    assert Concat([a]) == a.data + Concat([]);
  }
}
