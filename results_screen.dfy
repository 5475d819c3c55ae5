/** The results screen (app/screens/ResultsScreen.tsx): time parsing, the top
    match, the 60-bar synthetic waveform, the per-detection timeline segments
    with their confidence heat-map, and the one shared selection. */
module ResultsScreen {
  import opened Wrappers
  import opened Strings
  import opened Decimal
  import opened JsNumbers
  import opened ClientTypes

  // ---------------------------------------------------------------- parseTime

  /** `parseInt(minutes) * 60 + parseFloat(seconds)`; NaN if either is NaN. */
  function MinutesAndSeconds(minutes: JsNumber, seconds: JsNumber): JsNumber
  {
    if minutes.Finite? && seconds.Finite? then Finite(minutes.value * 60.0 + seconds.value)
    else NaN
  }

  /** `parseTime`: a number is returned as it is; a text with exactly one ':' is
      read as minutes and seconds (without a NaN guard); any other text is read
      by `parseFloat`, with 0 when that gives NaN. */
  function ParseTime(t: TimeField): (r: JsNumber)
    ensures t.Seconds? ==> r == Finite(t.seconds)
    ensures r.NaN? ==> t.Text? && Count(t.text, ':') == 1
  {
    match t
    case Seconds(x) => Finite(x)
    case Text(s) =>
      var parts := Split(s, ':');
      if |parts| == 2 then MinutesAndSeconds(JsParseInt(parts[0]), JsParseFloat(parts[1]))
      else
        var parsed := JsParseFloat(s);
        if parsed.NaN? then Finite(0.0) else parsed
  }

  /** A text `a:b` with no other ':' reads as `parseInt(a) * 60 + parseFloat(b)`. */
  lemma ParseTimeClock(a: string, b: string)
    requires ':' !in a && ':' !in b
    ensures ParseTime(Text(a + ":" + b)) == MinutesAndSeconds(JsParseInt(a), JsParseFloat(b))
  {
    assert a + ":" + b == a + [':'] + b;
    SplitAtOnlySeparator(a, b, ':');
  }

  /** Any other text is `parseFloat` of the whole text, or 0 when unreadable. */
  lemma ParseTimePlain(s: string)
    requires Count(s, ':') != 1
    ensures ParseTime(Text(s)) == if JsParseFloat(s).NaN? then Finite(0.0) else JsParseFloat(s)
  {
  }

  /** The worked cases: `"2:05"` is 125 s and the number 90 is 90 s; `"bogus"`
      is 0 s; `"x:05"` is NaN (the minutes:seconds branch does not guard). */
  lemma ParseTimeClockExample(clock: string)
    requires clock == "2:05"
    ensures ParseTime(Text(clock)) == Finite(125.0)
    ensures ParseTime(Seconds(90.0)) == Finite(90.0)
  {
    assert clock == "2" + ":" + "05";
    ParseTimeClock("2", "05");
    TwoMinutes("2");
    FiveSeconds("05");
  }

  lemma TwoMinutes(m: string)
    requires m == "2"
    ensures JsParseInt(m) == Finite(2.0)
  {
    JsParseIntOfInt(2);
    assert IntToString(2) == m;
  }

  lemma FiveSeconds(s: string)
    requires s == "05"
    ensures JsParseFloat(s) == Finite(5.0)
  {
    JsParseFloatOfDigits(s);
    assert DigitsValue(s) == 5 by {
      assert s[..|s| - 1] == "0";
      assert "0"[..0] == [];
    }
  }

  lemma ParseTimeBogusExample()
    ensures ParseTime(Text("bogus")) == Finite(0.0)
  {
    assert Count("bogus", ':') == 0 by {
      assert "bogus"[1..] == "ogus";
      assert "ogus"[1..] == "gus";
      assert "gus"[1..] == "us";
      assert "us"[1..] == "s";
      assert "s"[1..] == "";
    }
    ParseTimePlain("bogus");
    assert LeadingDigits("bogus") == "";
    assert ScanSigned("bogus") == None;
  }

  lemma ParseTimeNaNExample()
    ensures ParseTime(Text("x:05")) == NaN
  {
    assert "x:05" == "x" + ":" + "05";
    ParseTimeClock("x", "05");
    assert LeadingDigits("x") == "";
  }

  // ---------------------------------------------------------------- top match

  /** One step of the `reduce`: the previous detection survives only when it
      is strictly more confident. */
  function Pick(prev: BirdDetection, current: BirdDetection): BirdDetection
  {
    if prev.confidence > current.confidence then prev else current
  }

  /** `reduce` without an initial value, continued from accumulator `acc`. */
  function Reduce(acc: BirdDetection, rest: seq<BirdDetection>): BirdDetection
    decreases |rest|
  {
    if rest == [] then acc else Reduce(Pick(acc, rest[0]), rest[1..])
  }

  /** `ds[k]` is the last detection of highest confidence: no detection is more
      confident, and every later one is strictly less confident. */
  predicate LastMaximal(ds: seq<BirdDetection>, k: int)
  {
    && 0 <= k < |ds|
    && (forall j :: 0 <= j < |ds| ==> ds[j].confidence <= ds[k].confidence)
    && (forall j :: k < j < |ds| ==> ds[j].confidence < ds[k].confidence)
  }

  /** `topMatch`: null when there are no detections, else the `reduce`. */
  function TopMatch(ds: seq<BirdDetection>): Option<BirdDetection>
  {
    if |ds| == 0 then None else Some(Reduce(ds[0], ds[1..]))
  }

  lemma {:induction false} ReduceIsLastMaximal(acc: BirdDetection, rest: seq<BirdDetection>) returns (k: nat)
    ensures LastMaximal([acc] + rest, k) && Reduce(acc, rest) == ([acc] + rest)[k]
    decreases |rest|
  {
    if rest == [] {
      k := 0;
    } else {
      var next := Pick(acc, rest[0]);
      var k' := ReduceIsLastMaximal(next, rest[1..]);
      if acc.confidence > rest[0].confidence {
        k := if k' == 0 then 0 else k' + 1;
        SurvivorStep(acc, rest, k');
      } else {
        assert [next] + rest[1..] == rest;
        k := k' + 1;
        ReplacedStep(acc, rest, k');
      }
    }
  }

  /** A more confident accumulator survives the first element: it stays at
      index 0, and later positions shift by one. */
  lemma {:induction false} SurvivorStep(acc: BirdDetection, rest: seq<BirdDetection>, k': nat)
    requires rest != [] && acc.confidence > rest[0].confidence
    requires LastMaximal([acc] + rest[1..], k')
    ensures var k := if k' == 0 then 0 else k' + 1;
      LastMaximal([acc] + rest, k) && ([acc] + rest)[k] == ([acc] + rest[1..])[k']
  {
    var s := [acc] + rest;
    var t := [acc] + rest[1..];
    var k := if k' == 0 then 0 else k' + 1;
    assert s[k] == t[k'];
    forall j | 0 <= j < |s| ensures s[j].confidence <= s[k].confidence {
      if j == 0 {
        assert s[0] == t[0];
      } else if j == 1 {
        assert s[1] == rest[0];
        assert t[0].confidence <= t[k'].confidence;
      } else if j >= 2 {
        assert s[j] == t[j - 1];
      }
    }
    forall j | k < j < |s| ensures s[j].confidence < s[k].confidence {
      if j >= 2 { assert s[j] == t[j - 1]; }
    }
  }

  /** A first element at least as confident replaces the accumulator: the
      winner of the rest is the winner, one position further on. */
  lemma {:induction false} ReplacedStep(acc: BirdDetection, rest: seq<BirdDetection>, k': nat)
    requires rest != [] && acc.confidence <= rest[0].confidence
    requires LastMaximal(rest, k')
    ensures LastMaximal([acc] + rest, k' + 1) && ([acc] + rest)[k' + 1] == rest[k']
  {
    var s := [acc] + rest;
    assert rest == s[1..];
    forall j | 0 <= j < |s| ensures s[j].confidence <= s[k' + 1].confidence {
      if j >= 1 { assert s[j] == rest[j - 1]; }
    }
  }

  /** The top match is null exactly when there are no detections; otherwise it
      is the LAST detection of highest confidence (ties go to the later one). */
  lemma TopMatchIsLastMaximal(ds: seq<BirdDetection>)
    requires |ds| > 0
    ensures exists k :: LastMaximal(ds, k) && TopMatch(ds) == Some(ds[k])
  {
    assert ds == [ds[0]] + ds[1..];
    var k := ReduceIsLastMaximal(ds[0], ds[1..]);
    assert LastMaximal(ds, k) && TopMatch(ds) == Some(ds[k]);
  }

  /** The last maximal position is unique, so the top match is determined. */
  lemma LastMaximalUnique(ds: seq<BirdDetection>, k1: int, k2: int)
    requires LastMaximal(ds, k1) && LastMaximal(ds, k2)
    ensures k1 == k2
  {
    assert ds[k1].confidence == ds[k2].confidence;
  }

  // ---------------------------------------------------------- waveform bars

  const BarCount: nat := 60

  /** The duration used for division: the parsed total when positive, else 1. */
  function EffectiveDuration(total: JsNumber): (d: real)
    ensures d > 0.0
  {
    if total.Finite? && total.value > 0.0 then total.value else 1.0
  }

  /** Bar `i` stands for time `i / 60 * duration`. */
  function SliceTime(i: nat, duration: real): real
  {
    (i as real / BarCount as real) * duration
  }

  /** `time >= start && time <= end` with the detection's parsed times. */
  predicate Covers(d: BirdDetection, time: real)
  {
    AtLeast(Finite(time), ParseTime(d.startTime)) && AtMost(Finite(time), ParseTime(d.endTime))
  }

  /** Some detection's range contains `time`. */
  predicate Detected(ds: seq<BirdDetection>, time: real)
  {
    exists k :: 0 <= k < |ds| && Covers(ds[k], time)
  }

  /** `detections.some(...)`, evaluated front to back. */
  function AnyCovers(ds: seq<BirdDetection>, time: real): (r: bool)
    ensures r <==> Detected(ds, time)
    decreases |ds|
  {
    if ds == [] then false
    else if Covers(ds[0], time) then true
    else
      var r := AnyCovers(ds[1..], time);
      assert Detected(ds, time) ==> Detected(ds[1..], time) by {
        if Detected(ds, time) {
          var k :| 0 <= k < |ds| && Covers(ds[k], time);
          assert k > 0 && ds[1..][k - 1] == ds[k];
        }
      }
      assert Detected(ds[1..], time) ==> Detected(ds, time) by {
        if Detected(ds[1..], time) {
          var k :| 0 <= k < |ds[1..]| && Covers(ds[1..][k], time);
          assert ds[k + 1] == ds[1..][k];
        }
      }
      r
  }

  /** A bar's height from a `Math.random()` draw: [0.5, 1.0) where a detection
      covers the slice, [0.1, 0.25) where none does. */
  function Amplitude(active: bool, random: real): real
  {
    if active then 0.5 + random * 0.5 else 0.1 + random * 0.15
  }

  /** The random draws behave like `Math.random()`: each in [0, 1). */
  predicate RandomDraws(random: seq<real>, n: nat)
  {
    |random| == n && forall i :: 0 <= i < |random| ==> 0.0 <= random[i] < 1.0
  }

  /** `waveformBars`: exactly 60 heights; bar i is in the high band exactly when
      some detection covers its time `i / 60 * duration`, and in the low band
      otherwise. The two bands do not overlap. */
  function WaveformBars(ds: seq<BirdDetection>, total: JsNumber, random: seq<real>): (bars: seq<real>)
    requires RandomDraws(random, BarCount)
    ensures |bars| == BarCount
    ensures forall i :: 0 <= i < BarCount ==>
      (Detected(ds, SliceTime(i, EffectiveDuration(total))) <==> 0.5 <= bars[i] < 1.0)
    ensures forall i :: 0 <= i < BarCount ==>
      (!Detected(ds, SliceTime(i, EffectiveDuration(total))) <==> 0.1 <= bars[i] < 0.25)
  {
    var duration := EffectiveDuration(total);
    seq(BarCount, i requires 0 <= i < BarCount => Amplitude(AnyCovers(ds, SliceTime(i, duration)), random[i]))
  }

  // ------------------------------------------------------ segments, heat-map

  /** The heat-map opacity `max(0.4, (confidence - 0.98) * 50)`. */
  function Opacity(confidence: real): (o: real)
    ensures o >= 0.4
    ensures confidence <= 1.0 ==> o <= 1.0
  {
    var stretched := (confidence - 0.98) * 50.0;
    if stretched > 0.4 then stretched else 0.4
  }

  /** The opacity never decreases with confidence, and strictly increases from
      0.988 on, so near-certain detections stay distinguishable. */
  lemma OpacityMonotone(c1: real, c2: real)
    requires c1 <= c2
    ensures Opacity(c1) <= Opacity(c2)
    ensures 0.988 <= c1 < c2 ==> Opacity(c1) < Opacity(c2)
  {
  }

  /** 0.98 maps to 0.4, 0.99 to 0.5 (the source comment says 0.9), 1.0 to 1.0;
      0.98 and 0.999 map to different opacities. */
  lemma OpacityExamples()
    ensures Opacity(0.98) == 0.4
    ensures Opacity(0.99) == 0.5
    ensures Opacity(1.0) == 1.0
    ensures Opacity(0.999) == 0.95 != Opacity(0.98)
    ensures forall c :: c <= 0.988 ==> Opacity(c) == 0.4
  {
  }

  /** `x / duration * 100`; NaN stays NaN. */
  function Percent(x: JsNumber, duration: real): JsNumber
    requires duration > 0.0
  {
    if x.Finite? then Finite(x.value / duration * 100.0) else NaN
  }

  /** `end - start`; NaN when either is NaN. */
  function Minus(a: JsNumber, b: JsNumber): JsNumber
  {
    if a.Finite? && b.Finite? then Finite(a.value - b.value) else NaN
  }

  /** Layout of one timeline segment, in percent of the timeline. */
  datatype Segment = Segment(left: JsNumber, width: JsNumber, opacity: real)

  function SegmentOf(d: BirdDetection, total: JsNumber): Segment
  {
    Layout(ParseTime(d.startTime), ParseTime(d.endTime), EffectiveDuration(total), d.confidence)
  }

  /** `left`, `width` and `opacity` from the parsed start and end. */
  function Layout(start: JsNumber, end: JsNumber, duration: real, confidence: real): Segment
    requires duration > 0.0
  {
    Segment(Percent(start, duration), Percent(Minus(end, start), duration), Opacity(confidence))
  }

  /** One segment per detection, in order. */
  function Segments(ds: seq<BirdDetection>, total: JsNumber): (segs: seq<Segment>)
    ensures |segs| == |ds|
    ensures forall k :: 0 <= k < |ds| ==> segs[k] == SegmentOf(ds[k], total)
  {
    seq(|ds|, k requires 0 <= k < |ds| => SegmentOf(ds[k], total))
  }

  /** A detection inside [0, duration] gets a segment inside [0, 100] percent
      that starts at start/duration and ends exactly at end/duration. */
  lemma SegmentWithinTimeline(d: BirdDetection, total: JsNumber)
    requires ParseTime(d.startTime).Finite? && ParseTime(d.endTime).Finite?
    requires 0.0 <= ParseTime(d.startTime).value <= ParseTime(d.endTime).value <= EffectiveDuration(total)
    ensures SegmentOf(d, total).left.Finite? && SegmentOf(d, total).width.Finite?
    ensures 0.0 <= SegmentOf(d, total).left.value
    ensures 0.0 <= SegmentOf(d, total).width.value
    ensures SegmentOf(d, total).left.value + SegmentOf(d, total).width.value
         == ParseTime(d.endTime).value / EffectiveDuration(total) * 100.0 <= 100.0
  {
    var s := ParseTime(d.startTime).value;
    var e := ParseTime(d.endTime).value;
    LayoutWithin(s, e, EffectiveDuration(total), d.confidence);
  }

  /** A segment from `start` to `end` inside [0, duration] has a finite,
      non-negative left edge and width that end at `end / duration`. */
  lemma LayoutWithin(start: real, end: real, duration: real, confidence: real)
    requires duration > 0.0 && 0.0 <= start <= end <= duration
    ensures var seg := Layout(Finite(start), Finite(end), duration, confidence);
      && seg.left == Finite(start / duration * 100.0)
      && seg.width == Finite((end - start) / duration * 100.0)
      && 0.0 <= seg.left.value && 0.0 <= seg.width.value
      && seg.left.value + seg.width.value == end / duration * 100.0 <= 100.0
  {
    PercentsAdd(start, end, duration);
    FractionBounds(end, duration);
    FractionBounds(start, duration);
    FractionBounds(end - start, duration);
  }

  /** Percentages of one whole add up. */
  lemma PercentsAdd(s: real, e: real, whole: real)
    requires whole > 0.0
    ensures s / whole * 100.0 + (e - s) / whole * 100.0 == e / whole * 100.0
  {
    var a := s / whole;
    var b := (e - s) / whole;
    assert a * whole == s;
    assert b * whole == e - s;
    assert (a + b) * whole == e;
    assert a + b == e / whole;
  }

  /** A part of a positive whole is a fraction between 0 and 1 of it. */
  lemma FractionBounds(x: real, whole: real)
    requires whole > 0.0 && 0.0 <= x <= whole
    ensures 0.0 <= x / whole <= 1.0
  {
    assert x / whole * whole == x;
  }

  // ------------------------------------------------------------------ screen

  /** What the screen shows for a result: the top match card, the call count,
      the waveform and the segments. */
  datatype ResultsView = ResultsView(
    topMatch: BirdDetection,
    distinctCalls: nat,
    bars: seq<real>,
    segments: seq<Segment>)

  /** The screen renders nothing (None) exactly when there are no detections;
      otherwise it shows the last most-confident detection, one call per
      detection, 60 bars and one segment per detection, all against the
      duration parsed from the summary: the bars are the waveform of the
      detections and the segments their layout, so the band property of
      `WaveformBars` and `SegmentWithinTimeline` hold of what is shown. */
  function Render(data: AnalysisData, random: seq<real>): (r: Option<ResultsView>)
    requires RandomDraws(random, BarCount)
    ensures r.None? <==> |data.detections| == 0
    ensures r.Some? ==>
      && r.value.distinctCalls == |data.detections|
      && |r.value.bars| == BarCount
      && |r.value.segments| == |data.detections|
      && exists k :: LastMaximal(data.detections, k) && r.value.topMatch == data.detections[k]
    ensures r.Some? ==>
      var total := ParseTime(data.summary.audioDuration);
      && r.value.bars == WaveformBars(data.detections, total, random)
      && r.value.segments == Segments(data.detections, total)
  {
    var ds := data.detections;
    match TopMatch(ds)
    case None => None
    case Some(top) =>
      var total := ParseTime(data.summary.audioDuration);
      TopMatchIsLastMaximal(ds);
      Some(ResultsView(top, |ds|, WaveformBars(ds, total, random), Segments(ds, total)))
  }

  // --------------------------------------------------------------- selection

  /** The `selectedIndex` state shared by the timeline and the breakdown list. */
  class Selection {
    var selectedIndex: Option<nat>

    constructor ()
      ensures selectedIndex == None
    {
      selectedIndex := None;
    }

    predicate IsSelected(i: nat)
      reads this
    {
      selectedIndex == Some(i)
    }

    /** Positions among `n` items that either view highlights. */
    function Highlighted(n: nat): (s: set<nat>)
      reads this
      ensures |s| <= 1
      ensures forall i: nat :: i in s <==> i < n && IsSelected(i)
    {
      if selectedIndex.Some? && selectedIndex.value < n then {selectedIndex.value} else {}
    }

    /** Tapping timeline segment `i` or breakdown row `i`: both handlers set
        the one shared index, so exactly item `i` is selected afterwards. */
    method Select(i: nat)
      modifies this
      ensures forall j :: IsSelected(j) <==> j == i
    {
      selectedIndex := Some(i);
    }
  }
}
