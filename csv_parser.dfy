/** BirdNET's results table to detections (server/app/utils/csv_parser.py).
    The file is given as its rows, each a sequence of fields; opening and
    decoding it and the `csv` module's quoting rules are left out. */
module CsvParser {
  import opened Wrappers
  import opened Strings
  import opened Decimal
  import opened ServerModels

  type Row = seq<string>

  // ------------------------------------------------------------ _format_time

  /** The `"M:SS"` text of `x` seconds: `x // 60` minutes and `int(x % 60)`
      seconds padded to two digits. Python's `//` and `%` on floats floor, so
      the seconds are 0 to 59 also for a negative `x`. */
  function FormatSeconds(x: real): string
  {
    var minutes := (x / 60.0).Floor;
    var remaining := (x - 60.0 * minutes as real).Floor;
    IntToString(minutes) + ":" + PadStart(NatToString(remaining), 2, '0')
  }

  /** `FormatSeconds` splits into whole minutes and a two-digit field of
      seconds, and together they are the whole seconds of `x`. */
  lemma FormatSecondsFields(x: real) returns (minutes: int, secs: string)
    ensures FormatSeconds(x) == IntToString(minutes) + ":" + secs
    ensures |secs| == 2 && AllDigits(secs) && DigitsValue(secs) < 60
    ensures minutes * 60 + DigitsValue(secs) == x.Floor
  {
    minutes := (x / 60.0).Floor;
    var remaining := (x - 60.0 * minutes as real).Floor;
    var text := NatToString(remaining);
    assert |text| <= 2 by {
      if remaining >= 10 {
        assert NatToString(remaining) == NatToString(remaining / 10) + [DigitChar(remaining % 10)];
      }
    }
    LeadingZerosValue(2 - |text|, text);
    secs := PadStart(text, 2, '0');
  }

  /** `_format_time`: the text of a field that `float()` reads, and "0:00"
      for one it does not. */
  function FormatTime(field: string): (s: string)
    ensures PyFloat(field).None? ==> s == "0:00"
    ensures PyFloat(field).Some? ==> s == FormatSeconds(PyFloat(field).value)
  {
    match PyFloat(field)
    case Some(x) => FormatSeconds(x)
    case None => "0:00"
  }

  // ---------------------------------------------------------------- the rows

  /** A row the loop skips: empty or shorter than five fields. */
  predicate Skipped(row: Row)
  {
    |row| < 5
  }

  /** The rows that become detections, in order. */
  function Kept(rows: seq<Row>): (kept: seq<Row>)
    ensures |kept| <= |rows|
    ensures forall k :: 0 <= k < |kept| ==> !Skipped(kept[k]) && kept[k] in rows
  {
    if rows == [] then []
    else if Skipped(rows[0]) then Kept(rows[1..])
    else [rows[0]] + Kept(rows[1..])
  }

  /** The detection a row describes, once its confidence field reads as a
      number. The label is the sixth field when there is one, otherwise
      "Common (Scientific)". */
  function ToDetection(row: Row, confidence: real): (d: Detection)
    requires !Skipped(row)
    ensures d.startTime == FormatTime(row[0]) && d.endTime == FormatTime(row[1])
    ensures d.scientificName == row[2] && d.commonName == row[3] && d.confidence == confidence
    ensures |row| > 5 ==> d.labelText == row[5]
    ensures |row| == 5 ==> d.labelText == row[3] + " (" + row[2] + ")"
  {
    Detection(FormatTime(row[0]), FormatTime(row[1]), row[2], row[3], confidence,
              if |row| > 5 then row[5] else row[3] + " (" + row[2] + ")")
  }

  /** The data rows after the header: the detections of the kept rows in
      order, or the first confidence field that `float()` rejects (the whole
      parse raises). */
  function ParseRows(rows: seq<Row>): Result<seq<Detection>, string>
  {
    if rows == [] then Success([])
    else if Skipped(rows[0]) then ParseRows(rows[1..])
    else
      match PyFloat(rows[0][4])
      case None => Failure(rows[0][4])
      case Some(c) =>
        match ParseRows(rows[1..])
        case Success(rest) => Success([ToDetection(rows[0], c)] + rest)
        case Failure(e) => Failure(e)
  }

  /** The whole table: the first row is the header and is never read. */
  function ParseCsv(rows: seq<Row>): Result<seq<Detection>, string>
  {
    if rows == [] then Success([]) else ParseRows(rows[1..])
  }

  /** Every kept row has a confidence field `float()` reads. */
  predicate ConfidencesReadable(rows: seq<Row>)
  {
    forall k :: 0 <= k < |Kept(rows)| ==> PyFloat(Kept(rows)[k][4]).Some?
  }

  /** `ds` holds one detection per kept row of `rows`, in order, each with
      the confidence its row's field reads as. */
  predicate Describes(ds: seq<Detection>, rows: seq<Row>)
  {
    && ConfidencesReadable(rows)
    && |ds| == |Kept(rows)|
    && forall k :: 0 <= k < |ds| ==> ds[k] == ToDetection(Kept(rows)[k], PyFloat(Kept(rows)[k][4]).value)
  }

  /** The parse succeeds exactly when every kept row's confidence reads as a
      number, and then yields one detection per kept row, in order. */
  lemma {:induction false} ParseRowsMeaning(rows: seq<Row>)
    ensures ParseRows(rows).Success? <==> ConfidencesReadable(rows)
    ensures ParseRows(rows).Success? ==> Describes(ParseRows(rows).value, rows)
  {
    if rows != [] {
      ParseRowsMeaning(rows[1..]);
      if Skipped(rows[0]) {
        assert Kept(rows) == Kept(rows[1..]);
      } else {
        ReadableStep(rows);
        if PyFloat(rows[0][4]).Some? && ParseRows(rows[1..]).Success? {
          DescribesStep(rows, PyFloat(rows[0][4]).value, ParseRows(rows[1..]).value);
        }
      }
    }
  }

  /** A kept first row is readable and so are the rest, or the table is not. */
  lemma ReadableStep(rows: seq<Row>)
    requires rows != [] && !Skipped(rows[0])
    ensures ConfidencesReadable(rows) <==> PyFloat(rows[0][4]).Some? && ConfidencesReadable(rows[1..])
  {
    var kept := Kept(rows);
    var rest := Kept(rows[1..]);
    assert kept == [rows[0]] + rest;
    if ConfidencesReadable(rows) {
      assert PyFloat(kept[0][4]).Some?;
      forall k | 0 <= k < |rest| ensures PyFloat(rest[k][4]).Some? {
        assert rest[k] == kept[k + 1];
      }
    }
    if PyFloat(rows[0][4]).Some? && ConfidencesReadable(rows[1..]) {
      forall k | 0 <= k < |kept| ensures PyFloat(kept[k][4]).Some? {
        if k > 0 {
          assert kept[k] == rest[k - 1];
        }
      }
    }
  }

  /** The first kept row's detection in front of the detections of the rest
      describes the whole table. */
  lemma DescribesStep(rows: seq<Row>, c: real, rest: seq<Detection>)
    requires rows != [] && !Skipped(rows[0]) && PyFloat(rows[0][4]) == Some(c)
    requires Describes(rest, rows[1..])
    ensures Describes([ToDetection(rows[0], c)] + rest, rows)
  {
    var kept := Kept(rows);
    assert kept == [rows[0]] + Kept(rows[1..]);
    ReadableStep(rows);
    var ds := [ToDetection(rows[0], c)] + rest;
    forall k | 0 <= k < |ds|
      ensures ds[k] == ToDetection(kept[k], PyFloat(kept[k][4]).value)
    {
      if k > 0 {
        assert ds[k] == rest[k - 1];
        assert kept[k] == Kept(rows[1..])[k - 1];
      }
    }
  }

  /** Hence the output never has more detections than there are data rows. */
  lemma ParseCsvCount(rows: seq<Row>)
    requires ParseCsv(rows).Success?
    ensures rows != [] ==> |ParseCsv(rows).value| <= |rows| - 1
    ensures rows == [] ==> ParseCsv(rows).value == []
  {
    if rows != [] {
      ParseRowsMeaning(rows[1..]);
    }
  }

  /** The header is never parsed: any header, even one whose fifth field is
      not a number, gives the same outcome. */
  lemma HeaderIgnored(h1: Row, h2: Row, rows: seq<Row>)
    ensures ParseCsv([h1] + rows) == ParseCsv([h2] + rows)
  {
    assert ([h1] + rows)[1..] == rows;
    assert ([h2] + rows)[1..] == rows;
  }

  /** The outcome of a parse with `ds` found before it. */
  function Prepend(ds: seq<Detection>, r: Result<seq<Detection>, string>): Result<seq<Detection>, string>
  {
    match r
    case Success(rest) => Success(ds + rest)
    case Failure(e) => Failure(e)
  }

  lemma PrependNothing(r: Result<seq<Detection>, string>)
    ensures Prepend([], r) == r
  {
    if r.Success? {
      assert [] + r.value == r.value;
    }
  }

  lemma PrependAppend(ds: seq<Detection>, d: Detection, r: Result<seq<Detection>, string>)
    ensures Prepend(ds, Prepend([d], r)) == Prepend(ds + [d], r)
  {
    if r.Success? {
      assert ds + ([d] + r.value) == ds + [d] + r.value;
    }
  }

  /** One kept row with a readable confidence contributes its detection in
      front of the rest. */
  lemma ParseRowsKeptRow(rows: seq<Row>)
    requires rows != [] && !Skipped(rows[0]) && PyFloat(rows[0][4]).Some?
    ensures ParseRows(rows) == Prepend([ToDetection(rows[0], PyFloat(rows[0][4]).value)], ParseRows(rows[1..]))
  {
  }

  /** `parse_results_csv`: skip the header, then walk the rows appending one
      detection per kept row; an unreadable confidence ends the parse. */
  method ParseResultsCsv(rows: seq<Row>) returns (r: Result<seq<Detection>, string>)
    ensures r == ParseCsv(rows)
  {
    if rows == [] {
      return Success([]);
    }
    var detections: seq<Detection> := [];
    var i := 1;
    PrependNothing(ParseRows(rows[1..]));
    while i < |rows|
      invariant 1 <= i <= |rows|
      invariant ParseRows(rows[1..]) == Prepend(detections, ParseRows(rows[i..]))
    {
      var row := rows[i];
      assert rows[i..][0] == row && rows[i..][1..] == rows[i + 1..];
      if !Skipped(row) {
        match PyFloat(row[4]) {
          case None =>
            return Failure(row[4]);
          case Some(confidence) =>
            var d := ToDetection(row, confidence);
            ParseRowsKeptRow(rows[i..]);
            PrependAppend(detections, d, ParseRows(rows[i + 1..]));
            detections := detections + [d];
        }
      }
      i := i + 1;
    }
    assert rows[i..] == [];
    assert detections + [] == detections;
    return Success(detections);
  }
}
