/**
 * The browser-side analytics engine of the dashboard (enhanced version): the
 * user-activity and security-event buffers, the per-message least-squares
 * prediction over the last ten points with its confidence figure, the
 * two-sigma detector over the last ten points, the event counter and rate,
 * the reset, and the CSV export of every message received.
 *
 * Chart drawing, DOM writes and the download link are not modelled; what the
 * engine shows or emits (the predicted value and confidence, `anomalyDetected`,
 * `dataReceived`, `error`) is returned as a list of events.
 */
module EnhancedClient {
  import opened Wrappers
  import opened Bounded
  import opened Stats

  /** Prediction needs this many buffered points, and fits at most the last PredictionWindow. */
  const PredictionMinPoints: nat := 5
  const PredictionWindow: nat := 10
  /** Detection needs this many buffered points, and looks at the last DetectionWindow. */
  const DetectionMinPoints: nat := 10
  const DetectionWindow: nat := 10

  /** The keys of the constructor's `config` argument that the engine reads; None stands for an absent key. */
  datatype Config = Config(
    maxDataPoints: Option<nat>,
    enablePredictiveAnalytics: Option<bool>,
    enableAnomalyDetection: Option<bool>)

  /** `config.flag !== false`, then overwritten by the spread: on unless explicitly false. */
  function FlagEnabled(configured: Option<bool>): (on: bool)
    ensures on <==> configured != Some(false)
  {
    configured.None? || configured.value
  }

  /** Which canvases the page holds; a chart and its buffer exist only for these. */
  datatype Canvases = Canvases(userActivity: bool, systemMetrics: bool, businessKpis: bool, securityEvents: bool)

  /** The payload fields the engine reads; the charts of the other fields are not modelled. */
  datatype Payload = Payload(activeUsers: Option<real>, eventCount: Option<real>)

  /** A real-time message: its `type` and its payload, if any. */
  datatype Incoming = Incoming(kind: string, payload: Option<Payload>)

  /** What every message leaves in the export log. */
  datatype ExportRecord = ExportRecord(timestamp: int, kind: string, payload: Option<Payload>)

  /** A prediction: the extrapolated value, the number shown for it, and the confidence (None is NaN). */
  datatype Prediction = Prediction(predicted: real, shown: int, confidence: Option<real>)

  datatype ClientEvent =
    | DataReceived
    | HandlerError
    | Predicted(prediction: Prediction)
    /** The thresholds are mean +- 2 * sqrt(variance). */
    | AnomalyDetected(value: real, mean: real, variance: real)

  /** A message whose handler dereferences a missing payload, so the handler throws and reports an error. */
  predicate Throws(m: Incoming, c: Canvases)
  {
    m.payload.None? &&
    ((m.kind == "user_activity" && c.userActivity)
     || (m.kind == "system_metrics" && c.systemMetrics)
     || (m.kind == "business_kpis" && c.businessKpis)
     || (m.kind == "security_events" && c.securityEvents))
  }

  // ---------------------------------------------------------------------
  // Prediction

  /** `Math.max(0, Math.round(predicted))`: never negative, and the nearest integer otherwise. */
  function Shown(predicted: real): (s: int)
    ensures s >= 0
    ensures predicted >= 0.0 ==> (s as real) - 0.5 <= predicted < (s as real) + 0.5
    ensures predicted < -0.5 ==> s == 0
  {
    Max0(Round(predicted))
  }

  function Max0(k: int): int { if k > 0 then k else 0 }

  /**
   * `Math.max(0, Math.min(100, 100 - (std / mean) * 100))` under IEEE
   * arithmetic: for mean 0 the quotient is NaN (std 0) or an infinity.
   */
  function Confidence(mean: real, std: real): (c: Option<real>)
    ensures c.None? <==> mean == 0.0 && std == 0.0
    ensures c.Some? ==> 0.0 <= c.value <= 100.0
    ensures mean != 0.0 && std == 0.0 ==> c == Some(100.0)
  {
    if mean == 0.0 then
      if std == 0.0 then None else if std > 0.0 then Some(0.0) else Some(100.0)
    else
      Some(Max(0.0, Min(100.0, 100.0 - std / mean * 100.0)))
  }

  /** For a positive mean, a wider spread never raises the confidence. */
  lemma ConfidenceFallsWithSpread(mean: real, s1: real, s2: real)
    requires mean > 0.0 && s1 <= s2
    ensures Confidence(mean, s2).value <= Confidence(mean, s1).value
  {
    assert s1 / mean <= s2 / mean;
  }

  /** A spread at least as large as a positive mean gives confidence 0. */
  lemma ConfidenceZeroForWideSpread(mean: real, std: real)
    requires mean > 0.0 && std >= mean
    ensures Confidence(mean, std) == Some(0.0)
  {
    assert std / mean >= 1.0;
  }

  /** The line's value at x = n. */
  function Extrapolate(line: Line, n: nat): real
  {
    line.slope * (n as real) + line.intercept
  }

  /**
   * `performPredictiveAnalysis`: nothing below five buffered points; otherwise
   * the least-squares line through the last min(length, 10) points, evaluated
   * at x = points.length, and the confidence from their mean and standard
   * deviation (`sqrt` is `Math.sqrt`).
   */
  function PredictionFor(buffer: seq<real>, sqrt: real -> real): (p: Option<Prediction>)
    ensures p.Some? <==> |buffer| >= PredictionMinPoints
    ensures p.Some? ==> p.value.shown >= 0
    ensures p.Some? && Mean(KeepLast(buffer, PredictionWindow)) != 0.0 ==>
      p.value.confidence.Some? && 0.0 <= p.value.confidence.value <= 100.0
  {
    if |buffer| < PredictionMinPoints then None
    else
      var points := KeepLast(buffer, PredictionWindow);
      var line := FitLine(points);
      var predicted := Extrapolate(line, |points|);
      Some(Prediction(predicted, Shown(predicted), Confidence(Mean(points), sqrt(Variance(points)))))
  }

  /**
   * Points lying exactly on y = a*x + b are extrapolated exactly to
   * x = points.length; `PredictionFor` predicts `Extrapolate(FitLine(points), |points|)`
   * for the last min(length, 10) buffered points.
   */
  lemma PredictionExtrapolatesExactLine(points: seq<real>, a: real, b: real)
    requires |points| >= 2 && OnLine(points, a, b)
    ensures Extrapolate(FitLine(points), |points|) == a * (|points| as real) + b
  {
    FitExactLine(points, a, b);
  }

  /** The accumulating loop of `performPredictiveAnalysis`: the sums of x, y, xy and xx over x = 0 .. n-1. */
  method AccumulateSums(points: seq<real>) returns (sumX: real, sumY: real, sumXY: real, sumXX: real)
    ensures sumX == SumX(|points|) && sumXX == SumXX(|points|)
    ensures sumY == Sum(points) && sumXY == SumXY(points)
  {
    sumX, sumY, sumXY, sumXX := 0.0, 0.0, 0.0, 0.0;
    for i := 0 to |points|
      invariant sumX == SumX(i) && sumXX == SumXX(i)
      invariant sumY == Sum(points[..i]) && sumXY == SumXY(points[..i])
    {
      assert points[..i + 1][..i] == points[..i];
      var x := i as real;
      var y := points[i];
      sumX := sumX + x;
      sumY := sumY + y;
      sumXY := sumXY + x * y;
      sumXX := sumXX + x * x;
    }
    assert points[..|points|] == points;
  }

  /** The slope and intercept computed from the accumulated sums, as `LineFromSums` does: the least-squares line. */
  method FitWindow(points: seq<real>) returns (line: Line)
    requires |points| >= 2
    ensures line == FitLine(points)
  {
    var sumX, sumY, sumXY, sumXX := AccumulateSums(points);
    var n := |points| as real;
    var den := n * sumXX - sumX * sumX;
    assert den == Denominator(|points|);
    assert den > 0.0 by { DenominatorClosed(|points|); }
    line := LineFromSums(n, sumX, sumY, sumXY, den);
  }

  /** `performPredictiveAnalysis` over the user-activity buffer. */
  method PerformPredictiveAnalysis(buffer: seq<real>, sqrt: real -> real) returns (p: Option<Prediction>)
    ensures p == PredictionFor(buffer, sqrt)
  {
    if |buffer| < PredictionMinPoints {
      return None;
    }
    var points := KeepLast(buffer, PredictionWindow);
    var line := FitWindow(points);
    var predicted := Extrapolate(line, |points|);
    var mean := Mean(points);
    var std := sqrt(Variance(points));
    p := Some(Prediction(predicted, Shown(predicted), Confidence(mean, std)));
  }

  // ---------------------------------------------------------------------
  // Detection

  /** Strictly more than two population standard deviations from the window's mean, on squares. */
  predicate TwoSigmaOutlier(v: real, window: seq<real>)
    requires |window| > 0
  {
    var d := v - Mean(window);
    d * d > 4.0 * Variance(window)
  }

  /** Outside [-t, t] exactly when the square exceeds t^2, for t >= 0. */
  lemma OutsideBySquares(d: real, t: real)
    requires t >= 0.0
    ensures (d > t || d < -t) <==> d * d > t * t
  {
    assert (-d) * (-d) == d * d;
    if d >= 0.0 {
      SquareMonotone(d, t);
    } else {
      SquareMonotone(-d, t);
    }
  }

  /** Squaring is strictly increasing on the non-negative numbers. */
  lemma SquareMonotone(x: real, y: real)
    requires x >= 0.0 && y >= 0.0
    ensures x > y <==> x * x > y * y
  {
    var xx, xy, yy := x * x, x * y, y * y;
    if x > y {
      MulMonotone(x, x, y, xx, xy);
      MulMonotone(y, x, y, xy, yy);
    } else {
      MulMonotone(y, y, x, yy, xy);
      MulMonotone(x, y, x, xy, xx);
    }
  }

  /** Multiplying by a non-negative `c` keeps an order, and by a positive one a strict order. */
  lemma MulMonotone(c: real, a: real, b: real, ac: real, bc: real)
    requires c >= 0.0 && a >= b && ac == a * c && bc == b * c
    ensures ac >= bc
    ensures c > 0.0 && a > b ==> ac > bc
  {
    var d := a - b;
    assert ac - bc == d * c;
    if c > 0.0 && d > 0.0 {
      assert d * c > 0.0;
    }
  }

  /** The source's test against mean +- 2*std is the squared test above, for any std >= 0. */
  lemma ThresholdsAsSquares(v: real, mean: real, std: real)
    requires std >= 0.0
    ensures (v > mean + 2.0 * std || v < mean - 2.0 * std) <==> (v - mean) * (v - mean) > 4.0 * (std * std)
  {
    OutsideBySquares(v - mean, 2.0 * std);
  }

  /**
   * `detectAnomalies`: nothing below ten buffered points or without a numeric
   * `activeUsers` (a missing value compares false both ways); otherwise an
   * event iff the value lies strictly outside mean +- 2 std of the last ten values.
   */
  function AnomalyFor(buffer: seq<real>, activeUsers: Option<real>): (e: Option<ClientEvent>)
    ensures e.Some? ==> |buffer| >= DetectionMinPoints && activeUsers.Some?
    ensures e.Some? ==> e.value.AnomalyDetected? && e.value.value == activeUsers.value
    ensures |buffer| >= DetectionMinPoints && activeUsers.Some? ==>
      (e.Some? <==> TwoSigmaOutlier(activeUsers.value, KeepLast(buffer, DetectionWindow)))
  {
    if |buffer| < DetectionMinPoints || activeUsers.None? then None
    else
      var window := KeepLast(buffer, DetectionWindow);
      if TwoSigmaOutlier(activeUsers.value, window)
      then Some(AnomalyDetected(activeUsers.value, Mean(window), Variance(window)))
      else None
  }

  /**
   * When the value tested is the window's own newest entry (as after a push),
   * a reported anomaly lies between two and three standard deviations out.
   */
  lemma AnomalyWithinThreeSigma(buffer: seq<real>, v: real)
    requires |buffer| >= DetectionMinPoints && buffer[|buffer| - 1] == v
    requires AnomalyFor(buffer, Some(v)).Some?
    ensures var w := KeepLast(buffer, DetectionWindow);
            var d := v - Mean(w);
            4.0 * Variance(w) < d * d <= 9.0 * Variance(w)
  {
    var w := KeepLast(buffer, DetectionWindow);
    assert w[|w| - 1] == v;
    LastValueDeviationBound(w);
  }

  // ---------------------------------------------------------------------
  // Rate

  /**
   * `totalEvents / (uptime / 1000)` in events per second; None for a zero
   * uptime, where the quotient is NaN or an infinity.
   */
  function Rate(totalEvents: nat, uptime: int): (r: Option<real>)
    ensures r.None? <==> uptime == 0
    ensures r.Some? ==> r.value * (uptime as real) == 1000.0 * (totalEvents as real)
    ensures r.Some? && uptime > 0 ==> r.value >= 0.0
  {
    if uptime == 0 then None else Some((totalEvents as real) / ((uptime as real) / 1000.0))
  }

  // ---------------------------------------------------------------------
  // CSV export

  const Header: string := "Timestamp,Type,Payload\n"

  /** Every `"` doubled, as section 2 rule 7 of RFC 4180 requires inside a quoted field. */
  function Doubled(f: string): (r: string)
    ensures |r| >= |f|
  {
    if |f| == 0 then ""
    else (if f[0] == '"' then "\"\"" else [f[0]]) + Doubled(f[1..])
  }

  /** One field in quotes; with `escape` false the inner quotes are left as they are. */
  function Field(f: string, escape: bool): string
  {
    "\"" + (if escape then Doubled(f) else f) + "\""
  }

  /** A record: its fields quoted, joined by commas, ended by a line feed. */
  function EncodeRecord(fields: seq<string>, escape: bool): (r: string)
    requires |fields| > 0
    decreases |fields|
  {
    Field(fields[0], escape) + (if |fields| == 1 then "\n" else "," + EncodeRecord(fields[1..], escape))
  }

  function EncodeRows(rows: seq<seq<string>>, escape: bool): string
    requires forall i :: 0 <= i < |rows| ==> |rows[i]| > 0
  {
    if |rows| == 0 then "" else EncodeRecord(rows[0], escape) + EncodeRows(rows[1..], escape)
  }

  /** The document: the header line, then one record per row. */
  function CsvText(rows: seq<seq<string>>, escape: bool): string
    requires forall i :: 0 <= i < |rows| ==> |rows[i]| > 0
  {
    Header + EncodeRows(rows, escape)
  }

  /** The three fields exported for each record; `iso` is `toISOString`, `json` is `JSON.stringify`. */
  function ExportRows(log: seq<ExportRecord>, iso: int -> string, json: Option<Payload> -> string): (rows: seq<seq<string>>)
    ensures |rows| == |log|
    ensures forall i :: 0 <= i < |log| ==> rows[i] == [iso(log[i].timestamp), log[i].kind, json(log[i].payload)]
  {
    seq(|log|, i requires 0 <= i < |log| => [iso(log[i].timestamp), log[i].kind, json(log[i].payload)])
  }

  // An RFC 4180 reader for documents of quoted fields and line-feed line ends.

  /** Reads a quoted field after its opening quote: its content, and what follows the closing quote. */
  function ParseQuoted(s: string): (r: Option<(string, string)>)
    ensures r.Some? ==> |r.value.1| < |s|
    decreases |s|
  {
    if |s| == 0 then None
    else if s[0] == '"' then
      if |s| >= 2 && s[1] == '"' then
        var inner := ParseQuoted(s[2..]);
        if inner.None? then None else Some(("\"" + inner.value.0, inner.value.1))
      else Some(("", s[1..]))
    else
      var inner := ParseQuoted(s[1..]);
      if inner.None? then None else Some(([s[0]] + inner.value.0, inner.value.1))
  }

  /** Reads one record up to and including its line feed. */
  function ParseRecord(s: string): (r: Option<(seq<string>, string)>)
    ensures r.Some? ==> |r.value.1| < |s|
    decreases |s|
  {
    if |s| == 0 || s[0] != '"' then None
    else
      var q := ParseQuoted(s[1..]);
      if q.None? then None
      else
        var f, rest := q.value.0, q.value.1;
        if |rest| > 0 && rest[0] == '\n' then Some(([f], rest[1..]))
        else if |rest| > 0 && rest[0] == ',' then
          var more := ParseRecord(rest[1..]);
          if more.None? then None else Some(([f] + more.value.0, more.value.1))
        else None
  }

  function ParseRows(s: string): Option<seq<seq<string>>>
    decreases |s|
  {
    if |s| == 0 then Some([])
    else
      var r := ParseRecord(s);
      if r.None? then None
      else
        var more := ParseRows(r.value.1);
        if more.None? then None else Some([r.value.0] + more.value)
  }

  function ParseCsv(text: string): Option<seq<seq<string>>>
  {
    if |text| >= |Header| && text[..|Header|] == Header then ParseRows(text[|Header|..]) else None
  }

  lemma {:induction false} ParseQuotedDoubled(f: string, rest: string)
    requires |rest| == 0 || rest[0] != '"'
    ensures ParseQuoted(Doubled(f) + "\"" + rest) == Some((f, rest))
    decreases |f|
  {
    var s := Doubled(f) + "\"" + rest;
    if |f| == 0 {
      assert s == "\"" + rest;
    } else {
      ParseQuotedDoubled(f[1..], rest);
      var tail := Doubled(f[1..]) + "\"" + rest;
      assert f == [f[0]] + f[1..];
      if f[0] == '"' {
        assert s == "\"\"" + tail;
        assert s[2..] == tail;
      } else {
        assert s == [f[0]] + tail;
        assert s[1..] == tail;
      }
    }
  }

  /** A doubled field between quotes, followed by anything but a quote, reads back as the field. */
  lemma ParseField(f: string, after: string)
    requires |after| == 0 || after[0] != '"'
    ensures var s := Field(f, true) + after;
            |s| > 0 && s[0] == '"' && ParseQuoted(s[1..]) == Some((f, after))
  {
    var s := Field(f, true) + after;
    assert s[1..] == Doubled(f) + "\"" + after;
    ParseQuotedDoubled(f, after);
  }

  lemma {:induction false} ParseEncodedRecord(fields: seq<string>, rest: string)
    requires |fields| > 0
    ensures ParseRecord(EncodeRecord(fields, true) + rest) == Some((fields, rest))
    decreases |fields|
  {
    var tail := if |fields| == 1 then "\n" else "," + EncodeRecord(fields[1..], true);
    assert EncodeRecord(fields, true) + rest == Field(fields[0], true) + (tail + rest);
    ParseField(fields[0], tail + rest);
    if |fields| > 1 {
      ParseEncodedRecord(fields[1..], rest);
      assert (tail + rest)[1..] == EncodeRecord(fields[1..], true) + rest;
      assert fields == [fields[0]] + fields[1..];
    } else {
      assert (tail + rest)[1..] == rest;
      assert fields == [fields[0]];
    }
  }

  lemma {:induction false} ParseEncodedRows(rows: seq<seq<string>>)
    requires forall i :: 0 <= i < |rows| ==> |rows[i]| > 0
    ensures ParseRows(EncodeRows(rows, true)) == Some(rows)
  {
    if |rows| > 0 {
      ParseEncodedRecord(rows[0], EncodeRows(rows[1..], true));
      ParseEncodedRows(rows[1..]);
      assert rows == [rows[0]] + rows[1..];
    }
  }

  /** The `+=` loop of `exportDataAsCSV`: the header, then one quoted record per row. */
  method BuildCsv(rows: seq<seq<string>>, escape: bool) returns (text: string)
    requires forall i :: 0 <= i < |rows| ==> |rows[i]| > 0
    ensures text == CsvText(rows, escape)
  {
    text := Header;
    for i := 0 to |rows|
      invariant text == Header + EncodeRows(rows[..i], escape)
    {
      EncodeRowsAppend(rows[..i], rows[i], escape);
      assert rows[..i + 1] == rows[..i] + [rows[i]];
      text := text + EncodeRecord(rows[i], escape);
    }
    assert rows[..|rows|] == rows;
  }

  /** No field of any row holds a double quote. */
  predicate QuoteFree(rows: seq<seq<string>>)
  {
    forall i, j, k :: 0 <= i < |rows| && 0 <= j < |rows[i]| && 0 <= k < |rows[i][j]| ==> rows[i][j][k] != '"'
  }

  lemma {:induction false} QuoteFreeRecord(fields: seq<string>)
    requires |fields| > 0
    requires forall j, k :: 0 <= j < |fields| && 0 <= k < |fields[j]| ==> fields[j][k] != '"'
    ensures EncodeRecord(fields, false) == EncodeRecord(fields, true)
    decreases |fields|
  {
    DoubledQuoteFree(fields[0]);
    if |fields| > 1 {
      QuoteFreeRecord(fields[1..]);
    }
  }

  /** Without quotes in the data, doubling changes nothing: both exports are the same text. */
  lemma {:induction false} QuoteFreeRowsSameText(rows: seq<seq<string>>)
    requires forall i :: 0 <= i < |rows| ==> |rows[i]| > 0
    requires QuoteFree(rows)
    ensures EncodeRows(rows, false) == EncodeRows(rows, true)
  {
    if |rows| > 0 {
      QuoteFreeRecord(rows[0]);
      assert QuoteFree(rows[1..]) by {
        forall i, j, k | 0 <= i < |rows[1..]| && 0 <= j < |rows[1..][i]| && 0 <= k < |rows[1..][i][j]|
          ensures rows[1..][i][j][k] != '"'
        {
          assert rows[1..][i] == rows[i + 1];
        }
      }
      QuoteFreeRowsSameText(rows[1..]);
    }
  }

  /** The export as written still reads back whenever no field holds a quote. */
  lemma QuoteFreeExportReadsBack(rows: seq<seq<string>>)
    requires forall i :: 0 <= i < |rows| ==> |rows[i]| > 0
    requires QuoteFree(rows)
    ensures ParseCsv(CsvText(rows, false)) == Some(rows)
  {
    QuoteFreeRowsSameText(rows);
    CsvRoundTrip(rows);
  }

  /** The corrected export reads back, record by record, as exactly the rows written. */
  lemma CsvRoundTrip(rows: seq<seq<string>>)
    requires forall i :: 0 <= i < |rows| ==> |rows[i]| > 0
    ensures ParseCsv(CsvText(rows, true)) == Some(rows)
  {
    var text := CsvText(rows, true);
    assert text[..|Header|] == Header;
    assert text[|Header|..] == EncodeRows(rows, true);
    ParseEncodedRows(rows);
  }

  lemma {:induction false} EncodeRowsAppend(rows: seq<seq<string>>, r: seq<string>, escape: bool)
    requires forall i :: 0 <= i < |rows| ==> |rows[i]| > 0
    requires |r| > 0
    ensures EncodeRows(rows + [r], escape) == EncodeRows(rows, escape) + EncodeRecord(r, escape)
  {
    if |rows| > 0 {
      assert (rows + [r])[1..] == rows[1..] + [r];
      EncodeRowsAppend(rows[1..], r, escape);
    } else {
      assert EncodeRows([r], escape) == EncodeRecord(r, escape) + EncodeRows([], escape);
    }
  }

  lemma {:induction false} DoubledQuoteFree(x: string)
    requires forall i :: 0 <= i < |x| ==> x[i] != '"'
    ensures Doubled(x) == x
  {
    if |x| > 0 {
      DoubledQuoteFree(x[1..]);
      assert x == [x[0]] + x[1..];
    }
  }

  /** A record whose first field is quote-free reads that field, then the rest of the record. */
  lemma SkipQuoteFreeField(x: string, s: string)
    requires forall i :: 0 <= i < |x| ==> x[i] != '"'
    ensures ParseRecord(Field(x, false) + "," + s).None? <==> ParseRecord(s).None?
  {
    DoubledQuoteFree(x);
    assert Field(x, false) + "," + s == Field(x, true) + ("," + s);
    ParseField(x, "," + s);
    assert ("," + s)[1..] == s;
  }

  /** A field holding a quote followed by an ordinary character ends at that quote, and the record is rejected. */
  lemma CutAtInnerQuote(x: string, c: char, y: string)
    requires forall i :: 0 <= i < |x| ==> x[i] != '"'
    requires c != '"' && c != ',' && c != '\n'
    ensures ParseRecord("\"" + x + "\"" + [c] + y).None?
  {
    DoubledQuoteFree(x);
    assert "\"" + x + "\"" + [c] + y == Field(x, true) + ([c] + y);
    ParseField(x, [c] + y);
  }

  /**
   * The export as the source writes it: a payload whose JSON text holds a
   * quote, such as `{"k":1}`, is cut at that quote by an RFC 4180 reader, and
   * the document does not read back.
   */
  lemma UnescapedExportIsUnreadable()
    ensures var rows := [["T", "user_activity", "{\"k\":1}"]];
            ParseCsv(CsvText(rows, false)) != Some(rows)
  {
    var rows := [["T", "user_activity", "{\"k\":1}"]];
    var third := Field("{\"k\":1}", false) + "\n";
    var second := Field("user_activity", false) + "," + third;
    var first := Field("T", false) + "," + second;
    assert EncodeRows(rows, false) == first by {
      assert EncodeRecord(rows[0][2..], false) == third;
      assert EncodeRecord(rows[0][1..], false) == second;
    }
    var text := CsvText(rows, false);
    assert text[..|Header|] == Header;
    assert text[|Header|..] == first;
    assert ParseRecord(third).None? by {
      assert third == "\"" + "{" + "\"" + ['k'] + "\":1}\"\n";
      CutAtInnerQuote("{", 'k', "\":1}\"\n");
    }
    SkipQuoteFreeField("user_activity", third);
    SkipQuoteFreeField("T", second);
  }

  // ---------------------------------------------------------------------
  // The engine

  class Dashboard {
    const maxDataPoints: nat
    const predictiveAnalytics: bool
    const anomalyDetection: bool
    const canvases: Canvases

    /** The user-activity buffer (the chart points' `y` values) and everything pushed onto it since the last reset. */
    var activityBuffer: seq<real>
    ghost var activityPushed: seq<real>
    /** The security-events buffer and its pushes. */
    var securityBuffer: seq<real>
    ghost var securityPushed: seq<real>

    var totalEvents: nat
    /** None stands for the NaN or infinity of a zero uptime. */
    var eventsPerSecond: Option<real>
    var lastUpdate: Option<int>
    /** The connection time, in milliseconds; reset to 0 with the other metrics. */
    var connectionUptime: int
    var isConnected: bool
    var exportLog: seq<ExportRecord>

    ghost predicate Valid()
      reads this`activityBuffer, this`activityPushed, this`securityBuffer, this`securityPushed,
            this`totalEvents, this`exportLog
    {
      activityBuffer == KeepLast(activityPushed, maxDataPoints)
      && securityBuffer == KeepLast(securityPushed, maxDataPoints)
      && (!canvases.userActivity ==> activityPushed == [])
      && (!canvases.securityEvents ==> securityPushed == [])
      && totalEvents == |exportLog|
    }

    /** Construction with the charts set up for the canvases present. */
    constructor (config: Config, present: Canvases)
      ensures Valid()
      ensures maxDataPoints == ResolveCapacity(config.maxDataPoints)
      ensures predictiveAnalytics == FlagEnabled(config.enablePredictiveAnalytics)
      ensures anomalyDetection == FlagEnabled(config.enableAnomalyDetection)
      ensures canvases == present
      ensures activityBuffer == [] && securityBuffer == [] && exportLog == []
      ensures totalEvents == 0 && eventsPerSecond == Some(0.0) && lastUpdate == None
      ensures connectionUptime == 0 && !isConnected
    {
      maxDataPoints := ResolveCapacity(config.maxDataPoints);
      predictiveAnalytics := FlagEnabled(config.enablePredictiveAnalytics);
      anomalyDetection := FlagEnabled(config.enableAnomalyDetection);
      canvases := present;
      activityBuffer, activityPushed := [], [];
      securityBuffer, securityPushed := [], [];
      totalEvents, eventsPerSecond, lastUpdate := 0, Some(0.0), None;
      connectionUptime, isConnected := 0, false;
      exportLog := [];
    }

    /** Both live buffers are bounded and hold their most recent pushes in push order. */
    lemma BuffersAreRecentWindows()
      requires Valid()
      ensures |activityBuffer| <= maxDataPoints && |securityBuffer| <= maxDataPoints
      ensures forall i :: 0 <= i < |activityBuffer| ==>
        activityBuffer[i] == activityPushed[|activityPushed| - |activityBuffer| + i]
      ensures forall i :: 0 <= i < |securityBuffer| ==>
        securityBuffer[i] == securityPushed[|securityPushed| - |securityBuffer| + i]
    {
    }

    /** The socket's `connect` handler. */
    method OnConnect(now: int)
      modifies this`isConnected, this`connectionUptime
      ensures isConnected && connectionUptime == now
    {
      isConnected, connectionUptime := true, now;
    }

    /** The socket's `disconnect` handler. */
    method OnDisconnect()
      modifies this`isConnected
      ensures !isConnected
    {
      isConnected := false;
    }

    /** `updateUserActivityChart`: push `activeUsers || 0`, shift once when over capacity. */
    method UpdateUserActivityChart(activeUsers: Option<real>)
      requires Valid()
      modifies this`activityBuffer, this`activityPushed
      ensures Valid()
      ensures canvases.userActivity ==> activityPushed == old(activityPushed) + [OrZero(activeUsers)]
      ensures !canvases.userActivity ==> activityBuffer == old(activityBuffer) && activityPushed == old(activityPushed)
    {
      if !canvases.userActivity {
        return;
      }
      KeepLastPush(activityPushed, OrZero(activeUsers), maxDataPoints);
      activityBuffer := PushShift(activityBuffer, OrZero(activeUsers), maxDataPoints);
      activityPushed := activityPushed + [OrZero(activeUsers)];
    }

    /** `updateSecurityEventsChart`: push `eventCount || 0`, shift once when over capacity. */
    method UpdateSecurityEventsChart(eventCount: Option<real>)
      requires Valid()
      modifies this`securityBuffer, this`securityPushed
      ensures Valid()
      ensures canvases.securityEvents ==> securityPushed == old(securityPushed) + [OrZero(eventCount)]
      ensures !canvases.securityEvents ==> securityBuffer == old(securityBuffer) && securityPushed == old(securityPushed)
    {
      if !canvases.securityEvents {
        return;
      }
      KeepLastPush(securityPushed, OrZero(eventCount), maxDataPoints);
      securityBuffer := PushShift(securityBuffer, OrZero(eventCount), maxDataPoints);
      securityPushed := securityPushed + [OrZero(eventCount)];
    }

    /** The analysis a user-activity message triggers, given the buffer after its push. */
    method AnalyseUserActivity(buffer: seq<real>, activeUsers: Option<real>, sqrt: real -> real)
      returns (events: seq<ClientEvent>)
      ensures events == (if predictiveAnalytics && PredictionFor(buffer, sqrt).Some?
                         then [Predicted(PredictionFor(buffer, sqrt).value)] else [])
                        + (if anomalyDetection && AnomalyFor(buffer, activeUsers).Some?
                           then [AnomalyFor(buffer, activeUsers).value] else [])
    {
      events := [];
      if predictiveAnalytics {
        var p := PerformPredictiveAnalysis(buffer, sqrt);
        if p.Some? {
          events := [Predicted(p.value)];
        }
      }
      if anomalyDetection {
        var a := AnomalyFor(buffer, activeUsers);
        if a.Some? {
          events := events + [a.value];
        }
      }
    }

    /**
     * `handleIncomingData`: count and log the message, update its buffer, run
     * the analysis on user activity, report it; a handler that dereferences a
     * missing payload throws after the counting and logging.
     */
    method HandleIncomingData(m: Incoming, now: int, sqrt: real -> real) returns (events: seq<ClientEvent>)
      requires Valid()
      modifies this`totalEvents, this`lastUpdate, this`exportLog,
               this`activityBuffer, this`activityPushed, this`securityBuffer, this`securityPushed
      ensures Valid()
      ensures totalEvents == old(totalEvents) + 1 && lastUpdate == Some(now)
      ensures exportLog == old(exportLog) + [ExportRecord(now, m.kind, m.payload)]
      ensures if m.kind == "user_activity" && canvases.userActivity && m.payload.Some?
              then activityPushed == old(activityPushed) + [OrZero(m.payload.value.activeUsers)]
              else activityBuffer == old(activityBuffer) && activityPushed == old(activityPushed)
      ensures if m.kind == "security_events" && canvases.securityEvents && m.payload.Some?
              then securityPushed == old(securityPushed) + [OrZero(m.payload.value.eventCount)]
              else securityBuffer == old(securityBuffer) && securityPushed == old(securityPushed)
      ensures Throws(m, canvases) ==> events == [HandlerError]
      ensures !Throws(m, canvases) && !(m.kind == "user_activity" && canvases.userActivity) ==>
        events == [DataReceived]
      ensures !Throws(m, canvases) && m.kind == "user_activity" && canvases.userActivity ==>
        events == (if predictiveAnalytics && PredictionFor(activityBuffer, sqrt).Some?
                   then [Predicted(PredictionFor(activityBuffer, sqrt).value)] else [])
                  + (if anomalyDetection && AnomalyFor(activityBuffer, m.payload.value.activeUsers).Some?
                     then [AnomalyFor(activityBuffer, m.payload.value.activeUsers).value] else [])
                  + [DataReceived]
    {
      totalEvents := totalEvents + 1;
      lastUpdate := Some(now);
      exportLog := exportLog + [ExportRecord(now, m.kind, m.payload)];
      if Throws(m, canvases) {
        return [HandlerError];
      }
      events := [];
      if m.kind == "user_activity" && canvases.userActivity {
        UpdateUserActivityChart(m.payload.value.activeUsers);
        events := AnalyseUserActivity(activityBuffer, m.payload.value.activeUsers, sqrt);
      } else if m.kind == "security_events" && canvases.securityEvents {
        UpdateSecurityEventsChart(m.payload.value.eventCount);
      }
      events := events + [DataReceived];
    }

    /** The 1 Hz timer of `startMetricsCollection`: while connected, events per second of uptime. */
    method MetricsTick(now: int)
      modifies this`eventsPerSecond
      ensures isConnected ==> eventsPerSecond == Rate(totalEvents, now - connectionUptime)
      ensures !isConnected ==> eventsPerSecond == old(eventsPerSecond)
    {
      if isConnected {
        eventsPerSecond := Rate(totalEvents, now - connectionUptime);
      }
    }

    /** `resetDashboard`: empty every buffer, zero the metrics, clear the export log. */
    method ResetDashboard()
      requires Valid()
      modifies this`activityBuffer, this`activityPushed, this`securityBuffer, this`securityPushed,
               this`totalEvents, this`eventsPerSecond, this`lastUpdate, this`connectionUptime, this`exportLog
      ensures Valid()
      ensures activityBuffer == [] && activityPushed == [] && securityBuffer == [] && securityPushed == []
      ensures totalEvents == 0 && eventsPerSecond == Some(0.0) && lastUpdate == None && connectionUptime == 0
      ensures exportLog == []
    {
      activityBuffer, activityPushed := [], [];
      securityBuffer, securityPushed := [], [];
      totalEvents, eventsPerSecond, lastUpdate, connectionUptime := 0, Some(0.0), None, 0;
      exportLog := [];
    }

    /**
     * `exportDataAsCSV` as written: each field in quotes, inner quotes left
     * as they are. It reads back only while no field holds a quote.
     */
    method ExportCsv(iso: int -> string, json: Option<Payload> -> string) returns (csv: Option<string>)
      ensures csv.None? <==> |exportLog| == 0
      ensures csv.Some? ==> csv.value == CsvText(ExportRows(exportLog, iso, json), false)
      ensures csv.Some? && QuoteFree(ExportRows(exportLog, iso, json)) ==>
        ParseCsv(csv.value) == Some(ExportRows(exportLog, iso, json))
    {
      if |exportLog| == 0 {
        return None;
      }
      var rows := ExportRows(exportLog, iso, json);
      var text := BuildCsv(rows, false);
      if QuoteFree(rows) {
        QuoteFreeExportReadsBack(rows);
      }
      csv := Some(text);
    }

    /** `exportDataAsCSV` with inner quotes doubled: the export always reads back as its rows. */
    method ExportCsvEscaped(iso: int -> string, json: Option<Payload> -> string) returns (csv: Option<string>)
      ensures csv.None? <==> |exportLog| == 0
      ensures csv.Some? ==> csv.value == CsvText(ExportRows(exportLog, iso, json), true)
      ensures csv.Some? ==> ParseCsv(csv.value) == Some(ExportRows(exportLog, iso, json))
    {
      if |exportLog| == 0 {
        return None;
      }
      var rows := ExportRows(exportLog, iso, json);
      var text := BuildCsv(rows, true);
      CsvRoundTrip(rows);
      csv := Some(text);
    }
  }
}
