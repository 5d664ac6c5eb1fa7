/**
 * The browser-side analytics engine of the dashboard (base version): the live
 * user-activity buffer, the per-type history archive with periodic retraining
 * of a least-squares model, the prediction and exponential smoothing run by
 * the 1 Hz metrics timer, the z-score and static-threshold anomaly detectors,
 * the event counter and its reset.
 *
 * Chart drawing and DOM writes are not modelled; what the engine emits
 * (`dataReceived`, `error`, `anomaly`) is returned as a list of events.
 */
module AnalyticsClient {
  import opened Wrappers
  import opened Bounded
  import opened Stats

  /** Retained history entries per data type. */
  const ArchiveCap: nat := 1000
  /** Retraining happens whenever the archive length is a multiple of this. */
  const RetrainEvery: nat := 50
  /** Fewest archive entries that training accepts. */
  const MinTrainingPoints: nat := 10
  /** Smoothing factor of the system-metrics model. */
  const Alpha: real := 0.3
  /** The z-score detector's threshold and window size. */
  const ZThreshold: real := 2.5
  const WindowSize: nat := 100

  /** A real-time message: its `type` and, when present, its payload's `activeUsers` field. */
  datatype Incoming = Incoming(kind: string, payload: Option<ActivityPayload>)
  datatype ActivityPayload = ActivityPayload(activeUsers: Option<real>)

  datatype ClientEvent =
    | DataReceived
    | HandlerError
    | ActivityAnomaly(value: real, mean: real, variance: real)
    | MetricAnomaly(metric: string, value: real, threshold: real)

  // ---------------------------------------------------------------------
  // Training

  /** The accuracy heuristic: 100 minus a hundredth of the mean squared error, floored at 0. */
  function Accuracy(ys: seq<real>, l: Line): (a: real)
    requires |ys| > 0
    ensures 0.0 <= a <= 100.0
    ensures a == 100.0 <==> SquaredError(ys, l) == 0.0
  {
    SquaredErrorNonNegative(ys, l);
    var mse := SquaredError(ys, l) / (|ys| as real);
    Max(0.0, 100.0 - mse / 100.0)
  }

  /** Training over noiseless data recovers the line and reports accuracy 100. */
  lemma TrainOnExactLine(ys: seq<real>, a: real, b: real)
    requires |ys| >= MinTrainingPoints && OnLine(ys, a, b)
    ensures FitLine(ys) == Line(b, a)
    ensures Accuracy(ys, FitLine(ys)) == 100.0
  {
    FitExactLine(ys, a, b);
    SquaredErrorOnLine(ys, a, b);
  }

  /** The training targets: `d.activeUsers || 0` of every archived entry. */
  function Targets(entries: seq<Option<real>>): (ys: seq<real>)
    ensures |ys| == |entries|
    ensures forall i :: 0 <= i < |ys| ==> ys[i] == OrZero(entries[i])
  {
    seq(|entries|, i requires 0 <= i < |entries| => OrZero(entries[i]))
  }

  // ---------------------------------------------------------------------
  // Exponential smoothing

  /** One smoothed value: seed with `x` when there is no previous value or it is 0. */
  function Smooth(prev: Option<real>, x: real): (r: real)
    ensures prev.None? || prev.value == 0.0 ==> r == x
    ensures prev.Some? ==> Min(prev.value, x) <= r <= Max(prev.value, x)
  {
    if prev.None? || prev.value == 0.0 then x else Alpha * x + (1.0 - Alpha) * prev.value
  }

  /** The EMA step over every numeric field of the latest sample; other keys keep their value. */
  function SmoothAll(predictions: map<string, real>, latest: map<string, real>): (r: map<string, real>)
    ensures r.Keys == predictions.Keys + latest.Keys
    ensures forall k :: k in latest ==>
      r[k] == Smooth(if k in predictions then Some(predictions[k]) else None, latest[k])
    ensures forall k :: k in predictions && k !in latest ==> r[k] == predictions[k]
  {
    map k | k in predictions.Keys + latest.Keys ::
      if k in latest then Smooth(if k in predictions then Some(predictions[k]) else None, latest[k])
      else predictions[k]
  }

  /** Every smoothed value lies between its previous value and the new sample. */
  lemma SmoothingStaysBetween(predictions: map<string, real>, latest: map<string, real>, k: string)
    requires k in predictions && k in latest
    ensures var r := SmoothAll(predictions, latest);
      Min(predictions[k], latest[k]) <= r[k] <= Max(predictions[k], latest[k])
  {
  }

  /** A previous value of exactly 0 does not smooth: the new sample replaces it. */
  lemma ZeroReseeds(predictions: map<string, real>, latest: map<string, real>, k: string)
    requires k in predictions && predictions[k] == 0.0 && k in latest
    ensures SmoothAll(predictions, latest)[k] == latest[k]
  {
  }

  // ---------------------------------------------------------------------
  // Anomaly detectors

  /**
   * The z-score test on a window whose last element is the newest value:
   * std > 0 and |v - mean| / std > 2.5, stated on squares (std^2 is the
   * population variance).
   */
  predicate ZScoreFires(window: seq<real>)
    requires |window| > 0
  {
    var d := window[|window| - 1] - Mean(window);
    Variance(window) > 0.0 && d * d > ZThreshold * ZThreshold * Variance(window)
  }

  /** With at most 7 values in the window the z-score can never exceed 2.5. */
  lemma ZScoreSilentForSmallWindows(window: seq<real>)
    requires 0 < |window| <= 7
    ensures !ZScoreFires(window)
  {
    LastValueDeviationBound(window);
    VarianceNonNegative(window);
    var v := Variance(window);
    assert ((|window| - 1) as real) * v <= 6.0 * v;
  }

  /** The window [50, 52, 51, 53, 130] does not fire (its z-score is about 2.0). */
  lemma SpikeInShortWindowIsSilent()
    ensures !ZScoreFires([50.0, 52.0, 51.0, 53.0, 130.0])
  {
    ZScoreSilentForSmallWindows([50.0, 52.0, 51.0, 53.0, 130.0]);
  }

  /** The static ceilings of the system-metrics detector, in their declaration order. */
  const MetricNames: seq<string> := ["cpu", "memory", "disk", "network"]

  function Ceiling(metric: string): real
  {
    if metric == "cpu" then 85.0
    else if metric == "memory" then 80.0
    else if metric == "disk" then 90.0
    else if metric == "network" then 75.0
    else 0.0
  }

  /** `latestData[metric] && latestData[metric] > threshold`. */
  predicate Above(sample: map<string, real>, metric: string)
  {
    metric in sample && sample[metric] != 0.0 && sample[metric] > Ceiling(metric)
  }

  /** One event per breached metric of `names`, in the order of `names`. */
  function Breaches(sample: map<string, real>, names: seq<string>): seq<ClientEvent>
  {
    if |names| == 0 then []
    else
      var m := names[|names| - 1];
      Breaches(sample, names[..|names| - 1]) + (if Above(sample, m) then [MetricAnomaly(m, sample[m], Ceiling(m))] else [])
  }

  /** The threshold detector's pass over the four metrics, as a loop emitting one event per breach. */
  method CheckThresholds(sample: map<string, real>) returns (events: seq<ClientEvent>)
    ensures events == Breaches(sample, MetricNames)
    ensures forall e :: e in events ==>
      e.MetricAnomaly? && e.metric in MetricNames && Above(sample, e.metric)
      && e.value == sample[e.metric] && e.threshold == Ceiling(e.metric)
    ensures forall m :: m in MetricNames && Above(sample, m) ==>
      MetricAnomaly(m, sample[m], Ceiling(m)) in events
    ensures forall i, j :: 0 <= i < j < |events| ==> events[i].metric != events[j].metric
  {
    events := [];
    for i := 0 to |MetricNames|
      invariant forall e :: e in events ==>
        e.MetricAnomaly? && e.metric in MetricNames[..i] && Above(sample, e.metric)
        && e.value == sample[e.metric] && e.threshold == Ceiling(e.metric)
      invariant forall m :: m in MetricNames[..i] && Above(sample, m) ==>
        MetricAnomaly(m, sample[m], Ceiling(m)) in events
      invariant forall a, b :: 0 <= a < b < |events| ==> events[a].metric != events[b].metric
      invariant events == Breaches(sample, MetricNames[..i])
    {
      var m := MetricNames[i];
      assert MetricNames[..i + 1] == MetricNames[..i] + [m];
      assert MetricNames[..i + 1][..i] == MetricNames[..i];
      assert m !in MetricNames[..i];
      if Above(sample, m) {
        events := events + [MetricAnomaly(m, sample[m], Ceiling(m))];
      }
    }
    assert MetricNames[..|MetricNames|] == MetricNames;
  }

  /** A metric at or below its ceiling, or missing, is never reported; one above it always is. */
  lemma CeilingsAreStrict(sample: map<string, real>)
    ensures Above(sample, "cpu") <==> "cpu" in sample && sample["cpu"] > 85.0
    ensures Above(sample, "memory") <==> "memory" in sample && sample["memory"] > 80.0
    ensures Above(sample, "disk") <==> "disk" in sample && sample["disk"] > 90.0
    ensures Above(sample, "network") <==> "network" in sample && sample["network"] > 75.0
  {
  }

  /** The detector's statistics over a non-empty window, and its verdict. */
  method WindowStatistics(w: seq<real>) returns (mean: real, variance: real, fired: bool)
    requires |w| > 0
    ensures mean == Mean(w) && variance == Variance(w) && (fired <==> ZScoreFires(w))
  {
    mean := Mean(w);
    variance := Variance(w);
    fired := ZScoreFires(w);
  }

  // ---------------------------------------------------------------------
  // The engine

  class Dashboard {
    const maxDataPoints: nat
    /** Whether the user-activity canvas existed, so that its chart and buffer were created. */
    const hasActivityChart: bool
    /** Whether the system-metrics and business-KPI canvases existed, so that their charts were created. */
    const hasSystemChart: bool
    const hasKpiChart: bool

    /** The live user-activity buffer (the chart points' `y` values). */
    var activityBuffer: seq<real>
    /** Everything pushed onto the live buffer since the last reset. */
    ghost var activityPushed: seq<real>
    /** The system-metrics buffer: created empty, and no operation appends to it. */
    var systemBuffer: seq<map<string, real>>

    /** The history archive per data type; each entry is the `activeUsers` field it carried. */
    var archive: map<string, seq<Option<real>>>

    /** The user-activity model: coefficients [intercept, slope], accuracy, last training time. */
    var model: Line
    var accuracy: real
    var lastTraining: Option<int>
    /** The system-metrics model's smoothed values. */
    var predictions: map<string, real>

    /** The z-score detector's window and its statistics (variance stands for std^2). */
    var zValues: seq<real>
    ghost var zPushed: seq<real>
    var zMean: real
    var zVariance: real

    var totalEvents: nat
    var eventsPerSecond: int
    /** 0 means "not yet recorded", as the source's truthiness test reads it. */
    var lastMetricsUpdate: int
    var lastEventCount: nat

    ghost predicate Valid()
      reads this`activityBuffer, this`activityPushed, this`zValues, this`zPushed, this`archive, this`accuracy
    {
      activityBuffer == KeepLast(activityPushed, maxDataPoints)
      && zValues == KeepLast(zPushed, WindowSize)
      && (!hasActivityChart ==> activityBuffer == [])
      && (forall k :: k in archive ==> |archive[k]| <= ArchiveCap)
      && 0.0 <= accuracy <= 100.0
    }

    /** Construction followed by chart setup and the model and detector defaults. */
    constructor (configuredMax: Option<nat>, activityCanvas: bool, systemCanvas: bool, kpiCanvas: bool)
      ensures Valid()
      ensures maxDataPoints == ResolveCapacity(configuredMax) && hasActivityChart == activityCanvas
      ensures hasSystemChart == systemCanvas && hasKpiChart == kpiCanvas
      ensures activityBuffer == [] && systemBuffer == [] && archive == map[]
      ensures model == Line(0.0, 0.0) && accuracy == 0.0 && lastTraining == None && predictions == map[]
      ensures zValues == [] && zMean == 0.0 && zVariance == 1.0
      ensures totalEvents == 0 && eventsPerSecond == 0 && lastMetricsUpdate == 0
    {
      maxDataPoints := ResolveCapacity(configuredMax);
      hasActivityChart := activityCanvas;
      hasSystemChart, hasKpiChart := systemCanvas, kpiCanvas;
      activityBuffer, activityPushed := [], [];
      systemBuffer := [];
      archive := map[];
      model, accuracy, lastTraining := Line(0.0, 0.0), 0.0, None;
      predictions := map[];
      zValues, zPushed := [], [];
      zMean, zVariance := 0.0, 1.0;
      totalEvents, eventsPerSecond := 0, 0;
      lastMetricsUpdate, lastEventCount := 0, 0;
    }

    /** The live buffer is bounded and holds the most recent pushes in push order. */
    lemma BufferIsRecentWindow()
      requires Valid()
      ensures |activityBuffer| <= maxDataPoints
      ensures forall i :: 0 <= i < |activityBuffer| ==>
        activityBuffer[i] == activityPushed[|activityPushed| - |activityBuffer| + i]
    {
    }

    /** `updateUserActivityChart`: push `activeUsers || 0`, shift once when over capacity. */
    method UpdateUserActivityChart(activeUsers: Option<real>)
      requires Valid()
      modifies this`activityBuffer, this`activityPushed
      ensures Valid()
      ensures hasActivityChart ==> activityPushed == old(activityPushed) + [OrZero(activeUsers)]
      ensures !hasActivityChart ==> activityBuffer == old(activityBuffer) && activityPushed == old(activityPushed)
    {
      if !hasActivityChart {
        return;
      }
      KeepLastPush(activityPushed, OrZero(activeUsers), maxDataPoints);
      activityBuffer := PushShift(activityBuffer, OrZero(activeUsers), maxDataPoints);
      activityPushed := activityPushed + [OrZero(activeUsers)];
    }

    /**
     * A charted type whose chart exists reads the missing payload and throws;
     * an absent chart returns before reading it.
     */
    predicate Throws(m: Incoming)
    {
      m.payload.None?
      && ((m.kind == "user_activity" && hasActivityChart)
          || (m.kind == "system_metrics" && hasSystemChart)
          || (m.kind == "business_kpis" && hasKpiChart))
    }

    /**
     * The part of `handleIncomingData` before its metrics call: count the
     * message and dispatch on its type. `ok` is false when the chart update
     * threw because the payload is missing.
     */
    method Ingest(m: Incoming) returns (ok: bool)
      requires Valid()
      modifies this`totalEvents, this`activityBuffer, this`activityPushed
      ensures Valid()
      ensures totalEvents == old(totalEvents) + 1
      ensures m.kind == "user_activity" && m.payload.Some? && hasActivityChart ==>
        activityPushed == old(activityPushed) + [OrZero(m.payload.value.activeUsers)]
      ensures !(m.kind == "user_activity" && m.payload.Some?) ==>
        activityBuffer == old(activityBuffer) && activityPushed == old(activityPushed)
      ensures ok <==> !Throws(m)
    {
      totalEvents := totalEvents + 1;
      if Throws(m) {
        // the chart exists, so its update reads a field of the missing payload and throws
        return false;
      }
      if m.kind == "user_activity" && m.payload.Some? {
        UpdateUserActivityChart(m.payload.value.activeUsers);
      }
      // system_metrics and business_kpis only redraw their charts
      return true;
    }

    /**
     * `handleIncomingData` as written: after the dispatch it calls
     * `updateDashboardMetrics`, which this class does not define, so every
     * message ends in the catch block and is reported as an error.
     */
    method HandleIncomingData(m: Incoming) returns (events: seq<ClientEvent>)
      requires Valid()
      modifies this`totalEvents, this`activityBuffer, this`activityPushed
      ensures Valid()
      ensures totalEvents == old(totalEvents) + 1
      ensures m.kind == "user_activity" && m.payload.Some? && hasActivityChart ==>
        activityPushed == old(activityPushed) + [OrZero(m.payload.value.activeUsers)]
      ensures !(m.kind == "user_activity" && m.payload.Some?) ==>
        activityBuffer == old(activityBuffer) && activityPushed == old(activityPushed)
      ensures events == [HandlerError]
    {
      var _ := Ingest(m);
      // the undefined `updateDashboardMetrics` call throws here
      events := [HandlerError];
    }

    /**
     * `handleIncomingData` with the metrics call resolved to the display
     * update the class does define (`updateMetricsDisplay`, which only
     * redraws): a message is reported as received unless a chart that
     * exists reads its missing payload.
     */
    method HandleIncomingDataCorrected(m: Incoming) returns (events: seq<ClientEvent>)
      requires Valid()
      modifies this`totalEvents, this`activityBuffer, this`activityPushed
      ensures Valid()
      ensures totalEvents == old(totalEvents) + 1
      ensures m.kind == "user_activity" && m.payload.Some? && hasActivityChart ==>
        activityPushed == old(activityPushed) + [OrZero(m.payload.value.activeUsers)]
      ensures !(m.kind == "user_activity" && m.payload.Some?) ==>
        activityBuffer == old(activityBuffer) && activityPushed == old(activityPushed)
      ensures events == if Throws(m) then [HandlerError] else [DataReceived]
    {
      var ok := Ingest(m);
      events := if ok then [DataReceived] else [HandlerError];
    }

    /** `trainPredictiveModels`: refit the user-activity line from its archive. */
    method TrainPredictiveModels(kind: string, now: int)
      requires Valid()
      modifies this`model, this`accuracy, this`lastTraining
      ensures Valid()
      ensures kind != "user_activity" || kind !in archive || |archive[kind]| < MinTrainingPoints ==>
        model == old(model) && accuracy == old(accuracy) && lastTraining == old(lastTraining)
      ensures kind == "user_activity" && kind in archive && |archive[kind]| >= MinTrainingPoints ==>
        model == FitLine(Targets(archive[kind]))
        && accuracy == Accuracy(Targets(archive[kind]), model)
        && lastTraining == Some(now)
    {
      if kind !in archive || |archive[kind]| < MinTrainingPoints {
        return;
      }
      if kind == "user_activity" {
        var ys := Targets(archive[kind]);
        model := FitLine(ys);
        accuracy := Accuracy(ys, model);
        lastTraining := Some(now);
      }
    }

    /** `handleHistoricalData`: archive the payload, keep 1000 entries, retrain every 50. */
    method HandleHistoricalData(kind: string, activeUsers: Option<real>, now: int) returns (retrained: bool)
      requires Valid()
      modifies this`archive, this`model, this`accuracy, this`lastTraining
      ensures Valid()
      ensures kind in archive
      ensures archive == old(archive)[kind := archive[kind]]
      ensures archive[kind] == KeepLast((if kind in old(archive) then old(archive)[kind] else []) + [activeUsers], ArchiveCap)
      ensures retrained <==> |archive[kind]| % RetrainEvery == 0
      ensures !retrained || kind != "user_activity" ==>
        model == old(model) && accuracy == old(accuracy) && lastTraining == old(lastTraining)
      ensures retrained && kind == "user_activity" ==>
        model == FitLine(Targets(archive[kind]))
        && accuracy == Accuracy(Targets(archive[kind]), model)
        && lastTraining == Some(now)
    {
      var entries := if kind in archive then archive[kind] else [];
      var pushed := PushShift(entries, activeUsers, ArchiveCap);
      assert |pushed| > 0;
      archive := archive[kind := pushed];
      retrained := |pushed| % RetrainEvery == 0;
      if retrained {
        assert |pushed| >= RetrainEvery;
        TrainPredictiveModels(kind, now);
      }
    }

    /** Once an archive is full, every further entry triggers retraining. */
    lemma FullArchiveRetrainsOnEveryPush(entries: seq<Option<real>>, x: Option<real>)
      requires |entries| == ArchiveCap
      ensures |KeepLast(entries + [x], ArchiveCap)| % RetrainEvery == 0
    {
    }

    /**
     * The prediction part of `runPredictiveAnalytics`: the model evaluated at
     * the buffer length, for a non-empty buffer; then one smoothing step over
     * the newest system-metrics sample, if there is one.
     */
    method RunPredictiveAnalytics() returns (predicted: Option<real>)
      requires Valid()
      modifies this`predictions
      ensures Valid()
      ensures predicted.Some? <==> |activityBuffer| > 0
      ensures predicted.Some? ==>
        predicted.value == model.intercept + model.slope * (|activityBuffer| as real)
      ensures predictions == if |systemBuffer| > 0
                             then SmoothAll(old(predictions), systemBuffer[|systemBuffer| - 1])
                             else old(predictions)
    {
      predicted := None;
      if |activityBuffer| > 0 {
        predicted := Some(model.intercept + model.slope * (|activityBuffer| as real));
      }
      if |systemBuffer| > 0 {
        predictions := SmoothAll(predictions, systemBuffer[|systemBuffer| - 1]);
      }
    }

    /** Slide the detector's window over one more value. */
    method PushWindow(v: real)
      requires Valid()
      modifies this`zValues, this`zPushed
      ensures Valid()
      ensures zPushed == old(zPushed) + [v] && zValues == PushShift(old(zValues), v, WindowSize)
    {
      KeepLastPush(zPushed, v, WindowSize);
      zValues := PushShift(zValues, v, WindowSize);
      zPushed := zPushed + [v];
    }

    /**
     * The z-score half of `detectAnomalies`: re-push the buffer's newest value
     * into the window (even if no new sample arrived since the last tick),
     * refresh the statistics and test the newest value.
     */
    method DetectActivityAnomaly() returns (fired: bool)
      requires Valid()
      modifies this`zValues, this`zPushed, this`zMean, this`zVariance
      ensures Valid()
      ensures |activityBuffer| == 0 ==> !fired && zValues == old(zValues) && zPushed == old(zPushed)
      ensures |activityBuffer| > 0 ==>
        zPushed == old(zPushed) + [activityBuffer[|activityBuffer| - 1]]
        && 0 < |zValues| <= WindowSize && zValues[|zValues| - 1] == activityBuffer[|activityBuffer| - 1]
        && zMean == Mean(zValues) && zVariance == Variance(zValues)
        && (fired <==> ZScoreFires(zValues))
    {
      fired := false;
      if |activityBuffer| > 0 {
        PushWindow(activityBuffer[|activityBuffer| - 1]);
        zMean, zVariance, fired := WindowStatistics(zValues);
      }
    }

    /** `detectAnomalies`: the z-score test, then the ceilings on the newest system-metrics sample. */
    method DetectAnomalies() returns (events: seq<ClientEvent>)
      requires Valid()
      modifies this`zValues, this`zPushed, this`zMean, this`zVariance
      ensures Valid()
      ensures |activityBuffer| > 0 ==>
        zPushed == old(zPushed) + [activityBuffer[|activityBuffer| - 1]]
        && zMean == Mean(zValues) && zVariance == Variance(zValues)
      ensures (|events| > 0 && events[0].ActivityAnomaly?) <==> |activityBuffer| > 0 && ZScoreFires(zValues)
      ensures |events| > 0 && events[0].ActivityAnomaly? ==>
        events[0] == ActivityAnomaly(activityBuffer[|activityBuffer| - 1], zMean, zVariance)
      ensures forall i :: 0 < i < |events| ==> events[i].MetricAnomaly?
      ensures |systemBuffer| == 0 ==> forall e :: e in events ==> e.ActivityAnomaly?
    {
      var fired := DetectActivityAnomaly();
      var head: seq<ClientEvent> := [];
      if fired {
        head := [ActivityAnomaly(activityBuffer[|activityBuffer| - 1], zMean, zVariance)];
      }
      var breaches: seq<ClientEvent> := [];
      if |systemBuffer| > 0 {
        breaches := CheckThresholds(systemBuffer[|systemBuffer| - 1]);
      }
      assert forall e :: e in breaches ==> e.MetricAnomaly?;
      events := head + breaches;
      assert |events| > 0 && events[0].ActivityAnomaly? <==> fired;
    }

    /** `calculateEventsPerSecond`: the first call only records a baseline. */
    method CalculateEventsPerSecond(now: int)
      requires Valid()
      requires lastMetricsUpdate != 0 ==> now != lastMetricsUpdate
      modifies this`eventsPerSecond, this`lastMetricsUpdate, this`lastEventCount
      ensures Valid()
      ensures lastMetricsUpdate == now && lastEventCount == totalEvents
      ensures old(lastMetricsUpdate) == 0 ==> eventsPerSecond == old(eventsPerSecond)
      ensures old(lastMetricsUpdate) != 0 ==>
        eventsPerSecond == Round(((totalEvents - old(lastEventCount)) as real)
                                 / (((now - old(lastMetricsUpdate)) as real) / 1000.0))
    {
      if lastMetricsUpdate == 0 {
        lastMetricsUpdate := now;
        lastEventCount := totalEvents;
        return;
      }
      var timeDiff := ((now - lastMetricsUpdate) as real) / 1000.0;
      var eventDiff := (totalEvents - lastEventCount) as real;
      eventsPerSecond := Round(eventDiff / timeDiff);
      lastMetricsUpdate := now;
      lastEventCount := totalEvents;
    }

    /** `resetCharts`: empty the live buffer and zero the two counters; nothing else changes. */
    method ResetCharts()
      requires Valid()
      modifies this`activityBuffer, this`activityPushed, this`totalEvents, this`eventsPerSecond
      ensures Valid()
      ensures activityBuffer == [] && activityPushed == []
      ensures totalEvents == 0 && eventsPerSecond == 0
    {
      activityBuffer, activityPushed := [], [];
      totalEvents, eventsPerSecond := 0, 0;
    }
  }
}
