# A verified model of the code-examples collection

This project models, in Dafny, the deterministic core of the eight demo programs in `code-examples/`, and proves what they promise. There is one module per program, plus a few shared modules.

- **DashboardServer** (`dashboard_server.js`): the simulation server of the analytics dashboard.
  - The simulated world advanced by each streaming tick, with its clamps.
  - The three messages each tick sends, and the optional spike.
  - The connected clients and the one streaming timer per connection.
  - The 50-point backlog sent on connect, and broadcast.
- **AnalyticsClient** (`javascript_example.js`): the browser dashboard engine.
  - Bounded live buffer and the 1000-entry history archive with retraining every 50 pushes.
  - The least-squares model and its accuracy.
  - Exponential smoothing of system metrics.
  - The z-score and static-threshold detectors, the event counter and the reset.
- **EnhancedClient** (`javascript_example_enhanced.js`): the enhanced engine.
  - The activity and security buffers.
  - Prediction over the last ten points, with its confidence.
  - The two-sigma detector, the event rate and the reset.
  - The CSV export.
- **ChainSimulator** (`rust_example.rs`):
  - the security monitor with its saturating threat level;
  - signed transactions, the Merkle root and mining;
  - the account ledger and its pending queue;
  - chain append and validation, with three consensus kinds;
  - the gas-metered stack machine and the peer list.
- **Gateway** (`go_example.go`): the service registry.
  - Upsert by id, health filtering and periodic demotion.
  - The load balancer.
  - The security middleware's request classification.
  - The configuration parsers.
- **Orders** (`java_example.java`):
  - item, order and final amounts in cents;
  - status updates and period analytics;
  - the request and period anomaly scores and the request checks;
  - the bounded security log.
- **Portfolio** (`kotlin_example.kt`):
  - holdings changed by buy and sell transactions, through the holdings table;
  - portfolio totals and the security log;
  - market-data and transaction checks, and the concentration anomaly score.
- **CodeReview** (`python_example.py`): the code-review assistant's rule-based core.
  - The issue score and the report counts.
  - Cyclomatic complexity and nesting depth over an abstract syntax tree.
  - The static, complexity and pattern analyses.
  - The final ordering.
- **Shared modules:**
  - `Wrappers`: Option and Result.
  - `Text`: decimal rendering, substring and split/join.
  - `Bounded`: the keep-last-n window behind every push/shift or trimmed log.
  - `Stats`: sums, mean, variance and least squares over x = 0..n-1.
  - `Sorting`: sort by a total preorder, and newest-first selection.

Operations that change state in the source are modelled as methods.
- Classes hold the mutable state: the connection registry, both dashboards, the monitors, the ledger, the chain, the machine, the registry, the repositories and the holdings table.
- Loops in the source stay loops with invariants. Examples: the Merkle reduction, the least-squares sums, the CSV builder, the anomaly scans and the complexity walk.
- Each method is proved against a function that specifies it.
- Pure computations are functions, and lemmas relate them.

Things outside the program are parameters:
- randomness, clocks and hashes;
- the parser and the regular-expression engine;
- the rendering of numbers inside messages.

## Model

| member | source | states |
|---|---|---|
| DashboardServer.Step | code-examples/dashboard_server.js:105-135 | after any tick, whatever the draws: user activity is at least 10, cpu, memory, disk and network lie in [0,100], revenue and costs are non-negative, and profit is exactly revenue minus costs |
| DashboardServer.InitialWorldInRange | code-examples/dashboard_server.js:18-29 | the starting world already satisfies the ranges every tick keeps |
| DashboardServer.StepDrift | code-examples/dashboard_server.js:105-135 | with draws in [0,1), each quantity moves by at most half its walk width in one tick; clamping never pushes a value further |
| DashboardServer.SendInitialData | code-examples/dashboard_server.js:71-89 | the backlog has exactly 50 points in loop order, with active users in [50,149], cpu in [30,79] and memory in [40,79] |
| DashboardServer.BacklogTimestamps | code-examples/dashboard_server.js:74-76 | with one clock reading the timestamps are now-50000 … now-1000; with a clock that never goes back they increase by at least 1000 per point |
| DashboardServer.TickMessages | code-examples/dashboard_server.js:137-186 | a tick sends user activity, system metrics and business KPIs in that order, plus exactly one extra user-activity message when the spike draw is below 0.05 |
| DashboardServer.TickReportsWorld | code-examples/dashboard_server.js:137-186 | the messages carry the stepped world's values, activity is floored, and the spike lies between 200 and 300 above the floored activity |
| DashboardServer.ResolveInterval | code-examples/dashboard_server.js:93 | the interval is never 0: a missing or zero interval becomes 1000, any other value is kept |
| DashboardServer.Connection.constructor | code-examples/dashboard_server.js:32-34 | a new socket is open, has no timer and has received nothing |
| DashboardServer.Server.constructor | code-examples/dashboard_server.js:15-29 | the server starts with no clients, no live intervals and the initial world |
| DashboardServer.Server.AtMostOneTimer | code-examples/dashboard_server.js:92-101 | a connection never owns two live intervals: none without a timer, at most the one it holds otherwise |
| DashboardServer.Server.StartDataStreaming | code-examples/dashboard_server.js:92-101 | the old interval, if any, is cleared before exactly one fresh one is installed with the resolved period; nothing else changes |
| DashboardServer.Server.StopDataStreaming | code-examples/dashboard_server.js:191-196 | with no timer nothing changes; otherwise the interval is cleared and the connection ends with no timer |
| DashboardServer.Server.OnConnection | code-examples/dashboard_server.js:32-37 | the socket joins the clients and receives exactly one historical-data message with the 50-point backlog |
| DashboardServer.Server.OnMessage | code-examples/dashboard_server.js:40-54 | an unparseable message, a null payload or another type changes nothing; subscribe clears the connection's old interval and installs exactly one new live interval for it (the payload's interval, 1000 by default), leaving every other connection's intervals alone; unsubscribe clears only this connection's interval |
| DashboardServer.Server.OnClose | code-examples/dashboard_server.js:57-61 | the client is removed and its interval cleared; every other connection's intervals stay live |
| DashboardServer.Server.OnError | code-examples/dashboard_server.js:64-67 | the client is removed but its interval stays live |
| DashboardServer.Server.FireTimer | code-examples/dashboard_server.js:101-187 | a live interval steps the shared world once and appends that tick's messages to the connection it was installed for |
| DashboardServer.Server.Broadcast | code-examples/dashboard_server.js:199-205 | every open client receives the message once; closed clients receive nothing; no timer or state changes |
| Bounded.ResolveCapacity | code-examples/javascript_example_enhanced.js:18-26 | the capacity is 100 when none is configured, and any configured value, 0 included, wins through the `...config` spread |
| Bounded.KeepLast | code-examples/javascript_example.js:315-323 | the window is never longer than its capacity, is the whole input when that fits, and is exactly the capacity otherwise |
| Bounded.KeepLastIsSuffix | code-examples/javascript_example.js:315-323 | the window holds the newest elements, in push order |
| Bounded.PushShift | code-examples/javascript_example.js:315-323 | one push followed by at most one shift, on a buffer already within capacity, keeps the last `cap` values and ends with the pushed one |
| Bounded.KeepLastPush | code-examples/javascript_example.js:537-542 | trimming after every push gives the same window as trimming the full history once |
| Stats.SumDevMean | code-examples/javascript_example.js:673-678 | the deviations from the mean sum to zero |
| Stats.VarianceNonNegative | code-examples/javascript_example.js:675-678 | the population variance is never negative |
| Stats.SquaredSumBound | code-examples/javascript_example.js:673-679 | Cauchy-Schwarz for the window: the square of a sum is at most the count times the sum of squares |
| Stats.LastValueDeviationBound | code-examples/javascript_example.js:667-687 | the newest value of a window is within sqrt(n-1) population standard deviations of its mean (stated on squares) |
| Stats.LastDeviation | code-examples/javascript_example.js:673-678 | the other deviations sum to minus the newest one, and the squared deviations split off the newest |
| Stats.SumXClosed | code-examples/javascript_example.js:564-568 | for x = 0..n-1 the sum of x is n(n-1)/2 |
| Stats.SumXXClosed | code-examples/javascript_example.js:564-571 | for x = 0..n-1 the sum of x² is n(n-1)(2n-1)/6 |
| Stats.DenominatorClosed | code-examples/javascript_example.js:573 | the OLS denominator n·Σx² − (Σx)² equals n²(n²−1)/12 and is positive for n ≥ 2, so the slope never divides by zero |
| Stats.SumOnLine | code-examples/javascript_example.js:569 | for points on y = a·x + b, Σy = a·Σx + n·b |
| Stats.SumXYOnLine | code-examples/javascript_example.js:570 | for points on y = a·x + b, Σxy = a·Σx² + b·Σx |
| Stats.LineFromExactSums | code-examples/javascript_example.js:573-574 | sums of an exact line give back its slope and intercept |
| Stats.FitExactLine | code-examples/javascript_example.js:564-576 | noiseless data y = a·i + b with n ≥ 2 is fitted with slope a and intercept b |
| Stats.SquaredErrorOnLine | code-examples/javascript_example.js:580-584 | an exact line has zero squared error on its own points |
| AnalyticsClient.Accuracy | code-examples/javascript_example.js:579-585 | accuracy lies in [0,100] and is 100 exactly when the squared error is 0 |
| AnalyticsClient.TrainOnExactLine | code-examples/javascript_example.js:563-585 | training on noiseless data recovers the line and reports accuracy 100 |
| AnalyticsClient.Targets | code-examples/javascript_example.js:565 | one target per archived entry, `activeUsers || 0` |
| AnalyticsClient.Smooth | code-examples/javascript_example.js:637-647 | no previous value or a previous 0 seeds with the sample; otherwise the EMA with α = 0.3 lies between the previous value and the sample |
| AnalyticsClient.SmoothAll | code-examples/javascript_example.js:637-647 | every numeric field of the latest sample is smoothed, other keys keep their prediction |
| AnalyticsClient.SmoothingStaysBetween | code-examples/javascript_example.js:642-644 | each smoothed value lies between its previous value and the new sample |
| AnalyticsClient.ZeroReseeds | code-examples/javascript_example.js:639-640 | a previous prediction of exactly 0 is replaced by the sample instead of smoothed |
| AnalyticsClient.ZScoreSilentForSmallWindows | code-examples/javascript_example.js:667-687 | with at most 7 values in the window the z-score never exceeds 2.5, so no anomaly can fire |
| AnalyticsClient.SpikeInShortWindowIsSilent | code-examples/javascript_example.js:667-687 | the window [50, 52, 51, 53, 130] does not fire |
| AnalyticsClient.CheckThresholds | code-examples/javascript_example.js:715-742 | one event per metric strictly above its ceiling, carrying its value and ceiling, in the ceiling order cpu, memory, disk, network; none for others, no metric twice |
| AnalyticsClient.CeilingsAreStrict | code-examples/javascript_example.js:516-523 | the ceilings are cpu 85, memory 80, disk 90, network 75; a missing metric or one at its ceiling is not reported |
| AnalyticsClient.WindowStatistics | code-examples/javascript_example.js:672-687 | the detector's mean and variance are the window's, and it fires exactly when the z-score test holds (never when std is 0) |
| AnalyticsClient.Dashboard.constructor | code-examples/javascript_example.js:14-42 | construction resolves the capacity, records which of the three canvases exist, starts empty buffers and zero metrics, and installs the model and detector defaults (coefficients 0, mean 0, std 1) |
| AnalyticsClient.Dashboard.BufferIsRecentWindow | code-examples/javascript_example.js:315-323 | the live buffer never exceeds `maxDataPoints` and equals the last pushed values in push order |
| AnalyticsClient.Dashboard.UpdateUserActivityChart | code-examples/javascript_example.js:307-323 | with a chart, `activeUsers || 0` is pushed and the buffer trimmed; without a chart nothing changes |
| AnalyticsClient.Dashboard.Ingest | code-examples/javascript_example.js:280-292 | every message adds exactly 1 to `totalEvents`; only a user-activity message with a payload touches the buffer, appending `activeUsers` (0 when absent); `ok` is false exactly when a charted type arrives without a payload and its chart exists, since an absent chart returns before reading the payload |
| AnalyticsClient.Dashboard.HandleIncomingData | code-examples/javascript_example.js:279-302 | as written: the same counter and buffer effects, and every message, well-formed or not, ends in the single error event, because the metrics call at line 295 names a method the class does not have |
| AnalyticsClient.Dashboard.HandleIncomingDataCorrected | code-examples/javascript_example.js:279-302 | with the metrics call resolved to the display update: the same counter and buffer effects; a payload-less message of a type whose chart exists ends in the error event, every other message in `dataReceived` |
| AnalyticsClient.Dashboard.TrainPredictiveModels | code-examples/javascript_example.js:553-593 | fewer than 10 samples or another type changes nothing; otherwise the model is the least-squares fit of the archive and its accuracy |
| AnalyticsClient.Dashboard.HandleHistoricalData | code-examples/javascript_example.js:531-548 | the archive of the message's type gains the payload, never exceeds 1000, and retraining runs exactly when its new length is a multiple of 50; a retrained user-activity archive refits the model and accuracy and stamps the time, otherwise the model, accuracy and training time are unchanged |
| AnalyticsClient.Dashboard.FullArchiveRetrainsOnEveryPush | code-examples/javascript_example.js:540-546 | once an archive holds 1000 entries, every further push retrains |
| AnalyticsClient.Dashboard.RunPredictiveAnalytics | code-examples/javascript_example.js:598-652 | a prediction `intercept + slope·length` exists exactly for a non-empty buffer; the EMA step runs on the newest system-metrics sample when there is one |
| AnalyticsClient.Dashboard.PushWindow | code-examples/javascript_example.js:667-670 | the detector window gets the value and is trimmed to `windowSize` |
| AnalyticsClient.Dashboard.DetectActivityAnomaly | code-examples/javascript_example.js:659-708 | the newest buffer value is pushed again on every call, the window stays within 100, and the test fires exactly when the z-score exceeds 2.5 |
| AnalyticsClient.Dashboard.DetectAnomalies | code-examples/javascript_example.js:657-744 | the activity anomaly comes first when it fires; the rest are metric events |
| AnalyticsClient.Dashboard.CalculateEventsPerSecond | code-examples/javascript_example.js:429-444 | the first call only records a baseline; later calls set the rounded rate of events over elapsed seconds |
| AnalyticsClient.Dashboard.ResetCharts | code-examples/javascript_example.js:774-792 | the live buffer is emptied and `totalEvents` and `eventsPerSecond` are zeroed; models, detectors and the archive are untouched |
| EnhancedClient.FlagEnabled | code-examples/javascript_example_enhanced.js:23-25 | a feature flag is on unless explicitly configured `false` |
| EnhancedClient.Shown | code-examples/javascript_example_enhanced.js:531-533 | the displayed prediction is never negative and is the nearest integer to a non-negative prediction |
| EnhancedClient.Confidence | code-examples/javascript_example_enhanced.js:536-547 | the confidence lies in [0,100] whenever it is a number; it is not a number only for mean 0 and std 0; std 0 gives 100 |
| EnhancedClient.ConfidenceFallsWithSpread | code-examples/javascript_example_enhanced.js:544-547 | for a positive mean a wider spread never raises the confidence |
| EnhancedClient.ConfidenceZeroForWideSpread | code-examples/javascript_example_enhanced.js:544-547 | a spread at least as large as a positive mean gives confidence 0 |
| EnhancedClient.PredictionFor | code-examples/javascript_example_enhanced.js:499-551 | no prediction below 5 points; otherwise one whose shown value is non-negative and whose confidence is in [0,100] for a non-zero mean |
| EnhancedClient.PredictionExtrapolatesExactLine | code-examples/javascript_example_enhanced.js:505-525 | points exactly on y = a·x + b are extrapolated exactly to x = points.length |
| EnhancedClient.AccumulateSums | code-examples/javascript_example_enhanced.js:508-519 | the accumulating loop computes Σx, Σy, Σxy and Σx² over x = 0..n-1 |
| EnhancedClient.FitWindow | code-examples/javascript_example_enhanced.js:505-522 | the slope and intercept from the loop's sums are the least-squares line of the last min(length,10) points, with a positive denominator |
| EnhancedClient.PerformPredictiveAnalysis | code-examples/javascript_example_enhanced.js:499-551 | the imperative analysis produces exactly the prediction `PredictionFor` specifies |
| EnhancedClient.OutsideBySquares | code-examples/javascript_example_enhanced.js:569-576 | lying outside [-t, t] is the same as having a square above t² |
| EnhancedClient.ThresholdsAsSquares | code-examples/javascript_example_enhanced.js:569-576 | the test against mean ± 2·std is the squared test (v-mean)² > 4·variance |
| EnhancedClient.AnomalyFor | code-examples/javascript_example_enhanced.js:556-597 | no event below 10 points or without a numeric value; otherwise an event carrying the value exactly when it is strictly outside mean ± 2σ of the last 10 values |
| EnhancedClient.AnomalyWithinThreeSigma | code-examples/javascript_example_enhanced.js:556-576 | when the tested value is the window's newest entry, a reported anomaly lies between 2σ and 3σ from the mean |
| EnhancedClient.Rate | code-examples/javascript_example_enhanced.js:708-716 | events per second is total events over uptime in seconds; it is undefined for zero uptime and non-negative for positive uptime |
| EnhancedClient.ExportRows | code-examples/javascript_example_enhanced.js:826-831 | one row per logged message: ISO timestamp, type, JSON payload |
| EnhancedClient.ParseQuotedDoubled | code-examples/javascript_example_enhanced.js:833-836 | a field with its quotes doubled reads back, up to the closing quote, as the field |
| EnhancedClient.ParseField | code-examples/javascript_example_enhanced.js:835 | a quoted, doubled field followed by anything but a quote reads back as the field |
| EnhancedClient.ParseEncodedRecord | code-examples/javascript_example_enhanced.js:835 | one encoded record reads back as its fields, up to and including its line feed |
| EnhancedClient.ParseEncodedRows | code-examples/javascript_example_enhanced.js:834-836 | encoded records read back as the rows written |
| EnhancedClient.CsvRoundTrip | code-examples/javascript_example_enhanced.js:826-836 | the corrected CSV text reads back as exactly the exported rows |
| EnhancedClient.BuildCsv | code-examples/javascript_example_enhanced.js:826-836 | the `+=` loop builds exactly the header followed by one quoted record per row, with or without doubled inner quotes |
| EnhancedClient.QuoteFreeRowsSameText | code-examples/javascript_example_enhanced.js:833-836 | when no field holds a quote, the records written without doubling are the same text as the corrected ones |
| EnhancedClient.QuoteFreeExportReadsBack | code-examples/javascript_example_enhanced.js:826-836 | the export as written reads back as its rows whenever no field holds a quote |
| EnhancedClient.EncodeRowsAppend | code-examples/javascript_example_enhanced.js:834-836 | the `+=` loop appends one encoded record per row |
| EnhancedClient.DoubledQuoteFree | code-examples/javascript_example_enhanced.js:835 | doubling leaves a quote-free field unchanged, so the header and timestamps are the same either way |
| EnhancedClient.SkipQuoteFreeField | code-examples/javascript_example_enhanced.js:835 | a quote-free first field does not affect whether the record reads back |
| EnhancedClient.CutAtInnerQuote | code-examples/javascript_example_enhanced.js:835 | a field holding a quote followed by an ordinary character is cut at that quote and the record is rejected |
| EnhancedClient.UnescapedExportIsUnreadable | code-examples/javascript_example_enhanced.js:833-836 | as written, a payload whose JSON holds a quote (`{"k":1}`) makes the export unreadable by an RFC 4180 reader |
| EnhancedClient.Dashboard.constructor | code-examples/javascript_example_enhanced.js:15-49 | construction resolves capacity and flags, records which canvases exist, and starts with empty buffers, zero metrics and an empty export log |
| EnhancedClient.Dashboard.BuffersAreRecentWindows | code-examples/javascript_example_enhanced.js:408-416 | both live buffers stay within `maxDataPoints` and hold their most recent pushes in push order |
| EnhancedClient.Dashboard.OnConnect | code-examples/javascript_example_enhanced.js:87-91 | on connect the dashboard is connected and the uptime origin is now |
| EnhancedClient.Dashboard.OnDisconnect | code-examples/javascript_example_enhanced.js:95-98 | on disconnect the dashboard is no longer connected |
| EnhancedClient.Dashboard.UpdateUserActivityChart | code-examples/javascript_example_enhanced.js:400-421 | with its canvas, `activeUsers || 0` is pushed and the buffer trimmed; without it nothing changes |
| EnhancedClient.Dashboard.UpdateSecurityEventsChart | code-examples/javascript_example_enhanced.js:457-473 | with its canvas, `eventCount || 0` is pushed and the buffer trimmed; without it nothing changes |
| EnhancedClient.Dashboard.AnalyseUserActivity | code-examples/javascript_example_enhanced.js:345-352 | prediction runs only when its flag is on, then detection only when its flag is on, each on the pushed buffer |
| EnhancedClient.Dashboard.HandleIncomingData | code-examples/javascript_example_enhanced.js:332-369 | every message adds 1 to `totalEvents` and appends exactly one export record; only its own type's buffer changes; analysis runs only for user activity |
| EnhancedClient.Dashboard.MetricsTick | code-examples/javascript_example_enhanced.js:708-716 | while connected the rate is recomputed from total events and uptime; otherwise it is kept |
| EnhancedClient.Dashboard.ResetDashboard | code-examples/javascript_example_enhanced.js:780-809 | every buffer is emptied, the metrics are zeroed and the export log is cleared |
| EnhancedClient.Dashboard.ExportCsv | code-examples/javascript_example_enhanced.js:814-836 | as written: no CSV for an empty log; otherwise the header plus one record per logged message with inner quotes left undoubled, which reads back as the exported rows when no field holds a quote |
| EnhancedClient.Dashboard.ExportCsvEscaped | code-examples/javascript_example_enhanced.js:814-836 | corrected: the same document with inner quotes doubled, which always reads back as the exported rows |
| ChainSimulator.SeverityScore | code-examples/rust_example.rs:137-143 | the threat score is 20/10/5/1 for critical/high/medium/low and 0 for any other severity |
| ChainSimulator.RaiseThreat | code-examples/rust_example.rs:145-146 | the threat level never exceeds 100, never falls, and is either 100 or the old level plus the score |
| ChainSimulator.SecurityMonitor.constructor | code-examples/rust_example.rs:110-115 | a new monitor has no events and threat level 0 |
| ChainSimulator.SecurityMonitor.LogEvent | code-examples/rust_example.rs:117-147 | the event is logged, the log is trimmed from the front to 1000, and the threat level rises by the severity score, saturating at 100 |
| ChainSimulator.SecurityMonitor.ResetThreatLevel | code-examples/rust_example.rs:153-156 | the threat level becomes 0 and the log is unchanged |
| ChainSimulator.EventLogIsRecentWindow | code-examples/rust_example.rs:126-134 | the log never exceeds 1000 entries and keeps the most recent events in logging order |
| ChainSimulator.NewTransaction | code-examples/rust_example.rs:160-178 | the transaction carries the given parties, amount and fee, with the id "from-to-amount-timestamp" signed by the sender |
| ChainSimulator.NewTransactionVerifies | code-examples/rust_example.rs:180-189 | a freshly created transaction verifies, whatever the hash function |
| ChainSimulator.TamperedSignatureFails | code-examples/rust_example.rs:186-189 | changing the signature of a verified transaction makes it fail verification |
| ChainSimulator.MerkleLevel | code-examples/rust_example.rs:253-266 | a level of n hashes becomes ceil(n/2) chunk hashes, strictly fewer while n > 1, with an odd last hash paired with itself |
| ChainSimulator.TxHashes | code-examples/rust_example.rs:247-250 | one hash per transaction, in order |
| ChainSimulator.MerkleRootSmallCases | code-examples/rust_example.rs:242-270 | no transactions give "0", one gives its own hash, two give the hash of both, three pair the last with itself |
| ChainSimulator.CalculateMerkleRoot | code-examples/rust_example.rs:242-270 | the `while` loop terminates with the recursive Merkle root |
| ChainSimulator.NewBlock | code-examples/rust_example.rs:199-225 | a new block has the given fields, nonce 0, the Merkle root of its transactions and its own hash |
| ChainSimulator.MineBlock | code-examples/rust_example.rs:272-290 | only the nonce and hash change; on success the hash is the block's hash with the zero prefix and every earlier nonce failed; past 1,000,000 it times out |
| ChainSimulator.TotalRemove | code-examples/rust_example.rs:332-350 | the total balance splits into one account plus the rest |
| ChainSimulator.TotalUpdate | code-examples/rust_example.rs:342-347 | replacing one account's balance changes the total by the difference |
| ChainSimulator.TransferSpec | code-examples/rust_example.rs:332-350 | a missing sender or short balance returns an error and changes nothing; no account is created or deleted |
| ChainSimulator.TransferConserves | code-examples/rust_example.rs:332-350 | a successful transfer conserves the total balance |
| ChainSimulator.TransferEffects | code-examples/rust_example.rs:342-347 | on success the sender loses `amount` and its nonce rises by 1, the receiver gains `amount`, every other account is unchanged |
| ChainSimulator.TransferToMissingReceiverLosesFunds | code-examples/rust_example.rs:342-347 | a transfer to an unknown receiver fails after the debit and nonce bump, so the total falls by `amount` |
| ChainSimulator.BlockchainState.constructor | code-examples/rust_example.rs:314-320 | a new state has no accounts and no pending transactions |
| ChainSimulator.BlockchainState.CreateAccount | code-examples/rust_example.rs:322-325 | the account is inserted with nonce 0, replacing any account at that address |
| ChainSimulator.BlockchainState.GetBalance | code-examples/rust_example.rs:327-330 | the balance exactly for known addresses, nothing otherwise |
| ChainSimulator.BlockchainState.Transfer | code-examples/rust_example.rs:332-350 | the imperative transfer has exactly the effect and result `TransferSpec` specifies |
| ChainSimulator.BlockchainState.AddPendingTransaction | code-examples/rust_example.rs:352-355 | the transaction joins the end of the queue |
| ChainSimulator.BlockchainState.GetPendingTransactions | code-examples/rust_example.rs:357-361 | the first min(limit, len) transactions are removed and returned in FIFO order; the rest stay |
| ChainSimulator.ApplyTransactions | code-examples/rust_example.rs:430-440 | a block's transactions can fail only with a bad signature or one of the transfer's errors |
| ChainSimulator.ApplyTransactionsConserves | code-examples/rust_example.rs:430-440 | a block whose transactions all succeed conserves the total balance |
| ChainSimulator.ValidChainExtends | code-examples/rust_example.rs:468-492 | appending a block with its own hash, the next index and the last hash as link keeps the chain valid |
| ChainSimulator.BrokenLinkInvalidates | code-examples/rust_example.rs:480-483 | a wrong previous hash anywhere after the genesis block makes the chain invalid |
| ChainSimulator.StakeChecksAgree | code-examples/rust_example.rs:413-426 | the delegated check's emptiness test adds nothing: both stake kinds accept exactly the listed validators |
| ChainSimulator.CreatedBlockKeepsChainValid | code-examples/rust_example.rs:449-461 | a block made by `create_block` on a valid chain keeps it valid when appended |
| ChainSimulator.Blockchain.constructor | code-examples/rust_example.rs:365-384 | a new chain holds only the genesis block, which validates, with an empty state and no validators |
| ChainSimulator.Blockchain.AddValidator | code-examples/rust_example.rs:386-389 | the validator is appended |
| ChainSimulator.Blockchain.AddBlock | code-examples/rust_example.rs:396-447 | a wrong index or previous hash, or a rejected validator, fails without touching chain or accounts; a mining timeout leaves the accounts alone; once the block is sealed, the accounts and the result are those of running its transactions in order, so a failing transaction keeps the transfers before it; any failure leaves the chain unchanged; success appends exactly one block |
| ChainSimulator.Blockchain.Append | code-examples/rust_example.rs:442-444 | the block is pushed, and a valid chain stays valid when it carries its own hash |
| ChainSimulator.Blockchain.Seal | code-examples/rust_example.rs:408-427 | proof of work mines the block (only nonce and hash change) and can fail only with the mining timeout; the stake kinds leave the block as it is and report the validator check |
| ChainSimulator.Blockchain.ApplyBlockTransactions | code-examples/rust_example.rs:430-440 | transactions run in order, stopping at the first bad signature or failed transfer without undoing earlier ones |
| ChainSimulator.Blockchain.CreateBlock | code-examples/rust_example.rs:449-461 | the new block takes up to 100 pending transactions in FIFO order and links to the latest block |
| ChainSimulator.PushStep | code-examples/rust_example.rs:505-513 | push fails with "Out of gas" exactly when gas_used + 1 > gas_limit and changes nothing then; it never itself passes the limit |
| ChainSimulator.PopStep | code-examples/rust_example.rs:515-526 | pop fails on gas first, then with "Stack underflow" on an empty stack; on success it returns the top and charges 1 |
| ChainSimulator.ExecStepSuccess | code-examples/rust_example.rs:528-562 | a successful opcode pops two, pushes their wrapped result and costs 8 gas in all |
| ChainSimulator.DivisionByZeroAfterPops | code-examples/rust_example.rs:549-554 | division by zero is reported after both operands were popped and paid for |
| ChainSimulator.GasOverrun | code-examples/rust_example.rs:529-560 | with limit 10 and 5 used, ADD succeeds and leaves 13 used: the final +5 passes the limit |
| ChainSimulator.ExecStepChecked | code-examples/rust_example.rs:528-562 | with the up-front check covering the whole charge, gas never passes the limit, and within budget it behaves as written |
| ChainSimulator.VirtualMachine.constructor | code-examples/rust_example.rs:496-503 | a new machine has an empty stack, no gas used and 1024 zero bytes of memory |
| ChainSimulator.VirtualMachine.Push | code-examples/rust_example.rs:505-513 | the imperative push has exactly `PushStep`'s effect |
| ChainSimulator.VirtualMachine.Pop | code-examples/rust_example.rs:515-526 | the imperative pop has exactly `PopStep`'s effect |
| ChainSimulator.VirtualMachine.ExecuteOpcode | code-examples/rust_example.rs:528-562 | the imperative opcode step has exactly `ExecStep`'s effect, the overrun included |
| ChainSimulator.VirtualMachine.ExecuteOpcodeChecked | code-examples/rust_example.rs:528-562 | the corrected step never takes gas past the limit |
| ChainSimulator.VirtualMachine.SecurityCheck | code-examples/rust_example.rs:565-577 | the check passes exactly when no byte is 0xFF and gas used is at most 90% of the limit, with the u64 product wrapping |
| ChainSimulator.ZeroMemoryPassesCheck | code-examples/rust_example.rs:565-577 | memory that stays all zeros never trips the 0xFF clause |
| ChainSimulator.NetworkNode.constructor | code-examples/rust_example.rs:710-717 | a new node has no peers |
| ChainSimulator.NetworkNode.ConnectPeer | code-examples/rust_example.rs:719-723 | a peer is appended only if absent, so no peer is listed twice |
| Gateway.Upserted | code-examples/go_example.go:105-131 | registration appends an instance with a new id; with a known id the length is kept and every other entry is untouched |
| Gateway.UpsertedAt | code-examples/go_example.go:114-121 | an instance whose id first occurs at position i overwrites exactly position i |
| Gateway.UpsertKeepsIdsUnique | code-examples/go_example.go:105-131 | registration keeps ids unique within a service, and the registered instance is the only new entry |
| Gateway.UpsertIdempotent | code-examples/go_example.go:105-131 | registering the same instance twice equals registering it once |
| Gateway.Healthy | code-examples/go_example.go:144-149 | the serving instances are exactly the "healthy" ones seen less than 30 s ago, in order |
| Gateway.HealthyInstances | code-examples/go_example.go:143-149 | the filtering loop returns exactly `Healthy` |
| Gateway.Checked | code-examples/go_example.go:664-668 | an instance last seen more than 30 s ago comes back with health "unhealthy" and every other field as it was; one seen within 30 s comes back unchanged |
| Gateway.CheckedAll | code-examples/go_example.go:664-668 | the check applies to each instance position by position |
| Gateway.HealthCheckKeepsServingSet | code-examples/go_example.go:659-668 | a health check never changes which instances `GetService` would serve |
| Gateway.CheckedAllKeepsIds | code-examples/go_example.go:664-668 | health checks keep ids unique and service names unchanged |
| Gateway.CheckInstances | code-examples/go_example.go:664-668 | the inner loop over one service's instances yields `CheckedAll` |
| Gateway.ServiceRegistry.constructor | code-examples/go_example.go:97-103 | a new registry has no services |
| Gateway.ServiceRegistry.RegisterService | code-examples/go_example.go:105-131 | only the service's own list changes, and it becomes `Upserted` of the old list |
| Gateway.ServiceRegistry.GetService | code-examples/go_example.go:134-157 | an unknown or empty service and a service with nothing serving give their errors and leave the balancer alone; otherwise the balancer's pick among the serving instances |
| Gateway.ServiceRegistry.PerformHealthChecks | code-examples/go_example.go:659-681 | every service's list is replaced by its checked list; the set of services is unchanged |
| Gateway.SelectIndex | code-examples/go_example.go:168-185 | the picked position is in range; least connections always picks the first |
| Gateway.Advanced | code-examples/go_example.go:172-176 | only round robin advances a counter, by one, and only the named service's |
| Gateway.RoundRobinVisitsAll | code-examples/go_example.go:172-176 | any n consecutive round-robin picks over n instances choose every instance |
| Gateway.LoadBalancer.constructor | code-examples/go_example.go:160-165 | a new balancer has the given algorithm and no counters |
| Gateway.LoadBalancer.SelectInstance | code-examples/go_example.go:168-185 | the pick is `SelectIndex` of the current counter, and the counters become `Advanced` |
| Gateway.EventsInjective | code-examples/go_example.go:517-541 | distinct patterns give distinct events, so every mentioned pattern is reported separately |
| Gateway.PatternEvents | code-examples/go_example.go:517-541 | an event for a pattern is present exactly when the query or path contains it; no other events; SQL events are high, XSS medium |
| Gateway.Issues | code-examples/go_example.go:511-556 | every issue is high or medium, there are at most 12, and none is ever critical |
| Gateway.IssuesMatchPatterns | code-examples/go_example.go:511-556 | a request is flagged for each SQL and XSS pattern exactly when it mentions it, and for size exactly above 10 MiB |
| Gateway.ScanPatterns | code-examples/go_example.go:517-541 | each pattern loop yields `PatternEvents` |
| Gateway.DetectSecurityIssues | code-examples/go_example.go:511-556 | the SQL loop, the XSS loop and the size check together yield `Issues` |
| Gateway.Forwards | code-examples/go_example.go:486-507 | the request is forwarded exactly when no issue is critical |
| Gateway.MiddlewareNeverRejects | code-examples/go_example.go:481-507 | since no detected issue is critical, the middleware forwards every request |
| Gateway.GetEnv | code-examples/go_example.go:697-702 | a set, non-empty variable is used; an unset or empty one gives the default |
| Gateway.ParseDuration | code-examples/go_example.go:704-710 | an unparsable duration falls back to 15 s; a parsable one is used |
| Gateway.ParseInt | code-examples/go_example.go:712-718 | exactly "1000" reads as 1000 and every other string as 100 |
| Gateway.ParseBool | code-examples/go_example.go:720-722 | only "true" reads as true |
| Gateway.DefaultConfig | code-examples/go_example.go:683-695 | with nothing set, the configuration is port 8080, timeouts 15 s/15 s/60 s, 1000 connections, 100 rps, metrics and WebSocket on |
| Gateway.LimitsAreTwoValued | code-examples/go_example.go:683-718 | the connection and rate limits can only be 100 or 1000, and a MAX_CONNECTIONS of anything but "1000" gives 100 |
| Orders.OrderTotalAppend | code-examples/java_example.java:452-455 | the order total is additive over concatenation, so grouping items does not change it |
| Orders.OrderTotalNonNegative | code-examples/java_example.java:199-205 | when no discount exceeds its line, the total is not negative |
| Orders.FinalAmount | code-examples/java_example.java:144-156 | with no discount, tax or shipping the final amount is the total |
| Orders.FinalAmountComponents | code-examples/java_example.java:144-156 | setting the discount lowers the final amount by exactly it; setting tax or shipping raises it by exactly that amount |
| Orders.NewOrder | code-examples/java_example.java:419-457 | a created order is pending, keeps the request's items and totals them, and its final amount is that total |
| Orders.WithStatus | code-examples/java_example.java:499-511 | the status is set, notes are replaced only when given, delivery time is stamped only for delivered, and nothing else changes |
| Orders.OrderRepository.constructor | code-examples/java_example.java:364 | a new repository holds no orders |
| Orders.OrderRepository.CreateOrder | code-examples/java_example.java:419-470 | the new order is saved under its number |
| Orders.OrderRepository.UpdateOrderStatus | code-examples/java_example.java:493-526 | an unknown number gives "Order not found: <number>" and changes nothing; otherwise the order becomes `WithStatus` and the previous status is returned for the change event |
| Orders.OrderRepository.CancelOrder | code-examples/java_example.java:528-535 | an unknown number gives the not-found error and changes nothing; otherwise only that order changes: it becomes cancelled with notes "Cancelled: <reason>", every other field kept |
| Orders.HalfUpDivideNearest | code-examples/java_example.java:556-558 | the HALF_UP quotient is within half a unit of the exact one, and a tie rounds away from zero |
| Orders.CountStatus | code-examples/java_example.java:553-554 | a status count never exceeds the number of orders |
| Orders.StatusBreakdown | code-examples/java_example.java:553-554 | a status has an entry exactly when it occurs, and the entry is its count |
| Orders.CountStatusStep | code-examples/java_example.java:553-554 | appending an order raises its own status's count by one and no other |
| Orders.CountsOverStep | code-examples/java_example.java:553-554 | appending an order raises the counts summed over a status list by the status's occurrences in the list |
| Orders.OccursOnce | code-examples/java_example.java:262-270 | every status occurs exactly once among all statuses |
| Orders.OccurrencesOfDistinct | code-examples/java_example.java:262-270 | in a list without repeats a status occurs once if listed and never otherwise |
| Orders.CountsOverNothing | code-examples/java_example.java:553-554 | no orders give zero counts |
| Orders.CountsOverAll | code-examples/java_example.java:553-554 | the counts over all statuses add up to the number of orders |
| Orders.BreakdownMatchesCounts | code-examples/java_example.java:553-554 | the breakdown map agrees with the counts over any status list |
| Orders.UndeliveredAddNoRevenue | code-examples/java_example.java:548-551 | orders none of which are delivered add no revenue |
| Orders.OrderAnalytics | code-examples/java_example.java:543-570 | the order count is the number of orders, revenue sums delivered totals, the average is 0 with no orders and otherwise revenue/count rounded half up, and the breakdown counts every order once |
| Orders.SecurityMonitoringService.constructor | code-examples/java_example.java:847-852 | a new service has logged nothing |
| Orders.SecurityMonitoringService.LogSecurityEvent | code-examples/java_example.java:854-881 | the event is appended and at most the newest 1000 are kept |
| Orders.SecurityMonitoringService.RecentSecurityEvents | code-examples/java_example.java:883-890 | exactly min(`limit`, log size) events, newest first, all drawn from the log, and no event left out is newer than one returned |
| Orders.ValidationEvents | code-examples/java_example.java:1030-1048 | "excessive_order_items" is logged exactly above 100 items and "high_value_order" exactly above 10000.00, both medium |
| Orders.AnomalyScore | code-examples/java_example.java:1050-1081 | the score is between 0 and 0.7, and 0 exactly when there are at most 50 items, the value is at most 5000.00 and no product repeats |
| Orders.HighAnomalyUnreachable | code-examples/java_example.java:976-983 | the score never exceeds 0.8, so the high-anomaly event is never logged |
| Orders.FindDuplicateProduct | code-examples/java_example.java:1066-1074 | the set-based scan finds a repeat exactly when some product id occurs twice |
| Orders.CalculateAnomalyScore | code-examples/java_example.java:1050-1081 | the imperative score equals `AnomalyScore` |
| Orders.CreateOrderChecked | code-examples/java_example.java:964-995 | the validation events are logged in order and the pending order is built from the request |
| Orders.HighValueCount | code-examples/java_example.java:1245-1248 | the high-value count never exceeds the number of orders |
| Orders.RatioAbove | code-examples/java_example.java:1250-1251 | a ratio above 0.3 means more than 3 in 10 orders |
| Orders.PeriodAnomalyScore | code-examples/java_example.java:1233-1256 | no orders score 0; the score is between 0 and 0.5, and positive only for over 1000 orders or over 30% above 1000.00 |
| Portfolio.Quot | code-examples/kotlin_example.kt:324 | a quotient by a nonzero divisor is exact; by zero it is 0 |
| Portfolio.Applied | code-examples/kotlin_example.kt:316-374 | a transaction touches only its own coin's holding, and holdings stay keyed by their coin |
| Portfolio.BuyIntoHolding | code-examples/kotlin_example.kt:321-333 | buying a held coin adds the amount and the value, and the average price becomes invested over amount |
| Portfolio.BuyOpensHolding | code-examples/kotlin_example.kt:334-346 | buying a coin not held opens a holding at the transaction's amount, price and value |
| Portfolio.SellClosesHolding | code-examples/kotlin_example.kt:349-363 | selling at least what is held deletes the holding |
| Portfolio.SellReducesHolding | code-examples/kotlin_example.kt:349-362 | selling less than is held keeps the rest of the amount and the average price, and scales the invested total by the part kept |
| Portfolio.UnchangedBy | code-examples/kotlin_example.kt:349-372 | selling a coin not held, and either transfer, leave the holdings as they were |
| Portfolio.BuyThenSellAllRestores | code-examples/kotlin_example.kt:316-374 | buying a new coin and then selling at least as much of it restores the holdings |
| Portfolio.AppliedKeepsAmountsPositive | code-examples/kotlin_example.kt:316-374 | with positive buy amounts every stored holding keeps a positive amount |
| Portfolio.HoldingsTable.constructor | code-examples/kotlin_example.kt:204-220 | a new table is empty |
| Portfolio.HoldingsTable.GetHoldingByCryptoId | code-examples/kotlin_example.kt:209-210 | the lookup finds a row exactly when one is stored, and returns it |
| Portfolio.HoldingsTable.InsertHolding | code-examples/kotlin_example.kt:212-213 | with REPLACE, the coin's row becomes the given one |
| Portfolio.HoldingsTable.UpdateHolding | code-examples/kotlin_example.kt:215-216 | a stored row is overwritten; a row not stored is not added |
| Portfolio.HoldingsTable.DeleteHolding | code-examples/kotlin_example.kt:218-219 | the coin's row is removed and no other |
| Portfolio.UpdatePortfolioHolding | code-examples/kotlin_example.kt:316-374 | the DAO calls leave the table equal to `Applied` of the old table |
| Portfolio.PriceTable | code-examples/kotlin_example.kt:397 | each coin is stored under its own id, every listed id is present, and the last coin wins an id |
| Portfolio.PriceTableOfDistinct | code-examples/kotlin_example.kt:397 | with distinct ids every coin is found under its id |
| Portfolio.Item | code-examples/kotlin_example.kt:399-406 | a line's value is amount times price, its profit is value less invested, and its percentage is profit over invested times 100 |
| Portfolio.Items | code-examples/kotlin_example.kt:398-408 | one line per priced holding in order, none for unpriced ones, and the sums of the lines are the priced totals |
| Portfolio.ProfitLossPercentage | code-examples/kotlin_example.kt:413 | nothing positive invested gives 0; otherwise the percentage times invested is 100 times the profit, positive exactly on a gain and negative exactly on a loss |
| Portfolio.PortfolioScreen | code-examples/kotlin_example.kt:391-427 | the screen's totals are the priced totals, its profit is their difference and its percentage follows `ProfitLossPercentage` |
| Portfolio.AssetValues | code-examples/kotlin_example.kt:1115-1121 | only priced coins get a value |
| Portfolio.AnomalyScore | code-examples/kotlin_example.kt:1104-1135 | the score lies between 0 and 1 |
| Portfolio.WithinTotalStep | code-examples/kotlin_example.kt:1115-1121 | recording one more coin's value as the total grows by it keeps every value, and any two together, within the total |
| Portfolio.AssetValuesWithinTotal | code-examples/kotlin_example.kt:1115-1121 | with nothing negative, each coin's value and any two coins' values together stay within the total |
| Portfolio.AtMostOneConcentrated | code-examples/kotlin_example.kt:1123-1128 | with nothing negative, at most one coin can exceed half of the total |
| Portfolio.AnomalyScoreBound | code-examples/kotlin_example.kt:1104-1135 | the score is 0.3 per concentrated coin plus 0.1 above 20 holdings, so it never exceeds 0.4 and the 1.0 cap never acts |
| Portfolio.CalculateAnomalyScore | code-examples/kotlin_example.kt:1104-1135 | the imperative score equals `AnomalyScore` |
| Portfolio.ValueHoldings | code-examples/kotlin_example.kt:1115-1121 | the first loop computes the priced total and each priced coin's value |
| Portfolio.CountConcentrated | code-examples/kotlin_example.kt:1123-1128 | the second loop adds 0.3 per coin above half of a positive total |
| Portfolio.PricedTotals | code-examples/kotlin_example.kt:1072-1081 | the analytics loop computes the priced value and invested totals |
| Portfolio.CountOf | code-examples/kotlin_example.kt:869-870 | a key's count is positive exactly when it occurs |
| Portfolio.EachCount | code-examples/kotlin_example.kt:869-870 | each key that occurs is mapped to how often it occurs, and no other key |
| Portfolio.Severities | code-examples/kotlin_example.kt:869 | the severities of the events, in order |
| Portfolio.EventTypes | code-examples/kotlin_example.kt:870 | the types of the events, in order |
| Portfolio.RecentCount | code-examples/kotlin_example.kt:871-873 | the recent count is 0 exactly when every event is at least an hour old |
| Portfolio.SecurityMonitoringService.constructor | code-examples/kotlin_example.kt:832-833 | a new service has logged nothing |
| Portfolio.SecurityMonitoringService.LogSecurityEvent | code-examples/kotlin_example.kt:835-859 | the event is appended and at most the newest 1000 are kept |
| Portfolio.SecurityMonitoringService.RecentSecurityEvents | code-examples/kotlin_example.kt:861-865 | exactly min(`limit`, log size) events, newest first, all drawn from the log, and no event left out is newer than one returned |
| Portfolio.SecurityMonitoringService.Metrics | code-examples/kotlin_example.kt:867-881 | a severity or type has an entry exactly when some event has it, and the entry is the number of events with it; the recent count is the number of events under an hour old |
| Portfolio.SecurityMonitoringService.Reset | code-examples/kotlin_example.kt:883-887 | the log becomes empty |
| Portfolio.ExtremeMoversSelect | code-examples/kotlin_example.kt:944-945 | each coin moving more than 50% is selected as often as it occurs, and no other coin is |
| Portfolio.ExtremeChangeEventsPerMover | code-examples/kotlin_example.kt:944-953 | one warning per extreme mover, in the movers' order |
| Portfolio.ExtremeChangeEventsStep | code-examples/kotlin_example.kt:944-953 | one more coin adds its warning at the end exactly when it is an extreme mover |
| Portfolio.IdsSnoc | code-examples/kotlin_example.kt:956 | the id set of a list is its front's plus the last id |
| Portfolio.DistinctIdsSnoc | code-examples/kotlin_example.kt:956-957 | a list has distinct ids exactly when its front does and the last id is new |
| Portfolio.IdSetSize | code-examples/kotlin_example.kt:956-957 | the id set is never larger than the list, and as large exactly when ids are distinct |
| Portfolio.MarketDataEvents | code-examples/kotlin_example.kt:942-965 | the extreme-move warnings, then one duplicate warning exactly when ids repeat |
| Portfolio.AmountEvents | code-examples/kotlin_example.kt:977-994 | a warning exactly for an amount above 1,000,000 or below 0, never both, large before negative |
| Portfolio.TimestampEvents | code-examples/kotlin_example.kt:997-1005 | an error exactly when the timestamp does not parse; otherwise a warning exactly when it is over an hour ahead |
| Portfolio.LogAppends | code-examples/kotlin_example.kt:835-859 | logging one more event keeps the record equal to history plus what was added |
| Portfolio.EnhancedCryptoRepository.constructor | code-examples/kotlin_example.kt:892-899 | a new repository has no coins and no transactions |
| Portfolio.EnhancedCryptoRepository.ValidateMarketData | code-examples/kotlin_example.kt:942-965 | the log grows by exactly `MarketDataEvents` |
| Portfolio.EnhancedCryptoRepository.WarnExtremeChanges | code-examples/kotlin_example.kt:944-953 | the first loop logs exactly the extreme-move warnings |
| Portfolio.EnhancedCryptoRepository.RefreshMarketData | code-examples/kotlin_example.kt:910-940 | a fetched list is validated and replaces the coin table; a failed fetch logs "market_data_error" and leaves the table |
| Portfolio.EnhancedCryptoRepository.ValidateTransaction | code-examples/kotlin_example.kt:975-1006 | the amount warnings are logged, then the timestamp warning; an unparsable timestamp fails after the amount warnings |
| Portfolio.EnhancedCryptoRepository.AddTransaction | code-examples/kotlin_example.kt:967-973 | on a parsable timestamp the transaction is stored and the holdings become `Applied`; otherwise nothing is stored |
| Portfolio.EnhancedCryptoRepository.GetPortfolioAnalytics | code-examples/kotlin_example.kt:1068-1102 | the totals match the portfolio screen's, with the log's metrics, the ten newest events and the anomaly score |
| CodeReview.PenaltyAtLeastCount | code-examples/python_example.py:357-358 | every issue costs at least 1, so the penalty is at least the number of issues |
| CodeReview.Score | code-examples/python_example.py:351-361 | no issues score 100; the score lies in [0, 100], is below 100 whenever there is an issue, and reaches 0 only once the doubled penalty reaches 100 |
| CodeReview.ScoreAfterAdding | code-examples/python_example.py:351-361 | one more issue lowers the score by twice its weight, down to the floor of 0 |
| CodeReview.PenaltyOfPermutation | code-examples/python_example.py:358 | the penalty does not depend on the order of the issues |
| CodeReview.PenaltyRemove | code-examples/python_example.py:358 | removing one issue removes exactly its weight |
| CodeReview.SeverityCountsAddUp | code-examples/python_example.py:325-331 | the four severity counts add up to the number of issues |
| CodeReview.CategoryCountsAddUp | code-examples/python_example.py:326-332 | the four category counts add up to the number of issues |
| CodeReview.GenerateReport | code-examples/python_example.py:323-349 | the report counts every issue once under its severity and its category, all four keys present, lists the issues in order, and carries the score |
| CodeReview.Walk | code-examples/python_example.py:176 | the walk starts at the node itself |
| CodeReview.BfsVisitsForest | code-examples/python_example.py:176 | a breadth-first walk of a queue visits exactly the nodes of its trees |
| CodeReview.WalkVisitsTree | code-examples/python_example.py:176 | `ast.walk` visits the root and every descendant, and nothing else |
| CodeReview.BfsIncrements | code-examples/python_example.py:309-319 | summing the increments in walk order gives the structural total of the trees |
| CodeReview.CalculateCyclomaticComplexity | code-examples/python_example.py:305-321 | the loop over the walk returns 1 plus the structural total of branch points, boolean operands beyond the first and comparisons beyond the first |
| CodeReview.TreeIncrementsNonNegative | code-examples/python_example.py:309-319 | on a tree with at least one operand per boolean operation and one operator per comparison, no node lowers the count |
| CodeReview.ComplexityAtLeastOne | code-examples/python_example.py:305-321 | the complexity of any such function is at least 1 |
| CodeReview.NestingDepth | code-examples/python_example.py:266-275 | the depth is never below the starting depth |
| CodeReview.DeepestChild | code-examples/python_example.py:270-273 | the running maximum is never below the starting depth |
| CodeReview.DeepestChildIsMaximum | code-examples/python_example.py:270-273 | the result bounds every control child's depth and is the start or one of them |
| CodeReview.NestingDepthIsMaximum | code-examples/python_example.py:266-275 | no control children give the starting depth; otherwise the depth is the deepest control child's |
| CodeReview.NestingDepthShift | code-examples/python_example.py:266-275 | starting from depth d adds exactly d to the depth counted from 0 |
| CodeReview.SyntaxIssue | code-examples/python_example.py:203-211 | a syntax error becomes one critical bug with confidence 1.0, on its line, or on line 1 when the line is missing or 0 |
| CodeReview.StaticIssuesFromNodes | code-examples/python_example.py:176-201 | every static issue comes from a walked function with over 7 parameters or an `if` nested over 4 deep, and each such node yields its issue |
| CodeReview.StaticIssuesAreMediumStyle | code-examples/python_example.py:180-201 | every static issue on a parsed tree is a medium style issue |
| CodeReview.StaticAnalysisFindsEveryViolation | code-examples/python_example.py:176-201 | every function in the tree with over 7 parameters, and every `if` nested over 4 deep, is reported |
| CodeReview.CheckNode | code-examples/python_example.py:178-201 | one walked node gives exactly its parameter-count or nesting issue |
| CodeReview.StaticAnalysis | code-examples/python_example.py:170-213 | a parse error gives exactly the syntax issue; otherwise the issues of the walked nodes in walk order |
| CodeReview.ComplexityConfidence | code-examples/python_example.py:288 | the confidence is min(0.95, 0.5 + c/50): never above 0.95, and 0.95 from complexity 23 on |
| CodeReview.NodeComplexityIssueShape | code-examples/python_example.py:286-297 | a node is reported exactly when it is a function of complexity over 10, once, as style on its line; high above 15, medium otherwise |
| CodeReview.ComplexityIssuesFromNodes | code-examples/python_example.py:286-297 | every complexity issue comes from a walked function over the threshold, and each such function yields its issue |
| CodeReview.ComplexityAnalysisFindsEveryFunction | code-examples/python_example.py:286-297 | every function in the tree with complexity over 10 is reported |
| CodeReview.ComplexityAnalysis | code-examples/python_example.py:277-303 | a parse error gives no issues; otherwise the issues of the walked functions in walk order |
| CodeReview.PatternTablesDisjoint | code-examples/python_example.py:37-150 | no pattern is in both the security and the performance table |
| CodeReview.PatternIssueCategory | code-examples/python_example.py:225-232 | a security pattern's issue is a security issue, a performance pattern's a performance issue, on the given line |
| CodeReview.Matching | code-examples/python_example.py:222-223 | a pattern is kept exactly when it is in the table and matches the line |
| CodeReview.LineIssuesOnePerMatch | code-examples/python_example.py:222-232 | one issue per matching pattern, in table order |
| CodeReview.LineIssuesExactly | code-examples/python_example.py:222-232 | an issue is raised for a pattern on a line exactly when the pattern matches it |
| CodeReview.PatternIssuesExactly | code-examples/python_example.py:215-234 | the pattern issues are exactly the pairs of a 1-based line number and a pattern matching that line |
| CodeReview.PatternAnalysis | code-examples/python_example.py:215-234 | the nested loops return exactly `PatternIssues` of the split lines |
| CodeReview.SeverityRankIsNameOrder | code-examples/python_example.py:168 | comparing severity names as strings is comparing ranks critical < high < low < medium |
| CodeReview.IssueOrderIsTotalPreorder | code-examples/python_example.py:168 | the sort key order is total and transitive |
| CodeReview.IssueTiesShareKey | code-examples/python_example.py:168 | two issues rank level under the key exactly when they have the same severity and the same line |
| CodeReview.SortIssues | code-examples/python_example.py:168 | the result is sorted by severity name then line, is a permutation of the input, keeps the score, and is stable: issues with the same key keep their input order |
| CodeReview.AnalyzeCode | code-examples/python_example.py:152-168 | the result is sorted, holds exactly the static, pattern, model and complexity issues, scores as they do, and lists issues with the same key in the order they were collected |
| CodeReview.SortedBySeverityName | code-examples/python_example.py:168 | in a sorted result every critical issue precedes every other and no medium issue precedes a low one |
| Text.Split | code-examples/python_example.py:218 | splitting gives at least one piece and no piece holds the separator |
| Text.JoinSplit | code-examples/python_example.py:218 | joining the pieces with the separator gives back the text |
| Sorting.SortBy | code-examples/java_example.java:885-886 | the result is ordered by the comparison and is a permutation of the input |
| Sorting.InsertTies | code-examples/python_example.py:168 | inserting an element places it ahead of every element that ranks level with it, leaving their order alone |
| Sorting.SortByTies | code-examples/python_example.py:168 | for any key, the elements ranking level with it come out in their input order |
| Sorting.SortByStable | code-examples/python_example.py:168 | the sort is stable, as Python's `sorted` is: every group of level elements keeps its input order |
| Sorting.Take | code-examples/java_example.java:887 | the first `limit` elements, or all of them when there are fewer |
| Sorting.NewestFirst | code-examples/java_example.java:883-890 | at most `limit` entries, drawn from the input, newest first |
| Sorting.NewestFirstDominates | code-examples/kotlin_example.kt:861-865 | nothing left out is newer than anything returned |

## Left out

- Transport and presentation are not modelled:
  - the HTTP servers, SIGINT handling, socket.io, ws, WebSocket upgrades and the Go proxy;
  - Chart.js, DOM writes, notifications, `debounce` and the download link;
  - Compose UI, navigation and locale formatting;
  - logging, Prometheus and Micrometer metrics, Kafka events, Spring, JPA, Reactor and Hilt wiring.
- Messages a component sends become values:
  - an outbox on each server connection;
  - a list of emitted events from each dashboard call;
  - the events a monitor logs.
- The client's socket.io events and the server's raw `{type, payload}` JSON are not connected: each side's wire layer is abstract.
- `Math.random`, `Date.now`, `SystemTime`, `time.Now`/`time.Since`, `LocalDateTime.now` and `System.currentTimeMillis` become parameters.
  - Each call reads the clock once (`now`). Where the source reads it several times, those readings are taken to agree, except for the dashboard backlog, whose clock is a function.
  - The timer's scheduling is the explicit call `FireTimer`.
- Floating point is modelled over the reals: there is no IEEE rounding, overflow, infinity or NaN.
  - `Math.sqrt` is avoided by comparing squares; where a square root is shown (the enhanced confidence), it is a parameter.
  - Kotlin divisions by zero (`Quot`) give 0 instead of an infinity or NaN.
  - `Math.round` and `%.2f` rendering are left to the `show` and `iso` renderers, except that the shown prediction and the base client's event rate round explicitly.
- SHA-256, the JSON-then-hash of a transaction and Go's `time.ParseDuration` are parameters, and so are the JSON encoding and parsing of payloads.
  - The tests at `rust_example.rs:929-965` are used only as statements of intent.
- Rust outside the core is not modelled:
  - `SmartContract`, `NetworkNode.start_mining` and `broadcast_transaction`;
  - `Account.is_contract` and `deploy_contract`;
  - `main`, tokio, and the `RwLock`/`Mutex` guards. Every operation is sequential.
  - `get_threat_level` and `get_chain_length` are plain field reads.
- ChainSimulator.BlockchainState.Transfer: balances are unbounded naturals, so the u64 overflow of a receiver's credit (a panic in a debug build) is not modelled. The machine's arithmetic does wrap modulo 2^64.
- Gateway:
  - service lists are values in a map, where Go shares `*ServiceInstance` pointers, so aliasing of one instance from two places is not modelled;
  - `performHealthChecks` visits services in map order, which does not matter for its result;
  - `healthCheckRoutine`, `broadcastServiceUpdate`, `sendServiceList` and the handlers are I/O;
  - `proxyHandler` builds a fresh round-robin balancer per request, so the counter state proved here never persists there. Its `len(path) < 5` guard is not modelled;
  - the source calls `strings.Contains` without importing `strings`, so it would not compile as shown. The model reads it as the substring test.
- Gateway.LoadBalancer.SelectInstance: requires a non-empty list, because Go panics there on the modulo by zero. `GetService`, the only caller, never passes an empty one.
- Gateway.SelectIndex: for the default ("random") algorithm the clock reading in nanoseconds is a parameter, so nothing is claimed about its distribution.
- Orders:
  - money is an integer number of cents, so `BigDecimal` values with more than two decimals are not modelled;
  - order numbers, database ids, creation and update times and tags are not modelled;
  - the repository is a map from order number to order;
  - `getOrderAnalytics` takes the orders of the period as its input, since the date-range query is the database's.
- Orders.SecurityMonitoringService.RecentSecurityEvents and Portfolio.SecurityMonitoringService.RecentSecurityEvents:
  - the order among returned events with equal timestamps is not stated, although the sort underneath is stable (`Sorting.SortByStable`);
  - a negative `limit`, which makes `Stream.limit` and `take` throw, is excluded by the type `nat`.
- Orders.CreateOrderChecked: the `> 0.8` anomaly branch is proved unreachable (`HighAnomalyUnreachable`), so it is not modelled.
- Orders: the enhanced service's metrics, `getSecurityMetrics`, order persistence and events are framework calls.
- Portfolio:
  - the holdings listing that `getPortfolioAnalytics` reads from a Flow is a parameter;
  - Room's generated row ids and time stamps are not modelled;
  - `CryptoRepository` (the base repository) is the enhanced one without its checks;
  - only the enhanced repository is modelled, and both share `updatePortfolioHolding`.
- CodeReview:
  - `ast.parse` is a parameter returning either a tree or a syntax error;
  - the syntax tree is abstract: a node kind, a line, and children in `ast.iter_child_nodes` order;
  - a function's parameter count stands for `len(node.args.args)`;
  - `re.search` is the parameter `matches`;
  - `_ai_analysis`, the learned model, is represented by its list of issues;
  - `main` and the file I/O are left out.
- CodeReview.Score: returns an integer, where the source returns a float. `round(score, 2)` leaves an integer unchanged, so only the type differs.
- CodeReview.PatternAnalysis: every pattern in the tables carries a confidence, so the `.get('confidence', 0.9)` default is never used and is not modelled.
  - One performance pattern contains a line break, so it can never match a single line of `code.split('\n')`. The abstract matcher cannot express this, so it is not proved.
- EnhancedClient.Dashboard.ExportCsv: records end with a line feed, as the source writes them, not the CRLF of section 2 rule 1 of RFC 4180. The reader in the model accepts a line feed.
- AnalyticsClient: the source's own example `[50, 52, 51, 53, 130]` does not fire the 2.5 z-score detector (z is about 2.0); `SpikeInShortWindowIsSilent` proves that it cannot.
  - The `systemMetrics` buffer is created but never filled, so the smoothing and the threshold detector take the latest sample as a parameter.

## Findings

| source | as written | input that shows it | evidently intended | confidence | as-written member | corrected member |
|---|---|---|---|---|---|---|
| code-examples/javascript_example_enhanced.js:833-836 | each CSV field is wrapped in quotes without doubling the quotes inside it | one message whose payload JSON is `{"k":1}`: the record's third field is cut at the first inner quote, and the document does not read back | quotes inside a field doubled, as in section 2 rule 7 of RFC 4180, so the export reads back as the rows written | not executed | EnhancedClient.UnescapedExportIsUnreadable | EnhancedClient.CsvRoundTrip |
| code-examples/rust_example.rs:528-562 | `execute_opcode` checks room for 5 gas up front, but two pops and a push cost 3 more, and the final `gas_used += 5` is not checked | limit 10, 5 used, stack [2, 1], ADD: it succeeds and leaves 13 used, over the limit | the up-front check covers the whole charge of 8, so gas used never passes the limit | not executed | ChainSimulator.GasOverrun | ChainSimulator.ExecStepChecked |
| code-examples/javascript_example.js:295 | `handleIncomingData` calls `this.updateDashboardMetrics()`, which the class never defines (its metrics method is `updateMetricsDisplay`), so the call throws after the counter and chart updates | any message, e.g. `{type: "user_activity", payload: {activeUsers: 3}}`: the catch block emits `error` and `dataReceived` never fires | the handler refreshes the metrics display and emits `dataReceived` for every well-formed message | not executed | AnalyticsClient.Dashboard.HandleIncomingData | AnalyticsClient.Dashboard.HandleIncomingDataCorrected |
