# Golden Batch dashboard: the computed core, in Dafny

The dashboard is an operator UI for a batch-manufacturing process. Three of its
pages hold logic that can be stated precisely. This project models them and
proves properties about them.

- **Optimization overview** (`optimization_overview.dfy`, module `OptimizationOverview`).
  - It builds a baseline temperature trend with a golden tunnel of ±5 around the ideal curve.
  - The live window shows the first `timeIndex` samples. Each sample's temperature is shifted by the drift offset, and its upper bound by the tunnel offset.
  - The health score is `clamp(round(100 - 200·alarms/n), 0, 100)`, with an empty window counted as one sample. `round` is JavaScript's `Math.round`, i.e. `floor(x + 1/2)`.
  - The predicted pH is `7.2 - d` and the predicted diameter is `120 + 100·d`, where `d = (100 - score)/200`.
  - The class `Simulation` holds the page state. The timer tick, play/pause, reset, the tab buttons and the two sliders are its methods.
- **Batch analysis** (`batch_analysis.dfy`, module `BatchAnalysis`).
  - The mock history has fifteen batches, with ids `BATCH-2024-05-300` … `-314`. Every fourth batch is bad.
  - The class `SelectionState` holds the training and validation lists. A checkbox click toggles an id in one list and removes it from the other.
- **Model library** (`model_library.dfy`, module `ModelLibrary`).
  - The class `Library` holds the list of model pairs. Its `MoveStatus` sets the target's status. When that status is Active, every other active model is demoted to Validated.
  - Each card offers only its forward move: Pending→Validated, Validated→Active.
  - The page has one column per status.

Measurements are exact `real`s. The generator's sine profile and its `Math.random` noise are parameters (`profile`, `noise : int -> real`). So is the history's random quality data (`cqa`).

Two facts about the code shape the cursor model:
- **The tick.** It maps `prev` to `0` only when `prev >= length`, and to `prev + 1` otherwise. So the cursor reaches `length` and the whole series is shown before it wraps: `Ticks(0, length, length) == length`, and the cursor returns to 0 on tick `length + 1`.
- **The window.** `slice(0, timeIndex)` clamps to the series length, so the window has length `min(timeIndex, length)`.

## Model

| member | source | states |
|---|---|---|
| OptimizationOverview.GeneratePoints | pages/OptimizationOverview.tsx:7-28 | exactly `count` points; point `i` has time `i`, temperature `profile(i)+noise(i)`, bounds `profile(i)±5`, pressure/shear channels 0; equals the `Baseline` series |
| OptimizationOverview.Window | pages/OptimizationOverview.tsx:42-48 | length `min(timeIndex, length of the series)`; point `k` keeps time, lower bound and the pressure fields, has temperature shifted by the drift offset and upper bound by the tunnel offset |
| OptimizationOverview.WindowWithoutOffsets | pages/OptimizationOverview.tsx:43-47 | with both offsets 0 the window is exactly the prefix of the series of that length |
| OptimizationOverview.WindowGrows | pages/OptimizationOverview.tsx:42-48 | advancing the cursor by one appends exactly the next shifted sample to the window |
| OptimizationOverview.CountAlarms | pages/OptimizationOverview.tsx:52-59 | the alarm count never exceeds the number of samples |
| OptimizationOverview.CountAlarmsIsAlarmIndices | pages/OptimizationOverview.tsx:53-59 | the counter equals the number of positions whose sample is above its upper or below its lower bound |
| OptimizationOverview.CountAlarmsNone | pages/OptimizationOverview.tsx:55-59 | a window entirely inside its tunnel raises no alarm |
| OptimizationOverview.CountAlarmsAll | pages/OptimizationOverview.tsx:55-59 | a window entirely outside its tunnel raises one alarm per sample |
| OptimizationOverview.CountAlarmsPointwise | pages/OptimizationOverview.tsx:55-59 | if every alarm of one window is an alarm of another at the same position, the first has no more alarms |
| OptimizationOverview.JsRound | pages/OptimizationOverview.tsx:64 | `Math.round`: the result `r` satisfies `r - 1/2 <= x < r + 1/2`, so halves round up |
| OptimizationOverview.Score | pages/OptimizationOverview.tsx:61-64 | the score always lies in [0, 100] |
| OptimizationOverview.HealthStats | pages/OptimizationOverview.tsx:51-67 | the loop's counter equals the number of out-of-tunnel samples (at most the window length); the result equals `Assess`, with score in [0, 100] |
| OptimizationOverview.Assess | pages/OptimizationOverview.tsx:61-66 | the returned alarm count is the number of out-of-tunnel samples (at most the window length); the score is in [0, 100], and 100 when there are no alarms |
| OptimizationOverview.EmptyWindowIsHealthy | pages/OptimizationOverview.tsx:61-65 | an empty window scores 100 with 0 alarms, because it is divided as if it held one sample |
| OptimizationOverview.ScoreWithoutAlarms | pages/OptimizationOverview.tsx:62-64 | zero violations give score 100 for every window length |
| OptimizationOverview.ScoreAntitone | pages/OptimizationOverview.tsx:62-64 | for a fixed window length, more violations never give a higher score |
| OptimizationOverview.ScoreZeroAtHalfViolations | pages/OptimizationOverview.tsx:62-64 | when `0 < n <= 2·alarms` the score is 0 |
| OptimizationOverview.ScoreOneInTen | pages/OptimizationOverview.tsx:61-64 | one violation among ten samples scores 80 |
| OptimizationOverview.PredictCqa | pages/OptimizationOverview.tsx:70-77 | for a score in [0, 100], pH in [6.7, 7.2] and diameter in [120, 170]; score 100 exactly when (7.2, 120); score 0 gives (6.7, 170); diameter − 120 = 100·(7.2 − pH) |
| OptimizationOverview.PredictionAntitone | pages/OptimizationOverview.tsx:72-75 | a lower score never predicts a higher pH or a smaller diameter |
| OptimizationOverview.Advance | pages/OptimizationOverview.tsx:84 | the next cursor is at most the series length; it is 0 exactly when the previous one had reached the length, otherwise previous + 1 |
| OptimizationOverview.TicksFromZero | pages/OptimizationOverview.tsx:84 | from 0, after `k <= length` ticks the cursor is `k` |
| OptimizationOverview.TicksCycle | pages/OptimizationOverview.tsx:84 | the full series (cursor = length) is shown on tick `length`, and the cursor wraps to 0 on tick `length + 1` |
| OptimizationOverview.BaselineIsHealthy | pages/OptimizationOverview.tsx:12-17 | with noise in [−2, 2] and both offsets 0, every window of the generated series scores 100 with 0 alarms |
| OptimizationOverview.LargeDriftIsUnhealthy | pages/OptimizationOverview.tsx:43-64 | with noise in [−2, 2], a drift more than 7 above the tunnel offset, or below −7, makes every shown sample of a non-empty window (`0 < min(timeIndex, count)`) an alarm and the score 0 |
| OptimizationOverview.WideningTunnelNeverLowersScore | pages/OptimizationOverview.tsx:46-64 | raising the upper-bound offset never lowers the health score |
| OptimizationOverview.TickAddsAtMostOneAlarm | pages/OptimizationOverview.tsx:43-59 | one step of the cursor adds exactly the new sample's alarm (0 or 1) to the count |
| OptimizationOverview.Simulation.constructor | pages/OptimizationOverview.tsx:30-39 | the page starts on the live tab, playing, at cursor 30, with both offsets 0, over the 60-sample baseline |
| OptimizationOverview.Simulation.CurrentBatchData | pages/OptimizationOverview.tsx:42-48 | the live chart shows `min(timeIndex, length)` samples, exactly `timeIndex` under the cursor invariant, each with temperature shifted by the drift offset and upper bound by the tunnel offset |
| OptimizationOverview.Simulation.CurrentHealth | pages/OptimizationOverview.tsx:51-67 | the health card's alarm count is the number of out-of-tunnel shown samples; the score is in [0, 100], and 100 with no alarms |
| OptimizationOverview.Simulation.CurrentPrediction | pages/OptimizationOverview.tsx:70-77 | the predicted pH is in [6.7, 7.2] and the diameter in [120, 170]; the prediction is the nominal (7.2, 120) exactly when the current score is 100 |
| OptimizationOverview.Simulation.Tick | pages/OptimizationOverview.tsx:80-88 | the cursor advances only while playing on the live tab, and it stays within [0, length]; nothing else changes |
| OptimizationOverview.Simulation.TogglePlay | pages/OptimizationOverview.tsx:109-118 | on the live tab, play/pause negates `isPlaying`, keeps the cursor invariant and changes nothing else |
| OptimizationOverview.Simulation.Reset | pages/OptimizationOverview.tsx:109-121 | on the live tab, cursor and both offsets become 0, playing state kept; the window is then empty, the score 100 and the prediction (7.2, 120) |
| OptimizationOverview.Simulation.SelectTab | pages/OptimizationOverview.tsx:96-105 | the tab buttons set the active tab only and keep the cursor invariant |
| OptimizationOverview.Simulation.SetTempOffset | pages/OptimizationOverview.tsx:176-185 | on the live tab, the drift slider sets the temperature offset only and keeps the cursor invariant |
| OptimizationOverview.Simulation.SetUpperBoundOffset | pages/OptimizationOverview.tsx:176-196 | on the live tab, the tunnel slider sets the upper-bound offset only and keeps the cursor invariant |
| BatchAnalysis.Decimal | pages/BatchAnalysis.tsx:8 | `String(n)`: at least one digit, at least three for `n >= 100` |
| BatchAnalysis.ParseDecimalRoundTrip | pages/BatchAnalysis.tsx:8 | reading the decimal text of `n` back gives `n` |
| BatchAnalysis.PadStart | pages/BatchAnalysis.tsx:8-9 | `padStart`: length the larger of the text's length and `width`, ends with `s`, filled on the left with the fill character |
| BatchAnalysis.MockHistory | pages/BatchAnalysis.tsx:7-17 | 15 batches; batch `i` is good exactly when `i % 4 != 0`; duration "118 min" and the given quality results |
| BatchAnalysis.BatchId | pages/BatchAnalysis.tsx:8 | a batch id is the `BATCH-2024-05-` prefix followed by at least three characters (the padded number, read back by `BatchIdNumber`) |
| BatchAnalysis.BatchIdNumber | pages/BatchAnalysis.tsx:8 | the number after the `BATCH-2024-05-` prefix of batch `i`'s id is `300 + i` |
| BatchAnalysis.MockHistoryIdsDistinct | pages/BatchAnalysis.tsx:7-8 | no two batches of the history share an id |
| BatchAnalysis.Without | pages/BatchAnalysis.tsx:26 | `filter(x => x !== id)`: the id is gone, every other id keeps its membership, the list does not grow |
| BatchAnalysis.WithoutAbsent | pages/BatchAnalysis.tsx:26 | filtering out an absent id leaves the list unchanged |
| BatchAnalysis.WithoutAppended | pages/BatchAnalysis.tsx:27 | filtering out an id just appended to a list without it restores that list |
| BatchAnalysis.WithoutKeepsNoDuplicates | pages/BatchAnalysis.tsx:26 | filtering keeps a duplicate-free list duplicate-free |
| BatchAnalysis.Toggled | pages/BatchAnalysis.tsx:27 | after the toggle the id is in the list exactly when it was not before; other ids keep their membership |
| BatchAnalysis.ToggledKeepsNoDuplicates | pages/BatchAnalysis.tsx:27 | an id is appended only when absent, so the list gains no duplicate |
| BatchAnalysis.ToggleSelection | pages/BatchAnalysis.tsx:24-32 | after a train click the id is not in the validation list and its training membership flips (appended at the end when absent); symmetrically for validation; every other id keeps its membership in both lists |
| BatchAnalysis.ToggleSelectionKeepsWellFormed | pages/BatchAnalysis.tsx:24-32 | if both lists are duplicate-free and disjoint before a click, they are after it |
| BatchAnalysis.ToggleSelectionTwice | pages/BatchAnalysis.tsx:27-30 | two clicks on the same checkbox of an id in neither list restore both lists exactly |
| BatchAnalysis.SelectionState.constructor | pages/BatchAnalysis.tsx:21-22 | both lists start empty (duplicate-free and disjoint) |
| BatchAnalysis.SelectionState.Toggle | pages/BatchAnalysis.tsx:24-32 | the handler updates both lists as `ToggleSelection` says and keeps them duplicate-free and disjoint |
| BatchAnalysis.SelectionState.TrainEnabled | pages/BatchAnalysis.tsx:57 | the train button is enabled exactly when the training list is non-empty |
| ModelLibrary.Moved | pages/ModelLibrary.tsx:15-19 | only the status changes; the matching model gets the new status; on activation another active model becomes exactly Validated; every other non-matching model is untouched |
| ModelLibrary.MoveAll | pages/ModelLibrary.tsx:14-21 | length, order and all fields but status preserved; matching models get the new status; a model is active afterwards exactly when it matched an activation, or it was active and the move was not an activation; each non-matching model is demoted to Validated when it was active and the move is an activation, and is unchanged otherwise |
| ModelLibrary.ActivationLeavesExactlyOneActive | pages/ModelLibrary.tsx:16-18 | with unique ids, activating an existing model leaves exactly that model active |
| ModelLibrary.ActivatingUnknownIdLeavesNoneActive | pages/ModelLibrary.tsx:16-18 | activating an id no model has demotes every active model and leaves none active |
| ModelLibrary.MoveKeepsAtMostOneActive | pages/ModelLibrary.tsx:14-21 | any move keeps the ids unique and at most one model active |
| ModelLibrary.OfferedMove | pages/ModelLibrary.tsx:58-71 | Active cards offer no move; every other card offers the next status in the lifecycle |
| ModelLibrary.OfferedMoveKeepsInvariant | pages/ModelLibrary.tsx:58-66 | pressing a card's button moves that card one status forward and keeps ids unique and at most one model active |
| ModelLibrary.Column | pages/ModelLibrary.tsx:95-124 | a column holds exactly the models of its status |
| ModelLibrary.ColumnsPartition | pages/ModelLibrary.tsx:95-121 | the Pending, Validated and Active column counts add up to the number of models |
| ModelLibrary.NoActiveColumnEmpty | pages/ModelLibrary.tsx:121 | the Active count is 0 exactly when no model is active |
| ModelLibrary.ActiveColumnAtMostOne | pages/ModelLibrary.tsx:121-124 | at most one model is active exactly when the Active column count is at most 1 |
| ModelLibrary.InitialModelsWellFormed | pages/ModelLibrary.tsx:5-9 | the initial list has unique ids, exactly one active model (MOD-001) and one card in each column |
| ModelLibrary.Library.constructor | pages/ModelLibrary.tsx:12 | the page starts with the initial list, which satisfies the invariant |
| ModelLibrary.Library.MoveStatus | pages/ModelLibrary.tsx:14-21 | the list becomes its image under the move, and unique ids with at most one active model are preserved |
| ModelLibrary.Library.ColumnCount | pages/ModelLibrary.tsx:95-121 | a column header count never exceeds the number of models |

## Left out

- Chart rendering, icons, styling and the colour bands of the health card are presentation only.
- `Math.sin` and `Math.random` are parameters of the model (`profile`, `noise`, `cqa`). Floating-point evaluation of the sine is not modelled.
- `toFixed` formatting is not modelled: measurements and predictions are exact reals. IEEE-754 rounding of the score is not modelled either: the rate `alarms/n` is exact. For windows of at most 60 samples, the halfway cases of the score are dyadic fractions, which floating point represents exactly.
- `setInterval`/`clearInterval` scheduling is concurrency plumbing. The tick is an explicit method, `Simulation.Tick`, that acts only while playing on the live tab.
- React batching is not modelled. Within one click the functional updates see the same state as the render, so each handler is modelled as one atomic update.
- The sliders' ranges (−10..10 step 1, −5..5 step 0.5) are not modelled: the setters accept any real, as the `onChange` handlers do.
- The "previous batch" chart data (`activeTab === 'current' ? … : INITIAL_DATA`) is presentation.
- The batch ids' start-time strings are built (`StartTime`), but no property of them is stated.
- Handler-less buttons (search, filter, trash, details) are out of scope. So is the navigation of the train button.
- Routing and layout (App.tsx, components/Layout.tsx) are not part of this model. Neither are the IoT tag table, the batch configuration form, constants.ts or types.ts. The last two serve only as definitions of `ModelStatus`, `ModelPair`, `HistoricalBatch` and `DataPoint`.
