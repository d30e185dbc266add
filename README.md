# AMS2 telemetry analysis core, modelled in Dafny

This project models the analysis core of an Automobilista 2 telemetry
assistant. The host program polls one shared-memory frame per tick and feeds it
through the following components:

- a driving-phase detector (STRAIGHT, BRAKING, TURN_IN, MID_CORNER, EXIT);
- a debounced event detector for lockups and entry/exit under- and oversteer;
- a tyre-temperature analyzer with a 30 s window per corner, a stability
  workflow (GATHERING, CHECKING, STABLE) and pressure/camber advice;
- a steering-lock advisor based on the peak |steering| of each lap;
- two race engineers that turn the analyses into a stint state machine:
  - the v1.1 engineer, with odometer distance, a pit-visit latch, handling
    balance and setup comparison;
  - the older engineer, with lap consistency and advice lists;
- fuel and tyre-wear monitors that keep five-lap histories and estimate the
  remaining laps;
- a best-lap store keyed by car and track;
- a track recorder that samples the driven line and tracks the tightest corner.

Each source file is one Dafny module:

| module | file | source |
|---|---|---|
| `Telemetry` | telemetry.dfy | the telemetry frame fields the core reads; per-wheel quadruples |
| `Stats` | stats.dfy | sum, mean, min/max and the bounded append used by the histories |
| `AnalysisCore` | analysis_core.dfy | ams2_analysis_core.py |
| `TyreAnalysis` | tyre_analyzer.dfy | ams2_tyre_analyzer.py |
| `SteeringAnalysis` | steering_analyzer.dfy | ams2_steering_analyzer.py |
| `RaceEngineering` | race_engineer.dfy | ams2_race_engineer.py |
| `LegacyEngineer` | race_engineer_legacy.dfy | race_engineer.py |
| `FuelMonitoring` | fuel_monitor.dfy | ams2_fuel_monitor.py |
| `WearMonitoring` | wear_monitor.dfy | ams2_wear_monitor.py |
| `LapTimes` | lap_manager.dfy | ams2_lap_manager.py |
| `TrackRecording` | track_recorder.dfy | track_recorder.py |

How the model represents the source:

- Components that update their fields tick by tick are classes. Their methods
  have `modifies` clauses, and their `ensures` tie the new state to
  specification functions of the old state and the frame.
- The decision logic itself consists of functions (phase transitions,
  verdicts, advice lists, windows, histories). Lemmas state its properties.
- Loops in the source are `while`/`for` loops with invariants. Examples are
  the eviction loop, the per-corner loops and the OK-counting loop.
- Floats are `real`. Python's `time.time()` and `datetime.now()` become
  parameters (`now`, `date`).
- `math.sqrt` in the track recorder is a function value fixed when the
  recorder is constructed. The model assumes only that it returns the
  non-negative square root.
- The four-entry lists indexed FL, FR, RL, RR are `Quad` values.
- Status strings become enumerations. An `IsOk()` predicate stands for the
  source's test for the substring "OK".
- Message texts become tags that carry the numbers the text shows.
- Both engineers receive the per-corner tyre verdict (`Quad<CornerVerdict>`)
  as a value. They are not wired to a live `TyreAnalyzer`, because that wiring
  is broken in the source (see "Left out").

Points of the code's behaviour the model keeps as written:

- The tyre temperature targets are 85 °C and 90 °C (ams2_tyre_analyzer.py:14-15), so a constant 90 °C is OK, not too hot.
- The tyre window is 30 s of wall-clock time (ams2_tyre_analyzer.py:6, 34).
- Eviction is by age (ams2_tyre_analyzer.py:81-82), not by a size bound.
- Leaving BOX does not snapshot the analysis (ams2_race_engineer.py:88-104). The snapshot is taken only on entering BOX (ams2_race_engineer.py:152).
- On WAITING to GATHERING the stint odometer is re-initialised, but the distance of that tick is the one computed before (ams2_race_engineer.py:49, 116).
- The event cooldown is strict: an event exactly 5 s after the last one of its kind is suppressed (ams2_analysis_core.py:219).

## Model

| member | source | states |
|---|---|---|
| AnalysisCore.NextPhase | ams2_analysis_core.py:45-93 | the next phase is never an unrecognised value, and brake > 0.1 always gives BRAKING |
| AnalysisCore.FromBraking | ams2_analysis_core.py:51-56 | with brake ≤ 0.1, BRAKING goes to TURN_IN iff abs(lateral accel) > 0.5, else to STRAIGHT |
| AnalysisCore.FromTurnIn | ams2_analysis_core.py:58-71 | with brake ≤ 0.1: TURN_IN plus throttle > 0.1 gives EXIT if lateral accel > 0.5, else STRAIGHT; MID_CORNER iff lateral accel > 0.5 and both pedals < 0.01; otherwise TURN_IN is kept |
| AnalysisCore.FromMidCorner | ams2_analysis_core.py:73-77 | MID_CORNER: throttle > 0.1 gives EXIT, else lateral accel < 0.2 gives STRAIGHT, else it stays |
| AnalysisCore.FromExit | ams2_analysis_core.py:79-83 | with brake ≤ 0.1, EXIT goes to STRAIGHT iff lateral accel < 0.2 and throttle > 0.8, and otherwise stays EXIT (the brake test there cannot fire) |
| AnalysisCore.FromStraight | ams2_analysis_core.py:85-90 | with brake ≤ 0.1, STRAIGHT goes to MID_CORNER iff lateral accel > 0.5, and otherwise stays |
| AnalysisCore.FromUnrecognised | ams2_analysis_core.py:92-93 | any other stored phase falls back to STRAIGHT |
| AnalysisCore.StraightIsStable | ams2_analysis_core.py:85-90 | any run of ticks with brake ≤ 0.1 and lateral accel ≤ 0.5 keeps STRAIGHT |
| AnalysisCore.PhaseDetector.constructor | ams2_analysis_core.py:8-10 | both phases start as STRAIGHT |
| AnalysisCore.PhaseDetector.Update | ams2_analysis_core.py:12-96 | the new phase is the transition function of the old phase and the tick's inputs; last_phase is the previous phase; the result is the new phase |
| AnalysisCore.KindsInIffCounted | ams2_analysis_core.py:244-249 | a kind appears in the summary iff it has a positive count |
| AnalysisCore.EmitDebounces | ams2_analysis_core.py:217-239 | an event is logged iff more than 5 s passed since the last one of its kind, as exactly one appended entry stamped now; otherwise nothing changes; other kinds keep counts and stamps |
| AnalysisCore.TwoReports | ams2_analysis_core.py:219-220 | after an accepted event at t1, one of the same kind at t2 is logged iff t2 − t1 > 5 |
| AnalysisCore.LockupDetection | ams2_analysis_core.py:134-159 | nothing below 5 m/s; otherwise front (rear) lockup is reported iff a front (rear) wheel's slip ratio exceeds 0.4 |
| AnalysisCore.EntryBalance | ams2_analysis_core.py:170-182 | understeer entry iff front slip exceeds rear by more than 1.0, oversteer entry iff the reverse; at most one per tick |
| AnalysisCore.ExitBalance | ams2_analysis_core.py:187-201 | nothing below half throttle; power oversteer iff rear slip exceeds front by more than 1.5, understeer exit iff the reverse; at most one |
| AnalysisCore.AnalysisEngine.constructor | ams2_analysis_core.py:100-103 | empty log and cooldown map, a fresh detector in STRAIGHT |
| AnalysisCore.AnalysisEngine.Update | ams2_analysis_core.py:108-127 | nothing changes unless the game is playing at ≥ 20 km/h; otherwise the phase advances and the new phase's checks report into the log |
| AnalysisCore.AnalysisEngine.CheckBraking | ams2_analysis_core.py:129-159 | the log after the braking checks equals the log with their reports emitted in order |
| AnalysisCore.AnalysisEngine.CheckTurnIn | ams2_analysis_core.py:161-182 | the same for the turn-in checks |
| AnalysisCore.AnalysisEngine.CheckExit | ams2_analysis_core.py:184-201 | the same for the exit checks |
| AnalysisCore.AnalysisEngine.AddEvent | ams2_analysis_core.py:208-239 | an accepted event stamps its kind and appends one entry with the viewed car's position (or the origin); a suppressed one changes nothing |
| AnalysisCore.AnalysisEngine.GetAnalysisSummary | ams2_analysis_core.py:242-251 | the keys are exactly the kinds present; each count is the number of events of that kind; each suggestion is that of the kind's first event; the raw log is returned |
| AnalysisCore.AnalysisEngine.Reset | ams2_analysis_core.py:253-255 | the log and the cooldowns are emptied |
| AnalysisCore.EmitAllAppend | ams2_analysis_core.py:119-124 | reporting two batches in a row equals reporting their concatenation |
| TyreAnalysis.PressureBands | ams2_tyre_analyzer.py:153-164 | too cold iff the mean is below 85 (decrease pressure), too hot iff above 90 (increase), OK iff in [85, 90]; the action is OK iff in range |
| TyreAnalysis.SpreadBands | ams2_tyre_analyzer.py:166-173 | the centre note is "hot" iff the centre exceeds the edge mean by more than 3, and "cold" iff it is more than 3 below |
| TyreAnalysis.CamberBands | ams2_tyre_analyzer.py:196-216 | front: OK iff the inner−outer delta is in [5.5, 8.5], decrease below, increase above; rear: the same with [3, 5] |
| TyreAnalysis.VerdictUsesSideReadings | ams2_tyre_analyzer.py:180-190 | left-side wheels take inner = right and outer = left, right-side wheels the reverse, and camber is judged on inner − outer |
| TyreAnalysis.ColdWindow | ams2_tyre_analyzer.py:147-160 | a window whose readings are all below 85 gives "too cold" and "decrease pressure" |
| TyreAnalysis.HotWindow | ams2_tyre_analyzer.py:147-164 | a window whose readings are all above 90 gives "too hot" and "increase pressure" |
| TyreAnalysis.FrontLeftCamberExamples | ams2_tyre_analyzer.py:183-203 | front left with inner 91.5 and outer 84.5 (delta 7) needs no camber change |
| TyreAnalysis.FrontLeftSmallDelta | ams2_tyre_analyzer.py:198-203 | front left with delta 2 gets "decrease camber" |
| TyreAnalysis.EvictIsSuffix | ams2_tyre_analyzer.py:81-82 | eviction only removes a prefix of the window |
| TyreAnalysis.EvictAfterAppend | ams2_tyre_analyzer.py:73-82 | appending a reading stamped now and evicting leaves it last, keeps the window chronological, and keeps no reading more than 30 s old |
| TyreAnalysis.TyreAnalyzer.constructor | ams2_tyre_analyzer.py:5-31 | empty windows, nothing stable, GATHERING, start lap 0 |
| TyreAnalysis.TyreAnalyzer.Update | ams2_tyre_analyzer.py:33-94 | the lap bookkeeping always runs; a tick within 1 s of the last gated tick changes nothing else; otherwise the tick is processed; the windows stay chronological and stability matches its definition; the state never moves back except through a reset |
| TyreAnalysis.TyreAnalyzer.CountLaps | ams2_tyre_analyzer.py:36-48 | records the laps, re-initialises start_lap after a reset, and promotes GATHERING to CHECKING after two laps since the start |
| TyreAnalysis.TyreAnalyzer.ProcessSample | ams2_tyre_analyzer.py:56-94 | outside PLAYING nothing changes; in the pits a reset; below 5 m/s nothing; otherwise every corner appends and evicts, and CHECKING becomes STABLE when all corners are stable |
| TyreAnalysis.TyreAnalyzer.PromoteIfStable | ams2_tyre_analyzer.py:86-89 | CHECKING becomes STABLE iff all four corners are stable; any other state is kept |
| TyreAnalysis.TyreAnalyzer.RecordSample | ams2_tyre_analyzer.py:67-84 | each corner's window becomes the evicted window plus the new reading, which ends it; all readings are within 30 s; stability is recomputed |
| TyreAnalysis.TyreAnalyzer.EvictStale | ams2_tyre_analyzer.py:81-82 | the pop loop computes exactly the age-based eviction |
| TyreAnalysis.TyreAnalyzer.Reset | ams2_tyre_analyzer.py:109-113 | empty windows, nothing stable, GATHERING, start lap −1 |
| TyreAnalysis.TyreAnalyzer.GetStatusMessage | ams2_tyre_analyzer.py:116-131 | GATHERING reports max(0, laps since start) (0 after a reset); CHECKING or UNSTABLE switches to STABLE with "come to the box" iff all corners are stable, else "one more lap"; STABLE says "come to the box" |
| TyreAnalysis.TyreAnalyzer.GetAnalysis | ams2_tyre_analyzer.py:139-229 | an analysis exists iff the state is STABLE; then each corner's verdict is computed from the means of its own window's average, left, centre and right readings (ams2_tyre_analyzer.py:147-150), so the pressure, spread and camber lemmas above apply to it |
| SteeringAnalysis.RecommendBands | ams2_steering_analyzer.py:58-63 | increase lock iff the peak is > 0.98, decrease iff < 0.60, OK iff in [0.60, 0.98] |
| SteeringAnalysis.PeakBounds | ams2_steering_analyzer.py:19-23 | the lap peak is ≥ 0, bounds every abs(input), and is 0 or one of them |
| SteeringAnalysis.PeakAdvice | ams2_steering_analyzer.py:19-23 | a lap gets "increase lock" iff some input exceeded 0.98, and "decrease lock" iff all stayed below 0.60 |
| SteeringAnalysis.SteeringAnalyzer.constructor | ams2_steering_analyzer.py:2-6 | no lap, no recommendation |
| SteeringAnalysis.SteeringAnalyzer.Update | ams2_steering_analyzer.py:8-23 | on a lap change the finished lap's advice is recorded (unless lap −1) and the peak restarts; the stored peak is always the peak of the current lap's inputs |
| SteeringAnalysis.SteeringAnalyzer.AnalyzeLap | ams2_steering_analyzer.py:58-65 | the last recommendation is the advice for the lap's peak |
| RaceEngineering.ClassifyBands | ams2_race_engineer.py:192-197 | oversteer iff rear−front slip > 0.5, understeer iff < −0.5, neutral otherwise |
| RaceEngineering.HandlingExamples | ams2_race_engineer.py:180-197 | front slip 2 and rear 0.5 is understeer; the mirror image is oversteer |
| RaceEngineering.BalanceMirror | ams2_race_engineer.py:183-190 | swapping the front and rear slips negates the balance and swaps oversteer and understeer |
| RaceEngineering.OkCountOf | ams2_race_engineer.py:210-215 | a list scores at most two OK actions per corner |
| RaceEngineering.FullScoreIffAllOk | ams2_race_engineer.py:210-215 | a list scores two per corner iff every corner's pressure and camber are OK |
| RaceEngineering.OkCountIffAllOk | ams2_race_engineer.py:136-140 | at most 8 OK actions, and exactly 8 iff no corner needs a change |
| RaceEngineering.CompareAntisymmetric | ams2_race_engineer.py:220-225 | comparing the other way turns IMPROVED into WORSENED; NEUTRAL iff the counts are equal |
| RaceEngineering.LapsCompleted | ams2_race_engineer.py:52-56 | laps completed is the current lap − 1 for a positive lap, else 0 |
| RaceEngineering.StintStart | ams2_race_engineer.py:40-47 | the start odometer never exceeds the odometer reading (so the distance is never negative), and a valid start at or below the reading is kept |
| RaceEngineering.RaceEngineer.constructor | ams2_race_engineer.py:5-34 | WAITING, no start lap, no odometer, no snapshot or feedback, neutral handling |
| RaceEngineering.RaceEngineer.Update | ams2_race_engineer.py:36-168 | the bookkeeping of Observe (laps, steering lap inputs and recommendation, handling); except on leaving BOX the stint distance is the odometer minus the start odometer of that bookkeeping; outside PLAYING the state machine does not move; CHECKING is never entered; leaving WAITING starts the stint at the current lap and odometer; BOX is left only after a pit visit, faster than 10 m/s and out of the pits, restarting the stint at the current lap and odometer with distance 0; a PLAYING tick that stays in BOX sets the pit latch, shows the ready line once it is set and keeps the setup feedback; the start lap changes only when a stint starts (leaving WAITING or BOX); BOX is entered only outside a race at ≥ 10 km when some corner is not OK, with a new snapshot and the comparison with the old one; the snapshot changes only then; any other PLAYING tick outside BOX shows the race, "analysing" or "setup OK" line and compares with the snapshot only when no feedback exists yet |
| RaceEngineering.RaceEngineer.Observe | ams2_race_engineer.py:39-63 | per-tick bookkeeping: the start odometer follows StintStart and the distance is the odometer minus it (so ≥ 0); laps completed; the steering analyzer's lap, lap inputs and last recommendation step as its Update says; the handling classification |
| RaceEngineering.RaceEngineer.BoxStep | ams2_race_engineer.py:82-110 | in BOX the pit latch is set by a pit visit; with the latch, > 10 m/s and out of the pits a new run starts (GATHERING, distance 0, feedback cleared); otherwise BOX stays |
| RaceEngineering.RaceEngineer.AnalyseStint | ams2_race_engineer.py:121-168 | in a race only the status line changes; below 10 km "analysing"; at ≥ 10 km BOX iff some corner is not OK, with a snapshot and a comparison; otherwise "setup OK", comparing only when no feedback exists |
| RaceEngineering.RaceEngineer.TrackDistance | ams2_race_engineer.py:40-49 | the start odometer is taken on the first tick and lowered if the odometer falls, so the distance is never negative |
| RaceEngineering.RaceEngineer.CheckHandlingBalance | ams2_race_engineer.py:170-197 | below 10 m/s NEUTRAL, with the value kept; otherwise the value is rear − front mean slip, classified by ±0.5 |
| RaceEngineering.RaceEngineer.NeedsChange | ams2_race_engineer.py:136-140 | the early-exit loop finds a change iff some corner's pressure or camber is not OK |
| RaceEngineering.RaceEngineer.CountOk | ams2_race_engineer.py:210-215 | the counting loop computes the OK count |
| RaceEngineering.RaceEngineer.EvaluateSetupChange | ams2_race_engineer.py:200-225 | without a snapshot nothing changes; otherwise the feedback compares the snapshot's OK count with the current one |
| RaceEngineering.RaceEngineer.GetAnalysis | ams2_race_engineer.py:232-246 | the analysis is ready iff the state is BOX, and carries the given tyres and the last steering advice |
| LegacyEngineer.CheckConsistency | race_engineer.py:129-138 | consistent iff there are two laps and the last two differ by < 0.5 s; with fewer than two laps the delta is 99.9; the delta is ≥ 0 |
| LegacyEngineer.ConsistencyIgnoresOlderLaps | race_engineer.py:134-138 | laps older than the last two never change the verdict |
| LegacyEngineer.CamberAdvices | race_engineer.py:147-151 | every camber line is a non-OK camber action |
| LegacyEngineer.PressureAdvices | race_engineer.py:153-157 | every pressure line is a non-OK pressure action |
| LegacyEngineer.CamberAdvicesEmptyIffOk | race_engineer.py:147-151 | there are no camber lines iff all camber actions are OK |
| LegacyEngineer.PressureAdvicesEmptyIffOk | race_engineer.py:153-157 | there are no pressure lines iff all pressure actions are OK |
| LegacyEngineer.AdviceShape | race_engineer.py:140-160 | the advice is never empty; it is the single "all OK" line iff every corner is OK; camber lines precede pressure lines |
| LegacyEngineer.RaceEngineer.constructor | race_engineer.py:15-34 | WAITING, empty history and points, no lap seen |
| LegacyEngineer.RaceEngineer.ProcessData | race_engineer.py:36-58 | without data nothing changes; otherwise the lap detection and state machine step as `Stepped` (the UpdateState row) describes, and a track point is appended iff speed > 5 on a valid lap; the output is built from the new state |
| LegacyEngineer.RaceEngineer.UpdateState | race_engineer.py:60-127 | a higher lap index ends a lap and records its time (except the first); per state: WAITING starts on a playing, out-of-pit tick over 10 m/s; OBSERVING moves on at two laps; ANALYZING advises when consistent and stopped, and drops the oldest lap when inconsistent; ADVISING restarts on driving |
| LegacyEngineer.RaceEngineer.GenerateAdvice | race_engineer.py:140-160 | the two loops build exactly the advice list |
| LegacyEngineer.RaceEngineer.BuildOutput | race_engineer.py:162-170 | state, message and advice are passed through; the points are the last min(100, n) stored points |
| FuelMonitoring.FuelLitres | ams2_fuel_monitor.py:18-47 | with a capacity, a level > 1 is litres and a level ≤ 1 is a ratio of the capacity; without a capacity the level is taken as it is |
| FuelMonitoring.StatusLitres | ams2_fuel_monitor.py:81-83 | the status converts a level ≤ 1 only for capacities above 10 |
| FuelMonitoring.ReadingsAgreeAboveTenLitres | ams2_fuel_monitor.py:18-47 | the two readings disagree only for a ratio level with a capacity in (0, 10] |
| FuelMonitoring.LitresExamples | ams2_fuel_monitor.py:25-42 | 0.5 of 100 l reads 50 l; a level of 60 reads 60 l |
| FuelMonitoring.Status | ams2_fuel_monitor.py:79-97 | per lap is the mean use (0 without history); remaining laps × per lap equals the litres when per lap > 0, and 0 otherwise |
| FuelMonitoring.StatusOfPositiveHistory | ams2_fuel_monitor.py:85-91 | with positive laps the mean lies between the smallest and largest lap, so the estimate is defined and non-negative for non-negative fuel |
| FuelMonitoring.FuelMonitor.constructor | ams2_fuel_monitor.py:2-6 | empty history, no lap, baseline −1 |
| FuelMonitoring.FuelMonitor.Update | ams2_fuel_monitor.py:8-77 | the first lap sets the baseline; a higher lap appends the positive use, keeping 5; a rise of more than 1 l within a lap clears the history; otherwise no change; the history stays ≤ 5 and positive |
| FuelMonitoring.FuelMonitor.GetStatus | ams2_fuel_monitor.py:79-97 | the status of the history; per lap is 0 iff no lap is recorded |
| WearMonitoring.WearDelta | ams2_wear_monitor.py:27-31 | the lap's wear increase, or 0 when the wear dropped (a tyre change) |
| WearMonitoring.Recorded | ams2_wear_monitor.py:33-36 | a positive delta is appended and ends the history, and the result is the five most recent entries of the old history plus the delta; otherwise the history is unchanged |
| WearMonitoring.CornerStatus | ams2_wear_monitor.py:44-65 | percent values; remaining laps × mean = 1 − wear when the mean exceeds 0.0001, else 999; non-negative for wear ≤ 1 |
| WearMonitoring.WearMonitor.constructor | ams2_wear_monitor.py:2-6 | empty histories, zero wear, no lap |
| WearMonitoring.WearMonitor.Update | ams2_wear_monitor.py:8-40 | the first lap copies all four wear values; a higher lap records each corner's delta and takes the new baseline; otherwise no change |
| WearMonitoring.WearMonitor.RecordCorner | ams2_wear_monitor.py:27-36 | one corner's end-of-lap step computes exactly the recorded history of its wear delta, and keeps the history at most five entries, all positive |
| WearMonitoring.WearMonitor.GetStatus | ams2_wear_monitor.py:42-66 | four statuses, each from its own corner's history and current wear |
| LapTimes.OfferedKeepsMinimum | ams2_lap_manager.py:31-40 | after an offer the key's time is min(old, new) (or the new time without a record); an equal time leaves the map unchanged; other keys are untouched |
| LapTimes.OfferedAllIsFastest | ams2_lap_manager.py:35-37 | after a series of laps for a new key, its time is the fastest of them |
| LapTimes.RecordSequenceExample | ams2_lap_manager.py:35-40 | 90.5 is stored, 91.0 is not a record, 89.0 is one and ends stored |
| LapTimes.LapTimeManager.constructor | ams2_lap_manager.py:6-8 | the map starts empty |
| LapTimes.LapTimeManager.GetBestLap | ams2_lap_manager.py:28-29 | None iff there is no record for the key, else the record |
| LapTimes.LapTimeManager.SaveBestLap | ams2_lap_manager.py:31-40 | returns true iff there was no record or the time is strictly smaller, and the map becomes the offered map |
| TrackRecording.DistanceGate | track_recorder.py:40-42 | a distance is ≥ 2 m iff its square is ≥ 4 |
| TrackRecording.CircumradiusNonNegative | track_recorder.py:61-68 | sides ≥ 0 and a positive area give a radius ≥ 0 |
| TrackRecording.RadiusNonNegative | track_recorder.py:61-68 | the circumradius of three points with positive area is ≥ 0 |
| TrackRecording.TighterMonotone | track_recorder.py:67-73 | the corner changes only for area > 0.1 and radius < 200, to the middle point; its radius never grows and stays in [0, 200) |
| TrackRecording.PathLengthLowerBound | track_recorder.py:42-44 | a path of n points spaced ≥ 2 m apart is at least 2(n − 1) m long |
| TrackRecording.TrackRecorder.constructor | track_recorder.py:4-9 | no points, distance 0, no last position, no corner |
| TrackRecording.TrackRecorder.Reset | track_recorder.py:14-19 | restores the empty initial state |
| TrackRecording.TrackRecorder.Update | track_recorder.py:21-49 | nothing changes unless playing at ≥ 1 m/s, out of the pits, on a valid lap; the first point is always stored; a later one only ≥ 2 m away, adding that distance; the distance never decreases; the corner radius never grows |
| TrackRecording.TrackRecorder.AnalyzeCorner | track_recorder.py:51-73 | the corner becomes the tighter of the old one and the last three points' circle |
| TrackRecording.TrackRecorder.GetTrackPath | track_recorder.py:75-76 | consecutive points are ≥ 2 m apart, and the lap distance is at least 2 m per step |
| TrackRecording.TrackRecorder.GetTightestCorner | track_recorder.py:78-79 | the corner's radius lies in [0, 200) |
| Stats.MaxOf | ams2_tyre_analyzer.py:104 | the maximum is an element and bounds all elements |
| Stats.MinOf | ams2_tyre_analyzer.py:104 | the minimum is an element and is below all elements |
| Stats.MeanBounds | ams2_tyre_analyzer.py:147-150 | the mean lies between the minimum and the maximum |
| Stats.MeanOfConstant | ams2_tyre_analyzer.py:147 | the mean of equal readings is that reading |
| Stats.AppendBounded | ams2_fuel_monitor.py:65-68 | the new value ends the history, the length grows by one up to the limit, and the result is a suffix of history plus value |
| Stats.AppendBoundedPositive | ams2_wear_monitor.py:33-36 | a bounded append of a positive value to a positive history stays positive |

## Left out

- Shared-memory access, the UI, plotting, CSV reading and writing (`_load_laps`, `_write_to_csv`), `print` output and the formatting of message texts are not modelled. Messages are tags carrying their numbers.
- The clock (`time.time()`, `datetime.now()`) is a parameter. Wall-clock and floating-point effects (NaN, rounding) are not modelled; floats are exact reals.
- `math.sqrt` is a function value the model only assumes returns the non-negative root. The numerical accuracy of the circumradius is not modelled.
- Pedal inputs are taken as reals as received. The raw frame declares them as unsigned bytes, which the 0..1 thresholds do not match; the byte layout is not part of this model.
- The engineers' calls `tyre_analyzer.update(data)` and `tyre_analyzer.reset()` are not modelled. The first lacks the required laps argument and would raise (ams2_race_engineer.py:59, race_engineer.py:46). Both engineers take the tyre verdict as a parameter instead. This also covers the dereference of a `None` tyre analysis (ams2_race_engineer.py:137, race_engineer.py:148).
- LegacyEngineer.RaceEngineer.ProcessData, LegacyEngineer.RaceEngineer.UpdateState: they require the viewed index to lie in 0..63. A negative index, which Python would wrap around, is not modelled. Neither is the IndexError the source raises for an index of 64 or more (race_engineer.py:63-64, 55).
- TrackRecording.TrackRecorder.Update: it requires the viewed index to lie in 0..63 on a recordable tick. A negative index, which Python would wrap around, is not modelled. Neither is the IndexError the source raises for an index of 64 or more (track_recorder.py:28-29).
- RaceEngineering.RaceEngineer.Update, RaceEngineering.RaceEngineer.Observe, FuelMonitoring.FuelMonitor.Update, WearMonitoring.WearMonitor.Update: they require a viewed index that passes the source's guard (0 ≤ index < number of participants) to be below 64. The IndexError the source raises when such an index reaches 64 or more is not modelled (ams2_race_engineer.py:53-54, ams2_fuel_monitor.py:53-54, ams2_wear_monitor.py:11-12).
- The analyzer state UNSTABLE is never assigned by the code. It is kept as a value so that the status message's branch for it exists. The "unknown status" fallback of the status message cannot be reached, because the state has only four values.
- `check_general` is empty in the source and is not modelled. The tyre analyzer's legacy `get_status` alias and the engineer's `get_message` getter are not modelled either.
- The brake tests inside the EXIT and STRAIGHT branches of the phase detector can never fire, because brake > 0.1 is handled first (ams2_analysis_core.py:82, 86). The model keeps that priority, and AnalysisCore.FromExit states the consequence.
- SteeringAnalysis.SteeringAnalyzer.GetRecommendation has no contract of its own: it returns the last recommendation, which the `Update` and `AnalyzeLap` contracts describe.
- The tyre-analyzer status text "Sammle Daten (Runde n/2)" is modelled as the tag `CollectingData(n)`.
- `TrackRecorder.is_recording` is never set to true by the source; the model keeps it unchanged.
