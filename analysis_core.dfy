/**
 * Driving-phase detection and the phase-gated event detector
 * (PhaseDetector and AnalysisEngine).
 */
module AnalysisCore {
  import opened Telemetry

  /**
   * The phase names the detector stores. `Unrecognised` stands for any other
   * value the phase field may hold; the detector resets it to Straight.
   */
  datatype Phase = Straight | Braking | TurnIn | MidCorner | Exit | Unrecognised

  const BrakeThreshold: real := 0.1
  const ThrottleThreshold: real := 0.1
  const LatGThreshold: real := 0.5
  /** Lateral acceleration below which a corner is considered finished. */
  const LatGRelease: real := 0.2
  /** Pedal position below which a pedal counts as released. */
  const PedalIdle: real := 0.01
  /** Throttle above which the exit of a corner counts as finished. */
  const FullThrottle: real := 0.8

  /** The phase that follows `prev` for the given pedals and |lateral acceleration|. */
  function NextPhase(prev: Phase, brake: real, throttle: real, latG: real): (next: Phase)
    ensures next != Unrecognised
    ensures brake > BrakeThreshold ==> next == Braking
  {
    if brake > BrakeThreshold then Braking
    else match prev
      case Braking =>
        if latG > LatGThreshold then TurnIn else Straight
      case TurnIn =>
        if throttle > ThrottleThreshold then
          (if latG > LatGThreshold then Exit else Straight)
        else if latG > LatGThreshold && brake < PedalIdle && throttle < PedalIdle then MidCorner
        else TurnIn
      case MidCorner =>
        if throttle > ThrottleThreshold then Exit
        else if latG < LatGRelease then Straight
        else MidCorner
      // The source tests brake > 0.1 once more in the EXIT and STRAIGHT branches;
      // the first rule has already taken that case, so those tests never fire.
      case Exit =>
        if latG < LatGRelease && throttle > FullThrottle then Straight else Exit
      case Straight =>
        if latG > LatGThreshold then MidCorner else Straight
      case Unrecognised => Straight
  }

  /** The phase that follows `prev` for the inputs of one sample. */
  function SamplePhase(prev: Phase, s: Sample): Phase
  {
    NextPhase(prev, s.unfilteredBrake, s.unfilteredThrottle, Abs(s.localAccelerationX))
  }

  /** The phase after feeding a whole sequence of samples, one tick each. */
  function PhaseAfter(start: Phase, samples: seq<Sample>): Phase
  {
    if samples == [] then start else SamplePhase(PhaseAfter(start, samples[..|samples| - 1]), samples[|samples| - 1])
  }

  lemma FromBraking(brake: real, throttle: real, latG: real)
    requires brake <= BrakeThreshold
    ensures NextPhase(Braking, brake, throttle, latG) == TurnIn <==> latG > LatGThreshold
    ensures NextPhase(Braking, brake, throttle, latG) == Straight <==> latG <= LatGThreshold
  {
  }

  lemma FromTurnIn(brake: real, throttle: real, latG: real)
    requires brake <= BrakeThreshold
    ensures throttle > ThrottleThreshold ==>
      NextPhase(TurnIn, brake, throttle, latG) == (if latG > LatGThreshold then Exit else Straight)
    ensures NextPhase(TurnIn, brake, throttle, latG) == MidCorner <==>
      latG > LatGThreshold && brake < PedalIdle && throttle < PedalIdle
    ensures throttle <= ThrottleThreshold && !(latG > LatGThreshold && brake < PedalIdle && throttle < PedalIdle) ==>
      NextPhase(TurnIn, brake, throttle, latG) == TurnIn
  {
  }

  lemma FromMidCorner(brake: real, throttle: real, latG: real)
    requires brake <= BrakeThreshold
    ensures NextPhase(MidCorner, brake, throttle, latG) ==
      if throttle > ThrottleThreshold then Exit else if latG < LatGRelease then Straight else MidCorner
  {
  }

  lemma FromExit(brake: real, throttle: real, latG: real)
    requires brake <= BrakeThreshold
    ensures NextPhase(Exit, brake, throttle, latG) == Straight <==> latG < LatGRelease && throttle > FullThrottle
    ensures NextPhase(Exit, brake, throttle, latG) in {Straight, Exit}
  {
  }

  lemma FromStraight(brake: real, throttle: real, latG: real)
    requires brake <= BrakeThreshold
    ensures NextPhase(Straight, brake, throttle, latG) == MidCorner <==> latG > LatGThreshold
    ensures NextPhase(Straight, brake, throttle, latG) in {Straight, MidCorner}
  {
  }

  lemma FromUnrecognised(brake: real, throttle: real, latG: real)
    requires brake <= BrakeThreshold
    ensures NextPhase(Unrecognised, brake, throttle, latG) == Straight
  {
  }

  /**
   * Driving with the brake at most 0.1 and |lateral acceleration| at most 0.5
   * never leaves STRAIGHT, however long it lasts.
   */
  lemma {:induction false} StraightIsStable(samples: seq<Sample>)
    requires forall i :: 0 <= i < |samples| ==>
      samples[i].unfilteredBrake <= BrakeThreshold && Abs(samples[i].localAccelerationX) <= LatGThreshold
    ensures PhaseAfter(Straight, samples) == Straight
  {
    if samples != [] {
      StraightIsStable(samples[..|samples| - 1]);
    }
  }

  class PhaseDetector {
    var currentPhase: Phase
    var lastPhase: Phase

    constructor ()
      ensures currentPhase == Straight && lastPhase == Straight
    {
      currentPhase := Straight;
      lastPhase := Straight;
    }

    method Update(s: Sample) returns (phase: Phase)
      modifies this
      ensures currentPhase == SamplePhase(old(currentPhase), s)
      ensures lastPhase == old(currentPhase)
      ensures phase == currentPhase
    {
      var brake := s.unfilteredBrake;
      var throttle := s.unfilteredThrottle;
      var prev := currentPhase;
      var latG := Abs(s.localAccelerationX);
      if brake > BrakeThreshold {
        currentPhase := Braking;
      } else if currentPhase == Braking {
        if latG > LatGThreshold {
          currentPhase := TurnIn;
        } else {
          currentPhase := Straight;
        }
      } else if currentPhase == TurnIn {
        if throttle > ThrottleThreshold {
          if latG > LatGThreshold {
            currentPhase := Exit;
          } else {
            currentPhase := Straight;
          }
        } else if latG > LatGThreshold {
          if brake < PedalIdle && throttle < PedalIdle {
            currentPhase := MidCorner;
          }
        }
      } else if currentPhase == MidCorner {
        if throttle > ThrottleThreshold {
          currentPhase := Exit;
        } else if latG < LatGRelease {
          currentPhase := Straight;
        }
      } else if currentPhase == Exit {
        if latG < LatGRelease && throttle > FullThrottle {
          currentPhase := Straight;
        }
      } else if currentPhase == Straight {
        if latG > LatGThreshold {
          currentPhase := MidCorner;
        }
      } else {
        currentPhase := Straight;
      }
      lastPhase := prev;
      phase := currentPhase;
    }
  }

  // ---------------------------------------------------------------------------
  // Events

  datatype EventKind = FrontLockup | RearLockup | UndersteerEntry | OversteerEntry | PowerOversteer | UndersteerExit

  /** The setup hint attached to each event kind. */
  datatype Suggestion =
    | BrakeBiasRearward       // brake balance towards the rear
    | BrakeBiasForward        // brake balance towards the front
    | SoftenFrontAntiRollBar
    | IncreaseCoastLock
    | ReducePowerLock
    | IncreasePowerLock

  datatype Event = Event(time: real, kind: EventKind, suggestion: Suggestion, phase: Phase, x: real, z: real)

  /** The event log and, per kind, the time of the last accepted event. */
  datatype Log = Log(events: seq<Event>, lastEmitted: map<EventKind, real>)

  const Cooldown: real := 5.0
  /** Minimum speed (km/h) for the engine to analyse a tick. */
  const MinSpeedKmh: real := 20.0
  /** Minimum speed (m/s) for the lockup checks. */
  const LockupMinSpeed: real := 5.0
  const LockupThreshold: real := 0.4
  const EntryBalanceThreshold: real := 1.0
  const ExitBalanceThreshold: real := 1.5
  const ExitMinThrottle: real := 0.5

  /** Time of the last accepted event of this kind; 0 when there was none. */
  function LastEmitted(last: map<EventKind, real>, kind: EventKind): real
  {
    if kind in last then last[kind] else 0.0
  }

  predicate Accepts(last: map<EventKind, real>, kind: EventKind, now: real)
  {
    now - LastEmitted(last, kind) > Cooldown
  }

  /**
   * World position (x, z) recorded with an event: that of the viewed participant
   * when its index is valid, otherwise the origin.
   */
  function EventPosition(data: Option<Sample>): (real, real)
  {
    if data.Some? then
      var s := data.value;
      var idx := s.viewedParticipantIndex;
      if 0 <= idx < s.numParticipants && idx < StoredParticipantsMax then
        var pos := s.participants[idx].worldPosition;
        (pos.x, pos.z)
      else (0.0, 0.0)
    else (0.0, 0.0)
  }

  /** The log after reporting one event (add_event). */
  function Emit(log: Log, kind: EventKind, suggestion: Suggestion, phase: Phase, data: Option<Sample>, now: real): Log
  {
    if Accepts(log.lastEmitted, kind, now) then
      var pos := EventPosition(data);
      Log(log.events + [Event(now, kind, suggestion, phase, pos.0, pos.1)], log.lastEmitted[kind := now])
    else log
  }

  /** Number of logged events of one kind. */
  function CountOf(events: seq<Event>, kind: EventKind): nat
  {
    if events == [] then 0
    else CountOf(events[..|events| - 1], kind) + (if events[|events| - 1].kind == kind then 1 else 0)
  }

  /** The kinds that occur in the log. */
  function KindsIn(events: seq<Event>): set<EventKind>
  {
    if events == [] then {} else KindsIn(events[..|events| - 1]) + {events[|events| - 1].kind}
  }

  /** The suggestion of the first logged event of a kind. */
  function FirstSuggestion(events: seq<Event>, kind: EventKind): Suggestion
    requires kind in KindsIn(events)
  {
    var init := events[..|events| - 1];
    if kind in KindsIn(init) then FirstSuggestion(init, kind) else events[|events| - 1].suggestion
  }

  lemma {:induction false} KindsInIffCounted(events: seq<Event>, kind: EventKind)
    ensures kind in KindsIn(events) <==> CountOf(events, kind) > 0
  {
    if events != [] {
      KindsInIffCounted(events[..|events| - 1], kind);
    }
  }

  /**
   * Debounce: an event is accepted exactly when more than 5 s have passed since
   * the last accepted event of its kind; an accepted event appends exactly one
   * entry of that kind and stamps the kind with `now`; a rejected one changes
   * nothing. Other kinds keep their counts and timestamps.
   */
  lemma EmitDebounces(log: Log, kind: EventKind, suggestion: Suggestion, phase: Phase, data: Option<Sample>, now: real, other: EventKind)
    requires other != kind
    ensures var log' := Emit(log, kind, suggestion, phase, data, now);
      && (Accepts(log.lastEmitted, kind, now) ==>
            |log'.events| == |log.events| + 1
            && log'.events[..|log.events|] == log.events
            && log'.events[|log.events|].kind == kind
            && log'.events[|log.events|].time == now
            && LastEmitted(log'.lastEmitted, kind) == now)
      && (!Accepts(log.lastEmitted, kind, now) ==> log' == log)
      && CountOf(log'.events, kind) == CountOf(log.events, kind) + (if Accepts(log.lastEmitted, kind, now) then 1 else 0)
      && CountOf(log'.events, other) == CountOf(log.events, other)
      && LastEmitted(log'.lastEmitted, other) == LastEmitted(log.lastEmitted, other)
  {
    var log' := Emit(log, kind, suggestion, phase, data, now);
    if Accepts(log.lastEmitted, kind, now) {
      assert log'.events[..|log'.events| - 1] == log.events;
    }
  }

  /**
   * Two reports of the same kind: after one accepted at t1, the next one at t2
   * is accepted iff t2 - t1 > 5 s. So two lockups less than (or exactly) 5 s
   * apart give one event, and further apart give two.
   */
  lemma TwoReports(log: Log, kind: EventKind, suggestion: Suggestion, phase: Phase, data: Option<Sample>, t1: real, t2: real)
    requires Accepts(log.lastEmitted, kind, t1)
    ensures var log1 := Emit(log, kind, suggestion, phase, data, t1);
      var log2 := Emit(log1, kind, suggestion, phase, data, t2);
      && |log1.events| == |log.events| + 1
      && (t2 - t1 > Cooldown ==> |log2.events| == |log.events| + 2)
      && (t2 - t1 <= Cooldown ==> log2 == log1)
  {
  }

  /** The log after reporting several events in order. */
  function EmitAll(log: Log, reports: seq<(EventKind, Suggestion)>, phase: Phase, data: Option<Sample>, now: real): Log
    decreases |reports|
  {
    if reports == [] then log
    else EmitAll(Emit(log, reports[0].0, reports[0].1, phase, data, now), reports[1..], phase, data, now)
  }

  /** Slip ratio of one wheel: how much slower its surface runs than the car. */
  function SlipRatio(speed: real, rps: real, radius: real): real
  {
    (speed - Abs(rps * radius)) / Max(speed, 0.1)
  }

  function WheelSlipRatio(s: Sample, i: Corner): real
  {
    SlipRatio(s.speed, s.tyreRPS.At(i), s.tyreRadius.At(i))
  }

  predicate FrontLocked(s: Sample)
  {
    WheelSlipRatio(s, 0) > LockupThreshold || WheelSlipRatio(s, 1) > LockupThreshold
  }

  predicate RearLocked(s: Sample)
  {
    WheelSlipRatio(s, 2) > LockupThreshold || WheelSlipRatio(s, 3) > LockupThreshold
  }

  /** Mean absolute slip speed of the front axle. */
  function FrontSlip(s: Sample): real
  {
    (Abs(s.tyreSlipSpeed.fl) + Abs(s.tyreSlipSpeed.fr)) / 2.0
  }

  /** Mean absolute slip speed of the rear axle. */
  function RearSlip(s: Sample): real
  {
    (Abs(s.tyreSlipSpeed.rl) + Abs(s.tyreSlipSpeed.rr)) / 2.0
  }

  /** Reports of the braking-phase checks (check_braking), in order. */
  function BrakingReports(s: Sample): seq<(EventKind, Suggestion)>
  {
    if s.speed < LockupMinSpeed then []
    else
      (if FrontLocked(s) then [(FrontLockup, BrakeBiasRearward)] else [])
      + (if RearLocked(s) then [(RearLockup, BrakeBiasForward)] else [])
  }

  /** Reports of the turn-in checks (check_turn_in), in order. */
  function TurnInReports(s: Sample): seq<(EventKind, Suggestion)>
  {
    (if FrontSlip(s) > RearSlip(s) + EntryBalanceThreshold then [(UndersteerEntry, SoftenFrontAntiRollBar)] else [])
    + (if RearSlip(s) > FrontSlip(s) + EntryBalanceThreshold then [(OversteerEntry, IncreaseCoastLock)] else [])
  }

  /** Reports of the exit checks (check_exit), in order. */
  function ExitReports(s: Sample): seq<(EventKind, Suggestion)>
  {
    if s.unfilteredThrottle < ExitMinThrottle then []
    else
      (if RearSlip(s) > FrontSlip(s) + ExitBalanceThreshold then [(PowerOversteer, ReducePowerLock)] else [])
      + (if FrontSlip(s) > RearSlip(s) + ExitBalanceThreshold then [(UndersteerExit, IncreasePowerLock)] else [])
  }

  function KindsReported(reports: seq<(EventKind, Suggestion)>): set<EventKind>
  {
    set r | r in reports :: r.0
  }

  /**
   * Lockups: nothing is reported below 5 m/s; otherwise a front (rear) lockup is
   * reported exactly when a front (rear) wheel's slip ratio exceeds 0.4.
   */
  lemma LockupDetection(s: Sample)
    ensures s.speed < LockupMinSpeed ==> BrakingReports(s) == []
    ensures s.speed >= LockupMinSpeed ==>
      && (FrontLockup in KindsReported(BrakingReports(s)) <==>
            WheelSlipRatio(s, 0) > LockupThreshold || WheelSlipRatio(s, 1) > LockupThreshold)
      && (RearLockup in KindsReported(BrakingReports(s)) <==>
            WheelSlipRatio(s, 2) > LockupThreshold || WheelSlipRatio(s, 3) > LockupThreshold)
    ensures KindsReported(BrakingReports(s)) <= {FrontLockup, RearLockup}
  {
    if s.speed >= LockupMinSpeed {
      if FrontLocked(s) {
        assert (FrontLockup, BrakeBiasRearward) in BrakingReports(s);
      }
      if RearLocked(s) {
        assert (RearLockup, BrakeBiasForward) in BrakingReports(s);
      }
    }
  }

  /**
   * Entry balance: understeer is reported iff the front axle slips more than
   * 1.0 m/s beyond the rear, oversteer iff the rear slips more than 1.0 m/s
   * beyond the front, and never both on one tick.
   */
  lemma EntryBalance(s: Sample)
    ensures UndersteerEntry in KindsReported(TurnInReports(s)) <==> FrontSlip(s) > RearSlip(s) + EntryBalanceThreshold
    ensures OversteerEntry in KindsReported(TurnInReports(s)) <==> RearSlip(s) > FrontSlip(s) + EntryBalanceThreshold
    ensures |TurnInReports(s)| <= 1
  {
    if FrontSlip(s) > RearSlip(s) + EntryBalanceThreshold {
      assert (UndersteerEntry, SoftenFrontAntiRollBar) in TurnInReports(s);
    }
    if RearSlip(s) > FrontSlip(s) + EntryBalanceThreshold {
      assert (OversteerEntry, IncreaseCoastLock) in TurnInReports(s);
    }
  }

  /**
   * Exit balance: nothing below half throttle; otherwise power oversteer iff the
   * rear slips more than 1.5 m/s beyond the front, understeer on exit iff the
   * front slips more than 1.5 m/s beyond the rear, and never both.
   */
  lemma ExitBalance(s: Sample)
    ensures s.unfilteredThrottle < ExitMinThrottle ==> ExitReports(s) == []
    ensures s.unfilteredThrottle >= ExitMinThrottle ==>
      && (PowerOversteer in KindsReported(ExitReports(s)) <==> RearSlip(s) > FrontSlip(s) + ExitBalanceThreshold)
      && (UndersteerExit in KindsReported(ExitReports(s)) <==> FrontSlip(s) > RearSlip(s) + ExitBalanceThreshold)
    ensures |ExitReports(s)| <= 1
  {
    if s.unfilteredThrottle >= ExitMinThrottle {
      if RearSlip(s) > FrontSlip(s) + ExitBalanceThreshold {
        assert (PowerOversteer, ReducePowerLock) in ExitReports(s);
      }
      if FrontSlip(s) > RearSlip(s) + ExitBalanceThreshold {
        assert (UndersteerExit, IncreasePowerLock) in ExitReports(s);
      }
    }
  }

  /** The checks run for the phase of the tick. */
  function ReportsFor(phase: Phase, s: Sample): seq<(EventKind, Suggestion)>
  {
    match phase
    case Braking => BrakingReports(s)
    case TurnIn => TurnInReports(s)
    case Exit => ExitReports(s)
    case _ => []
  }

  /** Whether the engine analyses a tick at all: playing and at least 20 km/h. */
  predicate Analysed(s: Sample)
  {
    s.gameState == GamePlaying && !(s.speed * 3.6 < MinSpeedKmh)
  }

  /** One entry of the per-kind summary. */
  datatype SummaryEntry = SummaryEntry(count: nat, suggestion: Suggestion)

  class AnalysisEngine {
    const phaseDetector: PhaseDetector
    var events: seq<Event>
    var activeProblems: map<EventKind, real>

    constructor ()
      ensures fresh(phaseDetector)
      ensures phaseDetector.currentPhase == Straight && phaseDetector.lastPhase == Straight
      ensures events == [] && activeProblems == map[]
    {
      phaseDetector := new PhaseDetector();
      events := [];
      activeProblems := map[];
    }

    function CurrentLog(): Log
      reads this
    {
      Log(events, activeProblems)
    }

    /**
     * One tick: nothing changes unless the tick is analysed; otherwise the phase
     * advances and the checks of the new phase report into the log.
     */
    method Update(s: Sample, now: real)
      modifies this, phaseDetector
      ensures !Analysed(s) ==>
        && events == old(events) && activeProblems == old(activeProblems)
        && phaseDetector.currentPhase == old(phaseDetector.currentPhase)
        && phaseDetector.lastPhase == old(phaseDetector.lastPhase)
      ensures Analysed(s) ==>
        && phaseDetector.currentPhase == SamplePhase(old(phaseDetector.currentPhase), s)
        && phaseDetector.lastPhase == old(phaseDetector.currentPhase)
        && CurrentLog() == EmitAll(old(CurrentLog()), ReportsFor(phaseDetector.currentPhase, s), phaseDetector.currentPhase, Some(s), now)
    {
      if s.gameState != GamePlaying {
        return;
      }
      var speedKmh := s.speed * 3.6;
      if speedKmh < MinSpeedKmh {
        return;
      }
      var phase := phaseDetector.Update(s);
      if phase == Braking {
        CheckBraking(s, now);
      } else if phase == TurnIn {
        CheckTurnIn(s, now);
      } else if phase == Exit {
        CheckExit(s, now);
      }
    }

    method CheckBraking(s: Sample, now: real)
      modifies this
      ensures CurrentLog() == EmitAll(old(CurrentLog()), BrakingReports(s), Braking, Some(s), now)
    {
      var speed := s.speed;
      if speed < LockupMinSpeed {
        return;
      }
      var front := FrontLocked(s);
      var rear := RearLocked(s);
      ghost var log0 := CurrentLog();
      if front {
        AddEvent(FrontLockup, BrakeBiasRearward, Braking, Some(s), now);
      }
      ghost var log1 := CurrentLog();
      assert log1 == EmitAll(log0, if front then [(FrontLockup, BrakeBiasRearward)] else [], Braking, Some(s), now);
      if rear {
        AddEvent(RearLockup, BrakeBiasForward, Braking, Some(s), now);
      }
      EmitAllAppend(log0, if front then [(FrontLockup, BrakeBiasRearward)] else [],
        if rear then [(RearLockup, BrakeBiasForward)] else [], Braking, Some(s), now);
    }

    method CheckTurnIn(s: Sample, now: real)
      modifies this
      ensures CurrentLog() == EmitAll(old(CurrentLog()), TurnInReports(s), TurnIn, Some(s), now)
    {
      var frontSlip := FrontSlip(s);
      var rearSlip := RearSlip(s);
      var under := frontSlip > rearSlip + EntryBalanceThreshold;
      var over := rearSlip > frontSlip + EntryBalanceThreshold;
      ghost var log0 := CurrentLog();
      if under {
        AddEvent(UndersteerEntry, SoftenFrontAntiRollBar, TurnIn, Some(s), now);
      }
      ghost var log1 := CurrentLog();
      assert log1 == EmitAll(log0, if under then [(UndersteerEntry, SoftenFrontAntiRollBar)] else [], TurnIn, Some(s), now);
      if over {
        AddEvent(OversteerEntry, IncreaseCoastLock, TurnIn, Some(s), now);
      }
      EmitAllAppend(log0, if under then [(UndersteerEntry, SoftenFrontAntiRollBar)] else [],
        if over then [(OversteerEntry, IncreaseCoastLock)] else [], TurnIn, Some(s), now);
    }

    method CheckExit(s: Sample, now: real)
      modifies this
      ensures CurrentLog() == EmitAll(old(CurrentLog()), ExitReports(s), Exit, Some(s), now)
    {
      var throttle := s.unfilteredThrottle;
      if throttle < ExitMinThrottle {
        return;
      }
      var frontSlip := FrontSlip(s);
      var rearSlip := RearSlip(s);
      var powerOver := rearSlip > frontSlip + ExitBalanceThreshold;
      var under := frontSlip > rearSlip + ExitBalanceThreshold;
      ghost var log0 := CurrentLog();
      if powerOver {
        AddEvent(PowerOversteer, ReducePowerLock, Exit, Some(s), now);
      }
      ghost var log1 := CurrentLog();
      assert log1 == EmitAll(log0, if powerOver then [(PowerOversteer, ReducePowerLock)] else [], Exit, Some(s), now);
      if under {
        AddEvent(UndersteerExit, IncreasePowerLock, Exit, Some(s), now);
      }
      EmitAllAppend(log0, if powerOver then [(PowerOversteer, ReducePowerLock)] else [],
        if under then [(UndersteerExit, IncreasePowerLock)] else [], Exit, Some(s), now);
    }

    /** add_event: debounced append to the event log. */
    method AddEvent(kind: EventKind, suggestion: Suggestion, phase: Phase, data: Option<Sample>, now: real)
      modifies this
      ensures Accepts(old(activeProblems), kind, now) ==>
        && activeProblems == old(activeProblems)[kind := now]
        && events == old(events) + [Event(now, kind, suggestion, phase, EventPosition(data).0, EventPosition(data).1)]
      ensures !Accepts(old(activeProblems), kind, now) ==>
        activeProblems == old(activeProblems) && events == old(events)
      ensures CurrentLog() == Emit(old(CurrentLog()), kind, suggestion, phase, data, now)
    {
      var lastTime := if kind in activeProblems then activeProblems[kind] else 0.0;
      if now - lastTime > Cooldown {
        activeProblems := activeProblems[kind := now];
        var x, z := 0.0, 0.0;
        if data.Some? {
          var idx := data.value.viewedParticipantIndex;
          if 0 <= idx < data.value.numParticipants && idx < StoredParticipantsMax {
            var pos := data.value.participants[idx].worldPosition;
            x := pos.x;
            z := pos.z;
          }
        }
        events := events + [Event(now, kind, suggestion, phase, x, z)];
      }
    }

    /**
     * get_analysis_summary: groups the log by kind. The keys are exactly the kinds
     * present, each count is the number of events of that kind and each
     * suggestion is that of the kind's first event; the raw log is returned too.
     */
    method GetAnalysisSummary() returns (summary: map<EventKind, SummaryEntry>, eventList: seq<Event>)
      ensures summary.Keys == KindsIn(events)
      ensures forall k :: k in summary ==> summary[k].count == CountOf(events, k) && summary[k].suggestion == FirstSuggestion(events, k)
      ensures eventList == events
    {
      summary := map[];
      for i := 0 to |events|
        invariant summary.Keys == KindsIn(events[..i])
        invariant forall k :: k in summary ==>
          summary[k].count == CountOf(events[..i], k) && summary[k].suggestion == FirstSuggestion(events[..i], k)
      {
        var e := events[i];
        ghost var seen := events[..i + 1];
        assert seen[..i] == events[..i] && seen[i] == e;
        assert KindsIn(seen) == KindsIn(events[..i]) + {e.kind};
        assert forall k :: k in KindsIn(seen) ==>
          FirstSuggestion(seen, k) == if k in KindsIn(events[..i]) then FirstSuggestion(events[..i], k) else e.suggestion;
        assert forall k :: CountOf(seen, k) == CountOf(events[..i], k) + if k == e.kind then 1 else 0;
        if e.kind !in summary {
          KindsInIffCounted(events[..i], e.kind);
          summary := summary[e.kind := SummaryEntry(0, e.suggestion)];
        }
        summary := summary[e.kind := summary[e.kind].(count := summary[e.kind].count + 1)];
      }
      assert events[..|events|] == events;
      eventList := events;
    }

    method Reset()
      modifies this
      ensures events == [] && activeProblems == map[]
    {
      events := [];
      activeProblems := map[];
    }
  }

  lemma EmitAllAppend(log: Log, a: seq<(EventKind, Suggestion)>, b: seq<(EventKind, Suggestion)>, phase: Phase, data: Option<Sample>, now: real)
    ensures EmitAll(log, a + b, phase, data, now) == EmitAll(EmitAll(log, a, phase, data, now), b, phase, data, now)
    decreases |a|
  {
    if a != [] {
      assert (a + b)[1..] == a[1..] + b;
      EmitAllAppend(Emit(log, a[0].0, a[0].1, phase, data, now), a[1..], b, phase, data, now);
    } else {
      assert a + b == b;
    }
  }
}
