/**
 * The v1.1 race engineer: a stint state machine (WAITING -> GATHERING -> BOX
 * -> GATHERING) driven by odometer distance, session type and a pit-visit
 * latch, a slip-based handling classifier and a comparison of successive
 * setup snapshots. The per-corner tyre verdicts come in as a value.
 */
module RaceEngineering {
  import opened Telemetry
  import TyreAnalysis
  import opened SteeringAnalysis

  /** The per-corner pressure and camber verdict of the tyre analysis. */
  type CornerVerdict = TyreAnalysis.CornerVerdict

  datatype EngineerState = Waiting | Gathering | Checking | Box

  datatype Handling = Neutral | Oversteer | Understeer

  datatype Feedback = Improved | Worsened | NoChange

  /** Status line tags; the numbers are those the message text shows. */
  datatype Message =
    | NoMessage
    | NewRunStarted
    | ReadyForNewRun
    | RaceInfo(distance: real, handling: Handling)
    | BoxChangeNeeded
    | SetupOk(distance: real)
    | Analysing(distance: real, handling: Handling)

  /** The combined analysis handed to the display and kept as a snapshot. */
  datatype Analysis = Analysis(
    tyres: Quad<CornerVerdict>,
    steering: Option<SteeringAdvice>,
    ready: bool,
    distance: real,
    feedback: Option<Feedback>,
    handling: Handling,
    handlingValue: real)

  /** Kilometres of a stint after which the setup is analysed. */
  const AnalysisDistance: real := 10.0
  /** Speed (m/s) above which a stint counts as started, and below which handling is not classified. */
  const MovingSpeed: real := 10.0
  /** Rear-minus-front slip gap (m/s) beyond which the car over- or understeers. */
  const BalanceThreshold: real := 0.5

  // ---------------------------------------------------------------------------
  // Handling

  /** Mean rear |slip speed| minus mean front |slip speed|: positive is oversteer. */
  function BalanceValue(s: Sample): real
  {
    var front := (Abs(s.tyreSlipSpeed.fl) + Abs(s.tyreSlipSpeed.fr)) / 2.0;
    var rear := (Abs(s.tyreSlipSpeed.rl) + Abs(s.tyreSlipSpeed.rr)) / 2.0;
    rear - front
  }

  function Classify(value: real): Handling
  {
    if value > BalanceThreshold then Oversteer
    else if value < -BalanceThreshold then Understeer
    else Neutral
  }

  lemma ClassifyBands(value: real)
    ensures Classify(value) == Oversteer <==> value > BalanceThreshold
    ensures Classify(value) == Understeer <==> value < -BalanceThreshold
    ensures Classify(value) == Neutral <==> -BalanceThreshold <= value <= BalanceThreshold
  {
  }

  /** Front slip 2 m/s and rear 0.5 m/s is understeer; the mirror image is oversteer. */
  lemma HandlingExamples(s: Sample)
    requires s.tyreSlipSpeed == Quad(2.0, 2.0, 0.5, 0.5)
    ensures Classify(BalanceValue(s)) == Understeer
    ensures Classify(BalanceValue(s.(tyreSlipSpeed := Quad(0.5, 0.5, 2.0, 2.0)))) == Oversteer
  {
  }

  /** Swapping the front and rear slip readings swaps oversteer and understeer. */
  lemma BalanceMirror(s: Sample)
    ensures var m := s.(tyreSlipSpeed := Quad(s.tyreSlipSpeed.rl, s.tyreSlipSpeed.rr, s.tyreSlipSpeed.fl, s.tyreSlipSpeed.fr));
      && BalanceValue(m) == -BalanceValue(s)
      && (Classify(BalanceValue(s)) == Oversteer <==> Classify(BalanceValue(m)) == Understeer)
  {
  }

  // ---------------------------------------------------------------------------
  // OK counting

  /** Whether both the pressure and the camber action of a corner are OK. */
  predicate BothOk(v: CornerVerdict)
  {
    v.action.IsOk() && v.camberAction.IsOk()
  }

  predicate AllTyresOk(tyres: Quad<CornerVerdict>)
  {
    BothOk(tyres.fl) && BothOk(tyres.fr) && BothOk(tyres.rl) && BothOk(tyres.rr)
  }

  /** Number of OK actions of one corner: pressure and camber count one each. */
  function OkActions(v: CornerVerdict): nat
  {
    (if v.action.IsOk() then 1 else 0) + (if v.camberAction.IsOk() then 1 else 0)
  }

  function OkCountOf(vs: seq<CornerVerdict>): (n: nat)
    ensures n <= 2 * |vs|
  {
    if vs == [] then 0 else OkCountOf(vs[..|vs| - 1]) + OkActions(vs[|vs| - 1])
  }

  /** The number of OK actions over the four corners. */
  function OkCount(tyres: Quad<CornerVerdict>): nat
  {
    OkCountOf(tyres.Values())
  }

  /** A list scores the full two points per corner iff every corner is OK. */
  lemma {:induction false} FullScoreIffAllOk(vs: seq<CornerVerdict>)
    ensures OkCountOf(vs) == 2 * |vs| <==> forall k :: 0 <= k < |vs| ==> BothOk(vs[k])
  {
    if vs != [] {
      var init := vs[..|vs| - 1];
      FullScoreIffAllOk(init);
      assert forall k :: 0 <= k < |init| ==> init[k] == vs[k];
    }
  }

  /** Eight OK actions (the maximum) iff no corner needs a change. */
  lemma OkCountIffAllOk(tyres: Quad<CornerVerdict>)
    ensures OkCount(tyres) <= 8
    ensures OkCount(tyres) == 8 <==> AllTyresOk(tyres)
  {
    var vs := tyres.Values();
    FullScoreIffAllOk(vs);
    assert vs[0] == tyres.fl && vs[1] == tyres.fr && vs[2] == tyres.rl && vs[3] == tyres.rr;
  }

  function Compare(prevOk: nat, currOk: nat): Feedback
  {
    if currOk > prevOk then Improved
    else if currOk < prevOk then Worsened
    else NoChange
  }

  /** Comparing in the other direction turns an improvement into a worsening. */
  lemma CompareAntisymmetric(a: nat, b: nat)
    ensures Compare(a, b) == Improved <==> Compare(b, a) == Worsened
    ensures Compare(a, b) == NoChange <==> a == b
  {
  }

  /** Laps completed: the current lap minus one, or 0 for lap 0 or an unknown lap. */
  function LapsCompleted(currentLap: int): (n: nat)
    ensures currentLap > 0 ==> n + 1 == currentLap
    ensures currentLap <= 0 ==> n == 0
  {
    if currentLap > 0 then currentLap - 1 else 0
  }

  /**
   * The stint's start odometer after a tick reading `odometer`: taken on the
   * first tick (start still negative) and lowered when the odometer falls
   * below it, so that the stint distance is never negative.
   */
  function StintStart(start: real, odometer: real): (r: real)
    ensures r <= odometer
    ensures start >= 0.0 && odometer >= start ==> r == start
  {
    if start < 0.0 || odometer < start then odometer else start
  }

  // ---------------------------------------------------------------------------
  // The engineer

  class RaceEngineer {
    const steering: SteeringAnalyzer
    var state: EngineerState
    var startLap: int
    var lapsCompleted: int
    var stintStartOdometer: real
    var drivenDistanceStint: real
    var previousRunSnapshot: Option<Analysis>
    var setupFeedback: Option<Feedback>
    var handlingStatus: Handling
    var handlingValue: real
    var message: Message
    var hasVisitedPits: bool

    ghost predicate Valid()
      reads this, steering
    {
      steering.Valid()
    }

    constructor ()
      ensures Valid() && fresh(steering)
      ensures state == Waiting && startLap == -1 && lapsCompleted == 0
      ensures stintStartOdometer == -1.0 && drivenDistanceStint == 0.0
      ensures previousRunSnapshot == None && setupFeedback == None
      ensures handlingStatus == Neutral && handlingValue == 0.0
      ensures message == NoMessage && !hasVisitedPits
    {
      steering := new SteeringAnalyzer();
      state := Waiting;
      startLap := -1;
      lapsCompleted := 0;
      stintStartOdometer := -1.0;
      drivenDistanceStint := 0.0;
      previousRunSnapshot := None;
      setupFeedback := None;
      handlingStatus := Neutral;
      handlingValue := 0.0;
      message := NoMessage;
      hasVisitedPits := false;
    }

    /**
     * One tick: distance and lap bookkeeping, steering and handling analysis,
     * then the stint state machine (only while the game is PLAYING).
     */
    method Update(s: Sample, tyres: Quad<CornerVerdict>)
      requires Valid() && s.ViewedIndexInTable()
      modifies this, steering
      ensures Valid()
      ensures drivenDistanceStint >= 0.0
      ensures lapsCompleted == LapsCompleted(s.ViewedLap())
      ensures steering.currentLap == s.ViewedLap()
      ensures steering.lapInputs ==
        (if s.ViewedLap() != old(steering.currentLap) then [] else old(steering.lapInputs)) + [s.steering]
      ensures steering.lastRecommendation ==
        if s.ViewedLap() != old(steering.currentLap) && old(steering.currentLap) != -1
        then Some(Recommend(PeakUsage(old(steering.lapInputs))))
        else old(steering.lastRecommendation)
      ensures s.speed < MovingSpeed ==> handlingStatus == Neutral && handlingValue == old(handlingValue)
      ensures !(s.speed < MovingSpeed) ==> handlingValue == BalanceValue(s) && handlingStatus == Classify(handlingValue)
      // Except on leaving BOX, the stint distance is the odometer minus the start
      // odometer of the bookkeeping step (on leaving WAITING, the one before the restart).
      ensures !(old(state) == Box && state != Box) ==>
        drivenDistanceStint == s.odometerKM - StintStart(old(stintStartOdometer), s.odometerKM)
      ensures !(old(state) == Box && state != Box) && !(old(state) == Waiting && s.gameState == GamePlaying) ==>
        stintStartOdometer == StintStart(old(stintStartOdometer), s.odometerKM)
      // Outside PLAYING the state machine does not move.
      ensures s.gameState != GamePlaying ==>
        && state == old(state) && hasVisitedPits == old(hasVisitedPits) && message == old(message)
        && previousRunSnapshot == old(previousRunSnapshot) && setupFeedback == old(setupFeedback)
      // STATE_CHECKING is never entered.
      ensures old(state) != Checking ==> state != Checking
      // The first PLAYING tick leaves WAITING.
      ensures old(state) == Waiting && s.gameState == GamePlaying ==> state != Waiting
      // BOX is left only for a new run after an earlier pit visit.
      ensures old(state) == Box && state != Box ==>
        && old(hasVisitedPits) && s.speed > MovingSpeed && s.pitMode == 0
        && state == Gathering && startLap == lapsCompleted && stintStartOdometer == s.odometerKM
        && drivenDistanceStint == 0.0 && setupFeedback == None && !hasVisitedPits
        && message == NewRunStarted
      // A PLAYING tick that stays in BOX: the latch, the ready line once it is set, the feedback kept.
      ensures old(state) == Box && state == Box && s.gameState == GamePlaying ==>
        && hasVisitedPits == (old(hasVisitedPits) || s.pitMode != 0)
        && message == (if hasVisitedPits then ReadyForNewRun else old(message))
        && setupFeedback == old(setupFeedback)
      // The start lap is written only when a stint starts (leaving WAITING or BOX).
      ensures !(old(state) == Box && state != Box) && !(old(state) == Waiting && s.gameState == GamePlaying) ==>
        startLap == old(startLap)
      // BOX is entered only outside a race, after 10 km, when some corner is not OK.
      ensures old(state) != Box && state == Box ==>
        && s.gameState == GamePlaying && s.sessionState != SessionRace
        && drivenDistanceStint >= AnalysisDistance && !AllTyresOk(tyres)
        && !hasVisitedPits && message == BoxChangeNeeded
        && previousRunSnapshot.Some? && previousRunSnapshot.value.tyres == tyres
        && setupFeedback == (if old(previousRunSnapshot).Some?
                             then Some(Compare(OkCount(old(previousRunSnapshot).value.tyres), OkCount(tyres)))
                             else old(setupFeedback))
      // After 10 km outside a race the engineer boxes iff some corner is not OK.
      ensures old(state) != Box && s.gameState == GamePlaying && s.sessionState != SessionRace
              && drivenDistanceStint >= AnalysisDistance ==>
        (state == Box <==> !AllTyresOk(tyres))
      ensures s.sessionState == SessionRace && old(state) != Box ==> state != Box
      // The snapshot changes only when BOX is entered.
      ensures !(old(state) != Box && state == Box) ==> previousRunSnapshot == old(previousRunSnapshot)
      // The first PLAYING tick out of WAITING starts the stint at the current lap and odometer.
      ensures old(state) == Waiting && s.gameState == GamePlaying ==>
        startLap == lapsCompleted && stintStartOdometer == s.odometerKM
      // A PLAYING tick outside BOX that does not enter BOX: the status line and the feedback.
      ensures old(state) != Box && s.gameState == GamePlaying && state != Box ==>
        && state == (if old(state) == Waiting then Gathering else old(state))
        && hasVisitedPits == old(hasVisitedPits)
        && message == (if s.sessionState == SessionRace then RaceInfo(drivenDistanceStint, handlingStatus)
                       else if drivenDistanceStint < AnalysisDistance then Analysing(drivenDistanceStint, handlingStatus)
                       else SetupOk(drivenDistanceStint))
        && setupFeedback == (if s.sessionState != SessionRace && drivenDistanceStint >= AnalysisDistance
                                && old(previousRunSnapshot).Some? && old(setupFeedback).None?
                             then Some(Compare(OkCount(old(previousRunSnapshot).value.tyres), OkCount(tyres)))
                             else old(setupFeedback))
    {
      Observe(s);

      if s.gameState != GamePlaying {
        return;
      }

      if state == Box {
        BoxStep(s);
        return;
      }

      if state == Waiting {
        state := Gathering;
        startLap := lapsCompleted;
        stintStartOdometer := s.odometerKM;
      }

      if state == Gathering || state == Checking {
        AnalyseStint(s, tyres);
      }
    }

    /** The bookkeeping of every tick: distance, laps, steering and handling. */
    method Observe(s: Sample)
      requires Valid() && s.ViewedIndexInTable()
      modifies this`stintStartOdometer, this`drivenDistanceStint, this`lapsCompleted,
               this`handlingStatus, this`handlingValue, steering
      ensures Valid()
      ensures stintStartOdometer == StintStart(old(stintStartOdometer), s.odometerKM)
      ensures drivenDistanceStint == s.odometerKM - stintStartOdometer
      ensures drivenDistanceStint >= 0.0
      ensures lapsCompleted == LapsCompleted(s.ViewedLap())
      ensures steering.currentLap == s.ViewedLap()
      ensures steering.lapInputs ==
        (if s.ViewedLap() != old(steering.currentLap) then [] else old(steering.lapInputs)) + [s.steering]
      ensures steering.lastRecommendation ==
        if s.ViewedLap() != old(steering.currentLap) && old(steering.currentLap) != -1
        then Some(Recommend(PeakUsage(old(steering.lapInputs))))
        else old(steering.lastRecommendation)
      ensures s.speed < MovingSpeed ==> handlingStatus == Neutral && handlingValue == old(handlingValue)
      ensures !(s.speed < MovingSpeed) ==> handlingValue == BalanceValue(s) && handlingStatus == Classify(handlingValue)
    {
      TrackDistance(s);
      var currentLap := s.ViewedLap();
      lapsCompleted := LapsCompleted(currentLap);
      steering.Update(s, currentLap);
      CheckHandlingBalance(s);
    }

    /**
     * In BOX: a pit visit sets the latch; a later tick faster than 10 m/s
     * outside the pit with the latch set starts a new run.
     */
    method BoxStep(s: Sample)
      requires state == Box
      modifies this`state, this`startLap, this`stintStartOdometer, this`drivenDistanceStint,
               this`setupFeedback, this`message, this`hasVisitedPits
      ensures var latch := old(hasVisitedPits) || s.pitMode != 0;
        if latch && s.speed > MovingSpeed && s.pitMode == 0 then
          && state == Gathering && startLap == lapsCompleted && stintStartOdometer == s.odometerKM
          && drivenDistanceStint == 0.0 && setupFeedback == None && message == NewRunStarted && !hasVisitedPits
        else
          && state == Box && hasVisitedPits == latch
          && message == (if latch then ReadyForNewRun else old(message))
          && startLap == old(startLap) && stintStartOdometer == old(stintStartOdometer)
          && drivenDistanceStint == old(drivenDistanceStint) && setupFeedback == old(setupFeedback)
    {
      if s.pitMode != 0 {
        hasVisitedPits := true;
      }
      if hasVisitedPits && s.speed > MovingSpeed && s.pitMode == 0 {
        state := Gathering;
        startLap := lapsCompleted;
        stintStartOdometer := s.odometerKM;
        drivenDistanceStint := 0.0;
        setupFeedback := None;
        message := NewRunStarted;
        hasVisitedPits := false;
      } else if hasVisitedPits {
        message := ReadyForNewRun;
      }
    }

    /**
     * GATHERING (or CHECKING) on a PLAYING tick: in a race only the status line
     * changes; otherwise, once the stint reaches 10 km, the analysis decides
     * between BOX (some corner not OK: compare with and replace the snapshot)
     * and "setup OK".
     */
    method AnalyseStint(s: Sample, tyres: Quad<CornerVerdict>)
      requires state == Gathering || state == Checking
      modifies this`state, this`hasVisitedPits, this`message, this`setupFeedback, this`previousRunSnapshot
      ensures state == Box || state == old(state)
      ensures state == Box ==>
        s.sessionState != SessionRace && drivenDistanceStint >= AnalysisDistance && !AllTyresOk(tyres)
      ensures s.sessionState == SessionRace ==>
        && state == old(state) && message == RaceInfo(drivenDistanceStint, handlingStatus)
        && hasVisitedPits == old(hasVisitedPits)
        && setupFeedback == old(setupFeedback) && previousRunSnapshot == old(previousRunSnapshot)
      ensures s.sessionState != SessionRace && drivenDistanceStint < AnalysisDistance ==>
        && state == old(state) && message == Analysing(drivenDistanceStint, handlingStatus)
        && hasVisitedPits == old(hasVisitedPits)
        && setupFeedback == old(setupFeedback) && previousRunSnapshot == old(previousRunSnapshot)
      ensures s.sessionState != SessionRace && drivenDistanceStint >= AnalysisDistance ==>
        if !AllTyresOk(tyres) then
          && state == Box && !hasVisitedPits && message == BoxChangeNeeded
          && previousRunSnapshot == Some(old(GetAnalysis(tyres)))
          && setupFeedback == (if old(previousRunSnapshot).Some?
                               then Some(Compare(OkCount(old(previousRunSnapshot).value.tyres), OkCount(tyres)))
                               else old(setupFeedback))
        else
          && state == old(state) && message == SetupOk(drivenDistanceStint)
          && hasVisitedPits == old(hasVisitedPits) && previousRunSnapshot == old(previousRunSnapshot)
          && setupFeedback == (if old(previousRunSnapshot).Some? && old(setupFeedback).None?
                               then Some(Compare(OkCount(old(previousRunSnapshot).value.tyres), OkCount(tyres)))
                               else old(setupFeedback))
    {
      if s.sessionState == SessionRace {
        message := RaceInfo(drivenDistanceStint, handlingStatus);
        return;
      }
      if drivenDistanceStint >= AnalysisDistance {
        var analysis := GetAnalysis(tyres);
        var needsChange := NeedsChange(tyres);
        if needsChange {
          state := Box;
          hasVisitedPits := false;
          message := BoxChangeNeeded;
          if previousRunSnapshot.Some? {
            EvaluateSetupChange(analysis);
          }
          previousRunSnapshot := Some(analysis);
        } else {
          message := SetupOk(drivenDistanceStint);
          if previousRunSnapshot.Some? && setupFeedback.None? {
            EvaluateSetupChange(analysis);
          }
        }
      } else {
        message := Analysing(drivenDistanceStint, handlingStatus);
      }
    }

    /**
     * Distance of the stint: the start odometer is taken on the first tick and
     * lowered when the odometer falls below it, so the distance is never negative.
     */
    method TrackDistance(s: Sample)
      modifies this`stintStartOdometer, this`drivenDistanceStint
      ensures stintStartOdometer == StintStart(old(stintStartOdometer), s.odometerKM)
      ensures drivenDistanceStint == s.odometerKM - stintStartOdometer
      ensures drivenDistanceStint >= 0.0
    {
      if stintStartOdometer < 0.0 {
        stintStartOdometer := s.odometerKM;
      }
      var currentOdometer := s.odometerKM;
      if currentOdometer < stintStartOdometer {
        stintStartOdometer := currentOdometer;
      }
      drivenDistanceStint := currentOdometer - stintStartOdometer;
    }

    /** Below 10 m/s the balance is NEUTRAL (value kept); otherwise it is classified from the slip gap. */
    method CheckHandlingBalance(s: Sample)
      modifies this`handlingStatus, this`handlingValue
      ensures s.speed < MovingSpeed ==> handlingStatus == Neutral && handlingValue == old(handlingValue)
      ensures !(s.speed < MovingSpeed) ==> handlingValue == BalanceValue(s) && handlingStatus == Classify(handlingValue)
    {
      if s.speed < MovingSpeed {
        handlingStatus := Neutral;
        return;
      }
      var slips := [Abs(s.tyreSlipSpeed.fl), Abs(s.tyreSlipSpeed.fr), Abs(s.tyreSlipSpeed.rl), Abs(s.tyreSlipSpeed.rr)];
      var frontSlip := (slips[0] + slips[1]) / 2.0;
      var rearSlip := (slips[2] + slips[3]) / 2.0;
      handlingValue := rearSlip - frontSlip;
      if handlingValue > BalanceThreshold {
        handlingStatus := Oversteer;
      } else if handlingValue < -BalanceThreshold {
        handlingStatus := Understeer;
      } else {
        handlingStatus := Neutral;
      }
    }

    /** Whether some corner's pressure or camber action is not OK; stops at the first such corner. */
    static method NeedsChange(tyres: Quad<CornerVerdict>) returns (needsChange: bool)
      ensures needsChange <==> !AllTyresOk(tyres)
    {
      var vs := tyres.Values();
      needsChange := false;
      var k := 0;
      while k < 4
        invariant 0 <= k <= 4
        invariant forall j :: 0 <= j < k ==> BothOk(vs[j])
      {
        if !vs[k].action.IsOk() || !vs[k].camberAction.IsOk() {
          needsChange := true;
          break;
        }
        k := k + 1;
      }
      assert vs[0] == tyres.fl && vs[1] == tyres.fr && vs[2] == tyres.rl && vs[3] == tyres.rr;
    }

    /** Counts the OK actions of an analysis: two per corner at most. */
    static method CountOk(tyres: Quad<CornerVerdict>) returns (count: nat)
      ensures count == OkCount(tyres)
    {
      var vs := tyres.Values();
      count := 0;
      for k := 0 to 4
        invariant count == OkCountOf(vs[..k])
      {
        assert vs[..k + 1][..k] == vs[..k];
        if vs[k].action.IsOk() {
          count := count + 1;
        }
        if vs[k].camberAction.IsOk() {
          count := count + 1;
        }
      }
      assert vs[..4] == vs;
    }

    /** Sets the feedback from the OK counts of the snapshot and the current analysis; a no-op without a snapshot. */
    method EvaluateSetupChange(current: Analysis)
      modifies this`setupFeedback
      ensures previousRunSnapshot.None? ==> setupFeedback == old(setupFeedback)
      ensures previousRunSnapshot.Some? ==>
        setupFeedback == Some(Compare(OkCount(previousRunSnapshot.value.tyres), OkCount(current.tyres)))
    {
      if previousRunSnapshot.None? {
        return;
      }
      var prevOk := CountOk(previousRunSnapshot.value.tyres);
      var currOk := CountOk(current.tyres);
      if currOk > prevOk {
        setupFeedback := Some(Improved);
      } else if currOk < prevOk {
        setupFeedback := Some(Worsened);
      } else {
        setupFeedback := Some(NoChange);
      }
    }

    /** The combined analysis; it is "ready" exactly in the BOX state. */
    function GetAnalysis(tyres: Quad<CornerVerdict>): (a: Analysis)
      reads this, steering
      ensures a.ready <==> state == Box
      ensures a.tyres == tyres && a.steering == steering.lastRecommendation
    {
      Analysis(tyres, steering.GetRecommendation(), state == Box, drivenDistanceStint,
               setupFeedback, handlingStatus, handlingValue)
    }
  }
}
