/**
 * Tyre-temperature history, stability workflow and setup verdicts
 * (TyreAnalyzer). Per corner the analyzer keeps a time window of readings;
 * once every corner is stable it reports a pressure, spread and camber verdict
 * from the window means.
 */
module TyreAnalysis {
  import opened Telemetry
  import opened Stats

  /** One reading of a corner: time stamp and average/left/centre/right temperature. */
  datatype TyreSample = TyreSample(time: real, avg: real, left: real, center: real, right: real)

  datatype AnalyzerState = Gathering | Checking | Stable | Unstable

  /** Seconds of history kept per corner. */
  const HistoryDuration: real := 30.0
  /** Accepted samples per second. */
  const SampleRate: real := 1.0
  /** Share of the window that must be filled before a corner can be stable. */
  const MinFill: real := 0.8
  /** Largest temperature range (max - min) a stable corner may show. */
  const StabilityThreshold: real := 3.0
  const MinLapsRequired: int := 2

  const TargetMin: real := 85.0
  const TargetMax: real := 90.0
  /** Centre-versus-edges difference that triggers a spread note. */
  const SpreadThreshold: real := 3.0
  const FrontTargetDelta: real := 7.0
  const FrontTolerance: real := 1.5
  const RearDeltaMin: real := 3.0
  const RearDeltaMax: real := 5.0

  // ---------------------------------------------------------------------------
  // Verdicts

  datatype PressureStatus = PressureOk | TooCold | TooHot

  datatype PressureAction = KeepPressure | DecreasePressure | IncreasePressure
  {
    /** Whether the action text contains "OK" ("Druck OK"). */
    predicate IsOk() { KeepPressure? }
  }

  /** Colour hint shown with the pressure status. */
  datatype Color = Green | Blue | Red

  datatype SpreadNote = NoSpreadNote | CentreHot | CentreCold

  datatype CamberAction = CamberOk | DecreaseCamber | IncreaseCamber
  {
    /** Whether the action text contains "OK" ("Sturz OK"). */
    predicate IsOk() { CamberOk? }
  }

  datatype CornerVerdict = CornerVerdict(
    temp: real,
    status: PressureStatus,
    action: PressureAction,
    details: SpreadNote,
    camberAction: CamberAction,
    tempInner: real,
    tempOuter: real,
    color: Color)

  function PressureVerdict(avgT: real): (PressureStatus, PressureAction, Color)
  {
    if avgT < TargetMin then (TooCold, DecreasePressure, Blue)
    else if avgT > TargetMax then (TooHot, IncreasePressure, Red)
    else (PressureOk, KeepPressure, Green)
  }

  function SpreadVerdict(avgL: real, avgC: real, avgR: real): SpreadNote
  {
    var edges := (avgL + avgR) / 2.0;
    if avgC > edges + SpreadThreshold then CentreHot
    else if avgC < edges - SpreadThreshold then CentreCold
    else NoSpreadNote
  }

  /**
   * Inner and outer temperature of a corner: on the left side of the car the
   * inner edge is the tyre's right reading, on the right side its left reading.
   */
  function InnerOuter(i: Corner, avgL: real, avgR: real): (real, real)
  {
    if IsLeftSide(i) then (avgR, avgL) else (avgL, avgR)
  }

  /** Camber verdict from delta = inner - outer. */
  function CamberVerdict(i: Corner, delta: real): CamberAction
  {
    if IsFront(i) then
      if delta < FrontTargetDelta - FrontTolerance then DecreaseCamber
      else if delta > FrontTargetDelta + FrontTolerance then IncreaseCamber
      else CamberOk
    else
      if delta < RearDeltaMin then DecreaseCamber
      else if delta > RearDeltaMax then IncreaseCamber
      else CamberOk
  }

  /** The verdict for one corner from the means of its readings. */
  function VerdictFromMeans(i: Corner, avgT: real, avgL: real, avgC: real, avgR: real): CornerVerdict
  {
    var p := PressureVerdict(avgT);
    var io := InnerOuter(i, avgL, avgR);
    CornerVerdict(avgT, p.0, p.1, SpreadVerdict(avgL, avgC, avgR), CamberVerdict(i, io.0 - io.1), io.0, io.1, p.2)
  }

  /** A window's average readings in order; Lefts, Centers and Rights give the other columns. */
  function Avgs(h: seq<TyreSample>): seq<real>
  {
    seq(|h|, k requires 0 <= k < |h| => h[k].avg)
  }

  function Lefts(h: seq<TyreSample>): seq<real>
  {
    seq(|h|, k requires 0 <= k < |h| => h[k].left)
  }

  function Centers(h: seq<TyreSample>): seq<real>
  {
    seq(|h|, k requires 0 <= k < |h| => h[k].center)
  }

  function Rights(h: seq<TyreSample>): seq<real>
  {
    seq(|h|, k requires 0 <= k < |h| => h[k].right)
  }

  /** The verdict for one corner from its history window. */
  function AnalyseCorner(i: Corner, h: seq<TyreSample>): CornerVerdict
    requires h != []
  {
    VerdictFromMeans(i, Mean(Avgs(h)), Mean(Lefts(h)), Mean(Centers(h)), Mean(Rights(h)))
  }

  /**
   * Pressure: below 85 degC is too cold (decrease pressure), above 90 degC too
   * hot (increase pressure), anything in between is OK.
   */
  lemma PressureBands(avgT: real)
    ensures PressureVerdict(avgT).0 == TooCold <==> avgT < TargetMin
    ensures PressureVerdict(avgT).0 == TooHot <==> avgT > TargetMax
    ensures PressureVerdict(avgT).0 == PressureOk <==> TargetMin <= avgT <= TargetMax
    ensures PressureVerdict(avgT).1 == match PressureVerdict(avgT).0
      case TooCold => DecreasePressure
      case TooHot => IncreasePressure
      case PressureOk => KeepPressure
    ensures PressureVerdict(avgT).1.IsOk() <==> TargetMin <= avgT <= TargetMax
  {
  }

  /** A spread note appears iff the centre is more than 3 degC off the edge mean. */
  lemma SpreadBands(avgL: real, avgC: real, avgR: real)
    ensures SpreadVerdict(avgL, avgC, avgR) == CentreHot <==> avgC - (avgL + avgR) / 2.0 > SpreadThreshold
    ensures SpreadVerdict(avgL, avgC, avgR) == CentreCold <==> (avgL + avgR) / 2.0 - avgC > SpreadThreshold
  {
  }

  /**
   * Camber: the front is OK iff 5.5 <= delta <= 8.5 and the rear iff
   * 3 <= delta <= 5; below the range calls for less, above for more camber.
   */
  lemma CamberBands(i: Corner, delta: real)
    ensures IsFront(i) ==>
      && (CamberVerdict(i, delta) == CamberOk <==> 5.5 <= delta <= 8.5)
      && (CamberVerdict(i, delta) == DecreaseCamber <==> delta < 5.5)
      && (CamberVerdict(i, delta) == IncreaseCamber <==> delta > 8.5)
    ensures !IsFront(i) ==>
      && (CamberVerdict(i, delta) == CamberOk <==> 3.0 <= delta <= 5.0)
      && (CamberVerdict(i, delta) == DecreaseCamber <==> delta < 3.0)
      && (CamberVerdict(i, delta) == IncreaseCamber <==> delta > 5.0)
  {
  }

  /** The delta a corner's verdict is based on is always inner minus outer, by side. */
  lemma VerdictUsesSideReadings(i: Corner, avgT: real, avgL: real, avgC: real, avgR: real)
    ensures var v := VerdictFromMeans(i, avgT, avgL, avgC, avgR);
      && (IsLeftSide(i) ==> v.tempInner == avgR && v.tempOuter == avgL)
      && (!IsLeftSide(i) ==> v.tempInner == avgL && v.tempOuter == avgR)
      && v.camberAction == CamberVerdict(i, v.tempInner - v.tempOuter)
  {
  }

  /** A window whose every average reading is below 85 degC is too cold. */
  lemma ColdWindow(i: Corner, h: seq<TyreSample>)
    requires h != []
    requires forall k :: 0 <= k < |h| ==> h[k].avg < TargetMin
    ensures AnalyseCorner(i, h).status == TooCold && AnalyseCorner(i, h).action == DecreasePressure
  {
    MeanBounds(Avgs(h));
    var m := MaxOf(Avgs(h));
    assert m in Avgs(h);
  }

  /** A window whose every average reading is above 90 degC is too hot. */
  lemma HotWindow(i: Corner, h: seq<TyreSample>)
    requires h != []
    requires forall k :: 0 <= k < |h| ==> h[k].avg > TargetMax
    ensures AnalyseCorner(i, h).status == TooHot && AnalyseCorner(i, h).action == IncreasePressure
  {
    MeanBounds(Avgs(h));
    var m := MinOf(Avgs(h));
    assert m in Avgs(h);
  }

  /**
   * A front-left window held at inner (right) 91.5 degC and outer (left)
   * 84.5 degC, a 7 degC delta, gets camber OK.
   */
  lemma FrontLeftCamberExamples(h: seq<TyreSample>)
    requires h != []
    requires forall k :: 0 <= k < |h| ==> h[k].right == 91.5 && h[k].left == 84.5
    ensures AnalyseCorner(0, h).camberAction == CamberOk
  {
    MeanOfConstant(Rights(h), 91.5);
    MeanOfConstant(Lefts(h), 84.5);
  }

  /** A front-left window held at inner 89 degC and outer 87 degC, a 2 degC delta, gets "decrease camber". */
  lemma FrontLeftSmallDelta(h: seq<TyreSample>)
    requires h != []
    requires forall k :: 0 <= k < |h| ==> h[k].right == 89.0 && h[k].left == 87.0
    ensures AnalyseCorner(0, h).camberAction == DecreaseCamber
  {
    MeanOfConstant(Rights(h), 89.0);
    MeanOfConstant(Lefts(h), 87.0);
  }

  // ---------------------------------------------------------------------------
  // History window

  predicate Chronological(h: seq<TyreSample>)
  {
    forall a, b :: 0 <= a < b < |h| ==> h[a].time <= h[b].time
  }

  /** Every reading is at most `duration` seconds older than `now`. */
  predicate WithinWindow(h: seq<TyreSample>, now: real)
  {
    forall k :: 0 <= k < |h| ==> now - h[k].time <= HistoryDuration
  }

  /** Drops readings from the front while the oldest is more than 30 s old. */
  function Evict(h: seq<TyreSample>, now: real): seq<TyreSample>
    decreases |h|
  {
    if h != [] && now - h[0].time > HistoryDuration then Evict(h[1..], now) else h
  }

  /** Eviction only ever removes a prefix. */
  lemma {:induction false} EvictIsSuffix(h: seq<TyreSample>, now: real) returns (d: nat)
    ensures d <= |h| && Evict(h, now) == h[d..]
    decreases |h|
  {
    if h != [] && now - h[0].time > HistoryDuration {
      var d' := EvictIsSuffix(h[1..], now);
      d := d' + 1;
      assert h[1..][d'..] == h[d..];
    } else {
      d := 0;
    }
  }

  /**
   * Appending a reading stamped `now` to a chronological window of older
   * readings and evicting keeps the new reading last, leaves the window
   * chronological and drops everything older than 30 s.
   */
  lemma {:induction false} EvictAfterAppend(h: seq<TyreSample>, x: TyreSample)
    requires Chronological(h)
    requires forall k :: 0 <= k < |h| ==> h[k].time <= x.time
    ensures var r := Evict(h + [x], x.time);
      && r != [] && r[|r| - 1] == x
      && Chronological(r)
      && WithinWindow(r, x.time)
      && (forall k :: 0 <= k < |r| ==> r[k].time <= x.time)
    decreases |h|
  {
    var r := Evict(h + [x], x.time);
    if h != [] && x.time - h[0].time > HistoryDuration {
      assert (h + [x])[1..] == h[1..] + [x];
      EvictAfterAppend(h[1..], x);
    } else {
      assert r == h + [x];
      if h != [] {
        forall k | 0 <= k < |r|
          ensures x.time - r[k].time <= HistoryDuration
        {
          assert r[0].time <= r[k].time;
        }
      }
    }
  }

  /** A corner is stable when its window is at least 80 % full and its average readings vary by less than 3 degC. */
  predicate CornerStable(h: seq<TyreSample>)
  {
    !(|h| as real < HistoryDuration * SampleRate * MinFill)
    && h != []
    && MaxOf(Avgs(h)) - MinOf(Avgs(h)) < StabilityThreshold
  }

  /** The reading of corner i in a sample. */
  function ReadingOf(s: Sample, i: Corner, now: real): TyreSample
  {
    TyreSample(now, s.tyreTemp.At(i), s.tyreTempLeft.At(i), s.tyreTempCenter.At(i), s.tyreTempRight.At(i))
  }

  /** Whether a sample that passed the rate gate is recorded. */
  predicate Recordable(s: Sample)
  {
    s.gameState == GamePlaying && s.pitMode == 0 && !(s.speed < 5.0)
  }

  function LapStart(start: int, laps: int): int
  {
    if start == -1 then laps else start
  }

  function LapState(state: AnalyzerState, start: int, laps: int): AnalyzerState
  {
    if state == Gathering && laps - start >= MinLapsRequired then Checking else state
  }

  /** Whether at least 1/sample_rate seconds passed since the last gated tick. */
  predicate SampleDue(last: real, now: real)
  {
    !(now - last < 1.0 / SampleRate)
  }

  /** Progress order of the workflow; only a reset moves it back. */
  function Rank(st: AnalyzerState): nat
  {
    match st
    case Gathering => 0
    case Checking => 1
    case Unstable => 1
    case Stable => 2
  }

  datatype StatusMessage = CollectingData(lapsDriven: int) | ComeToBox | OneMoreLap

  class TyreAnalyzer {
    var lastSampleTime: real
    var history: seq<seq<TyreSample>>
    var isStable: seq<bool>
    var currentState: AnalyzerState
    var lapsCompleted: int
    var startLap: int

    /** Four windows, and a non-empty one per corner once the workflow is STABLE. */
    ghost predicate Shaped()
      reads this
    {
      && |history| == 4 && |isStable| == 4
      && (currentState == Stable ==> forall i :: 0 <= i < 4 ==> history[i] != [])
    }

    ghost predicate Valid()
      reads this
    {
      && Shaped()
      && (forall i :: 0 <= i < 4 ==> Chronological(history[i]))
      && (forall i, k :: 0 <= i < 4 && 0 <= k < |history[i]| ==> history[i][k].time <= lastSampleTime)
      && (forall i :: 0 <= i < 4 ==> isStable[i] == CornerStable(history[i]))
    }

    predicate AllStable()
      reads this
      requires |isStable| == 4
    {
      isStable[0] && isStable[1] && isStable[2] && isStable[3]
    }

    constructor ()
      ensures Valid()
      ensures lastSampleTime == 0.0 && currentState == Gathering
      ensures history == [[], [], [], []] && isStable == [false, false, false, false]
      ensures lapsCompleted == 0 && startLap == 0
    {
      lastSampleTime := 0.0;
      history := [[], [], [], []];
      isStable := [false, false, false, false];
      currentState := Gathering;
      lapsCompleted := 0;
      startLap := 0;
    }

    /**
     * One tick. The lap bookkeeping always runs; the rest only when at least
     * 1/sample_rate seconds passed since the last gated tick, which then
     * becomes `now` even if the sample is discarded afterwards.
     */
    method Update(s: Sample, laps: int, now: real)
      requires Valid()
      modifies this
      ensures Valid()
      ensures lapsCompleted == laps
      ensures !SampleDue(old(lastSampleTime), now) ==>
        && lastSampleTime == old(lastSampleTime) && history == old(history) && isStable == old(isStable)
        && startLap == LapStart(old(startLap), laps)
        && currentState == LapState(old(currentState), LapStart(old(startLap), laps), laps)
      ensures SampleDue(old(lastSampleTime), now) ==>
        Processed(old(history), old(isStable), LapStart(old(startLap), laps),
                  LapState(old(currentState), LapStart(old(startLap), laps), laps), s, now)
      ensures currentState == Gathering ==> old(currentState) == Gathering || startLap == -1
      ensures startLap != -1 ==> Rank(old(currentState)) <= Rank(currentState)
    {
      CountLaps(laps);
      if now - lastSampleTime < 1.0 / SampleRate {
        return;
      }
      lastSampleTime := now;
      ProcessSample(s, now);
    }

    /** Records the lap count and promotes GATHERING to CHECKING after two laps since the last reset. */
    method CountLaps(laps: int)
      requires Valid()
      modifies this`lapsCompleted, this`startLap, this`currentState
      ensures Valid()
      ensures lapsCompleted == laps
      ensures startLap == LapStart(old(startLap), laps)
      ensures currentState == LapState(old(currentState), startLap, laps)
    {
      lapsCompleted := laps;
      if startLap == -1 {
        startLap := laps;
      }
      var lapsDrivenSinceReset := lapsCompleted - startLap;
      if currentState == Gathering && lapsDrivenSinceReset >= MinLapsRequired {
        currentState := Checking;
      }
    }

    /**
     * What a tick that passed the rate gate does, from the state before it:
     * outside PLAYING nothing; in the pit a reset; below 5 m/s nothing; else
     * every corner gets the new reading, old readings are evicted and a
     * CHECKING workflow becomes STABLE once all corners are stable.
     */
    ghost predicate Processed(h0: seq<seq<TyreSample>>, st0: seq<bool>, start: int, state: AnalyzerState, s: Sample, now: real)
      reads this
      requires |h0| == 4 && |isStable| == 4
    {
      && lastSampleTime == now
      && (s.gameState == GamePlaying && s.pitMode != 0 ==>
            && history == [[], [], [], []] && isStable == [false, false, false, false]
            && currentState == Gathering && startLap == -1)
      && (!Recordable(s) && !(s.gameState == GamePlaying && s.pitMode != 0) ==>
            history == h0 && isStable == st0 && startLap == start && currentState == state)
      && (Recordable(s) ==>
            && startLap == start
            && |history| == 4
            && (forall i: Corner :: history[i] == Evict(h0[i] + [ReadingOf(s, i, now)], now))
            && currentState == if state == Checking && AllStable() then Stable else state)
    }

    method ProcessSample(s: Sample, now: real)
      requires Valid()
      requires lastSampleTime == now
      modifies this`history, this`isStable, this`currentState, this`startLap
      ensures Valid()
      ensures Processed(old(history), old(isStable), old(startLap), old(currentState), s, now)
      ensures currentState == Gathering ==> old(currentState) == Gathering || startLap == -1
      ensures startLap != -1 ==> Rank(old(currentState)) <= Rank(currentState)
    {
      if s.gameState != GamePlaying {
        return;
      }
      if s.pitMode != 0 || s.speed < 5.0 {
        if s.pitMode != 0 {
          Reset();
        }
        return;
      }
      RecordSample(s, now);
      PromoteIfStable();
    }

    /** A CHECKING workflow becomes STABLE once all four corners are stable. */
    method PromoteIfStable()
      requires Valid()
      requires forall i :: 0 <= i < 4 ==> history[i] != []
      modifies this`currentState
      ensures Valid()
      ensures currentState == if old(currentState) == Checking && AllStable() then Stable else old(currentState)
    {
      if currentState == Checking {
        if AllStable() {
          currentState := Stable;
        }
      }
    }

    /** Appends the sample's reading to every corner, evicts and recomputes stability. */
    method RecordSample(s: Sample, now: real)
      requires Valid()
      requires lastSampleTime == now
      modifies this`history, this`isStable
      ensures Valid()
      ensures forall i: Corner :: history[i] == Evict(old(history)[i] + [ReadingOf(s, i, now)], now)
      ensures forall i: Corner :: history[i] != [] && history[i][|history[i]| - 1] == ReadingOf(s, i, now)
      ensures forall i: Corner :: WithinWindow(history[i], now)
    {
      for i := 0 to 4
        invariant |history| == 4 && |isStable| == 4
        invariant forall j :: 0 <= j < i ==> history[j] == Evict(old(history)[j] + [ReadingOf(s, j, now)], now)
        invariant forall j :: i <= j < 4 ==> history[j] == old(history)[j]
        invariant forall j :: 0 <= j < 4 ==> isStable[j] == CornerStable(history[j])
      {
        var h := EvictStale(history[i] + [ReadingOf(s, i, now)], now);
        history := history[i := h];
        isStable := isStable[i := CornerStable(h)];
      }
      forall i: Corner
        ensures Chronological(history[i])
        ensures history[i] != [] && history[i][|history[i]| - 1] == ReadingOf(s, i, now)
        ensures WithinWindow(history[i], now)
        ensures forall k :: 0 <= k < |history[i]| ==> history[i][k].time <= now
      {
        EvictAfterAppend(old(history)[i], ReadingOf(s, i, now));
      }
    }

    /** Pops readings from the front while the oldest is more than 30 s old. */
    static method EvictStale(h0: seq<TyreSample>, now: real) returns (h: seq<TyreSample>)
      ensures h == Evict(h0, now)
    {
      h := h0;
      while h != [] && now - h[0].time > HistoryDuration
        invariant Evict(h, now) == Evict(h0, now)
        decreases |h|
      {
        h := h[1..];
      }
    }

    method Reset()
      modifies this`history, this`isStable, this`currentState, this`startLap
      ensures history == [[], [], [], []] && isStable == [false, false, false, false]
      ensures currentState == Gathering && startLap == -1
    {
      history := [[], [], [], []];
      isStable := [false, false, false, false];
      currentState := Gathering;
      startLap := -1;
    }

    /**
     * The status line. While checking (or unstable) it promotes the workflow
     * to STABLE as soon as all four corners are stable.
     */
    method GetStatusMessage() returns (msg: StatusMessage)
      requires Valid()
      modifies this`currentState
      ensures Valid()
      ensures old(currentState) == Gathering ==>
        currentState == Gathering
        && msg == CollectingData(if startLap != -1 && lapsCompleted - startLap > 0 then lapsCompleted - startLap else 0)
      ensures (old(currentState) == Checking || old(currentState) == Unstable) ==>
        if AllStable() then currentState == Stable && msg == ComeToBox
        else currentState == old(currentState) && msg == OneMoreLap
      ensures old(currentState) == Stable ==> currentState == Stable && msg == ComeToBox
    {
      if currentState == Gathering {
        var lapsDriven := if startLap != -1 then lapsCompleted - startLap else 0;
        lapsDriven := if lapsDriven > 0 then lapsDriven else 0;
        msg := CollectingData(lapsDriven);
      } else if currentState == Checking || currentState == Unstable {
        if AllStable() {
          currentState := Stable;
          msg := ComeToBox;
        } else {
          msg := OneMoreLap;
        }
      } else {
        msg := ComeToBox;
      }
    }

    /**
     * The per-corner verdicts, or None unless the workflow is STABLE. In STABLE
     * every window holds at least one reading, so every mean is defined.
     */
    function GetAnalysis(): (r: Option<Quad<CornerVerdict>>)
      reads this
      requires Shaped()
      ensures r.Some? <==> currentState == Stable
      ensures r.Some? ==> forall i: Corner :: history[i] != [] && r.value.At(i) == AnalyseCorner(i, history[i])
    {
      if currentState != Stable then None
      else
        var h := history;
        var q := Quad(AnalyseCorner(0, h[0]), AnalyseCorner(1, h[1]), AnalyseCorner(2, h[2]), AnalyseCorner(3, h[3]));
        Some(q)
    }
  }
}
