/**
 * The older race engineer: WAITING -> OBSERVING -> ANALYZING -> ADVISING over
 * a history of lap times with a two-lap consistency check, setup advice from
 * the per-corner tyre verdicts (passed in as a value) and a track map of the
 * positions driven.
 */
module LegacyEngineer {
  import opened Telemetry
  import TyreAnalysis

  type CornerVerdict = TyreAnalysis.CornerVerdict
  type CamberAction = TyreAnalysis.CamberAction
  type PressureAction = TyreAnalysis.PressureAction

  datatype LegacyState = Waiting | Observing | Analyzing | Advising

  datatype LegacyMessage =
    | WaitingForStart
    | CollectingLaps
    | CollectingData(laps: nat)
    | Consistent(delta: real)
    | Inconsistent(delta: real)
    | NewRunStarted

  /** One line of setup advice: a corner's camber or pressure action, or "all OK". */
  datatype Suggestion =
    | CamberAdvice(corner: Corner, camber: CamberAction)
    | PressureAdvice(corner: Corner, pressure: PressureAction)
    | AllOk

  datatype TrackPoint = TrackPoint(x: real, z: real, speed: real)

  datatype Output = Output(state: LegacyState, message: LegacyMessage, suggestions: seq<Suggestion>, trackPoints: seq<TrackPoint>)

  /** Largest lap-time difference (s) between the last two laps that counts as consistent. */
  const ConsistencyThreshold: real := 0.5
  /** Delta reported when fewer than two laps are known. */
  const NoDelta: real := 99.9
  /** Number of most recent track points in the output. */
  const TrackPointsShown: nat := 100

  // ---------------------------------------------------------------------------
  // Consistency

  /** Whether the last two lap times differ by less than 0.5 s, and by how much. */
  function CheckConsistency(history: seq<real>): (r: (bool, real))
    ensures r.0 <==> |history| >= 2 && Abs(history[|history| - 1] - history[|history| - 2]) < ConsistencyThreshold
    ensures |history| < 2 ==> r.1 == NoDelta
    ensures r.1 >= 0.0
  {
    if |history| < 2 then (false, NoDelta)
    else
      var t1 := history[|history| - 1];
      var t2 := history[|history| - 2];
      var delta := Abs(t1 - t2);
      (delta < ConsistencyThreshold, delta)
  }

  /**
   * Only the last two laps matter: dropping older laps (the sliding window)
   * never changes the verdict or the delta.
   */
  lemma ConsistencyIgnoresOlderLaps(older: seq<real>, recent: seq<real>)
    requires |recent| >= 2
    ensures CheckConsistency(older + recent) == CheckConsistency(recent)
  {
    var h := older + recent;
    assert h[|h| - 1] == recent[|recent| - 1] && h[|h| - 2] == recent[|recent| - 2];
  }

  // ---------------------------------------------------------------------------
  // Advice

  /** Camber advice for the non-OK camber actions of a list of corners, in order. */
  function CamberAdvices(vs: seq<CornerVerdict>): (r: seq<Suggestion>)
    requires |vs| <= 4
    ensures forall k :: 0 <= k < |r| ==> r[k].CamberAdvice? && !r[k].camber.IsOk()
  {
    if vs == [] then []
    else
      var n := |vs| - 1;
      CamberAdvices(vs[..n]) + if vs[n].camberAction.IsOk() then [] else [CamberAdvice(n, vs[n].camberAction)]
  }

  /** Pressure advice for the non-OK pressure actions of a list of corners, in order. */
  function PressureAdvices(vs: seq<CornerVerdict>): (r: seq<Suggestion>)
    requires |vs| <= 4
    ensures forall k :: 0 <= k < |r| ==> r[k].PressureAdvice? && !r[k].pressure.IsOk()
  {
    if vs == [] then []
    else
      var n := |vs| - 1;
      PressureAdvices(vs[..n]) + if vs[n].action.IsOk() then [] else [PressureAdvice(n, vs[n].action)]
  }

  /** The advice list: camber lines, then pressure lines, or the single "all OK" line. */
  function Advice(tyres: Quad<CornerVerdict>): seq<Suggestion>
  {
    var vs := tyres.Values();
    var lines := CamberAdvices(vs) + PressureAdvices(vs);
    if lines == [] then [AllOk] else lines
  }

  /** No camber line is produced for a list of corners iff all their camber actions are OK. */
  lemma {:induction false} CamberAdvicesEmptyIffOk(vs: seq<CornerVerdict>)
    requires |vs| <= 4
    ensures CamberAdvices(vs) == [] <==> forall k :: 0 <= k < |vs| ==> vs[k].camberAction.IsOk()
  {
    if vs != [] {
      var n := |vs| - 1;
      var init := vs[..n];
      CamberAdvicesEmptyIffOk(init);
      assert forall k :: 0 <= k < n ==> init[k] == vs[k];
      assert CamberAdvices(vs) == CamberAdvices(init) + if vs[n].camberAction.IsOk() then [] else [CamberAdvice(n, vs[n].camberAction)];
    }
  }

  /** No pressure line is produced for a list of corners iff all their pressure actions are OK. */
  lemma {:induction false} PressureAdvicesEmptyIffOk(vs: seq<CornerVerdict>)
    requires |vs| <= 4
    ensures PressureAdvices(vs) == [] <==> forall k :: 0 <= k < |vs| ==> vs[k].action.IsOk()
  {
    if vs != [] {
      var n := |vs| - 1;
      var init := vs[..n];
      PressureAdvicesEmptyIffOk(init);
      assert forall k :: 0 <= k < n ==> init[k] == vs[k];
      assert PressureAdvices(vs) == PressureAdvices(init) + if vs[n].action.IsOk() then [] else [PressureAdvice(n, vs[n].action)];
    }
  }

  /**
   * The advice is never empty; it is the single "all OK" line iff every
   * corner's camber and pressure are OK; otherwise every camber line comes
   * before every pressure line and "all OK" does not appear.
   */
  lemma AdviceShape(tyres: Quad<CornerVerdict>)
    ensures Advice(tyres) != []
    ensures Advice(tyres) == [AllOk] <==>
      forall i: Corner :: tyres.At(i).camberAction.IsOk() && tyres.At(i).action.IsOk()
    ensures forall a, b :: 0 <= a < b < |Advice(tyres)| && Advice(tyres)[a].PressureAdvice? ==> Advice(tyres)[b].PressureAdvice?
  {
    var vs := tyres.Values();
    CamberAdvicesEmptyIffOk(vs);
    PressureAdvicesEmptyIffOk(vs);
    var c := CamberAdvices(vs);
    var p := PressureAdvices(vs);
    if c + p != [] {
      assert (c + p)[0] != AllOk;
    }
  }

  // ---------------------------------------------------------------------------
  // The engineer

  class RaceEngineer {
    var state: LegacyState
    var lapHistory: seq<real>
    var currentLap: int
    var trackMapPoints: seq<TrackPoint>
    var message: LegacyMessage
    var setupSuggestions: seq<Suggestion>
    var lastLapIdx: int

    constructor ()
      ensures state == Waiting && lapHistory == [] && currentLap == -1 && trackMapPoints == []
      ensures message == WaitingForStart && setupSuggestions == [] && lastLapIdx == -1
    {
      state := Waiting;
      lapHistory := [];
      currentLap := -1;
      trackMapPoints := [];
      message := WaitingForStart;
      setupSuggestions := [];
      lastLapIdx := -1;
    }

    /**
     * The step of the lap detection and the state machine on a frame `s`, from
     * the state (st0, h0, msg0, sugg0, idx0) before it. A higher lap index than
     * seen before ends a lap: its time is recorded unless it is the first lap
     * seen. Then each state moves on as the source's transitions say.
     */
    ghost predicate Stepped(s: Sample, tyres: Quad<CornerVerdict>, st0: LegacyState, h0: seq<real>,
                            msg0: LegacyMessage, sugg0: seq<Suggestion>, idx0: int)
      requires 0 <= s.viewedParticipantIndex < StoredParticipantsMax
      reads this`state, this`lapHistory, this`message, this`setupSuggestions, this`lastLapIdx
    {
      var lap := s.participants[s.viewedParticipantIndex].currentLap;
      var h := if lap > idx0 && idx0 != -1 then h0 + [s.lastLapTime] else h0;
      var starts := s.gameState == GamePlaying && s.pitMode == 0 && s.speed > 10.0;
      && lastLapIdx == (if lap > idx0 then lap else idx0)
      && match st0
        case Waiting =>
          if starts then state == Observing && message == CollectingLaps && lapHistory == []
                         && setupSuggestions == sugg0
          else state == Waiting && message == msg0 && lapHistory == h && setupSuggestions == sugg0
        case Observing =>
          && message == CollectingData(|h|) && lapHistory == h && setupSuggestions == sugg0
          && state == (if |h| >= 2 then Analyzing else Observing)
        case Analyzing =>
          var (consistent, delta) := CheckConsistency(h);
          if consistent then
            && message == Consistent(delta) && lapHistory == h
            && if s.pitMode != 0 || s.speed < 1.0 || s.gameState == GameFrontEnd
               then state == Advising && setupSuggestions == Advice(tyres)
               else state == Analyzing && setupSuggestions == sugg0
          else
            && message == Inconsistent(delta) && state == Analyzing && setupSuggestions == sugg0
            && lapHistory == (if |h| > 2 then h[1..] else h)
        case Advising =>
          if starts then state == Observing && message == NewRunStarted && lapHistory == [] && setupSuggestions == []
          else state == Advising && message == msg0 && lapHistory == h && setupSuggestions == sugg0
    }

    /**
     * One tick. Without data nothing changes. Otherwise the state machine
     * steps (`Stepped`), then a track point is added when faster than 5 m/s on a valid lap.
     */
    method ProcessData(data: Option<Sample>, tyres: Quad<CornerVerdict>) returns (out: Output)
      requires data.Some? ==> 0 <= data.value.viewedParticipantIndex < StoredParticipantsMax
      modifies this
      ensures data.None? ==>
        && state == old(state) && lapHistory == old(lapHistory) && trackMapPoints == old(trackMapPoints)
        && message == old(message) && setupSuggestions == old(setupSuggestions) && lastLapIdx == old(lastLapIdx)
      ensures data.Some? ==>
        var s := data.value;
        var pos := s.participants[s.viewedParticipantIndex].worldPosition;
        trackMapPoints == old(trackMapPoints)
          + if s.speed > 5.0 && !s.lapInvalidated then [TrackPoint(pos.x, pos.z, s.speed)] else []
      ensures data.Some? ==>
        Stepped(data.value, tyres, old(state), old(lapHistory), old(message), old(setupSuggestions), old(lastLapIdx))
      ensures out == BuildOutput()
    {
      if data.None? {
        out := BuildOutput();
        return;
      }
      var s := data.value;
      UpdateState(s, tyres);
      if s.speed > 5.0 && !s.lapInvalidated {
        var pos := s.participants[s.viewedParticipantIndex].worldPosition;
        trackMapPoints := trackMapPoints + [TrackPoint(pos.x, pos.z, s.speed)];
      }
      out := BuildOutput();
    }

    /** Lap detection and the state machine, as `Stepped` describes. */
    method UpdateState(s: Sample, tyres: Quad<CornerVerdict>)
      requires 0 <= s.viewedParticipantIndex < StoredParticipantsMax
      modifies this`state, this`lapHistory, this`message, this`setupSuggestions, this`lastLapIdx
      ensures Stepped(s, tyres, old(state), old(lapHistory), old(message), old(setupSuggestions), old(lastLapIdx))
    {
      var idx := s.viewedParticipantIndex;
      var participant := s.participants[idx];
      var isDriving := s.gameState == GamePlaying;
      var inPit := s.pitMode != 0;
      var speed := s.speed;
      var currentLapIdx := participant.currentLap;

      if currentLapIdx > lastLapIdx {
        if lastLapIdx != -1 {
          lapHistory := lapHistory + [s.lastLapTime];
        }
        lastLapIdx := currentLapIdx;
      }

      match state {
        case Waiting =>
          if isDriving && !inPit && speed > 10.0 {
            state := Observing;
            message := CollectingLaps;
            lapHistory := [];
          }
        case Observing =>
          message := CollectingData(|lapHistory|);
          if |lapHistory| >= 2 {
            state := Analyzing;
          }
        case Analyzing =>
          var (isConsistent, delta) := CheckConsistency(lapHistory);
          if isConsistent {
            message := Consistent(delta);
            if inPit || speed < 1.0 || s.gameState == GameFrontEnd {
              GenerateAdvice(tyres);
              state := Advising;
            }
          } else {
            message := Inconsistent(delta);
            if |lapHistory| > 2 {
              lapHistory := lapHistory[1..];
            }
          }
        case Advising =>
          if isDriving && !inPit && speed > 10.0 {
            state := Observing;
            message := NewRunStarted;
            lapHistory := [];
            setupSuggestions := [];
          }
      }
    }

    /** Rebuilds the advice: non-OK camber actions, then non-OK pressure actions, else "all OK". */
    method GenerateAdvice(tyres: Quad<CornerVerdict>)
      modifies this`setupSuggestions
      ensures setupSuggestions == Advice(tyres)
    {
      var vs := tyres.Values();
      setupSuggestions := [];
      for k := 0 to 4
        invariant setupSuggestions == CamberAdvices(vs[..k])
      {
        assert vs[..k + 1][..k] == vs[..k];
        if !vs[k].camberAction.IsOk() {
          setupSuggestions := setupSuggestions + [CamberAdvice(k, vs[k].camberAction)];
        }
      }
      assert vs[..4] == vs;
      ghost var camber := setupSuggestions;
      for k := 0 to 4
        invariant setupSuggestions == camber + PressureAdvices(vs[..k])
      {
        assert vs[..k + 1][..k] == vs[..k];
        if !vs[k].action.IsOk() {
          setupSuggestions := setupSuggestions + [PressureAdvice(k, vs[k].action)];
        }
      }
      if setupSuggestions == [] {
        setupSuggestions := setupSuggestions + [AllOk];
      }
    }

    /** The output: state, message, advice and at most the 100 most recent track points. */
    function BuildOutput(): (out: Output)
      reads this
      ensures out.state == state && out.message == message && out.suggestions == setupSuggestions
      ensures |out.trackPoints| == if |trackMapPoints| < TrackPointsShown then |trackMapPoints| else TrackPointsShown
      ensures out.trackPoints == trackMapPoints[|trackMapPoints| - |out.trackPoints|..]
    {
      var points := if |trackMapPoints| > TrackPointsShown then trackMapPoints[|trackMapPoints| - TrackPointsShown..] else trackMapPoints;
      Output(state, message, setupSuggestions, points)
    }
  }
}
