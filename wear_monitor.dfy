/**
 * Tyre wear (WearMonitor): per corner, the wear added on each completed lap
 * goes into a history of the last five laps; the status estimates the laps
 * each tyre lasts.
 */
module WearMonitoring {
  import opened Telemetry
  import opened Stats

  /** Number of completed laps whose wear is kept per corner. */
  const HistoryLaps: nat := 5
  /** Mean wear per lap below which no estimate is made. */
  const MinWearRate: real := 0.0001
  /** Remaining laps reported when no estimate is made. */
  const NoEstimate: real := 999.0

  /** The wear added over a lap; a decrease (a tyre change) counts as none. */
  function WearDelta(current: real, last: real): (d: real)
    ensures d >= 0.0
    ensures current >= last ==> d == current - last
    ensures current < last ==> d == 0.0
  {
    if current < last then 0.0 else current - last
  }

  /** A corner's history after a lap: a positive delta is appended, keeping the five most recent. */
  function Recorded(history: seq<real>, delta: real): (r: seq<real>)
    requires |history| <= HistoryLaps
    ensures delta > 0.0 ==> |r| == (if |history| < HistoryLaps then |history| + 1 else HistoryLaps) && r[|r| - 1] == delta
    ensures delta > 0.0 ==> r == (history + [delta])[|history| + 1 - |r|..]
    ensures !(delta > 0.0) ==> r == history
  {
    if delta > 0.0 then AppendBounded(history, delta, HistoryLaps) else history
  }

  datatype WearStatus = WearStatus(wearPercent: real, perLap: real, remainingLaps: real)

  /**
   * A corner's status: wear and mean wear per lap in percent, and the laps
   * until the wear reaches 1.0 at the mean rate, or 999 when the rate is at
   * most 0.0001.
   */
  function CornerStatus(history: seq<real>, wear: real): (st: WearStatus)
    ensures st.wearPercent == wear * 100.0
    ensures history == [] ==> st.perLap == 0.0 && st.remainingLaps == NoEstimate
    ensures history != [] ==> st.perLap == Mean(history) * 100.0
    ensures history != [] && Mean(history) > MinWearRate ==> st.remainingLaps * Mean(history) == 1.0 - wear
    ensures !(history != [] && Mean(history) > MinWearRate) ==> st.remainingLaps == NoEstimate
    ensures wear <= 1.0 ==> st.remainingLaps >= 0.0
  {
    var avgWearPerLap := if history != [] then Sum(history) / |history| as real else 0.0;
    var remainingLife := 1.0 - wear;
    var remainingLaps := if avgWearPerLap > MinWearRate then remainingLife / avgWearPerLap else NoEstimate;
    if avgWearPerLap > MinWearRate && wear <= 1.0 then
      QuotientNonNegative(remainingLife, avgWearPerLap);
      WearStatus(wear * 100.0, avgWearPerLap * 100.0, remainingLaps)
    else
      WearStatus(wear * 100.0, avgWearPerLap * 100.0, remainingLaps)
  }

  class WearMonitor {
    var wearHistory: seq<seq<real>>
    var lastWear: seq<real>
    var currentLap: int

    /** Four corners, each with at most five positive per-lap wear values. */
    ghost predicate Valid()
      reads this
    {
      && |wearHistory| == 4 && |lastWear| == 4
      && forall i :: 0 <= i < 4 ==> |wearHistory[i]| <= HistoryLaps && forall x :: x in wearHistory[i] ==> x > 0.0
    }

    constructor ()
      ensures Valid()
      ensures wearHistory == [[], [], [], []] && lastWear == [0.0, 0.0, 0.0, 0.0] && currentLap == -1
    {
      wearHistory := [[], [], [], []];
      lastWear := [0.0, 0.0, 0.0, 0.0];
      currentLap := -1;
    }

    /**
     * One tick (only while PLAYING). The first lap seen copies the wear of all
     * four tyres; a higher lap records each corner's wear delta and takes the
     * current wear as the new baseline; the same or a lower lap changes nothing.
     */
    method Update(s: Sample)
      requires Valid() && s.ViewedIndexInTable()
      modifies this
      ensures Valid()
      ensures !(s.gameState == GamePlaying && s.ViewedIndexValid()) ==>
        wearHistory == old(wearHistory) && lastWear == old(lastWear) && currentLap == old(currentLap)
      ensures s.gameState == GamePlaying && s.ViewedIndexValid() ==>
        var lap := s.ViewedLap();
        var wear := s.tyreWear.Values();
        if old(currentLap) == -1 then
          currentLap == lap && lastWear == wear && wearHistory == old(wearHistory)
        else if lap > old(currentLap) then
          && currentLap == lap && lastWear == wear
          && forall i :: 0 <= i < 4 ==> wearHistory[i] == Recorded(old(wearHistory)[i], WearDelta(wear[i], old(lastWear)[i]))
        else
          currentLap == old(currentLap) && lastWear == old(lastWear) && wearHistory == old(wearHistory)
    {
      if s.gameState != GamePlaying {
        return;
      }
      if s.ViewedIndexValid() {
        var lap := s.participants[s.viewedParticipantIndex].currentLap;
        var wear := s.tyreWear.Values();
        if currentLap == -1 {
          currentLap := lap;
          for i := 0 to 4
            invariant |lastWear| == 4 && wearHistory == old(wearHistory) && currentLap == lap
            invariant forall j :: 0 <= j < i ==> lastWear[j] == wear[j]
            invariant forall j :: i <= j < 4 ==> lastWear[j] == old(lastWear)[j]
          {
            lastWear := lastWear[i := wear[i]];
          }
          assert lastWear == wear;
          return;
        }
        if lap > currentLap {
          for i := 0 to 4
            invariant Valid()
            invariant forall j :: 0 <= j < i ==>
              wearHistory[j] == Recorded(old(wearHistory)[j], WearDelta(wear[j], old(lastWear)[j])) && lastWear[j] == wear[j]
            invariant forall j :: i <= j < 4 ==> wearHistory[j] == old(wearHistory)[j] && lastWear[j] == old(lastWear)[j]
          {
            var h := RecordCorner(wearHistory[i], wear[i], lastWear[i]);
            wearHistory := wearHistory[i := h];
            lastWear := lastWear[i := wear[i]];
          }
          currentLap := lap;
        }
      }
    }

    /**
     * One corner at the end of a lap: the wear delta (none after a tyre change)
     * is appended when positive and the history keeps its last five entries.
     */
    static method RecordCorner(history: seq<real>, current: real, last: real) returns (h: seq<real>)
      requires |history| <= HistoryLaps && forall x :: x in history ==> x > 0.0
      ensures h == Recorded(history, WearDelta(current, last))
      ensures |h| <= HistoryLaps && forall x :: x in h ==> x > 0.0
    {
      var delta := current - last;
      if current < last {
        delta := 0.0;
      }
      h := history;
      if delta > 0.0 {
        AppendBoundedPositive(history, delta, HistoryLaps);
        h := h + [delta];
        if |h| > HistoryLaps {
          h := h[1..];
        }
      }
    }

    /** The status of the four corners, each from its own history and current wear. */
    function GetStatus(currentWear: Quad<real>): (st: seq<WearStatus>)
      reads this
      requires Valid()
      ensures |st| == 4
      ensures forall i :: 0 <= i < 4 ==> st[i] == CornerStatus(wearHistory[i], currentWear.Values()[i])
    {
      var w := currentWear.Values();
      [CornerStatus(wearHistory[0], w[0]), CornerStatus(wearHistory[1], w[1]),
       CornerStatus(wearHistory[2], w[2]), CornerStatus(wearHistory[3], w[3])]
    }
  }
}
