/**
 * Fuel consumption (FuelMonitor): the fuel used on each completed lap goes
 * into a history of the last five laps; the status estimates the laps the
 * remaining fuel lasts.
 */
module FuelMonitoring {
  import opened Telemetry
  import opened Stats

  /** Number of completed laps whose consumption is kept. */
  const HistoryLaps: nat := 5
  /** A rise of more than this many litres within a lap counts as refuelling. */
  const RefuelTolerance: real := 1.0
  /** Smallest capacity (litres) for which the status reads a level <= 1 as a ratio. */
  const StatusRatioCapacity: real := 10.0

  /**
   * The fuel in litres as the tick reads it: with a known capacity a level
   * above 1 is litres and a level up to 1 a ratio of the capacity; without a
   * capacity the level is taken as it is.
   */
  function FuelLitres(level: real, capacity: real): (litres: real)
    ensures capacity > 0.0 && level > 1.0 ==> litres == level
    ensures capacity > 0.0 && level <= 1.0 ==> litres == level * capacity
    ensures capacity <= 0.0 ==> litres == level
  {
    if capacity > 0.0 then
      if level > 1.0 then level else level * capacity
    else level
  }

  /** The fuel in litres as the status reads it: only capacities above 10 convert a level <= 1. */
  function StatusLitres(level: real, capacity: real): (litres: real)
    ensures capacity > StatusRatioCapacity && level <= 1.0 ==> litres == level * capacity
    ensures !(capacity > StatusRatioCapacity && level <= 1.0) ==> litres == level
  {
    if capacity > 0.0 && level <= 1.0 && capacity > StatusRatioCapacity then level * capacity else level
  }

  /**
   * The two readings agree except for a ratio level with a capacity in (0, 10]:
   * there the tick converts and the status does not.
   */
  lemma ReadingsAgreeAboveTenLitres(level: real, capacity: real)
    ensures FuelLitres(level, capacity) == StatusLitres(level, capacity) <==>
      !(0.0 < capacity <= StatusRatioCapacity && level <= 1.0) || level * capacity == level
  {
  }

  /** A half-full 100 l tank reads 50 l; a level of 60 reads 60 l. */
  lemma LitresExamples()
    ensures StatusLitres(0.5, 100.0) == 50.0 && FuelLitres(0.5, 100.0) == 50.0
    ensures StatusLitres(60.0, 100.0) == 60.0 && FuelLitres(60.0, 100.0) == 60.0
  {
  }

  datatype FuelStatus = FuelStatus(litres: real, perLap: real, remainingLaps: real)

  /**
   * The status from a consumption history: the mean use per lap (0 without
   * history) and the laps the fuel lasts (0 when the mean is not positive).
   */
  function Status(history: seq<real>, level: real, capacity: real): (st: FuelStatus)
    ensures st.litres == StatusLitres(level, capacity)
    ensures history == [] ==> st.perLap == 0.0 && st.remainingLaps == 0.0
    ensures history != [] ==> st.perLap == Mean(history)
    ensures st.perLap > 0.0 ==> st.remainingLaps * st.perLap == st.litres
    ensures !(st.perLap > 0.0) ==> st.remainingLaps == 0.0
  {
    var litres := StatusLitres(level, capacity);
    var perLap := if history != [] then Sum(history) / |history| as real else 0.0;
    var remaining := if perLap > 0.0 then litres / perLap else 0.0;
    FuelStatus(litres, perLap, remaining)
  }

  /**
   * With a history of positive consumptions the mean lies between the smallest
   * and largest lap, so it is positive and the estimate is defined.
   */
  lemma StatusOfPositiveHistory(history: seq<real>, level: real, capacity: real)
    requires history != []
    requires forall x :: x in history ==> x > 0.0
    ensures MinOf(history) <= Status(history, level, capacity).perLap <= MaxOf(history)
    ensures Status(history, level, capacity).perLap > 0.0
    ensures StatusLitres(level, capacity) >= 0.0 ==> Status(history, level, capacity).remainingLaps >= 0.0
  {
    MeanBounds(history);
    assert MinOf(history) in history;
    var st := Status(history, level, capacity);
    if st.litres >= 0.0 {
      QuotientNonNegative(st.litres, st.perLap);
    }
  }

  class FuelMonitor {
    var fuelHistory: seq<real>
    var lastLapFuel: real
    var currentLap: int
    var fuelCapacity: real

    /** At most five laps are kept, each with a positive consumption. */
    ghost predicate Valid()
      reads this
    {
      |fuelHistory| <= HistoryLaps && forall x :: x in fuelHistory ==> x > 0.0
    }

    constructor ()
      ensures Valid()
      ensures fuelHistory == [] && lastLapFuel == -1.0 && currentLap == -1 && fuelCapacity == 0.0
    {
      fuelHistory := [];
      lastLapFuel := -1.0;
      currentLap := -1;
      fuelCapacity := 0.0;
    }

    /**
     * One tick (only while PLAYING). The first lap seen sets the baseline; a
     * higher lap records the fuel used since the baseline if positive; within
     * a lap a rise of more than 1 l is a refuel and clears the history.
     */
    method Update(s: Sample)
      requires Valid() && s.ViewedIndexInTable()
      modifies this
      ensures Valid()
      ensures s.gameState != GamePlaying ==>
        && fuelHistory == old(fuelHistory) && lastLapFuel == old(lastLapFuel)
        && currentLap == old(currentLap) && fuelCapacity == old(fuelCapacity)
      ensures s.gameState == GamePlaying ==> fuelCapacity == s.fuelCapacity
      ensures s.gameState == GamePlaying && !s.ViewedIndexValid() ==>
        fuelHistory == old(fuelHistory) && lastLapFuel == old(lastLapFuel) && currentLap == old(currentLap)
      ensures s.gameState == GamePlaying && s.ViewedIndexValid() ==>
        var fuel := FuelLitres(s.fuelLevel, s.fuelCapacity);
        var lap := s.ViewedLap();
        if old(currentLap) == -1 then
          currentLap == lap && lastLapFuel == fuel && fuelHistory == old(fuelHistory)
        else if lap > old(currentLap) then
          var used := old(lastLapFuel) - fuel;
          && currentLap == lap && lastLapFuel == fuel
          && fuelHistory == (if used > 0.0 then AppendBounded(old(fuelHistory), used, HistoryLaps) else old(fuelHistory))
        else if fuel > old(lastLapFuel) + RefuelTolerance then
          currentLap == old(currentLap) && lastLapFuel == fuel && fuelHistory == []
        else
          currentLap == old(currentLap) && lastLapFuel == old(lastLapFuel) && fuelHistory == old(fuelHistory)
    {
      if s.gameState != GamePlaying {
        return;
      }
      fuelCapacity := s.fuelCapacity;
      var currentFuel := FuelLitres(s.fuelLevel, s.fuelCapacity);

      if s.ViewedIndexValid() {
        var lap := s.participants[s.viewedParticipantIndex].currentLap;
        if currentLap == -1 {
          currentLap := lap;
          lastLapFuel := currentFuel;
          return;
        }
        if lap > currentLap {
          var fuelUsed := lastLapFuel - currentFuel;
          if fuelUsed > 0.0 {
            AppendBoundedPositive(fuelHistory, fuelUsed, HistoryLaps);
            var h := fuelHistory + [fuelUsed];
            if |h| > HistoryLaps {
              h := h[1..];
            }
            assert h == AppendBounded(fuelHistory, fuelUsed, HistoryLaps);
            fuelHistory := h;
          }
          currentLap := lap;
          lastLapFuel := currentFuel;
        } else if currentFuel > lastLapFuel + RefuelTolerance {
          lastLapFuel := currentFuel;
          fuelHistory := [];
        }
      }
    }

    function GetStatus(level: real, capacity: real): (st: FuelStatus)
      reads this
      requires Valid()
      ensures st == Status(fuelHistory, level, capacity)
      ensures st.perLap == 0.0 <==> fuelHistory == []
    {
      var st := Status(fuelHistory, level, capacity);
      if fuelHistory == [] then st
      else
        StatusOfPositiveHistory(fuelHistory, level, capacity);
        st
    }
  }
}
