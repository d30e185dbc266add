/**
 * Best lap times (LapTimeManager), in-memory part: a map from (car, track) to
 * the fastest time seen and the date it was set. Loading from and writing to
 * the CSV file are not part of this model; the date is supplied by the caller.
 */
module LapTimes {
  import opened Telemetry
  import Stats

  type Key = (string, string)
  /** A stored record: the lap time and its date string. */
  type Record = (real, string)

  /** Whether a lap of `time` is a new record for `key`: no record yet, or strictly faster. */
  predicate IsNewRecord(best: map<Key, Record>, key: Key, time: real)
  {
    key !in best || time < best[key].0
  }

  /** The map after offering one lap: a new record replaces the entry, anything else keeps the map. */
  function Offered(best: map<Key, Record>, key: Key, time: real, date: string): map<Key, Record>
  {
    if IsNewRecord(best, key, time) then best[key := (time, date)] else best
  }

  /**
   * Offering a lap keeps the minimum: the stored time becomes the new time when
   * there was none and min(old, new) otherwise; an equal time is no record and
   * leaves the map as it was; every other key keeps its entry.
   */
  lemma OfferedKeepsMinimum(best: map<Key, Record>, key: Key, time: real, date: string)
    ensures key in Offered(best, key, time, date)
    ensures key !in best ==> Offered(best, key, time, date)[key] == (time, date)
    ensures key in best ==> Offered(best, key, time, date)[key].0 == (if time < best[key].0 then time else best[key].0)
    ensures key in best && time == best[key].0 ==> Offered(best, key, time, date) == best
    ensures forall k :: k != key ==> (k in Offered(best, key, time, date) <==> k in best)
    ensures forall k :: k != key && k in best ==> Offered(best, key, time, date)[k] == best[k]
  {
  }

  /** The map after offering a series of laps for one key, in order. */
  function OfferedAll(best: map<Key, Record>, key: Key, times: seq<real>, date: string): map<Key, Record>
  {
    if times == [] then best
    else Offered(OfferedAll(best, key, times[..|times| - 1], date), key, times[|times| - 1], date)
  }

  /**
   * After a series of laps for a key that had no record, the stored time is
   * the fastest of them; other keys are untouched.
   */
  lemma {:induction false} OfferedAllIsFastest(best: map<Key, Record>, key: Key, times: seq<real>, date: string)
    requires key !in best && times != []
    ensures key in OfferedAll(best, key, times, date)
    ensures OfferedAll(best, key, times, date)[key].0 == Stats.MinOf(times)
    ensures forall k :: k != key ==> (k in OfferedAll(best, key, times, date) <==> k in best)
    ensures forall k :: k != key && k in best ==> OfferedAll(best, key, times, date)[k] == best[k]
  {
    var init := times[..|times| - 1];
    var last := times[|times| - 1];
    if init == [] {
      assert times == [last];
    } else {
      OfferedAllIsFastest(best, key, init, date);
      var m := Stats.MinOf(times);
      assert forall x :: x in times ==> x in init || x == last;
      assert forall x :: x in init ==> x in times;
      assert m in init || m == last;
      assert Stats.MinOf(init) in times && last in times;
      assert m == (if last < Stats.MinOf(init) then last else Stats.MinOf(init));
    }
  }

  /** The laps of the unit test for one car and track: 90.5, then 91.0 (slower), then 89.0. */
  lemma RecordSequenceExample(date: string)
    ensures var k := ("CarA", "TrackA");
      && Offered(map[], k, 90.5, date)[k].0 == 90.5
      && !IsNewRecord(Offered(map[], k, 90.5, date), k, 91.0)
      && IsNewRecord(Offered(map[], k, 90.5, date), k, 89.0)
      && OfferedAll(map[], k, [90.5, 91.0, 89.0], date)[k].0 == 89.0
  {
    var k := ("CarA", "TrackA");
    OfferedAllIsFastest(map[], k, [90.5, 91.0, 89.0], date);
    assert 89.0 in [90.5, 91.0, 89.0];
  }

  class LapTimeManager {
    var bestLaps: map<Key, Record>

    constructor ()
      ensures bestLaps == map[]
    {
      bestLaps := map[];
    }

    /** The record for a car and track, or None when there is none. */
    function GetBestLap(car: string, track: string): (r: Option<Record>)
      reads this
      ensures r == None <==> (car, track) !in bestLaps
      ensures r != None ==> r.value == bestLaps[(car, track)]
    {
      if (car, track) in bestLaps then Some(bestLaps[(car, track)]) else None
    }

    /**
     * Offers a lap: stores it (with the given date) iff there is no record or
     * it is strictly faster, and reports whether it stored it.
     */
    method SaveBestLap(car: string, track: string, lapTime: real, date: string) returns (isNew: bool)
      modifies this
      ensures isNew <==> IsNewRecord(old(bestLaps), (car, track), lapTime)
      ensures bestLaps == Offered(old(bestLaps), (car, track), lapTime, date)
    {
      var currentBest := GetBestLap(car, track);
      if currentBest == None || lapTime < currentBest.value.0 {
        bestLaps := bestLaps[(car, track) := (lapTime, date)];
        return true;
      }
      return false;
    }
  }
}
