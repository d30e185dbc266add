/**
 * Steering-lock advice (SteeringAnalyzer): tracks the largest absolute
 * steering input of each lap and, when a lap ends, recommends a change of the
 * steering lock from it.
 */
module SteeringAnalysis {
  import opened Telemetry

  datatype SteeringAdvice = IncreaseLock | DecreaseLock | LockOk
  {
    /** Whether the advice text contains "OK" ("Lenkeinschlag OK"). */
    predicate IsOk() { LockOk? }
  }

  /** Above this share of full lock the driver is hitting the stops. */
  const HittingStops: real := 0.98
  /** Below this share of full lock the steering range is barely used. */
  const BarelyUsed: real := 0.60

  function Recommend(maxSteering: real): SteeringAdvice
  {
    if maxSteering > HittingStops then IncreaseLock
    else if maxSteering < BarelyUsed then DecreaseLock
    else LockOk
  }

  /** Exactly one advice applies, chosen by the band the lap's peak falls in. */
  lemma RecommendBands(m: real)
    ensures Recommend(m) == IncreaseLock <==> m > HittingStops
    ensures Recommend(m) == DecreaseLock <==> m < BarelyUsed
    ensures Recommend(m) == LockOk <==> BarelyUsed <= m <= HittingStops
  {
  }

  /** The running maximum of |steering| over a lap's inputs, starting from 0. */
  function PeakUsage(inputs: seq<real>): real
  {
    if inputs == [] then 0.0
    else
      var p := PeakUsage(inputs[..|inputs| - 1]);
      var a := Abs(inputs[|inputs| - 1]);
      if a > p then a else p
  }

  /** The peak is never negative, bounds every input, and is 0 or one of them. */
  lemma {:induction false} PeakBounds(inputs: seq<real>)
    ensures PeakUsage(inputs) >= 0.0
    ensures forall k :: 0 <= k < |inputs| ==> Abs(inputs[k]) <= PeakUsage(inputs)
    ensures PeakUsage(inputs) == 0.0 || exists k :: 0 <= k < |inputs| && PeakUsage(inputs) == Abs(inputs[k])
  {
    if inputs != [] {
      var init := inputs[..|inputs| - 1];
      PeakBounds(init);
      assert forall k :: 0 <= k < |init| ==> inputs[k] == init[k];
      if PeakUsage(init) != 0.0 {
        var k :| 0 <= k < |init| && PeakUsage(init) == Abs(init[k]);
        assert inputs[k] == init[k];
      }
    }
  }

  /**
   * A lap gets "increase lock" iff some input exceeded 98 % of full lock, and
   * "decrease lock" iff every input stayed below 60 %.
   */
  lemma PeakAdvice(inputs: seq<real>)
    ensures Recommend(PeakUsage(inputs)) == IncreaseLock <==>
      exists k :: 0 <= k < |inputs| && Abs(inputs[k]) > HittingStops
    ensures Recommend(PeakUsage(inputs)) == DecreaseLock <==>
      forall k :: 0 <= k < |inputs| ==> Abs(inputs[k]) < BarelyUsed
  {
    PeakBounds(inputs);
    var p := PeakUsage(inputs);
    if p != 0.0 {
      var k :| 0 <= k < |inputs| && p == Abs(inputs[k]);
    }
  }

  class SteeringAnalyzer {
    var maxSteeringPerLap: real
    var currentLap: int
    var recommendation: Option<SteeringAdvice>
    var lastRecommendation: Option<SteeringAdvice>
    /** The steering inputs seen since the current lap began. */
    ghost var lapInputs: seq<real>

    ghost predicate Valid()
      reads this
    {
      maxSteeringPerLap == PeakUsage(lapInputs) && recommendation == lastRecommendation
    }

    constructor ()
      ensures Valid()
      ensures currentLap == -1 && lapInputs == []
      ensures recommendation == None && lastRecommendation == None
    {
      maxSteeringPerLap := 0.0;
      currentLap := -1;
      recommendation := None;
      lastRecommendation := None;
      lapInputs := [];
    }

    /**
     * One tick. On a lap change the finished lap is analysed (unless it was
     * the initial -1) and the peak restarts at 0; then the tick's |steering|
     * raises the peak if larger.
     */
    method Update(s: Sample, lap: int)
      requires Valid()
      modifies this
      ensures Valid()
      ensures currentLap == lap
      ensures lapInputs == (if lap != old(currentLap) then [] else old(lapInputs)) + [s.steering]
      ensures lastRecommendation ==
        if lap != old(currentLap) && old(currentLap) != -1 then Some(Recommend(PeakUsage(old(lapInputs))))
        else old(lastRecommendation)
    {
      if lap != currentLap {
        if currentLap != -1 {
          AnalyzeLap();
        }
        currentLap := lap;
        maxSteeringPerLap := 0.0;
        lapInputs := [];
      }
      var steeringAbs := Abs(s.steering);
      if steeringAbs > maxSteeringPerLap {
        maxSteeringPerLap := steeringAbs;
      }
      lapInputs := lapInputs + [s.steering];
    }

    /** Turns the finished lap's peak into the current advice. */
    method AnalyzeLap()
      requires Valid()
      modifies this`recommendation, this`lastRecommendation
      ensures Valid()
      ensures lastRecommendation == Some(Recommend(PeakUsage(lapInputs)))
    {
      if maxSteeringPerLap > HittingStops {
        recommendation := Some(IncreaseLock);
      } else if maxSteeringPerLap < BarelyUsed {
        recommendation := Some(DecreaseLock);
      } else {
        recommendation := Some(LockOk);
      }
      lastRecommendation := recommendation;
    }

    function GetRecommendation(): Option<SteeringAdvice>
      reads this
    {
      lastRecommendation
    }
  }
}
