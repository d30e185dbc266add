/**
 * Track map recording (TrackRecorder): while the car is on a valid lap it
 * samples its (x, z) position every 2 m or more, accumulates the driven
 * distance and tracks the tightest corner as the smallest circumradius of three
 * consecutive points. The square root is the host's math.sqrt; the model takes
 * it as a function value fixed at construction, of which it only assumes that
 * it returns the non-negative root.
 */
module TrackRecording {
  import opened Telemetry
  import Stats

  /** Least distance in metres between two stored points. */
  const MinPointDistance: real := 2.0
  /** Below this speed (m/s) nothing is recorded. */
  const MinSpeed: real := 1.0
  /** Triangles with an area up to this are treated as straight. */
  const MinArea: real := 0.1
  /** Circumradii of this size or more are straights, not corners. */
  const MaxCornerRadius: real := 200.0
  /** mPitMode value for "not in the pits". */
  const PitModeNone: int := 0

  /** A stored point: world x and z in metres, and the speed in km/h. */
  datatype TrackPoint = TrackPoint(x: real, z: real, speed: real)

  /** A corner: its radius and the position of its middle point. */
  datatype TightCorner = TightCorner(radius: real, x: real, z: real)

  /** `sqrt` returns the non-negative square root of every non-negative number. */
  ghost predicate IsSqrt(sqrt: real -> real)
  {
    forall x :: x >= 0.0 ==> sqrt(x) >= 0.0 && sqrt(x) * sqrt(x) == x
  }

  function SquaredDistance(p: TrackPoint, q: TrackPoint): (d: real)
    ensures d >= 0.0
  {
    (q.x - p.x) * (q.x - p.x) + (q.z - p.z) * (q.z - p.z)
  }

  /** Straight-line distance of two points in the x/z plane. */
  function Distance(p: TrackPoint, q: TrackPoint, sqrt: real -> real): real
  {
    sqrt(SquaredDistance(p, q))
  }

  /** A point is far enough away (>= 2 m) exactly when its squared distance is at least 4. */
  lemma DistanceGate(p: TrackPoint, q: TrackPoint, sqrt: real -> real)
    requires IsSqrt(sqrt)
    ensures Distance(p, q, sqrt) >= 0.0
    ensures Distance(p, q, sqrt) >= MinPointDistance <==> SquaredDistance(p, q) >= MinPointDistance * MinPointDistance
  {
    var d := SquaredDistance(p, q);
    var r := sqrt(d);
    assert r >= 0.0 && r * r == d;
    if r >= 2.0 {
      assert r * r >= 2.0 * r;
    } else {
      assert r * r <= 2.0 * r;
    }
  }

  /** The ticks that may record: playing, moving at 1 m/s or more, out of the pits, lap valid. */
  predicate Recordable(s: Sample)
  {
    s.gameState == GamePlaying && !(s.speed < MinSpeed) && s.pitMode == PitModeNone && !s.lapInvalidated
  }

  /** The point a tick would record: the viewed car's x and z, speed converted to km/h. */
  function PointOf(s: Sample): TrackPoint
    requires 0 <= s.viewedParticipantIndex < StoredParticipantsMax
  {
    var pos := s.participants[s.viewedParticipantIndex].worldPosition;
    TrackPoint(pos.x, pos.z, s.speed * 3.6)
  }

  /** Twice the area of a triangle, by the shoelace formula, halved to the area. */
  function Area(p1: TrackPoint, p2: TrackPoint, p3: TrackPoint): (area: real)
    ensures area >= 0.0
  {
    0.5 * Abs(p1.x * (p2.z - p3.z) + p2.x * (p3.z - p1.z) + p3.x * (p1.z - p2.z))
  }

  /** The circumradius a*b*c / (4 * area) of a triangle with sides a, b, c and positive area. */
  function Circumradius(a: real, b: real, c: real, area: real): real
    requires area > 0.0
  {
    (a * b * c) / (4.0 * area)
  }

  /** The circumradius of the triangle through three points with positive area. */
  function Radius(p1: TrackPoint, p2: TrackPoint, p3: TrackPoint, sqrt: real -> real): real
    requires Area(p1, p2, p3) > 0.0
  {
    Circumradius(Distance(p1, p2, sqrt), Distance(p2, p3, sqrt), Distance(p1, p3, sqrt), Area(p1, p2, p3))
  }

  /** Sides of non-negative length and a positive area give a non-negative radius. */
  lemma CircumradiusNonNegative(a: real, b: real, c: real, area: real)
    requires a >= 0.0 && b >= 0.0 && c >= 0.0 && area > 0.0
    ensures Circumradius(a, b, c, area) >= 0.0
  {
    assert a * b >= 0.0;
    assert a * b * c >= 0.0;
    Stats.QuotientNonNegative(a * b * c, 4.0 * area);
  }

  lemma RadiusNonNegative(p1: TrackPoint, p2: TrackPoint, p3: TrackPoint, sqrt: real -> real)
    requires IsSqrt(sqrt) && Area(p1, p2, p3) > 0.0
    ensures Radius(p1, p2, p3, sqrt) >= 0.0
  {
    DistanceGate(p1, p2, sqrt);
    DistanceGate(p2, p3, sqrt);
    DistanceGate(p1, p3, sqrt);
    CircumradiusNonNegative(Distance(p1, p2, sqrt), Distance(p2, p3, sqrt), Distance(p1, p3, sqrt), Area(p1, p2, p3));
  }

  /**
   * The tightest corner after looking at three consecutive points: replaced by
   * the middle point when the triangle is not flat (area > 0.1), its radius is
   * below 200 and tighter than the current one (or there is none).
   */
  function Tighter(tc: Option<TightCorner>, p1: TrackPoint, p2: TrackPoint, p3: TrackPoint, sqrt: real -> real): Option<TightCorner>
  {
    if Area(p1, p2, p3) > MinArea then
      var radius := Radius(p1, p2, p3, sqrt);
      if radius < MaxCornerRadius && (tc == None || radius < tc.value.radius) then Some(TightCorner(radius, p2.x, p2.z))
      else tc
    else tc
  }

  /** A corner record with a radius in [0, 200). */
  predicate CornerInRange(tc: Option<TightCorner>)
  {
    tc != None ==> 0.0 <= tc.value.radius < MaxCornerRadius
  }

  /**
   * The tightest corner only changes for a non-flat triangle with radius below
   * 200, then to the middle point; a recorded radius never grows, and it stays
   * in [0, 200).
   */
  lemma TighterMonotone(tc: Option<TightCorner>, p1: TrackPoint, p2: TrackPoint, p3: TrackPoint, sqrt: real -> real)
    requires IsSqrt(sqrt) && CornerInRange(tc)
    ensures CornerInRange(Tighter(tc, p1, p2, p3, sqrt))
    ensures tc != None ==> Tighter(tc, p1, p2, p3, sqrt) != None && Tighter(tc, p1, p2, p3, sqrt).value.radius <= tc.value.radius
    ensures Tighter(tc, p1, p2, p3, sqrt) != tc ==>
      && Area(p1, p2, p3) > MinArea && Radius(p1, p2, p3, sqrt) < MaxCornerRadius
      && Tighter(tc, p1, p2, p3, sqrt) == Some(TightCorner(Radius(p1, p2, p3, sqrt), p2.x, p2.z))
  {
    if Area(p1, p2, p3) > MinArea {
      RadiusNonNegative(p1, p2, p3, sqrt);
    }
  }

  /** Consecutive points are at least 2 m apart. */
  predicate Spaced(pts: seq<TrackPoint>)
  {
    forall k :: 0 < k < |pts| ==> SquaredDistance(pts[k - 1], pts[k]) >= MinPointDistance * MinPointDistance
  }

  /** The length of the polyline through the points. */
  function PathLength(pts: seq<TrackPoint>, sqrt: real -> real): real
  {
    if |pts| < 2 then 0.0
    else PathLength(pts[..|pts| - 1], sqrt) + Distance(pts[|pts| - 2], pts[|pts| - 1], sqrt)
  }

  /** A path of n points spaced 2 m or more apart is at least 2 * (n - 1) m long. */
  lemma {:induction false} PathLengthLowerBound(pts: seq<TrackPoint>, sqrt: real -> real)
    requires IsSqrt(sqrt) && Spaced(pts)
    ensures pts != [] ==> PathLength(pts, sqrt) >= MinPointDistance * (|pts| - 1) as real
  {
    if |pts| >= 2 {
      var init := pts[..|pts| - 1];
      assert forall k :: 0 <= k < |init| ==> init[k] == pts[k];
      PathLengthLowerBound(init, sqrt);
      DistanceGate(pts[|pts| - 2], pts[|pts| - 1], sqrt);
    }
  }

  class TrackRecorder {
    var trackData: seq<TrackPoint>
    var isRecording: bool
    var lapDistance: real
    var lastPos: Option<TrackPoint>
    var tightestCorner: Option<TightCorner>
    /** The square root the recorder measures distances with. */
    const sqrt: real -> real

    /**
     * The last position is the last stored point (none iff nothing is
     * stored), stored points are 2 m apart, the lap distance is the length of
     * the stored path and a recorded corner has a radius in [0, 200).
     */
    ghost predicate Valid()
      reads this
    {
      && IsSqrt(sqrt)
      && (lastPos == None <==> trackData == [])
      && (trackData != [] ==> lastPos == Some(trackData[|trackData| - 1]))
      && Spaced(trackData)
      && lapDistance == PathLength(trackData, sqrt)
      && CornerInRange(tightestCorner)
    }

    constructor (sqrt: real -> real)
      requires IsSqrt(sqrt)
      ensures Valid() && this.sqrt == sqrt
      ensures trackData == [] && !isRecording && lapDistance == 0.0 && lastPos == None && tightestCorner == None
    {
      this.sqrt := sqrt;
      trackData := [];
      isRecording := false;
      lapDistance := 0.0;
      lastPos := None;
      tightestCorner := None;
    }

    /** Back to the empty recording: no points, distance 0, no last position, no corner. */
    method Reset()
      requires Valid()
      modifies this
      ensures Valid()
      ensures trackData == [] && !isRecording && lapDistance == 0.0 && lastPos == None && tightestCorner == None
    {
      trackData := [];
      isRecording := false;
      lapDistance := 0.0;
      lastPos := None;
      tightestCorner := None;
    }

    /**
     * One tick. Outside a recordable tick nothing changes. The first point is
     * always stored; a later one only 2 m or more from the last, which adds
     * that distance and, from the third point on, re-examines the last three
     * points for a tighter corner.
     */
    method Update(s: Sample)
      requires Valid()
      requires Recordable(s) ==> 0 <= s.viewedParticipantIndex < StoredParticipantsMax
      modifies this
      ensures Valid()
      ensures isRecording == old(isRecording)
      ensures !Recordable(s) ==>
        && trackData == old(trackData) && lapDistance == old(lapDistance)
        && lastPos == old(lastPos) && tightestCorner == old(tightestCorner)
      ensures Recordable(s) ==>
        var p := PointOf(s);
        if old(lastPos) == None then
          && trackData == [p] && lastPos == Some(p)
          && lapDistance == old(lapDistance) && tightestCorner == old(tightestCorner)
        else if Distance(old(lastPos).value, p, sqrt) >= MinPointDistance then
          var n := |trackData|;
          && trackData == old(trackData) + [p] && lastPos == Some(p)
          && lapDistance == old(lapDistance) + Distance(old(lastPos).value, p, sqrt)
          && tightestCorner == (if n >= 3 then Tighter(old(tightestCorner), trackData[n - 3], trackData[n - 2], p, sqrt)
                                else old(tightestCorner))
        else
          && trackData == old(trackData) && lapDistance == old(lapDistance)
          && lastPos == old(lastPos) && tightestCorner == old(tightestCorner)
      ensures lapDistance >= old(lapDistance)
      ensures old(tightestCorner) != None ==> tightestCorner != None && tightestCorner.value.radius <= old(tightestCorner).value.radius
    {
      if s.gameState != GamePlaying || s.speed < MinSpeed || s.pitMode != PitModeNone || s.lapInvalidated {
        return;
      }
      var pos := s.participants[s.viewedParticipantIndex].worldPosition;
      var currentPos := TrackPoint(pos.x, pos.z, s.speed * 3.6);

      if lastPos == None {
        lastPos := Some(currentPos);
        trackData := trackData + [currentPos];
        return;
      }

      var last := lastPos.value;
      var sq := (currentPos.x - last.x) * (currentPos.x - last.x) + (currentPos.z - last.z) * (currentPos.z - last.z);
      assert sq == SquaredDistance(last, currentPos);
      var dist := sqrt(sq);
      assert dist == Distance(last, currentPos, sqrt);
      if dist >= MinPointDistance {
        DistanceGate(last, currentPos, sqrt);
        trackData := trackData + [currentPos];
        lapDistance := lapDistance + dist;
        lastPos := Some(currentPos);
        if |trackData| >= 3 {
          AnalyzeCorner();
        }
      }
    }

    /** Re-examines the last three stored points for a tighter corner. */
    method AnalyzeCorner()
      requires |trackData| >= 3 && IsSqrt(sqrt) && CornerInRange(tightestCorner)
      modifies this`tightestCorner
      ensures var n := |trackData|;
        tightestCorner == Tighter(old(tightestCorner), trackData[n - 3], trackData[n - 2], trackData[n - 1], sqrt)
      ensures CornerInRange(tightestCorner)
    {
      var n := |trackData|;
      var p1, p2, p3 := trackData[n - 3], trackData[n - 2], trackData[n - 1];
      TighterMonotone(tightestCorner, p1, p2, p3, sqrt);
      var a := sqrt(SquaredDistance(p1, p2));
      var b := sqrt(SquaredDistance(p2, p3));
      var c := sqrt(SquaredDistance(p1, p3));
      var area := Area(p1, p2, p3);
      if area > MinArea {
        var radius := Circumradius(a, b, c, area);
        assert radius == Radius(p1, p2, p3, sqrt);
        if radius < MaxCornerRadius {
          if tightestCorner == None || radius < tightestCorner.value.radius {
            tightestCorner := Some(TightCorner(radius, p2.x, p2.z));
          }
        }
      }
    }

    /** The recorded path: its consecutive points are at least 2 m apart. */
    function GetTrackPath(): (path: seq<TrackPoint>)
      reads this
      requires Valid()
      ensures Spaced(path)
      ensures path != [] ==> lapDistance >= MinPointDistance * (|path| - 1) as real
    {
      PathLengthLowerBound(trackData, sqrt);
      trackData
    }

    /** The tightest corner so far; its radius lies in [0, 200). */
    function GetTightestCorner(): (tc: Option<TightCorner>)
      reads this
      requires Valid()
      ensures tc != None ==> 0.0 <= tc.value.radius < MaxCornerRadius
    {
      tightestCorner
    }
  }
}
