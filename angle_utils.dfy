/** Joint angles from three keypoints, with confidence gating, and the average
    of several optional angles. */
module AngleUtils {
  import opened Wrappers
  import opened Numeric
  import opened Keypoints

  /** Lowest confidence a keypoint may have and still take part in an angle. */
  const MinScore: real := 0.3

  /** A keypoint is usable when present and scored at least `MinScore`. */
  predicate Usable(p: Option<Keypoint>) {
    p.Some? && p.value.score.Some? && p.value.score.value >= MinScore
  }

  /** The squared length of the ray from `joint` to `p`; zero exactly when the
      two points coincide. */
  function RaySquared(p: Keypoint, joint: Keypoint): (r: real)
    ensures r >= 0.0
    ensures r == 0.0 <==> p.x == joint.x && p.y == joint.y
  {
    SqFacts(p.x - joint.x);
    SqFacts(p.y - joint.y);
    Sq(p.x - joint.x) + Sq(p.y - joint.y)
  }

  /** The interior angle in degrees at `joint` between the rays to `point1` and
      `point2`; `None` when a point is missing, has no or too low a score, or
      either ray has length zero. */
  function GetAngleAtJoint(m: RealMath, point1: Option<Keypoint>, joint: Option<Keypoint>,
                           point2: Option<Keypoint>): (r: Option<real>)
    ensures r.Some? ==> Usable(point1) && Usable(joint) && Usable(point2)
    ensures ValidMath(m) && r.Some? ==> 0.0 <= r.value <= 180.0
  {
    if point1.None? || joint.None? || point2.None? then None
    else
      var p1, j, p2 := point1.value, joint.value, point2.value;
      if p1.score.None? || j.score.None? || p2.score.None? then None
      else if p1.score.value < MinScore || j.score.value < MinScore || p2.score.value < MinScore then None
      else
        var v1x, v1y := p1.x - j.x, p1.y - j.y;
        var v2x, v2y := p2.x - j.x, p2.y - j.y;
        var dot := v1x * v2x + v1y * v2y;
        var mag1 := m.sqrt(RaySquared(p1, j));
        var mag2 := m.sqrt(RaySquared(p2, j));
        if mag1 == 0.0 || mag2 == 0.0 then None
        else
          var cosAngle := dot / (mag1 * mag2);
          var clampedCos := Max(-1.0, Min(1.0, cosAngle));
          var angleRad := m.acos(clampedCos);
          Some(DegreesFromRadians(angleRad))
  }

  /** `(rad * 180) / Math.PI`, mapping `[0, PI]` onto `[0, 180]`. */
  function DegreesFromRadians(rad: real): (deg: real)
    ensures 0.0 <= rad <= PI ==> 0.0 <= deg <= 180.0
  {
    (rad * 180.0) / PI
  }

  /** An angle is unknown exactly when one of the three points is missing or
      badly scored, or one of the two rays has length zero. */
  lemma GetAngleUnknown(m: RealMath, point1: Option<Keypoint>, joint: Option<Keypoint>,
                        point2: Option<Keypoint>)
    requires ValidMath(m)
    ensures GetAngleAtJoint(m, point1, joint, point2).None? <==>
      || !Usable(point1) || !Usable(joint) || !Usable(point2)
      || (point1.value.x == joint.value.x && point1.value.y == joint.value.y)
      || (point2.value.x == joint.value.x && point2.value.y == joint.value.y)
  {
    if Usable(point1) && Usable(joint) && Usable(point2) {
      var p1, j, p2 := point1.value, joint.value, point2.value;
      assert m.sqrt(RaySquared(p1, j)) == 0.0 <==> RaySquared(p1, j) == 0.0;
      assert m.sqrt(RaySquared(p2, j)) == 0.0 <==> RaySquared(p2, j) == 0.0;
    }
  }

  /** A score of exactly 0.3 is accepted; anything below it is not. */
  lemma GetAngleScoreBoundary(m: RealMath, point1: Keypoint, joint: Keypoint, point2: Keypoint)
    requires ValidMath(m)
    requires point1.x != joint.x && point2.y != joint.y
    ensures point1.score == Some(0.3) && joint.score == Some(0.3) && point2.score == Some(0.3) ==>
      GetAngleAtJoint(m, Some(point1), Some(joint), Some(point2)).Some?
    ensures joint.score.Some? && joint.score.value < 0.3 ==>
      GetAngleAtJoint(m, Some(point1), Some(joint), Some(point2)).None?
  {
    GetAngleUnknown(m, Some(point1), Some(joint), Some(point2));
  }

  /** Swapping the two outer points does not change the angle. */
  lemma GetAngleSymmetric(m: RealMath, point1: Option<Keypoint>, joint: Option<Keypoint>,
                          point2: Option<Keypoint>)
    ensures GetAngleAtJoint(m, point1, joint, point2) == GetAngleAtJoint(m, point2, joint, point1)
  {
    if Usable(point1) && Usable(joint) && Usable(point2) {
      var p1, j, p2 := point1.value, joint.value, point2.value;
      var v1x, v1y := p1.x - j.x, p1.y - j.y;
      var v2x, v2y := p2.x - j.x, p2.y - j.y;
      assert v1x * v2x + v1y * v2y == v2x * v1x + v2y * v1y;
      var mag1 := m.sqrt(RaySquared(p1, j));
      var mag2 := m.sqrt(RaySquared(p2, j));
      assert mag1 * mag2 == mag2 * mag1;
    }
  }

  /** The angles of a list that are known, in list order. */
  function Known(angles: seq<Option<real>>): (vs: seq<real>)
    ensures |vs| <= |angles|
    ensures |vs| == 0 <==> forall i :: 0 <= i < |angles| ==> angles[i].None?
    ensures forall k :: 0 <= k < |vs| ==> exists i :: 0 <= i < |angles| && angles[i] == Some(vs[k])
    // and every known angle is kept
    ensures forall i :: 0 <= i < |angles| && angles[i].Some? ==> angles[i].value in vs
  {
    if angles == [] then []
    else
      var rest := Known(angles[1..]);
      assert forall i :: 1 <= i < |angles| ==> angles[i] == angles[1..][i - 1];
      if angles[0].Some? then [angles[0].value] + rest else rest
  }

  /** Filtering distributes over concatenation: the known angles of a list
      are those of its first part followed by those of the rest, so they are
      all the known entries, in list order. */
  lemma {:induction false} KnownConcat(a: seq<Option<real>>, b: seq<Option<real>>)
    ensures Known(a + b) == Known(a) + Known(b)
    decreases |a|
  {
    if a == [] {
      assert a + b == b;
    } else {
      assert (a + b)[0] == a[0];
      assert (a + b)[1..] == a[1..] + b;
      KnownConcat(a[1..], b);
    }
  }

  /** The mean of the known angles of the list, or `None` if none is known. */
  function AverageAngle(angles: seq<Option<real>>): (r: Option<real>)
    ensures r.None? <==> forall i :: 0 <= i < |angles| ==> angles[i].None?
  {
    var valid := Known(angles);
    if |valid| == 0 then None else Some(Mean(valid))
  }

  /** The average lies in every interval that holds all known angles, so between
      their minimum and maximum. */
  lemma AverageAngleBounds(angles: seq<Option<real>>, lo: real, hi: real)
    requires forall i :: 0 <= i < |angles| && angles[i].Some? ==> lo <= angles[i].value <= hi
    ensures AverageAngle(angles).Some? ==> lo <= AverageAngle(angles).value <= hi
  {
    var valid := Known(angles);
    if |valid| > 0 {
      forall k | 0 <= k < |valid| ensures lo <= valid[k] <= hi {
        var i :| 0 <= i < |angles| && angles[i] == Some(valid[k]);
      }
      MeanBounds(valid, lo, hi);
    }
  }

  /** Two known angles average to their midpoint. */
  lemma AverageOfTwo(a: real, b: real)
    ensures AverageAngle([Some(a), Some(b)]) == Some((a + b) / 2.0)
  {
    var angles := [Some(a), Some(b)];
    assert angles[1..] == [Some(b)];
    assert angles[1..][1..] == [];
    assert Known(angles) == [a, b];
    assert [a, b][1..] == [b];
    assert [b][1..] == [];
    assert Sum([b]) == b + Sum([]);
    assert Sum([a, b]) == a + Sum([b]);
  }

  /** One known angle among unknowns is returned unchanged. */
  lemma AverageAngleSingle(angles: seq<Option<real>>, i: nat, v: real)
    requires i < |angles| && angles[i] == Some(v)
    requires forall j :: 0 <= j < |angles| && j != i ==> angles[j].None?
    ensures AverageAngle(angles) == Some(v)
  {
    AverageAngleBounds(angles, v, v);
  }
}
