/** The parts of the camera component that belong to the engine: the choice
    of evaluator and the moving-average keypoint smoother. */
module CameraView {
  import opened Wrappers
  import opened Numeric
  import opened Keypoints
  import opened BaseExercise

  /** The route names of the five exercises; any other name gets the squat. */
  function LogicFor(name: string): (e: Exercise)
    ensures e == Pushup <==> name == "pushup"
    ensures e == Lunge <==> name == "lunge"
    ensures e == JumpingJack <==> name == "jumpingjack"
    ensures e == HeadRotation <==> name == "headrotation"
    ensures e == Squat <==> name !in {"pushup", "lunge", "jumpingjack", "headrotation"}
  {
    match name
    case "pushup" => Pushup
    case "lunge" => Lunge
    case "jumpingjack" => JumpingJack
    case "headrotation" => HeadRotation
    case _ => Squat
  }

  /** How many frames the smoother averages, the newest included. */
  const SmoothWindow: nat := 4

  /** The buffer after a frame arrives: the frame in front, then the older
      frames, cut to the window. */
  function Push(buffer: seq<Frame>, kps: Frame): (r: seq<Frame>)
    ensures |r| == if |buffer| < SmoothWindow then |buffer| + 1 else SmoothWindow
    ensures 0 < |r| <= SmoothWindow && r[0] == kps
    ensures r[1..] == buffer[..|r| - 1]
  {
    var grown := [kps] + buffer;
    grown[..if |grown| < SmoothWindow then |grown| else SmoothWindow]
  }

  /** Keypoint `idx` of every buffered frame, the current keypoint standing
      in for a frame that has fewer keypoints. */
  function Column(window: seq<Frame>, idx: nat, kp: Keypoint): seq<Keypoint> {
    seq(|window|, j requires 0 <= j < |window| => if idx < |window[j]| then window[j][idx] else kp)
  }

  function Xs(col: seq<Keypoint>): seq<real> {
    seq(|col|, j requires 0 <= j < |col| => col[j].x)
  }

  function Ys(col: seq<Keypoint>): seq<real> {
    seq(|col|, j requires 0 <= j < |col| => col[j].y)
  }

  /** A missing score counts as 0. */
  function Scores(col: seq<Keypoint>): seq<real> {
    seq(|col|, j requires 0 <= j < |col| => col[j].score.GetOr(0.0))
  }

  /** The smoothed frame: for every current keypoint, the mean position and
      score over the window; the name is the current keypoint's. */
  function SmoothFrame(window: seq<Frame>, kps: Frame): (out: Frame)
    requires |window| > 0
    ensures |out| == |kps|
    ensures forall i :: 0 <= i < |kps| ==> out[i].name == kps[i].name && out[i].score.Some?
  {
    seq(|kps|, i requires 0 <= i < |kps| =>
      var col := Column(window, i, kps[i]);
      Keypoint(Mean(Xs(col)), Mean(Ys(col)), Some(Mean(Scores(col))), kps[i].name))
  }

  /** The smoothed keypoint lies in every box that holds that keypoint in all
      buffered frames and in the current one, and its score in every interval
      that holds their scores (a missing score counting as 0). */
  lemma SmoothStaysInside(window: seq<Frame>, kps: Frame, i: nat, lo: Keypoint, hi: Keypoint)
    requires |window| > 0 && i < |kps|
    requires lo.score.Some? && hi.score.Some?
    requires forall j :: 0 <= j < |window| ==> Inside(if i < |window[j]| then window[j][i] else kps[i], lo, hi)
    ensures Inside(SmoothFrame(window, kps)[i], lo, hi)
  {
    var col := Column(window, i, kps[i]);
    MeanBounds(Xs(col), lo.x, hi.x);
    MeanBounds(Ys(col), lo.y, hi.y);
    MeanBounds(Scores(col), lo.score.value, hi.score.value);
  }

  /** Position and score (missing counting as 0) between those of `lo` and `hi`. */
  predicate Inside(k: Keypoint, lo: Keypoint, hi: Keypoint)
    requires lo.score.Some? && hi.score.Some?
  {
    && lo.x <= k.x <= hi.x && lo.y <= k.y <= hi.y
    && lo.score.value <= k.score.GetOr(0.0) <= hi.score.value
  }

  /** A pose held still for the whole window comes out unchanged, except
      that a missing score becomes 0. */
  lemma SmoothSteady(window: seq<Frame>, kps: Frame)
    requires |window| > 0
    requires forall j :: 0 <= j < |window| ==> window[j] == kps
    ensures forall i :: 0 <= i < |kps| ==>
      SmoothFrame(window, kps)[i] == Keypoint(kps[i].x, kps[i].y, Some(kps[i].score.GetOr(0.0)), kps[i].name)
  {
    forall i | 0 <= i < |kps|
      ensures SmoothFrame(window, kps)[i] == Keypoint(kps[i].x, kps[i].y, Some(kps[i].score.GetOr(0.0)), kps[i].name)
    {
      var col := Column(window, i, kps[i]);
      MeanOfConstant(Xs(col), kps[i].x);
      MeanOfConstant(Ys(col), kps[i].y);
      MeanOfConstant(Scores(col), kps[i].score.GetOr(0.0));
    }
  }

  /** Whatever the buffer held, after the same frame arrives `SmoothWindow`
      times the window holds nothing else. */
  lemma WindowSettles(buffer: seq<Frame>, kps: Frame)
    ensures Push(Push(Push(Push(buffer, kps), kps), kps), kps) == [kps, kps, kps, kps]
  {
    var b1 := Push(buffer, kps);
    var b2 := Push(b1, kps);
    var b3 := Push(b2, kps);
    var b4 := Push(b3, kps);
    assert b1[0] == kps;
    assert b2[..2] == [kps, kps];
    assert b3[..3] == [kps, kps, kps];
  }

  /** The smoother's buffer (`smoothBuffer`), newest frame first. */
  class KeypointSmoother {
    var buffer: seq<Frame>

    constructor ()
      ensures buffer == []
    {
      buffer := [];
    }

    /** `smoothKeypoints(kps)`. */
    method Smooth(kps: Frame) returns (out: Frame)
      modifies this
      ensures buffer == Push(old(buffer), kps)
      ensures out == SmoothFrame(buffer, kps)
    {
      buffer := [kps] + buffer;
      if |buffer| > SmoothWindow {
        buffer := buffer[..SmoothWindow];
      }
      out := SmoothFrame(buffer, kps);
    }
  }
}
