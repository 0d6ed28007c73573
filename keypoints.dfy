/** The keypoints the pose detector reports for one frame. */
module Keypoints {
  import opened Wrappers

  /** One detected landmark. `score` (the confidence) and `name` are optional
      fields of the detector's record. */
  datatype Keypoint = Keypoint(x: real, y: real, score: Option<real>, name: Option<string>)

  /** One frame: normally the 17 landmarks in the fixed order below, or none at all. */
  type Frame = seq<Keypoint>

  // Indices of the landmarks in a frame.
  const Nose: nat := 0
  const LeftEye: nat := 1
  const RightEye: nat := 2
  const LeftEar: nat := 3
  const RightEar: nat := 4
  const LeftShoulder: nat := 5
  const RightShoulder: nat := 6
  const LeftElbow: nat := 7
  const RightElbow: nat := 8
  const LeftWrist: nat := 9
  const RightWrist: nat := 10
  const LeftHip: nat := 11
  const RightHip: nat := 12
  const LeftKnee: nat := 13
  const RightKnee: nat := 14
  const LeftAnkle: nat := 15
  const RightAnkle: nat := 16

  /** `keypoints[i]`, which is `undefined` past the end of the frame. */
  function At(frame: Frame, i: nat): (k: Option<Keypoint>)
    ensures k.Some? <==> i < |frame|
    ensures k.Some? ==> k.value == frame[i]
  {
    if i < |frame| then Some(frame[i]) else None
  }
}
