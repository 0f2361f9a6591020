/** Values the analysis engine works on: stages, exercise kinds, the per-pose
    inputs (keypoint scores and the angles computed from them) and the
    angle-to-stage threshold bands of the three exercises. */
module Exercise {

  datatype Option<T> = None | Some(value: T)

  /** The values of `exerciseStage`: 'None' (before any stage was seen), 's1'
      (extended), 's2' (mid-range) and 's3' (deep). */
  datatype Stage = NoStage | S1 | S2 | S3

  /** The values of `exerciseType`. `Rest` is the value the component switches
      to while resting or after the last set; analysis ignores it. */
  datatype ExerciseType = Squat | Pushup | BicepCurl | Rest

  /** Scores of the right-side keypoints the analysis reads (indices 24, 26,
      28, 16, 14 and 12 of the BlazePose keypoint list). */
  datatype PartScores = PartScores(hip: real, knee: real, ankle: real,
                                   wrist: real, elbow: real, shoulder: real)

  /** The angles, in degrees, that the component computes from keypoint
      coordinates with `Math.atan2`; the caller supplies them.
      - knee:     squat knee angle, |90 - angle of the hip-to-knee line|
      - ankle:    squat knee-to-ankle angle against the vertical (signed)
      - arm:      wrist-elbow-shoulder angle (push-up and bicep curl)
      - shoulder: push-up elbow-shoulder-hip angle
      - hip:      push-up 180 - shoulder-hip-knee angle
      - upperArm: bicep-curl elbow-to-shoulder angle against the vertical */
  datatype Angles = Angles(knee: real, ankle: real, arm: real,
                           shoulder: real, hip: real, upperArm: real)

  /** One detected pose: its overall score, its keypoint scores and angles. */
  datatype Pose = Pose(score: real, parts: PartScores, angles: Angles)

  function Abs(x: real): (r: real)
    ensures r >= 0.0 && (r == x || r == -x)
  {
    if x < 0.0 then -x else x
  }

  /** Squat stage of a knee angle: first match of <= 32, [35, 65], >= 75.
      Angles strictly between the bands map to no stage. */
  function SquatStage(kneeAngle: real): (r: Option<Stage>)
    ensures r != Some(NoStage)
    ensures r == Some(S1) <==> kneeAngle <= 32.0
    ensures r == Some(S2) <==> 35.0 <= kneeAngle <= 65.0
    ensures r == Some(S3) <==> kneeAngle >= 75.0
    ensures r == None <==> (32.0 < kneeAngle < 35.0 || 65.0 < kneeAngle < 75.0)
  {
    if kneeAngle <= 32.0 then Some(S1)
    else if 35.0 <= kneeAngle <= 65.0 then Some(S2)
    else if kneeAngle >= 75.0 then Some(S3)
    else None
  }

  /** Push-up stage of an arm angle: first match of > 160, (100, 145], <= 90. */
  function PushupStage(armAngle: real): (r: Option<Stage>)
    ensures r != Some(NoStage)
    ensures r == Some(S1) <==> armAngle > 160.0
    ensures r == Some(S2) <==> 100.0 < armAngle <= 145.0
    ensures r == Some(S3) <==> armAngle <= 90.0
    ensures r == None <==> (90.0 < armAngle <= 100.0 || 145.0 < armAngle <= 160.0)
  {
    if armAngle > 160.0 then Some(S1)
    else if 100.0 < armAngle <= 145.0 then Some(S2)
    else if armAngle <= 90.0 then Some(S3)
    else None
  }

  /** Bicep-curl stage of an arm angle: first match of >= 140, (55, 130], < 65.
      The last two bands overlap on (55, 65); the s2 condition comes first, so the
      s3 band that takes effect is <= 55. */
  function CurlStage(armAngle: real): (r: Option<Stage>)
    ensures r != Some(NoStage)
    ensures r == Some(S2) <==> 55.0 < armAngle <= 130.0
    ensures r == Some(S3) <==> armAngle <= 55.0
    ensures r == None <==> 130.0 < armAngle < 140.0
  {
    if armAngle >= 140.0 then Some(S1)
    else if 55.0 < armAngle <= 130.0 then Some(S2)
    else if armAngle < 65.0 then Some(S3)
    else None
  }

  /** The stage an angle selects for an exercise; `Rest` has no bands. */
  function StageOf(t: ExerciseType, angle: real): (r: Option<Stage>)
    ensures t == Rest ==> r == None
    ensures r != Some(NoStage)
  {
    match t
    case Squat => SquatStage(angle)
    case Pushup => PushupStage(angle)
    case BicepCurl => CurlStage(angle)
    case Rest => None
  }

  // ---------------------------------------------------------------------
  // A declarative reading of the thresholds: one ordered band table per
  // exercise, as the thresholds are written, and a first-match lookup.

  datatype Lower = NoLower | AtLeast(v: real) | Above(v: real)
  datatype Upper = NoUpper | AtMost(v: real) | Below(v: real)

  /** A stage together with the band of angles written for it. */
  datatype Band = Band(stage: Stage, lower: Lower, upper: Upper)

  predicate InBand(b: Band, angle: real) {
    (match b.lower
     case NoLower => true
     case AtLeast(v) => angle >= v
     case Above(v) => angle > v)
    &&
    (match b.upper
     case NoUpper => true
     case AtMost(v) => angle <= v
     case Below(v) => angle < v)
  }

  /** The bands of each exercise in the order the component checks them. */
  function Profile(t: ExerciseType): seq<Band> {
    match t
    case Squat =>
      [Band(S1, NoLower, AtMost(32.0)), Band(S2, AtLeast(35.0), AtMost(65.0)),
       Band(S3, AtLeast(75.0), NoUpper)]
    case Pushup =>
      [Band(S1, Above(160.0), NoUpper), Band(S2, Above(100.0), AtMost(145.0)),
       Band(S3, NoLower, AtMost(90.0))]
    case BicepCurl =>
      [Band(S1, AtLeast(140.0), NoUpper), Band(S2, Above(55.0), AtMost(130.0)),
       Band(S3, NoLower, Below(65.0))]
    case Rest => []
  }

  /** The stage of the first band containing the angle, if any. */
  function FirstMatch(bands: seq<Band>, angle: real): (r: Option<Stage>)
    ensures r.Some? <==> exists i :: 0 <= i < |bands| && InBand(bands[i], angle)
    ensures r.Some? ==> exists i :: 0 <= i < |bands| && InBand(bands[i], angle) &&
                          bands[i].stage == r.value &&
                          forall j :: 0 <= j < i ==> !InBand(bands[j], angle)
  {
    if bands == [] then None
    else if InBand(bands[0], angle) then Some(bands[0].stage)
    else
      var r := FirstMatch(bands[1..], angle);
      assert forall i :: 1 <= i < |bands| ==> bands[i] == bands[1..][i - 1];
      r
  }

  /** The component's if-chains select exactly the first band, in the
      written order, that contains the angle. */
  lemma StageOfIsFirstMatch(t: ExerciseType, angle: real)
    ensures StageOf(t, angle) == FirstMatch(Profile(t), angle)
  {
    var p := Profile(t);
    if t != Rest {
      calc {
        FirstMatch(p, angle);
        if InBand(p[0], angle) then Some(p[0].stage)
        else FirstMatch(p[1..], angle);
        if InBand(p[0], angle) then Some(p[0].stage)
        else if InBand(p[1], angle) then Some(p[1].stage)
        else FirstMatch(p[2..], angle);
        { assert p[2..][1..] == []; }
        if InBand(p[0], angle) then Some(p[0].stage)
        else if InBand(p[1], angle) then Some(p[1].stage)
        else if InBand(p[2], angle) then Some(p[2].stage)
        else None;
      }
    }
  }

  /** A stage is selected only when its own band, as written, holds the angle,
      and no band checked before it does. */
  lemma SelectedBandHoldsAngle(t: ExerciseType, angle: real, i: nat)
    requires i < |Profile(t)| && StageOf(t, angle) == Some(Profile(t)[i].stage)
    ensures InBand(Profile(t)[i], angle)
    ensures forall j :: 0 <= j < i ==> !InBand(Profile(t)[j], angle)
  {
    StageOfIsFirstMatch(t, angle);
  }
}
