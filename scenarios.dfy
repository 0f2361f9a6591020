/** Concrete runs of the squat analysis with the component's default settings
    (pose threshold 0.2, part threshold 0.6, 10 reps per set, 3 sets): one
    frame per pose, every keypoint fully confident, knees over the ankles. */
module Scenarios {
  import opened Exercise
  import opened Analysis

  const Defaults: Config := Config(0.2, 0.6, 10, 3)

  /** A confident squat pose with the given knee angle. */
  function SquatPose(kneeAngle: real): Pose {
    Pose(1.0, PartScores(1.0, 1.0, 1.0, 1.0, 1.0, 1.0),
         Angles(kneeAngle, 0.0, 0.0, 0.0, 0.0, 0.0))
  }

  /** One frame per knee angle. */
  function SquatFrames(angles: seq<real>): (evs: seq<Event>)
    ensures |evs| == |angles|
    ensures forall i :: 0 <= i < |angles| ==> evs[i] == FrameEvent([SquatPose(angles[i])])
  {
    if angles == [] then []
    else [FrameEvent([SquatPose(angles[0])])] + SquatFrames(angles[1..])
  }

  /** The effect of a confident squat pose that selects a new stage: s2 or s3
      is pushed (and the history trimmed) with the depth check applied; s1
      closes the cycle. */
  function SquatNext(s: Snapshot, angle: real): Snapshot
    requires SquatStage(angle).Some?
  {
    var st := SquatStage(angle).value;
    if st == S1 then CloseCycle(s.(stage := S1))
    else s.(stage := st, history := Trim(s.history + [st]),
            error := s.error || (st == S3 && angle > 95.0))
  }

  /** Before the set is complete, the first of a list of squat frames whose
      pose selects a new stage moves the state to `SquatNext`; no rest starts. */
  lemma {:induction false} RunFrames(s: Snapshot, angles: seq<real>)
    requires angles != [] && SquatStage(angles[0]).Some? && SquatStage(angles[0]).value != s.stage
    requires s.exerciseType == Squat && !s.isResting && s.correct + s.incorrect < 9
    ensures Run(Defaults, s, SquatFrames(angles)) ==
            Run(Defaults, SquatNext(s, angles[0]), SquatFrames(angles[1..]))
  {
    var evs := SquatFrames(angles);
    assert evs[0] == FrameEvent([SquatPose(angles[0])]);
    assert evs[1..] == SquatFrames(angles[1..]);
    var poses := [SquatPose(angles[0])];
    assert poses[..0] == [];
    assert FrameStep(Defaults, s, poses) == PoseStep(Defaults, s, poses[0]);
    assert Step(Defaults, s, evs[0]) == SquatNext(s, angles[0]);
  }

  /** Running two lists of events one after the other is running their
      concatenation. */
  lemma {:induction false} RunConcat(cfg: Config, s: Snapshot, a: seq<Event>, b: seq<Event>)
    ensures Run(cfg, s, a + b) == Run(cfg, Run(cfg, s, a), b)
    decreases |a|
  {
    if a != [] {
      assert (a + b)[0] == a[0];
      assert (a + b)[1..] == a[1..] + b;
      RunConcat(cfg, Step(cfg, s, a[0]), a[1..], b);
    } else {
      assert a + b == b;
    }
  }

  /** Frames of concatenated angle lists are the concatenated frames. */
  lemma {:induction false} SquatFramesConcat(a: seq<real>, b: seq<real>)
    ensures SquatFrames(a + b) == SquatFrames(a) + SquatFrames(b)
    decreases |a|
  {
    if a == [] {
      assert a + b == b;
    } else {
      assert (a + b)[0] == a[0];
      assert (a + b)[1..] == a[1..] + b;
      SquatFramesConcat(a[1..], b);
    }
  }

  /** From the start, standing (20), half-way (50) and down in the s3 band
      leaves the history [s2, s3], with the error flag raised exactly when
      the bottom angle is over 95. */
  lemma SquatDescent(bottom: real)
    requires bottom >= 75.0
    ensures Run(Defaults, Initial(), SquatFrames([20.0, 50.0, bottom])) ==
            Initial().(stage := S3, history := [S2, S3], error := bottom > 95.0)
  {
    var s0 := Initial();
    RunFrames(s0, [20.0, 50.0, bottom]);
    var s1 := SquatNext(s0, 20.0);
    assert s1 == s0.(stage := S1);
    RunFrames(s1, [50.0, bottom]);
    var s2 := SquatNext(s1, 50.0);
    assert s2 == s1.(stage := S2, history := [S2]);
    RunFrames(s2, [bottom]);
  }

  /** Rising from the bottom through s2 (50) to s1 (20) completes the cycle
      [s2, s3, s2]: one repetition is counted, incorrect exactly when the
      error flag was raised, and the flag and the history are cleared. */
  lemma SquatAscent(s: Snapshot)
    requires s.exerciseType == Squat && !s.isResting && s.correct + s.incorrect < 8
    requires s.stage == S3 && s.history == [S2, S3]
    ensures var r := Run(Defaults, s, SquatFrames([50.0, 20.0]));
      r.stage == S1 && r.history == [] && !r.error &&
      (if s.error then r.incorrect == s.incorrect + 1 && r.correct == s.correct
       else r.correct == s.correct + 1 && r.incorrect == s.incorrect)
  {
    RunFrames(s, [50.0, 20.0]);
    var s1 := SquatNext(s, 50.0);
    assert s1 == s.(stage := S2, history := [S2, S3, S2]);
    RunFrames(s1, [20.0]);
  }

  /** s1 (20), s2 (50), s3 (80), s2 (50), s1 (20) without a form error counts
      one correct repetition and empties the history. */
  lemma CleanSquatCountsCorrect()
    ensures var r := Run(Defaults, Initial(), SquatFrames([20.0, 50.0, 80.0, 50.0, 20.0]));
      r.correct == 1 && r.incorrect == 0 && r.history == [] && r.stage == S1
  {
    assert [20.0, 50.0, 80.0, 50.0, 20.0] == [20.0, 50.0, 80.0] + [50.0, 20.0];
    SquatFramesConcat([20.0, 50.0, 80.0], [50.0, 20.0]);
    RunConcat(Defaults, Initial(), SquatFrames([20.0, 50.0, 80.0]), SquatFrames([50.0, 20.0]));
    SquatDescent(80.0);
    SquatAscent(Initial().(stage := S3, history := [S2, S3], error := false));
  }

  /** The same cycle going too deep (110 in the s3 band) counts one incorrect
      repetition and clears the error flag. */
  lemma DeepSquatCountsIncorrect()
    ensures var r := Run(Defaults, Initial(), SquatFrames([20.0, 50.0, 110.0, 50.0, 20.0]));
      r.correct == 0 && r.incorrect == 1 && r.history == [] && !r.error
  {
    assert [20.0, 50.0, 110.0, 50.0, 20.0] == [20.0, 50.0, 110.0] + [50.0, 20.0];
    SquatFramesConcat([20.0, 50.0, 110.0], [50.0, 20.0]);
    RunConcat(Defaults, Initial(), SquatFrames([20.0, 50.0, 110.0]), SquatFrames([50.0, 20.0]));
    SquatDescent(110.0);
    SquatAscent(Initial().(stage := S3, history := [S2, S3], error := true));
  }

  /** s1, s2, s1 never reaches s3: the cycle is dropped uncounted. */
  lemma ShallowSquatIsDropped()
    ensures var r := Run(Defaults, Initial(), SquatFrames([20.0, 50.0, 20.0]));
      r.correct == 0 && r.incorrect == 0 && r.history == []
  {
    var s0 := Initial();
    RunFrames(s0, [20.0, 50.0, 20.0]);
    var s1 := SquatNext(s0, 20.0);
    assert s1 == s0.(stage := S1);
    RunFrames(s1, [50.0, 20.0]);
    var s2 := SquatNext(s1, 50.0);
    assert s2 == s1.(stage := S2, history := [S2]);
    RunFrames(s2, [20.0]);
  }

  /** Bobbing between s2 and s3 without standing up keeps only the three
      most recent stages. */
  lemma BobbingKeepsThreeStages()
    ensures var r := Run(Defaults, Initial(), SquatFrames([50.0, 80.0, 50.0, 80.0]));
      r.history == [S3, S2, S3]
  {
    var s0 := Initial();
    RunFrames(s0, [50.0, 80.0, 50.0, 80.0]);
    var s1 := SquatNext(s0, 50.0);
    assert s1 == s0.(stage := S2, history := [S2]);
    RunFrames(s1, [80.0, 50.0, 80.0]);
    var s2 := SquatNext(s1, 80.0);
    assert s2 == s1.(stage := S3, history := [S2, S3]);
    RunFrames(s2, [50.0, 80.0]);
    var s3 := SquatNext(s2, 50.0);
    assert s3 == s2.(stage := S2, history := [S2, S3, S2]);
    RunFrames(s3, [80.0]);
    assert [S2, S3, S2, S3][1..] == [S3, S2, S3];
  }
}
