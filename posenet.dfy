/** The PoseNet component's analysis state and the methods that update it in
    place, one per handler of the component: the per-pose analysis, the rest
    trigger, the one-second rest timer body, the exercise switch and the
    per-frame loop over detected poses. Each method is proved to move the
    state exactly as the matching function of module Analysis says. */
module PoseNetComponent {
  import opened Exercise
  import opened Analysis
  import AnalysisProps
  import ScheduleProps

  class PoseNet {
    // The component's props the analysis reads.
    const minPoseConfidence: real
    const minPartConfidence: real
    const repsPerSet: int
    const totalSets: int

    // The component's state.
    var exerciseType: ExerciseType
    var exerciseStage: Stage
    var stateSequence: seq<Stage>
    var correctCount: nat
    var incorrectCount: nat
    var exerciseError: bool
    var readyForm: bool
    var currentSet: int
    var isResting: bool
    var restTimeRemaining: int
    /** The exercise type the running rest timer captured when it started. */
    var restResumeType: ExerciseType

    function Settings(): Config {
      Config(minPoseConfidence, minPartConfidence, repsPerSet, totalSets)
    }

    /** The abstract value of the state. */
    ghost function State(): Snapshot
      reads this
    {
      Snapshot(exerciseType, exerciseStage, stateSequence, correctCount, incorrectCount,
               exerciseError, readyForm, currentSet, isResting, restTimeRemaining,
               restResumeType)
    }

    ghost predicate Valid()
      reads this
    {
      Analysis.Valid(State())
    }

    constructor (minPoseConfidence: real, minPartConfidence: real, repsPerSet: int, totalSets: int)
      ensures Valid() && State() == Initial()
      ensures Settings() == Config(minPoseConfidence, minPartConfidence, repsPerSet, totalSets)
    {
      this.minPoseConfidence := minPoseConfidence;
      this.minPartConfidence := minPartConfidence;
      this.repsPerSet := repsPerSet;
      this.totalSets := totalSets;
      exerciseType := Squat;
      exerciseStage := NoStage;
      stateSequence := [];
      correctCount, incorrectCount := 0, 0;
      exerciseError := false;
      readyForm := false;
      currentSet := 1;
      isResting := false;
      restTimeRemaining := 0;
      restResumeType := Squat;
    }

    /** switchExerciseType. */
    method SwitchExercise(t: ExerciseType)
      modifies this
      ensures State() == Switch(old(State()), t)
      ensures old(Valid()) ==> Valid()
    {
      exerciseType := t;
      stateSequence := [];
      exerciseStage := NoStage;
      correctCount, incorrectCount := 0, 0;
      exerciseError := false;
      currentSet := 1;
      readyForm := false;
    }

    /** The callback run on entry to s1: count a repetition if the history
        is [s2, s3, s2] (incorrect when an error was flagged) and clear it. */
    method CloseCycle()
      modifies this
      ensures State() == Analysis.CloseCycle(old(State()))
    {
      if |stateSequence| == 3 && stateSequence[0] == S2 &&
         stateSequence[1] == S3 && stateSequence[2] == S2 {
        if exerciseError {
          incorrectCount := incorrectCount + 1;
        } else {
          correctCount := correctCount + 1;
        }
        exerciseError := false;
      }
      stateSequence := [];
    }

    /** setState({ exerciseStage: st }) with its callback: push s2/s3, or on
        s1 close the cycle. */
    method EnterStage(st: Stage)
      requires st != NoStage
      modifies this
      ensures State() == Enter(old(State()), st)
    {
      if exerciseStage != st {
        exerciseStage := st;
        if st == S1 {
          CloseCycle();
        } else {
          stateSequence := stateSequence + [st];
        }
      }
    }

    /** The length-control step: shift once when longer than three. */
    method ControlLength()
      modifies this
      ensures State() == TrimHistory(old(State()))
    {
      if |stateSequence| > 3 {
        stateSequence := stateSequence[1..];
      }
    }

    /** The squat branch of ExerciseAnalyze. */
    method AnalyzeSquat(p: Pose)
      requires exerciseType == Squat
      modifies this
      ensures State() == Analysis.AnalyzeSquat(old(State()), p, minPartConfidence)
    {
      var a := p.angles;
      if SquatGate(p, minPartConfidence) {
        var band := SquatStage(a.knee);
        if band.Some? {
          EnterStage(band.value);
        }
        if band == Some(S3) && a.knee > 95.0 {
          exerciseError := true;
        }
        ControlLength();
      }
      if p.parts.ankle >= minPartConfidence && Abs(a.ankle) > 30.0 {
        exerciseError := true;
      }
    }

    /** The push-up branch of ExerciseAnalyze. */
    method AnalyzePushup(p: Pose)
      requires exerciseType == Pushup
      modifies this
      ensures State() == Analysis.AnalyzePushup(old(State()), p, minPartConfidence)
    {
      var a := p.angles;
      if PushupGate(p, minPartConfidence) {
        if ReadyPosture(a) {
          readyForm := true;
        }
        if readyForm {
          var band := PushupStage(a.arm);
          if band.Some? {
            EnterStage(band.value);
          }
          if a.hip < 160.0 {
            exerciseError := true;
          }
          ControlLength();
        }
      }
    }

    /** The bicep-curl branch of ExerciseAnalyze. */
    method AnalyzeCurl(p: Pose)
      requires exerciseType == BicepCurl
      modifies this
      ensures State() == Analysis.AnalyzeCurl(old(State()), p, minPartConfidence)
    {
      var a := p.angles;
      if CurlGate(p, minPartConfidence) {
        var band := CurlStage(a.arm);
        if band.Some? {
          EnterStage(band.value);
        }
        ControlLength();
        if a.upperArm > 40.0 {
          exerciseError := true;
        }
      }
    }

    /** ExerciseAnalyze for one pose: the branch of the current exercise;
        `rest` does nothing. */
    method ExerciseAnalyze(p: Pose)
      modifies this
      ensures State() == Analyze(old(State()), p, minPartConfidence)
      ensures old(Valid()) ==> Valid()
    {
      ghost var before := State();
      match exerciseType {
        case Squat => AnalyzeSquat(p);
        case Pushup => AnalyzePushup(p);
        case BicepCurl => AnalyzeCurl(p);
        case Rest =>
      }
      if Analysis.Valid(before) {
        AnalysisProps.AnalyzeKeepsValid(before, p, minPartConfidence);
      }
    }

    /** startRestCountdown: start the rest when the set is complete. */
    method CheckRest()
      modifies this
      ensures State() == Analysis.CheckRest(Settings(), old(State()))
      ensures old(Valid()) ==> Valid()
    {
      if !isResting && correctCount + incorrectCount >= repsPerSet {
        var resume := exerciseType;
        isResting := true;
        restTimeRemaining := RestSeconds;
        readyForm := false;
        SwitchExercise(Rest);
        restResumeType := resume;
      }
    }

    /** The body of the one-second rest interval; the interval runs exactly
        while a rest is under way. */
    method Tick()
      modifies this
      ensures State() == Analysis.Tick(Settings(), old(State()))
      ensures old(Valid()) ==> Valid()
    {
      ghost var before := State();
      if isResting {
        restTimeRemaining := restTimeRemaining - 1;
        if restTimeRemaining == 0 {
          currentSet := currentSet + 1;
          isResting := false;
          if currentSet <= totalSets {
            SwitchExercise(restResumeType);
          } else {
            SwitchExercise(Rest);
          }
        }
      }
      if Analysis.Valid(before) {
        ScheduleProps.TickKeepsValid(Settings(), before);
      }
    }

    /** The body of the per-pose loop: analyse a confident pose, then check
        whether the rest is due. */
    method ProcessPose(p: Pose)
      modifies this
      ensures State() == PoseStep(Settings(), old(State()), p)
      ensures old(Valid()) ==> Valid()
    {
      ghost var before := State();
      if p.score >= minPoseConfidence {
        ExerciseAnalyze(p);
        CheckRest();
      }
    }

    /** One animation frame: every detected pose in order. */
    method Frame(poses: seq<Pose>)
      modifies this
      ensures State() == FrameStep(Settings(), old(State()), poses)
      ensures old(Valid()) ==> Valid()
    {
      var i := 0;
      while i < |poses|
        invariant 0 <= i <= |poses|
        invariant State() == FrameStep(Settings(), old(State()), poses[..i])
        invariant old(Valid()) ==> Valid()
      {
        ProcessPose(poses[i]);
        assert poses[..i + 1][..i] == poses[..i];
        i := i + 1;
      }
      assert poses[..|poses|] == poses;
    }
  }
}
