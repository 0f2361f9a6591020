/** The per-pose analysis engine of the PoseNet component as functions on a
    value holding the component state it reads and writes. The component's
    class (PoseNetComponent) is proved to follow these functions; the lemmas
    in AnalysisProps and ScheduleProps state what the functions promise. */
module Analysis {
  import opened Exercise

  /** The component settings the engine reads (its props). */
  datatype Config = Config(minPoseConfidence: real, minPartConfidence: real,
                           repsPerSet: int, totalSets: int)

  /** The component state the engine reads and writes. `resumeType` is the
      exercise type the rest timer captured when the rest began. */
  datatype Snapshot = Snapshot(
    exerciseType: ExerciseType,
    stage: Stage,
    history: seq<Stage>,
    correct: nat,
    incorrect: nat,
    error: bool,
    readyForm: bool,
    currentSet: int,
    isResting: bool,
    restRemaining: int,
    resumeType: ExerciseType)

  /** The only history that completes a repetition. */
  const Cycle: seq<Stage> := [S2, S3, S2]

  /** Longest history kept after the length-control step. */
  const MaxHistory: nat := 3

  /** Seconds of rest between sets. */
  const RestSeconds: int := 90

  /** The state the component starts with. */
  function Initial(): Snapshot {
    Snapshot(Squat, NoStage, [], 0, 0, false, false, 1, false, 0, Squat)
  }

  /** The invariant of every state the component can reach: the history holds
      at most three entries, all of them s2 or s3; a rest is under way exactly
      while time remains; and the set counter reads 1 (every path that changes
      it ends in `Switch`, which puts it back to 1). */
  predicate Valid(s: Snapshot) {
    |s.history| <= MaxHistory &&
    (forall st :: st in s.history ==> st == S2 || st == S3) &&
    (if s.isResting then 0 < s.restRemaining <= RestSeconds else s.restRemaining == 0) &&
    s.currentSet == 1
  }

  // ---------------------------------------------------------------------
  // Stage history and repetition counting

  /** The callback run on entry to s1: a history of exactly [s2, s3, s2]
      counts one repetition, incorrect when an error was flagged during it,
      and clears the flag; any other history is dropped uncounted. */
  function CloseCycle(s: Snapshot): (r: Snapshot)
    ensures r.history == []
    ensures s.history == Cycle ==>
              !r.error &&
              (if s.error then r.incorrect == s.incorrect + 1 && r.correct == s.correct
               else r.correct == s.correct + 1 && r.incorrect == s.incorrect)
    ensures s.history != Cycle ==>
              r.error == s.error && r.correct == s.correct && r.incorrect == s.incorrect
    ensures r.(history := s.history, error := s.error, correct := s.correct,
               incorrect := s.incorrect) == s
  {
    var counted :=
      if s.history != Cycle then s
      else if s.error then s.(incorrect := s.incorrect + 1, error := false)
      else s.(correct := s.correct + 1, error := false);
    counted.(history := [])
  }

  /** A stage that a band selected. A change of stage records the new stage;
      s2 and s3 are appended to the history, s1 closes the cycle. The same
      stage again changes nothing. */
  function Enter(s: Snapshot, st: Stage): (r: Snapshot)
    requires st != NoStage
    ensures st == s.stage ==> r == s
    ensures r.stage == st
    ensures st != s.stage && st != S1 ==>
              r == s.(stage := st, history := s.history + [st])
    ensures st == S1 && st != s.stage ==>
              r.history == [] && r.correct == CloseCycle(s).correct &&
              r.incorrect == CloseCycle(s).incorrect && r.error == CloseCycle(s).error
    ensures st == S1 && st != s.stage ==> r == CloseCycle(s.(stage := S1))
  {
    if st == s.stage then s
    else if st == S1 then CloseCycle(s.(stage := S1))
    else s.(stage := st, history := s.history + [st])
  }

  /** Enters the selected stage, if a band selected one: an angle between
      the bands changes nothing; a new s2 or s3 is appended; a new s1 counts
      a repetition exactly when the history is [s2, s3, s2], and empties it. */
  function EnterBand(s: Snapshot, band: Option<Stage>): (r: Snapshot)
    requires band != Some(NoStage)
    ensures band == None ==> r == s
    ensures band == Some(s.stage) ==> r == s
    ensures band.Some? ==> r.stage == band.value
    ensures band.Some? && band.value != s.stage && band.value != S1 ==>
              r == s.(stage := band.value, history := s.history + [band.value])
    ensures band == Some(S1) && s.stage != S1 ==>
              r.history == [] &&
              r.correct + r.incorrect == s.correct + s.incorrect + (if s.history == Cycle then 1 else 0)
    ensures band == Some(S1) && s.stage != S1 ==> r == CloseCycle(s.(stage := S1))
  {
    match band
    case None => s
    case Some(st) => Enter(s, st)
  }

  /** The length-control step: one entry is dropped from the front when the
      history is longer than three. */
  function Trim(h: seq<Stage>): (r: seq<Stage>)
    ensures |h| <= MaxHistory + 1 ==> |r| <= MaxHistory
    ensures |h| > MaxHistory ==> r == h[1..]
    ensures |h| <= MaxHistory ==> r == h
  {
    if |h| > MaxHistory then h[1..] else h
  }

  function TrimHistory(s: Snapshot): Snapshot {
    s.(history := Trim(s.history))
  }

  // ---------------------------------------------------------------------
  // Confidence gates and form checks

  /** The squat stage gate: hip and knee scores reach the part threshold. */
  predicate SquatGate(p: Pose, minPart: real) {
    p.parts.hip >= minPart && p.parts.knee >= minPart
  }

  /** The push-up gate: wrist, elbow, shoulder, knee and hip reach it. */
  predicate PushupGate(p: Pose, minPart: real) {
    p.parts.wrist >= minPart && p.parts.elbow >= minPart &&
    p.parts.shoulder >= minPart && p.parts.knee >= minPart && p.parts.hip >= minPart
  }

  /** The bicep-curl gate: wrist, elbow and shoulder reach it. */
  predicate CurlGate(p: Pose, minPart: real) {
    p.parts.wrist >= minPart && p.parts.elbow >= minPart && p.parts.shoulder >= minPart
  }

  /** The push-up starting posture that opens the readiness gate. */
  predicate ReadyPosture(a: Angles) {
    a.arm > 160.0 && a.shoulder > 40.0 && a.hip > 165.0
  }

  /** Whether the stage gate of the current exercise passes: for a push-up
      this includes the readiness gate, possibly opened by this very pose. */
  predicate Tracking(s: Snapshot, p: Pose, minPart: real) {
    match s.exerciseType
    case Squat => SquatGate(p, minPart)
    case Pushup => PushupGate(p, minPart) && (s.readyForm || ReadyPosture(p.angles))
    case BicepCurl => CurlGate(p, minPart)
    case Rest => false
  }

  /** The angle whose band gives the stage of the current exercise. */
  function StageAngle(t: ExerciseType, a: Angles): real {
    if t == Squat then a.knee else a.arm
  }

  /** The form checks that set the error flag: squat too deep (> 95 in the
      s3 band) or knee past the toes (|ankle angle| > 30, gated on the ankle
      score alone); push-up hips sagging (< 160, once tracking); bicep-curl
      upper arm drifting (> 40). */
  predicate FormFault(s: Snapshot, p: Pose, minPart: real) {
    match s.exerciseType
    case Squat =>
      (SquatGate(p, minPart) && SquatStage(p.angles.knee) == Some(S3) && p.angles.knee > 95.0) ||
      (p.parts.ankle >= minPart && Abs(p.angles.ankle) > 30.0)
    case Pushup => Tracking(s, p, minPart) && p.angles.hip < 160.0
    case BicepCurl => CurlGate(p, minPart) && p.angles.upperArm > 40.0
    case Rest => false
  }

  // ---------------------------------------------------------------------
  // Per-exercise analysis (the branches of ExerciseAnalyze)

  function AnalyzeSquat(s: Snapshot, p: Pose, minPart: real): Snapshot {
    var a := p.angles;
    var staged :=
      if SquatGate(p, minPart) then
        var band := SquatStage(a.knee);
        var entered := EnterBand(s, band);
        var flagged :=
          if band == Some(S3) && a.knee > 95.0 then entered.(error := true) else entered;
        TrimHistory(flagged)
      else s;
    if p.parts.ankle >= minPart && Abs(a.ankle) > 30.0 then staged.(error := true)
    else staged
  }

  function AnalyzePushup(s: Snapshot, p: Pose, minPart: real): Snapshot {
    var a := p.angles;
    if !PushupGate(p, minPart) then s
    else
      var ready := if ReadyPosture(a) then s.(readyForm := true) else s;
      if !ready.readyForm then ready
      else
        var entered := EnterBand(ready, PushupStage(a.arm));
        var flagged := if a.hip < 160.0 then entered.(error := true) else entered;
        TrimHistory(flagged)
  }

  function AnalyzeCurl(s: Snapshot, p: Pose, minPart: real): Snapshot {
    var a := p.angles;
    if !CurlGate(p, minPart) then s
    else
      var trimmed := TrimHistory(EnterBand(s, CurlStage(a.arm)));
      if a.upperArm > 40.0 then trimmed.(error := true) else trimmed
  }

  /** ExerciseAnalyze: dispatch on the exercise type; `Rest` does nothing. */
  function Analyze(s: Snapshot, p: Pose, minPart: real): Snapshot {
    match s.exerciseType
    case Squat => AnalyzeSquat(s, p, minPart)
    case Pushup => AnalyzePushup(s, p, minPart)
    case BicepCurl => AnalyzeCurl(s, p, minPart)
    case Rest => s
  }

  // ---------------------------------------------------------------------
  // Exercise switch and the set/rest scheduler

  /** switchExerciseType: a new exercise starts from a clean slate; the rest
      fields are left as they are. */
  function Switch(s: Snapshot, t: ExerciseType): (r: Snapshot)
    ensures r.exerciseType == t && r.stage == NoStage && r.history == []
    ensures r.correct == 0 && r.incorrect == 0 && !r.error && !r.readyForm
    ensures r.currentSet == 1
    ensures r.isResting == s.isResting && r.restRemaining == s.restRemaining
    ensures r.resumeType == s.resumeType
  {
    s.(exerciseType := t, stage := NoStage, history := [], correct := 0,
       incorrect := 0, error := false, currentSet := 1, readyForm := false)
  }

  /** The rest trigger: once the repetitions counted reach the reps per set
      and no rest is under way. */
  predicate RestDue(cfg: Config, s: Snapshot) {
    !s.isResting && s.correct + s.incorrect >= cfg.repsPerSet
  }

  /** startRestCountdown: starts a 90-second rest, remembering the exercise
      type to resume, and switches analysis off. */
  function CheckRest(cfg: Config, s: Snapshot): Snapshot {
    if RestDue(cfg, s) then
      Switch(s.(isResting := true, restRemaining := RestSeconds, readyForm := false,
                resumeType := s.exerciseType), Rest)
    else s
  }

  /** One second of the rest timer. The timer exists exactly while a rest is
      under way; when the time is up the set counter advances, the rest ends,
      and the captured exercise type is resumed if the set counter is within
      the total number of sets, otherwise analysis stays off. Either way the
      switch puts the set counter back to 1. */
  function Tick(cfg: Config, s: Snapshot): Snapshot {
    if !s.isResting then s
    else
      var counted := s.(restRemaining := s.restRemaining - 1);
      if counted.restRemaining != 0 then counted
      else
        var ended := counted.(currentSet := counted.currentSet + 1, isResting := false);
        if ended.currentSet <= cfg.totalSets then Switch(ended, s.resumeType)
        else Switch(ended, Rest)
  }

  /** The body of the per-pose loop: a pose scoring at least the pose
      threshold is analysed, then the rest trigger is checked. */
  function PoseStep(cfg: Config, s: Snapshot, p: Pose): Snapshot {
    if p.score >= cfg.minPoseConfidence then CheckRest(cfg, Analyze(s, p, cfg.minPartConfidence))
    else s
  }

  /** One animation frame: every detected pose in turn. */
  function FrameStep(cfg: Config, s: Snapshot, poses: seq<Pose>): Snapshot
    decreases |poses|
  {
    if poses == [] then s
    else PoseStep(cfg, FrameStep(cfg, s, poses[..|poses| - 1]), poses[|poses| - 1])
  }

  /** What can happen to the component: an animation frame, a button press
      selecting an exercise, or one second of the rest timer. */
  datatype Event = FrameEvent(poses: seq<Pose>) | SwitchEvent(t: ExerciseType) | TickEvent

  function Step(cfg: Config, s: Snapshot, e: Event): Snapshot {
    match e
    case FrameEvent(poses) => FrameStep(cfg, s, poses)
    case SwitchEvent(t) => Switch(s, t)
    case TickEvent => Tick(cfg, s)
  }

  /** The state after a sequence of events. */
  function Run(cfg: Config, s: Snapshot, events: seq<Event>): Snapshot
    decreases |events|
  {
    if events == [] then s
    else Run(cfg, Step(cfg, s, events[0]), events[1..])
  }
}
