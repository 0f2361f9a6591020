/** The set/rest scheduler and whole runs of the component: switching
    exercise, starting a rest, the countdown, and the invariant every
    reachable state keeps. */
module ScheduleProps {
  import opened Exercise
  import opened Analysis
  import opened AnalysisProps

  lemma SwitchKeepsValid(s: Snapshot, t: ExerciseType)
    requires Valid(s)
    ensures Valid(Switch(s, t))
  {
  }

  /** A rest starts exactly when it is due: it runs for 90 seconds, turns the
      analysis off (exercise type `Rest`), remembers the exercise to resume
      and clears the repetition state. Otherwise nothing changes. */
  lemma CheckRestStartsRest(cfg: Config, s: Snapshot)
    ensures var r := CheckRest(cfg, s);
      RestDue(cfg, s) ==>
        r.isResting && r.restRemaining == RestSeconds && r.exerciseType == Rest &&
        r.resumeType == s.exerciseType && r.correct == 0 && r.incorrect == 0 &&
        r.history == [] && r.stage == NoStage && !r.error && !r.readyForm
    ensures !RestDue(cfg, s) ==> CheckRest(cfg, s) == s
  {
  }

  lemma CheckRestKeepsValid(cfg: Config, s: Snapshot)
    requires Valid(s)
    ensures Valid(CheckRest(cfg, s))
  {
  }

  /** One tick: without a rest nothing happens; otherwise one second is taken
      off, and when that reaches 0 the rest ends and the captured exercise
      is resumed (set counter + 1 within the total sets) or analysis stays
      off; the resuming switch puts the set counter back to 1. */
  lemma TickCountsDown(cfg: Config, s: Snapshot)
    ensures !s.isResting ==> Tick(cfg, s) == s
    ensures s.isResting && s.restRemaining != 1 ==>
              Tick(cfg, s) == s.(restRemaining := s.restRemaining - 1)
    ensures var r := Tick(cfg, s);
      s.isResting && s.restRemaining == 1 ==>
        !r.isResting && r.restRemaining == 0 && r.currentSet == 1 &&
        r.exerciseType == (if s.currentSet + 1 <= cfg.totalSets then s.resumeType else Rest) &&
        r.correct == 0 && r.incorrect == 0 && r.history == [] && r.stage == NoStage &&
        !r.error && !r.readyForm && r.resumeType == s.resumeType
  {
  }

  lemma TickKeepsValid(cfg: Config, s: Snapshot)
    requires Valid(s)
    ensures Valid(Tick(cfg, s))
  {
  }

  /** The state after n ticks of the rest timer. */
  function Ticks(cfg: Config, s: Snapshot, n: nat): Snapshot
    decreases n
  {
    if n == 0 then s else Ticks(cfg, Tick(cfg, s), n - 1)
  }

  /** Before the time is up, each tick takes exactly one second off and
      changes nothing else. */
  lemma {:induction false} RestCountdown(cfg: Config, s: Snapshot, n: nat)
    requires s.isResting && n < s.restRemaining
    ensures Ticks(cfg, s, n) == s.(restRemaining := s.restRemaining - n)
    decreases n
  {
    if n > 0 {
      var next := Tick(cfg, s);
      assert next == s.(restRemaining := s.restRemaining - 1);
      RestCountdown(cfg, next, n - 1);
    }
  }

  /** A rest with r seconds left ends after exactly r ticks: not before, and
      then the exercise chosen by the set rule is switched in. */
  lemma RestEndsOnTime(cfg: Config, s: Snapshot)
    requires s.isResting && s.restRemaining > 0
    ensures forall n: nat :: n < s.restRemaining ==> Ticks(cfg, s, n).isResting
    ensures var r := Ticks(cfg, s, s.restRemaining);
      !r.isResting && r.restRemaining == 0 &&
      r.exerciseType == (if s.currentSet + 1 <= cfg.totalSets then s.resumeType else Rest)
  {
    forall n: nat | n < s.restRemaining ensures Ticks(cfg, s, n).isResting {
      RestCountdown(cfg, s, n);
    }
    var last := s.restRemaining - 1;
    RestCountdown(cfg, s, last);
    TicksSplit(cfg, s, last);
  }

  /** n + 1 ticks are n ticks followed by one more. */
  lemma {:induction false} TicksSplit(cfg: Config, s: Snapshot, n: nat)
    ensures Ticks(cfg, s, n + 1) == Tick(cfg, Ticks(cfg, s, n))
    decreases n
  {
    if n > 0 {
      TicksSplit(cfg, Tick(cfg, s), n - 1);
    }
  }

  /** A pose is analysed and the rest trigger checked; both keep the
      invariant. */
  lemma PoseStepKeepsValid(cfg: Config, s: Snapshot, p: Pose)
    requires Valid(s)
    ensures Valid(PoseStep(cfg, s, p))
  {
    if p.score >= cfg.minPoseConfidence {
      AnalyzeKeepsValid(s, p, cfg.minPartConfidence);
      CheckRestKeepsValid(cfg, Analyze(s, p, cfg.minPartConfidence));
    }
  }

  lemma {:induction false} FrameKeepsValid(cfg: Config, s: Snapshot, poses: seq<Pose>)
    requires Valid(s)
    ensures Valid(FrameStep(cfg, s, poses))
    decreases |poses|
  {
    if poses != [] {
      var before := poses[..|poses| - 1];
      FrameKeepsValid(cfg, s, before);
      PoseStepKeepsValid(cfg, FrameStep(cfg, s, before), poses[|poses| - 1]);
    }
  }

  lemma StepKeepsValid(cfg: Config, s: Snapshot, e: Event)
    requires Valid(s)
    ensures Valid(Step(cfg, s, e))
  {
    match e
    case FrameEvent(poses) => FrameKeepsValid(cfg, s, poses);
    case SwitchEvent(t) =>
    case TickEvent => TickKeepsValid(cfg, s);
  }

  /** Every state reachable by frames, switches and ticks keeps the invariant:
      the history never holds more than three entries, only s2 and s3 ever
      enter it, and a rest is under way exactly while time remains. */
  lemma {:induction false} RunKeepsValid(cfg: Config, s: Snapshot, events: seq<Event>)
    requires Valid(s)
    ensures Valid(Run(cfg, s, events))
    decreases |events|
  {
    if events != [] {
      StepKeepsValid(cfg, s, events[0]);
      RunKeepsValid(cfg, Step(cfg, s, events[0]), events[1..]);
    }
  }

  /** As written, the set counter never leaves 1: starting a rest and ending
      one both go through switchExerciseType, which resets it. */
  lemma SetCounterStaysAtOne(cfg: Config, events: seq<Event>)
    ensures Run(cfg, Initial(), events).currentSet == 1
    ensures |Run(cfg, Initial(), events).history| <= MaxHistory
    ensures Valid(Run(cfg, Initial(), events))
  {
    RunKeepsValid(cfg, Initial(), events);
  }

  /** A frame in which no pose reaches the pose threshold changes nothing:
      neither the stage, the history, the counters nor the flags. */
  lemma {:induction false} UnconfidentFrameIgnored(cfg: Config, s: Snapshot, poses: seq<Pose>)
    requires forall i :: 0 <= i < |poses| ==> poses[i].score < cfg.minPoseConfidence
    ensures FrameStep(cfg, s, poses) == s
    decreases |poses|
  {
    if poses != [] {
      UnconfidentFrameIgnored(cfg, s, poses[..|poses| - 1]);
    }
  }

  /** While a started rest is under way (exercise type `Rest`), frames change
      nothing at all: classification is suspended until the rest ends or an
      exercise is picked by hand. */
  lemma {:induction false} RestSuspendsAnalysis(cfg: Config, s: Snapshot, poses: seq<Pose>)
    requires s.isResting && s.exerciseType == Rest
    ensures FrameStep(cfg, s, poses) == s
    decreases |poses|
  {
    if poses != [] {
      RestSuspendsAnalysis(cfg, s, poses[..|poses| - 1]);
      RestIgnoresPoses(s, poses[|poses| - 1], cfg.minPartConfidence);
    }
  }

  /** The pose whose repetition brings the count to the reps per set starts
      the rest at once, when no rest is under way. */
  lemma RestStartsWhenSetComplete(cfg: Config, s: Snapshot, p: Pose)
    requires p.score >= cfg.minPoseConfidence && !s.isResting
    requires var a := Analyze(s, p, cfg.minPartConfidence);
             a.correct + a.incorrect >= cfg.repsPerSet
    ensures var r := PoseStep(cfg, s, p);
      r.isResting && r.restRemaining == RestSeconds && r.exerciseType == Rest &&
      r.resumeType == s.exerciseType
  {
    AnalyzeKeepsScheduleFields(s, p, cfg.minPartConfidence);
  }

  /** Between switches the repetition total only grows, by at most one per
      pose; the counters drop only when a rest starts (which switches the
      exercise and zeroes both). */
  lemma CountsOnlyGrow(cfg: Config, s: Snapshot, p: Pose)
    ensures var r := PoseStep(cfg, s, p);
      (r.correct >= s.correct && r.incorrect >= s.incorrect &&
       r.correct + r.incorrect <= s.correct + s.incorrect + 1) ||
      (r.isResting && !s.isResting && r.correct == 0 && r.incorrect == 0)
  {
    if p.score >= cfg.minPoseConfidence {
      RepetitionCounting(s, p, cfg.minPartConfidence);
      AnalyzeKeepsScheduleFields(s, p, cfg.minPartConfidence);
    }
  }
}
