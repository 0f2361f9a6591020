/** What one analysed pose does to the component state: which stage changes
    happen, how the history evolves, when repetitions are counted, and when
    the error and readiness flags move. */
module AnalysisProps {
  import opened Exercise
  import opened Analysis

  /** The stage the current exercise's band selects for a pose. */
  function Selected(s: Snapshot, p: Pose): (r: Option<Stage>)
    ensures r != Some(NoStage)
  {
    StageOf(s.exerciseType, StageAngle(s.exerciseType, p.angles))
  }

  /** The pose closes a repetition: it is tracked, selects s1 while the stage
      is another one, and the history is exactly [s2, s3, s2]. */
  predicate ClosesCycle(s: Snapshot, p: Pose, minPart: real) {
    Tracking(s, p, minPart) && Selected(s, p) == Some(S1) && s.stage != S1 &&
    s.history == Cycle
  }

  /** The readiness flag after a pose, before the stage is looked at. */
  function Ready(s: Snapshot, p: Pose, minPart: real): (r: Snapshot)
    ensures r.readyForm == (s.readyForm ||
              (s.exerciseType == Pushup && PushupGate(p, minPart) && ReadyPosture(p.angles)))
    ensures r.(readyForm := s.readyForm) == s
  {
    if s.exerciseType == Pushup && PushupGate(p, minPart) && ReadyPosture(p.angles)
    then s.(readyForm := true) else s
  }

  /** The stage step shared by the three exercises: enter the selected band,
      then control the history length. */
  function Staged(s: Snapshot, band: Option<Stage>): (r: Snapshot)
    requires band != Some(NoStage)
    ensures r.exerciseType == s.exerciseType && r.readyForm == s.readyForm &&
            r.currentSet == s.currentSet && r.isResting == s.isResting &&
            r.restRemaining == s.restRemaining && r.resumeType == s.resumeType
    ensures var closing := band == Some(S1) && s.stage != S1;
            var closed := CloseCycle(s);
            r.correct == (if closing then closed.correct else s.correct) &&
            r.incorrect == (if closing then closed.incorrect else s.incorrect) &&
            r.error == (if closing then closed.error else s.error)
  {
    TrimHistory(EnterBand(s, band))
  }

  /** The stage step on a history within bounds: nothing happens without a
      new stage; a new s1 closes the cycle; a new s2 or s3 is appended and
      the oldest entry dropped beyond three. */
  lemma StagedEffect(s: Snapshot, band: Option<Stage>)
    requires band != Some(NoStage) && |s.history| <= MaxHistory
    ensures band == None || band == Some(s.stage) ==> Staged(s, band) == s
    ensures band == Some(S1) && s.stage != S1 ==> Staged(s, band) == CloseCycle(s.(stage := S1))
    ensures band.Some? && band.value != S1 && band.value != s.stage ==>
              Staged(s, band) == s.(stage := band.value, history := Trim(s.history + [band.value]))
  {
  }

  /** Every exercise branch is the same three steps: the readiness update, the
      stage step when the pose is tracked, and the error flag raised when a
      form check fires. */
  lemma AnalyzeShape(s: Snapshot, p: Pose, minPart: real)
    ensures Analyze(s, p, minPart) ==
      var ready := Ready(s, p, minPart);
      var staged := if Tracking(s, p, minPart) then Staged(ready, Selected(s, p)) else ready;
      if FormFault(s, p, minPart) then staged.(error := true) else staged
  {
    match s.exerciseType
    case Squat =>
      if SquatGate(p, minPart) {
        var band := SquatStage(p.angles.knee);
        var entered := EnterBand(s, band);
        assert TrimHistory(entered.(error := true)) == TrimHistory(entered).(error := true);
      }
    case Pushup =>
    case BicepCurl =>
    case Rest =>
  }

  /** Analysis only touches the analysis fields: the exercise type, the set
      counter and the rest fields stay as they are. */
  lemma AnalyzeKeepsScheduleFields(s: Snapshot, p: Pose, minPart: real)
    ensures var r := Analyze(s, p, minPart);
      r.exerciseType == s.exerciseType && r.currentSet == s.currentSet &&
      r.isResting == s.isResting && r.restRemaining == s.restRemaining &&
      r.resumeType == s.resumeType
  {
    AnalyzeShape(s, p, minPart);
  }

  /** With the exercise type `Rest` a pose changes nothing. */
  lemma RestIgnoresPoses(s: Snapshot, p: Pose, minPart: real)
    requires s.exerciseType == Rest
    ensures Analyze(s, p, minPart) == s
  {
  }

  /** The stage moves only to the stage a tracked pose selects, and only when
      that stage differs from the current one. A pose failing its gate, one
      whose angle lies between the bands and one selecting the current stage
      keep the stage, the history and both counters. */
  lemma StageChangesOnlyOnNewBand(s: Snapshot, p: Pose, minPart: real)
    requires Valid(s)
    ensures var r := Analyze(s, p, minPart);
      r.stage != s.stage ==>
        Tracking(s, p, minPart) && Selected(s, p) == Some(r.stage)
    ensures var r := Analyze(s, p, minPart);
      (!Tracking(s, p, minPart) || Selected(s, p) == None || Selected(s, p) == Some(s.stage)) ==>
        r.stage == s.stage && r.history == s.history &&
        r.correct == s.correct && r.incorrect == s.incorrect
  {
    AnalyzeShape(s, p, minPart);
    StagedEffect(Ready(s, p, minPart), Selected(s, p));
  }

  /** How the history evolves: it changes only with the stage; entering s1
      empties it, entering s2 or s3 appends that stage and then drops the
      oldest entry if more than three are held. s1 is never appended. */
  lemma HistoryEvolution(s: Snapshot, p: Pose, minPart: real)
    requires Valid(s)
    ensures var r := Analyze(s, p, minPart);
      r.stage == s.stage ==> r.history == s.history
    ensures var r := Analyze(s, p, minPart);
      r.stage != s.stage ==>
        r.stage != NoStage &&
        (r.stage == S1 ==> r.history == []) &&
        (r.stage != S1 ==> r.history == Trim(s.history + [r.stage]))
  {
    AnalyzeShape(s, p, minPart);
    StagedEffect(Ready(s, p, minPart), Selected(s, p));
  }

  /** A repetition is counted exactly when a pose closes the cycle: then one
      counter grows by one, the incorrect one if an error was flagged before
      the pose, and the history is emptied. Otherwise both counters stay. */
  lemma RepetitionCounting(s: Snapshot, p: Pose, minPart: real)
    ensures var r := Analyze(s, p, minPart);
      ClosesCycle(s, p, minPart) ==>
        r.history == [] &&
        r.correct == s.correct + (if s.error then 0 else 1) &&
        r.incorrect == s.incorrect + (if s.error then 1 else 0)
    ensures var r := Analyze(s, p, minPart);
      !ClosesCycle(s, p, minPart) ==> r.correct == s.correct && r.incorrect == s.incorrect
  {
    AnalyzeShape(s, p, minPart);
  }

  /** The error flag after a pose: set when a form check fires during it,
      otherwise kept, except that closing a cycle clears it. So it is raised
      only by a form check and lowered only by a closed cycle. */
  lemma ErrorFlag(s: Snapshot, p: Pose, minPart: real)
    ensures Analyze(s, p, minPart).error <==>
              FormFault(s, p, minPart) || (s.error && !ClosesCycle(s, p, minPart))
  {
    AnalyzeShape(s, p, minPart);
  }

  /** The push-up readiness gate opens once a pose passing the push-up gate
      shows the starting posture, and stays open; no other exercise touches
      it. Until it opens, a push-up pose changes nothing else. */
  lemma Readiness(s: Snapshot, p: Pose, minPart: real)
    ensures Analyze(s, p, minPart).readyForm ==
              (s.readyForm ||
               (s.exerciseType == Pushup && PushupGate(p, minPart) && ReadyPosture(p.angles)))
    ensures s.exerciseType == Pushup && !Analyze(s, p, minPart).readyForm ==>
              Analyze(s, p, minPart) == s
  {
    AnalyzeShape(s, p, minPart);
  }

  /** The analysis keeps the component invariant. */
  lemma AnalyzeKeepsValid(s: Snapshot, p: Pose, minPart: real)
    requires Valid(s)
    ensures Valid(Analyze(s, p, minPart))
  {
    var r := Analyze(s, p, minPart);
    HistoryEvolution(s, p, minPart);
    RepetitionCounting(s, p, minPart);
    AnalyzeKeepsScheduleFields(s, p, minPart);
    if r.stage != s.stage && r.stage != S1 {
      var h := s.history + [r.stage];
      assert forall st :: st in h ==> st == S2 || st == S3;
      assert forall st :: st in Trim(h) ==> st in h;
    }
  }
}
