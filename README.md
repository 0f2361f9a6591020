# PoseNet exercise analysis engine, in Dafny

This project models the per-frame exercise analysis of the `PoseNet` React
component of BlazePoseExercise (`src/PoseNet/index.jsx`). The component
watches a camera stream and gets poses from BlazePose. It turns the pose angles
into exercise stages: `s1` is extended, `s2` is mid-range and `s3` is deep. It
counts correct and incorrect repetitions of squats, push-ups and bicep curls.
After a set it schedules a 90-second rest.

The model covers:

- **Stage classifier.** Three threshold chains map an angle to a stage. They
  are evaluated first-match, in branch order (`Exercise.SquatStage`,
  `PushupStage`, `CurlStage`). They are shown equal to a declarative table of
  bands, as the thresholds are written, looked up first-match
  (`Exercise.Profile`, `FirstMatch`).
- **Bounded stage history** (`state_sequence`). A new stage `s2` or `s3` is
  pushed. Then one entry is shifted off the front if more than three are held.
- **Repetition validator.** On entry to `s1` the history must be exactly
  `[s2, s3, s2]`. If it is, one repetition is counted: as incorrect when
  `ExerciseError` is set, otherwise as correct. The flag is then cleared. In
  every case the history is emptied.
- **Form checks** that raise `ExerciseError`:
  - squat: too deep;
  - squat: knee past the toes;
  - push-up: hips sagging;
  - bicep curl: upper arm drifting.
- **Push-up readiness gate** (`readyForm`).
- **Exercise switch** (`switchExerciseType`).
- **Rest trigger** (`startRestCountdown`) and the body of its one-second
  interval.
- **Per-pose gate** of the animation-frame loop.

The structure:

- `Analysis` states the engine as functions on a `Snapshot` value of the
  component state.
- `PoseNetComponent.PoseNet` is a class with the component's state fields.
  Its methods update those fields in place. Each method is proved to move the
  state as the matching `Analysis` function says.
- `AnalysisProps`, `ScheduleProps` and `Scenarios` prove what those functions
  promise.

Modelling conventions:

- `setState` and its callbacks are treated as immediate, in-order updates. So
  a `push` from a stage callback happens before the length check of the same
  pose. A `readyForm` set by a pose is seen by that same pose.
- Angles and keypoint scores are `real` inputs supplied by the caller.
- The rest timer exists exactly while `isResting` holds. `Tick` is the
  interval body. Outside a rest it does nothing.
- The exercise type that the timer closure captures is the field
  `restResumeType`.

## Behaviour of the code as written

The model follows the code; these consequences of it are worth knowing.

- **The set counter stays at 1.** Both starting and ending a rest go through
  `switchExerciseType`, which sets `currentSet` back to 1
  (index.jsx:185, 513, 529, 532). So `currentSet` is 1 in every reachable
  state (`ScheduleProps.SetCounterStaysAtOne`).
  - The end-of-rest check therefore always compares 2 with `totalSets`.
  - With `totalSets >= 2` the workout resumes after every rest and never
    finishes.
  - With `totalSets <= 1`, the end of every rest switches to `rest`, so
    analysis is off until an exercise button is pressed.
- **The rest trigger** compares `correctCount + incorrectCount` with
  `repsPerSet`, not with `repsPerSet * currentSet` (index.jsx:507). The
  counters are zeroed at every switch, so this counts per set.
- **The squat depth error** fires above 95 degrees, and only inside the
  `>= 75` band (index.jsx:269).
- **No session result, finished state or feedback messages.** The code
  produces no session result and has no finished state. It keeps no set of
  feedback messages: error text is written straight into DOM elements.
- **No side selection.** The right side is hard-coded (keypoints 24, 26, 28,
  16, 14, 12).
- **An exercise chosen by hand during a rest is analysed.** The rest does not
  block this (index.jsx:553-557). Analysis is off during a rest only because
  the rest switches to the `rest` type.

## Model

| member | source | states |
|---|---|---|
| `Exercise.SquatStage` | src/PoseNet/index.jsx:225-267 | never selects `None`; s1 exactly at or below 32, s2 exactly on [35,65], s3 exactly at or above 75; no stage exactly in the dead zones (32,35) and (65,75), so the stage and history persist there |
| `Exercise.PushupStage` | src/PoseNet/index.jsx:342-386 | never selects `None`; s1 exactly above 160, s2 exactly on (100,145], s3 exactly at or below 90; no stage exactly for arm angles in (90,100] and (145,160] |
| `Exercise.CurlStage` | src/PoseNet/index.jsx:426-471 | s2 exactly on (55,130] (the overlap (55,65) goes to s2 because its condition comes first), s3 exactly at or below 55, none exactly on (130,140) |
| `Exercise.StageOf` | src/PoseNet/index.jsx:208-499 | the `rest` type (default branch) has no stage band; no band selects `None` |
| `Exercise.StageOfIsFirstMatch` | src/PoseNet/index.jsx:225-471 | each exercise's if-chain equals the first band, in written order, of its declarative band table that contains the angle |
| `Exercise.SelectedBandHoldsAngle` | src/PoseNet/index.jsx:225-471 | a selected stage's written band holds the angle and no band checked before it does |
| `Exercise.Abs` | src/PoseNet/index.jsx:292 | the magnitude used by the knee-over-toe check: non-negative and equal to x or -x |
| `Analysis.CloseCycle` | src/PoseNet/index.jsx:227-250 | with history `[s2,s3,s2]`: exactly one counter +1 (incorrect iff `ExerciseError`) and the flag cleared; otherwise counters and flag unchanged; history emptied in both cases; nothing else changes |
| `Analysis.Enter` | src/PoseNet/index.jsx:226-267 | the same stage again changes nothing; a new s2/s3 sets the stage and appends it and changes nothing else; a new s1 is exactly the cycle close (`CloseCycle`) with stage s1, so only history, counters and flag change; the stage becomes the selected one |
| `Analysis.EnterBand` | src/PoseNet/index.jsx:225-267 | an angle between the bands or the current stage again changes nothing; otherwise the stage becomes the selected one; a new s2/s3 is appended to the history and nothing else changes; a new s1 is the cycle close with stage s1: history emptied, total +1 exactly when the history was `[s2,s3,s2]` |
| `Analysis.Trim` | src/PoseNet/index.jsx:279-282 | after a push onto at most 3 entries at most 3 remain; beyond 3 exactly the front (oldest) entry is dropped; otherwise unchanged |
| `Analysis.Switch` | src/PoseNet/index.jsx:181-186 | type set, stage `None`, history empty, both counters 0, error and `readyForm` false, set 1; rest fields untouched |
| `Analysis.Initial` | src/PoseNet/index.jsx:34-46 | the constructor's state; `ScheduleProps.SetCounterStaysAtOne` proves every run from it keeps the invariant `Valid` (history bound, s2/s3 only, rest iff time left, set 1) |
| `Analysis.AnalyzeSquat` | src/PoseNet/index.jsx:209-302 | squat branch; its contract is stated for `Analyze` by `AnalysisProps.AnalyzeShape`, `ErrorFlag`, `RepetitionCounting`, `HistoryEvolution` |
| `Analysis.AnalyzePushup` | src/PoseNet/index.jsx:303-403 | push-up branch; stated by `AnalysisProps.AnalyzeShape`, `Readiness`, `ErrorFlag`, `RepetitionCounting` |
| `Analysis.AnalyzeCurl` | src/PoseNet/index.jsx:404-495 | bicep-curl branch; stated by `AnalysisProps.AnalyzeShape`, `ErrorFlag`, `RepetitionCounting`, `HistoryEvolution` |
| `Analysis.Analyze` | src/PoseNet/index.jsx:188-499 | ExerciseAnalyze; stated by `AnalysisProps.ErrorFlag`, `RepetitionCounting`, `HistoryEvolution`, `Readiness`, `StageChangesOnlyOnNewBand`, `AnalyzeKeepsValid` |
| `Analysis.CheckRest` | src/PoseNet/index.jsx:502-516 | startRestCountdown; stated by `ScheduleProps.CheckRestStartsRest`, `CheckRestKeepsValid` |
| `Analysis.Tick` | src/PoseNet/index.jsx:517-537 | the interval body; stated by `ScheduleProps.TickCountsDown`, `RestCountdown`, `RestEndsOnTime` |
| `Analysis.PoseStep` | src/PoseNet/index.jsx:158-170 | the per-pose gate; stated by `ScheduleProps.PoseStepKeepsValid`, `RestStartsWhenSetComplete`, `CountsOnlyGrow` |
| `Analysis.FrameStep` | src/PoseNet/index.jsx:158-172 | the loop over a frame's poses; stated by `ScheduleProps.FrameKeepsValid`, `UnconfidentFrameIgnored`, `RestSuspendsAnalysis` |
| `AnalysisProps.Ready` | src/PoseNet/index.jsx:337-339 | `readyForm` becomes true exactly when a push-up pose passes its gate with arm > 160, shoulder > 40, hip > 165; nothing else changes |
| `AnalysisProps.Staged` | src/PoseNet/index.jsx:225-282 | the stage step touches counters and flag only by closing a cycle, and never the type, readiness, set or rest fields |
| `AnalysisProps.StagedEffect` | src/PoseNet/index.jsx:225-282 | on a bounded history: no new stage changes nothing, new s1 closes the cycle, new s2/s3 is appended and trimmed |
| `AnalysisProps.AnalyzeShape` | src/PoseNet/index.jsx:208-499 | every exercise branch is: readiness update, stage step when tracked, error raised when a form check fires |
| `AnalysisProps.AnalyzeKeepsScheduleFields` | src/PoseNet/index.jsx:188-499 | analysis never changes the exercise type, the set counter or the rest fields |
| `AnalysisProps.RestIgnoresPoses` | src/PoseNet/index.jsx:496-498 | with type `rest` a pose changes nothing |
| `AnalysisProps.StageChangesOnlyOnNewBand` | src/PoseNet/index.jsx:219-266 | the stage changes only to the stage a tracked pose selects; a failed gate, a dead-zone angle or the current stage keeps stage, history and counters |
| `AnalysisProps.HistoryEvolution` | src/PoseNet/index.jsx:249-282 | history changes only with the stage; entering s1 empties it, entering s2/s3 appends it then trims; s1 is never appended |
| `AnalysisProps.RepetitionCounting` | src/PoseNet/index.jsx:229-249 | a repetition is counted iff the pose enters s1 with history `[s2,s3,s2]`; then exactly one counter +1 chosen by the prior error flag; otherwise both counters unchanged |
| `AnalysisProps.ErrorFlag` | src/PoseNet/index.jsx:269-294 | error after a pose iff a form check fired (depth > 95 in s3, abs(ankle) > 30, push-up hip < 160, curl upper arm > 40) or it was set and no cycle closed |
| `AnalysisProps.Readiness` | src/PoseNet/index.jsx:337-341 | `readyForm` is sticky and opens only on the ready posture; a push-up pose before it opens changes nothing |
| `AnalysisProps.AnalyzeKeepsValid` | src/PoseNet/index.jsx:279-282 | analysis keeps the history at most 3 entries, all s2/s3 |
| `ScheduleProps.SwitchKeepsValid` | src/PoseNet/index.jsx:181-186 | the switch keeps the component invariant |
| `ScheduleProps.CheckRestStartsRest` | src/PoseNet/index.jsx:502-515 | when not resting and total >= repsPerSet: resting, 90 s left, type `rest`, resume type = old type, repetition state cleared; otherwise no change |
| `ScheduleProps.CheckRestKeepsValid` | src/PoseNet/index.jsx:502-515 | the rest trigger keeps the invariant |
| `ScheduleProps.TickCountsDown` | src/PoseNet/index.jsx:517-537 | no rest: no change; otherwise exactly one second off; at 0 the rest ends and the captured type resumes if set + 1 <= totalSets, else `rest`; stage, history and counters reset, error and `readyForm` cleared, set back to 1 |
| `ScheduleProps.TickKeepsValid` | src/PoseNet/index.jsx:517-537 | the timer body keeps the invariant |
| `ScheduleProps.RestCountdown` | src/PoseNet/index.jsx:518 | n ticks before time is up take exactly n seconds off and change nothing else |
| `ScheduleProps.RestEndsOnTime` | src/PoseNet/index.jsx:518-535 | a rest with r seconds left is still under way after fewer than r ticks and over after exactly r |
| `ScheduleProps.PoseStepKeepsValid` | src/PoseNet/index.jsx:158-170 | analysing a pose and checking the rest keeps the invariant |
| `ScheduleProps.FrameKeepsValid` | src/PoseNet/index.jsx:158-172 | a whole frame of poses keeps the invariant |
| `ScheduleProps.StepKeepsValid` | src/PoseNet/index.jsx:158-186 | a frame, a switch or a tick keeps the invariant |
| `ScheduleProps.RunKeepsValid` | src/PoseNet/index.jsx:280-282 | every reachable state has at most 3 history entries, only s2/s3, and a rest exactly while time remains |
| `ScheduleProps.SetCounterStaysAtOne` | src/PoseNet/index.jsx:522-534 | as written, `currentSet` is 1 after any sequence of frames, switches and ticks from the initial state, and every such state keeps the invariant |
| `ScheduleProps.UnconfidentFrameIgnored` | src/PoseNet/index.jsx:158-159 | a frame whose poses all score below `minPoseConfidence` changes nothing |
| `ScheduleProps.RestSuspendsAnalysis` | src/PoseNet/index.jsx:510-513 | during a started rest (type `rest`) frames change nothing |
| `ScheduleProps.RestStartsWhenSetComplete` | src/PoseNet/index.jsx:507-513 | the pose that brings the total to repsPerSet starts the 90 s rest at once and remembers the exercise |
| `ScheduleProps.CountsOnlyGrow` | src/PoseNet/index.jsx:229-249 | per pose the counters never drop and the total grows by at most 1, unless a rest starts and zeroes both |
| `Scenarios.SquatFrames` | src/PoseNet/index.jsx:158-172 | one single-pose frame per given knee angle |
| `Scenarios.RunFrames` | src/PoseNet/index.jsx:158-172 | a confident squat frame entering a new stage before the set is complete moves the state to the push or cycle close it selects, and no rest starts |
| `Scenarios.RunConcat` | src/PoseNet/index.jsx:158-172 | running two event lists one after the other is running their concatenation |
| `Scenarios.SquatFramesConcat` | src/PoseNet/index.jsx:158-172 | the frames of concatenated angle lists are the concatenated frames |
| `Scenarios.SquatDescent` | src/PoseNet/index.jsx:225-271 | from the start, 20, 50 and any angle in the s3 band leave history `[s2,s3]`, with the error flag raised exactly when that angle is over 95 |
| `Scenarios.SquatAscent` | src/PoseNet/index.jsx:225-250 | from the bottom with history `[s2,s3]`, 50 then 20 count one repetition (incorrect exactly when the flag was raised) and clear flag and history |
| `Scenarios.CleanSquatCountsCorrect` | src/PoseNet/index.jsx:225-250 | squat angles 20, 50, 80, 50, 20 give one correct repetition and an empty history |
| `Scenarios.DeepSquatCountsIncorrect` | src/PoseNet/index.jsx:268-271 | the same with 110 in s3 gives one incorrect repetition and clears the flag |
| `Scenarios.ShallowSquatIsDropped` | src/PoseNet/index.jsx:229-249 | 20, 50, 20 (no s3) counts nothing and empties the history |
| `Scenarios.BobbingKeepsThreeStages` | src/PoseNet/index.jsx:279-282 | 50, 80, 50, 80 keeps only the newest three stages `[s3,s2,s3]` |
| `PoseNetComponent.PoseNet.constructor` | src/PoseNet/index.jsx:32-46 | the initial state: squat, stage `None`, empty history, counters 0, set 1, not resting |
| `PoseNetComponent.PoseNet.SwitchExercise` | src/PoseNet/index.jsx:181-186 | the fields become `Analysis.Switch` of the old state; the invariant is kept |
| `PoseNetComponent.PoseNet.CloseCycle` | src/PoseNet/index.jsx:227-250 | the in-place count-and-clear callback makes the fields `Analysis.CloseCycle` of the old state |
| `PoseNetComponent.PoseNet.EnterStage` | src/PoseNet/index.jsx:226-267 | the fields become `Analysis.Enter` of the old state (push, or cycle close) |
| `PoseNetComponent.PoseNet.ControlLength` | src/PoseNet/index.jsx:279-282 | the sequence becomes `Trim` of the old one |
| `PoseNetComponent.PoseNet.AnalyzeSquat` | src/PoseNet/index.jsx:209-302 | the in-place squat branch makes the fields `Analysis.AnalyzeSquat` of the old state |
| `PoseNetComponent.PoseNet.AnalyzePushup` | src/PoseNet/index.jsx:303-403 | the in-place push-up branch makes the fields `Analysis.AnalyzePushup` of the old state |
| `PoseNetComponent.PoseNet.AnalyzeCurl` | src/PoseNet/index.jsx:404-495 | the in-place bicep-curl branch makes the fields `Analysis.AnalyzeCurl` of the old state |
| `PoseNetComponent.PoseNet.ExerciseAnalyze` | src/PoseNet/index.jsx:188-499 | the fields become `Analysis.Analyze` of the old state for the pose; the invariant is kept |
| `PoseNetComponent.PoseNet.CheckRest` | src/PoseNet/index.jsx:502-516 | the fields become `Analysis.CheckRest` of the old state; the invariant is kept |
| `PoseNetComponent.PoseNet.Tick` | src/PoseNet/index.jsx:517-537 | the fields become `Analysis.Tick` of the old state; the invariant is kept |
| `PoseNetComponent.PoseNet.ProcessPose` | src/PoseNet/index.jsx:158-170 | the fields become `Analysis.PoseStep` of the old state; the invariant is kept |
| `PoseNetComponent.PoseNet.Frame` | src/PoseNet/index.jsx:158-172 | looping over the poses gives `Analysis.FrameStep` of the old state; the invariant is kept |

## Left out

- Angle geometry. The `Math.atan2` formulas are floating-point trigonometry
  (index.jsx:221, 290, 317-333, 418-422, 481-484). The angles are inputs.
  For the same reason, the push-up `rightHip` reading the knee keypoint
  (index.jsx:314) is outside the model: it only affects those formulas.
- Detector creation, camera set-up and the `loading` flag
  (index.jsx:57-109). These are library calls and I/O.
- Rendering. This covers canvas drawing, keypoint and skeleton drawing,
  `render`, the feedback texts written into DOM elements, and `console.log`.
- Missing feedback elements. `render` creates no `#feedback` or
  `#squatDepth` element; the model assumes the page supplies both. Without
  them the `innerText` writes (index.jsx:272, 275, 295, 298, 390, 394, 488,
  492) throw, which would stop the pose part-way through its branch and end
  the frame's loop.
- Real scheduling. `requestAnimationFrame` and `setInterval` are modelled as
  explicit `Frame` and `Tick` calls. The asynchrony and batching of
  `setState` are not modelled.
- `correctSquatCount` and `incorrectSquatCount`. They are written but never
  read (index.jsx:515, 533).
- JavaScript number limits. The counters are unbounded naturals, and reals
  stand in for doubles.
- The case of more than one rest timer. It cannot arise: a new timer needs
  `!isResting`, and the old timer clears `isResting` only when it stops
  itself. The model therefore ties the timer to `isResting`.
