# Tabata Coach — session model

A Dafny model of the core of the Tabata Coach web app (`app.js`): the
workout plan it builds once at page load, and the session controller that walks
through that plan with a wall-clock countdown.

- `decimal.dfy` (`Decimal`): `String(n)` and `padStart(2, '0')` for
  non-negative integers, with the value a digit string denotes.
- `plan.dfy` (`WorkoutPlan`): the step records and `buildPlan`. The plan is
  a 20 s preparation, then three blocks ("Прыжки", "Приседания", "Бёрпи").
  Each block has four 20 s work sets with a 10 s rest between sets, and ends
  with a long rest: 40 s, 40 s, and a 180 s "Шавасана" after the last block.
  `BuildPlan` is the source's nested loop, proved equal to the closed
  description `Plan()`. `PlanLayout` shows that `Plan()` has the builder's
  layout (`Layout`: 25 steps, position k of block b at index 1 + 8b + k). The
  per-index lemmas (`PlanEnds`, `PlanWork`, the rests, the durations, and the
  screens in `display.dfy`) take any plan with that layout, so they hold of
  `Plan()`. `PlanTotal` gives 610000 ms in total.
- `display.dfy` (`Display`): what the page derives from the plan, the
  step index and the remaining milliseconds:
  - the `mm:ss` countdown text and the blink flag for the last three seconds;
  - the ring fraction and the overall progress fraction;
  - the 10 s long/short rest threshold;
  - the two "next" previews, the stage texts and the entry audio cue.
- `session.dfy` (`SessionController`): the controller as a class `Session`.
  - The module-level variables of `app.js` are its fields, and `advanceStep`,
    `startWorkout`, `resetWorkout`, `completeWorkout`, `startTick`,
    `updateTimerUI`, the interval callback and `handleVisibilityChange` are
    its methods.
  - The button handlers are `StartPressed` (the guard) and `RestartPressed`.
  - Every `setState` and audio cue is appended to the `events` log, so
    contracts can state the order in which they happen.
  - `Valid()` is the invariant every public operation keeps:
    - the index stays in [-1, 25];
    - the state is Complete exactly past the end;
    - a countdown runs exactly while a step runs;
    - the overall bar shows the elapsed fraction of the total duration.
- `scenarios.dfy` (`Scenarios`): whole sessions driven through the public
  operations. A late tick advances exactly once. Ticks that arrive on time run
  the workout to completion after 25 countdowns and 610 s.

The wall clock (`Date.now()`) is the parameter `now`. The 100 ms interval is
the flag `ticking`, and its callback is `Session.Tick`, which a caller invokes
at whatever times it likes.

## Model

| member | source | states |
|---|---|---|
| WorkoutPlan.BuildPlan | app.js:74-106 | the steps pushed by the nested block/set loop are exactly the plan `Plan()` |
| WorkoutPlan.StepSeconds | app.js:76-78 | a pushed duration in ms is a whole number of seconds that converts back to exactly the seconds pushed, and is positive exactly when they are |
| WorkoutPlan.PlanAt | app.js:81-102 | the plan has 25 steps; step 0 is the preparation, step n ≥ 1 is position (n-1) mod 8 of block (n-1) div 8 |
| WorkoutPlan.PlanLayout | app.js:81-102 | the plan has the builder's layout: 25 steps, the preparation first, then position k of block b at index 1 + 8b + k |
| WorkoutPlan.PlanEnds | app.js:81-98 | the first step is the 20 s preparation; the last (index 24) is the 180 s "Шавасана" rest announcing "Завершение" |
| WorkoutPlan.PlanWork | app.js:91-92 | set s (1..4) of block b sits at index 1 + 8b + 2(s-1), a 20 s work step named after the block with meta {set: s, of: 4} |
| WorkoutPlan.PlanShortRest | app.js:93 | after each of sets 1-3 comes a 10 s "Отдых" rest whose meta names the block (the step after set 4 is the long rest, by `PlanLongRest`) |
| WorkoutPlan.PlanLongRest | app.js:95-101 | each block ends at index 8(b+1) with its long rest: 40 s announcing the next block, or 180 s "Шавасана" after the last block |
| WorkoutPlan.RestNamesNext | app.js:92-100 | every rest before the cool-down records in its `next` meta the name of the exercise whose work set follows it |
| WorkoutPlan.PlanDurations | app.js:77 | every step lasts a positive whole number of seconds |
| WorkoutPlan.PlanWellFormed | app.js:74-106 | the plan is non-empty and every step has a positive duration |
| WorkoutPlan.LayoutWellFormed | app.js:74-106 | any plan with the builder's layout is non-empty with positive durations |
| WorkoutPlan.SetStepsAt | app.js:91-94 | the set loop emits 2n steps for n < 4 sets and 7 for all four, alternating work and short rest |
| WorkoutPlan.BlocksUpToAt | app.js:89-102 | after b blocks the plan body has 8b steps, step j being position j mod 8 of block j div 8 |
| WorkoutPlan.TotalDurationConcat | app.js:33 | the summed duration of two step lists joined is the sum of their sums |
| WorkoutPlan.SetStepsDuration | app.js:91-94 | n work sets of a block last 20 s each plus 10 s for each rest between them |
| WorkoutPlan.PlanTotal | app.js:33 | `totalDurationMs`, the sum of all step durations, is 610000 |
| Decimal.ToDecimal | app.js:204-205 | `String(n)` is a non-empty digit string, one digit exactly below 10, two digits from 10 to 99, and never starts with 0 from 10 on |
| Decimal.ValueOfToDecimal | app.js:204-205 | the digits written for n denote n |
| Decimal.Pad2 | app.js:204-205 | `padStart(2,'0')` gives at least two digits (exactly two below 100) that still denote n |
| Display.Remaining | app.js:186 | `max(0, end - now)` is zero exactly once `now` reaches the end, and otherwise is the distance to it |
| Display.CeilSeconds | app.js:203 | the shown seconds are the least whole number of seconds covering the remaining ms |
| Display.ClockTextReadsBack | app.js:204-205 | the countdown text is `mm:ss` (the under-a-minute `00:ss` case agrees), has 5 characters below 100 minutes, and reads back as the seconds it shows |
| Display.BlinkWindow | app.js:208-212 | the timer blinks exactly while 0 < remaining ≤ 3000 ms |
| Display.RingProgress | app.js:214-215 | ring progress is clamped to [0,1]: 1 when nothing remains, 0 when the whole duration remains |
| Display.RingProgressMonotone | app.js:215 | less time remaining never means less ring progress |
| Display.PlanRestClassification | app.js:148 | in the plan a rest is long (> 10 s) exactly when it ends a block, i.e. at an index divisible by 8 |
| Display.NextLabelPreview | app.js:158-165 | the "next" preview is empty exactly when no step follows (what a rest screen's preview says is stated by `PlanRestTexts`) |
| Display.UpcomingRestPreview | app.js:167-175 | the upcoming-rest preview is empty exactly when no step follows; which rest it announces is stated by `RestAnnounced` and `RestPreviewAgrees` |
| Display.RestPreviewAgrees | app.js:148-172 | a work set announces a long rest exactly when that rest, once entered, is titled "Длинный отдых" and plays no tick, and a short one exactly when it is titled "Короткий отдых": one 10 s threshold for both |
| Display.PlanWorkPreviews | app.js:143-175 | in the plan, sets 1-3 announce "После: короткий отдых" and set 4 "После: длинный отдых" |
| Display.WorkStepTexts | app.js:143-144 | a work step with set s of 4 shows "Упражнение • name", "name — подход s/4" and the upcoming-rest preview |
| Display.PlanPrepareTexts | app.js:139-140 | the preparation screen of the plan reads "Подготовка" twice and announces "Дальше: Прыжки" |
| Display.PlanWorkTexts | app.js:143-144 | in the plan, set s of block b shows the block's name, the counter "s/4", and announces the short rest for sets 1-3 and the long rest for set 4 |
| Display.PlanRestTexts | app.js:147-149 | in the plan every rest screen has stage "Отдых", titled "Длинный отдых" at steps 8, 16, 24 and "Короткий отдых" elsewhere; before the cool-down its "next" line reads "Дальше: " followed by the exercise recorded in the rest's `next` meta, and after the cool-down it is empty |
| Display.EntryCues | app.js:139-152 | preparation and work beep short; a rest plays a soft tick exactly when it lasts ≤ 10 s and nothing otherwise |
| Display.ElapsedIsPrefix | app.js:132-135 | total minus the remaining-from-i sum equals the summed durations of the steps before i |
| Display.ElapsedStep | app.js:132-135 | moving one step on adds exactly that step's duration to the elapsed time |
| Display.ElapsedRange | app.js:132-136 | elapsed time starts at 0, stays within the positive total, and is below it while a step remains |
| Display.ElapsedMonotone | app.js:132-135 | elapsed time strictly increases with the step index |
| Display.Overall | app.js:132-136 | overall progress lies in [0,1], is 0 at the first step and below 1 while a step remains |
| Display.OverallMonotone | app.js:132-136 | overall progress never decreases as the index advances |
| SessionController.CueEvents | app.js:142-151 | cues are logged one event per cue, in order |
| SessionController.EntryEvents | app.js:125-152 | entering a step logs its state first; past the end, Complete then the long beep |
| SessionController.Session.constructor | app.js:53-58 | page load builds the 25-step, 610000 ms plan and shows the initial screen in state Initial with index -1 |
| SessionController.Session.UpdateTimerUI | app.js:202-217 | timer text is `ClockText(ceil(ms/1000))`, blinking iff 0 < ms ≤ 3000, ring = 1 - clamped progress |
| SessionController.Session.StartTick | app.js:177-183 | the countdown is anchored to end at now + duration, shows the full duration with a full ring, and captures the step type |
| SessionController.Session.CompleteWorkout | app.js:260-268 | stops the countdown, state Complete, ring 0, overall 1, completion texts, restart shown, logs Complete then the long beep |
| SessionController.Session.AdvanceStep | app.js:125-156 | the index grows by exactly 1; past the end the workout completes, otherwise the new step's state, texts, overall fraction, full timer text, full ring, blink flag (on iff the step lasts ≤ 3 s), countdown and cue are published; at completion the timer text, blink flag and end time are left as they were; `Valid()` holds after |
| SessionController.Session.EnterStep | app.js:131-155 | overall = elapsed/total, the step's texts, state and cue, then a countdown of the step's duration with full timer text, full ring and the blink flag on iff it lasts ≤ 3 s |
| SessionController.Session.ShowStep | app.js:138-152 | texts, state and entry cue follow the step type, state logged before the cue |
| SessionController.Session.StartWorkout | app.js:108-114 | records the start time, hides both buttons, and enters step 0 from index -1: overall 0, step 0's state, texts, full timer text, full ring and blink flag (off unless step 0 lasts ≤ 3 s), and a countdown anchored at now + its duration |
| SessionController.Session.ResetWorkout | app.js:116-123 | stops the countdown and restores the initial state, texts, ring 1 and overall 0 with index -1 |
| SessionController.Session.StartPressed | app.js:61-65 | from Initial or Complete it starts at step 0 exactly as StartWorkout does (start time, hidden buttons, step 0's state, texts, timer, ring, blink flag, countdown, events); while a step runs it changes nothing |
| SessionController.Session.RestartPressed | app.js:66-69 | from any state: logs Initial, then restarts at step 0 with the start time, hidden buttons, step 0's state, texts, timer, ring, blink flag and a fresh countdown |
| SessionController.Session.Tick | app.js:184-195 | without a countdown nothing changes; before the end only the timer text, blink flag and ring are redrawn (index, state, texts, events, end time, buttons unchanged); at or after the end exactly one advance happens after a short beep, publishing the next step's state, texts, timer, ring, blink flag and countdown, or the completion screen with timer 00:00, blink off and the end time kept; overall never decreases; a running countdown always ends in the future |
| SessionController.Session.StepElapsed | app.js:188-194 | stop, short beep, advance by exactly one: the next step's state, texts, timer, ring, blink flag and countdown, or past the end the completion screen with timer text, blink flag and end time unchanged; overall does not decrease |
| SessionController.Session.StopTick | app.js:198-200 | afterwards no interval is registered, whether one was or not |
| SessionController.Session.SetState | app.js:248-249 | the state becomes the given one and exactly that state change is logged |
| SessionController.Session.Play | app.js:142-151 | exactly the given audio cue is appended to the event log |
| SessionController.Session.VisibilityChanged | app.js:270-276 | on becoming visible with a countdown running the display is redrawn from the anchored end; otherwise nothing changes; it never advances |
| Scenarios.LateTick | app.js:184-195 | a tick 50 ms late advances to the first work set once; a second tick at the same time does not advance again |
| Scenarios.Expire | app.js:184-194 | a tick exactly at the end of the running countdown advances by one step and anchors the next countdown at that instant plus its duration |
| Scenarios.RunToEnd | app.js:184-195 | on-time ticks complete any well-formed plan after one countdown per step, at start + total duration |
| Scenarios.RunWholeWorkout | app.js:61-65 | the full workout completes after 25 countdowns, 610000 ms after start |

## Left out

- `script.js` is not part of this model. It is a separate click animation of
  floating hearts on the page, unrelated to the timer.
- Audio synthesis (`createAudio`, oscillators, the audio context) is left out.
  Cues are the abstract events `BeepShort`, `BeepLong` and `TickSoft` in the
  event log.
- `setupTelegram`, `animateSwap` and the CSS state classes are left out: they
  are platform and presentation code. Texts and state are kept as values.
- `updateRing` and `updateOverall` are left out below the fraction they
  receive. The stroke offset `2π·98·frac` and the width `floor(frac·100)%` are
  floating-point presentation. The model keeps the exact fractions as `real`.
- Timers are not modelled. `Date.now()` is the parameter `now`, and the
  interval is the flag `ticking`. One call chain uses one `now`, where the
  source reads the clock again in `startTick`. Nothing constrains when `Tick`
  is called.
- The `beforeunload` handler, which only stops the interval, is left out.
- Session.UpdateTimerUI: requires a valid step index. The source's fallback
  `workoutPlan[currentStepIndex] || { durationMs: remainingMs }` is never
  reached, because every caller runs with a current step.
- The initial timer text and button visibility come from the page markup,
  which is not part of this model. The constructor starts with an empty timer
  text, the start button shown and the restart button hidden.
- Steps pushed without meta (`meta={}`) carry `NoMeta`. A work step's counter
  would then read `undefined/undefined`. This is modelled in `SetCounter`, but
  the plan never has such a work step.
- Session.ResetWorkout: as `resetWorkout` (app.js:116-123) is written, reset
  does not show the start button again and does not touch the countdown text
  or the blink flag; only `completeWorkout` shows a button again (the restart
  button, app.js:266). After
  completion the start button therefore stays hidden, and only restart is
  offered.
