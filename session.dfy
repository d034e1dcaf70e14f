/** The session controller: the module-level variables of app.js
    (`currentStepIndex`, `state`, `tickEndTimestampMs`, the interval handle,
    `startedAtEpochMs`) become the fields of one `Session` object, and the
    functions that change them become its methods. The wall clock (`Date.now()`)
    is the explicit parameter `now`; the interval timer is the flag `ticking`,
    and its callback is the method `Tick`. What the page shows is kept in
    fields too, and every `setState` and audio cue is appended to `events`. */
module SessionController {
  import opened WorkoutPlan
  import opened Display

  /** The `AppState` values 'initial', 'prepare', 'work', 'rest', 'complete'. */
  datatype AppState = Initial | Preparing | Working | Resting | Complete

  /** An observable effect: a state change (`setState`) or an audio cue. */
  datatype Event = Entered(state: AppState) | Played(cue: Cue)

  function StateFor(kind: StepType): (s: AppState)
    ensures s != Initial && s != Complete
  {
    match kind
    case Prepare => Preparing
    case Work => Working
    case Rest => Resting
  }

  predicate Running(s: AppState) {
    s == Preparing || s == Working || s == Resting
  }

  const InitialTexts: Texts := Texts("Готовы начать?", "Нажмите Старт", "")
  const CompleteTexts: Texts :=
    Texts("Завершение", "Тренировка завершена. Отличная работа!", "Нажмите «Заново», чтобы начать снова")

  function CueEvents(cues: seq<Cue>): (r: seq<Event>)
    ensures |r| == |cues| && forall k :: 0 <= k < |cues| ==> r[k] == Played(cues[k])
  {
    if cues == [] then [] else [Played(cues[0])] + CueEvents(cues[1..])
  }

  /** What moving the index to i publishes: past the end, the Complete state
      and then the long beep; otherwise the step's state and then its entry cue. */
  function EntryEvents(plan: seq<Step>, i: nat): (r: seq<Event>)
    ensures i >= |plan| ==> r == [Entered(Complete), Played(BeepLong)]
    ensures i < |plan| ==> |r| >= 1 && r[0] == Entered(StateFor(plan[i].kind))
  {
    if i >= |plan| then [Entered(Complete), Played(BeepLong)]
    else [Entered(StateFor(plan[i].kind))] + CueEvents(EntryCues(plan[i]))
  }

  class Session {
    const plan: seq<Step>
    const totalDurationMs: int

    var currentStepIndex: int
    var state: AppState
    var tickEndTimestampMs: int
    /** The interval is registered (`tickIntervalId` is not null). */
    var ticking: bool
    /** The step type the running interval's callback captured. */
    var tickStepType: StepType
    var startedAtEpochMs: int

    // What the page shows.
    var overall: real
    var ringRemaining: real
    var timerText: string
    var blinking: bool
    var texts: Texts
    var startHidden: bool
    var restartHidden: bool
    var events: seq<Event>

    ghost predicate PlanOk() {
      WellFormed(plan) && totalDurationMs == TotalDuration(plan)
    }

    /** The controller's invariant: the index stays in [-1, |plan|]; the state
        is Complete exactly when the index is past the end, Initial only at -1,
        and otherwise the kind of the current step; a countdown runs exactly
        while a step runs; the overall bar shows the elapsed fraction. */
    ghost predicate Valid()
      reads this`currentStepIndex, this`state, this`overall, this`ticking, this`tickStepType
    {
      && PlanOk()
      && -1 <= currentStepIndex <= |plan|
      && (state == Initial ==> currentStepIndex == -1 && overall == 0.0)
      && (state == Complete <==> currentStepIndex == |plan|)
      && (state == Complete ==> overall == 1.0)
      && (Running(state) ==>
            && 0 <= currentStepIndex < |plan|
            && state == StateFor(plan[currentStepIndex].kind)
            && overall == Overall(plan, currentStepIndex))
      && (ticking <==> Running(state))
      && (ticking ==> tickStepType == plan[currentStepIndex].kind)
    }

    /** Page load: build the plan, sum its durations and show the initial screen
        (`initUI`). */
    constructor ()
      ensures Valid() && plan == Plan() && totalDurationMs == 610000
      ensures state == Initial && currentStepIndex == -1 && !ticking
      ensures overall == 0.0 && ringRemaining == 1.0 && texts == InitialTexts
      ensures events == [Entered(Initial)]
      ensures !startHidden && restartHidden
    {
      var steps := BuildPlan();
      assert WellFormed(steps) && TotalDuration(steps) == 610000 by {
        PlanWellFormed();
        PlanTotal();
      }
      plan := steps;
      totalDurationMs := TotalDuration(steps);
      currentStepIndex := -1;
      tickEndTimestampMs := 0;
      ticking := false;
      tickStepType := Prepare;
      startedAtEpochMs := 0;
      timerText := "";
      blinking := false;
      startHidden := false;
      restartHidden := true;
      ringRemaining := 1.0;
      overall := 0.0;
      texts := InitialTexts;
      state := Initial;
      events := [Entered(Initial)];
    }

    method SetState(newState: AppState)
      modifies this`state, this`events
      ensures state == newState && events == old(events) + [Entered(newState)]
    {
      state := newState;
      events := events + [Entered(newState)];
    }

    method Play(cue: Cue)
      modifies this`events
      ensures events == old(events) + [Played(cue)]
    {
      events := events + [Played(cue)];
    }

    method StopTick()
      modifies this`ticking
      ensures !ticking
    {
      if ticking {
        ticking := false;
      }
    }

    /** `updateTimerUI`: countdown text, blink flag and ring for the current step. */
    method UpdateTimerUI(remainingMs: int)
      requires PlanOk() && 0 <= currentStepIndex < |plan| && remainingMs >= 0
      modifies this`timerText, this`blinking, this`ringRemaining
      ensures timerText == ClockText(CeilSeconds(remainingMs))
      ensures blinking <==> 0 < remainingMs <= 3000
      ensures ringRemaining == 1.0 - RingProgress(remainingMs, plan[currentStepIndex].durationMs)
      ensures 0.0 <= ringRemaining <= 1.0
    {
      var seconds := CeilSeconds(remainingMs);
      timerText := ClockText(seconds);
      blinking := seconds <= 3 && seconds > 0;
      BlinkWindow(remainingMs);
      var step := plan[currentStepIndex];
      var progress := RingProgress(remainingMs, step.durationMs);
      ringRemaining := 1.0 - progress;
    }

    /** `startTick`: anchor the countdown at `now + durationMs`, show the full
        duration and register the interval. */
    method StartTick(durationMs: int, now: int)
      requires PlanOk() && 0 <= currentStepIndex < |plan| && durationMs == plan[currentStepIndex].durationMs
      modifies this`ticking, this`tickEndTimestampMs, this`tickStepType
      modifies this`timerText, this`blinking, this`ringRemaining
      ensures ticking && tickEndTimestampMs == now + durationMs
      ensures tickStepType == plan[currentStepIndex].kind
      ensures timerText == ClockText(CeilSeconds(durationMs))
      ensures blinking <==> durationMs <= 3000
      ensures ringRemaining == 1.0
    {
      StopTick();
      tickEndTimestampMs := now + durationMs;
      UpdateTimerUI(durationMs);
      tickStepType := plan[currentStepIndex].kind;
      ticking := true;
    }

    /** `completeWorkout`. */
    method CompleteWorkout()
      modifies this`ticking, this`state, this`events, this`ringRemaining, this`overall
      modifies this`texts, this`restartHidden
      ensures !ticking && state == Complete
      ensures ringRemaining == 0.0 && overall == 1.0 && texts == CompleteTexts && !restartHidden
      ensures events == old(events) + [Entered(Complete), Played(BeepLong)]
    {
      StopTick();
      SetState(Complete);
      ringRemaining := 0.0;
      overall := 1.0;
      texts := CompleteTexts;
      restartHidden := false;
      Play(BeepLong);
    }

    /** `advanceStep`: move to the next step, or complete past the last one. */
    method AdvanceStep(now: int)
      requires PlanOk() && -1 <= currentStepIndex < |plan|
      modifies this`currentStepIndex, this`ticking, this`state, this`events, this`ringRemaining
      modifies this`overall, this`texts, this`restartHidden, this`tickEndTimestampMs
      modifies this`tickStepType, this`timerText, this`blinking
      ensures Valid()
      ensures currentStepIndex == old(currentStepIndex) + 1
      ensures events == old(events) + EntryEvents(plan, currentStepIndex)
      ensures currentStepIndex == |plan| ==>
        && state == Complete && !ticking && overall == 1.0 && ringRemaining == 0.0
        && texts == CompleteTexts && !restartHidden
        && timerText == old(timerText) && blinking == old(blinking)
        && tickEndTimestampMs == old(tickEndTimestampMs)
      ensures currentStepIndex < |plan| ==>
        && state == StateFor(plan[currentStepIndex].kind)
        && ticking && tickEndTimestampMs == now + plan[currentStepIndex].durationMs
        && overall == Overall(plan, currentStepIndex)
        && texts == StepTexts(plan, currentStepIndex)
        && timerText == ClockText(CeilSeconds(plan[currentStepIndex].durationMs))
        && ringRemaining == 1.0 && (blinking <==> plan[currentStepIndex].durationMs <= 3000)
        && restartHidden == old(restartHidden)
    {
      currentStepIndex := currentStepIndex + 1;
      if currentStepIndex >= |plan| {
        CompleteWorkout();
        return;
      }
      EnterStep(now);
    }

    /** The part of `advanceStep` that opens step `currentStepIndex`: publish
        the overall progress, texts, state and cue, then start its countdown. */
    method EnterStep(now: int)
      requires PlanOk() && 0 <= currentStepIndex < |plan|
      modifies this`ticking, this`state, this`events, this`ringRemaining
      modifies this`overall, this`texts, this`tickEndTimestampMs
      modifies this`tickStepType, this`timerText, this`blinking
      ensures Valid()
      ensures events == old(events) + EntryEvents(plan, currentStepIndex)
      ensures state == StateFor(plan[currentStepIndex].kind)
      ensures ticking && tickEndTimestampMs == now + plan[currentStepIndex].durationMs
      ensures overall == Overall(plan, currentStepIndex)
      ensures texts == StepTexts(plan, currentStepIndex)
      ensures timerText == ClockText(CeilSeconds(plan[currentStepIndex].durationMs))
      ensures ringRemaining == 1.0 && (blinking <==> plan[currentStepIndex].durationMs <= 3000)
    {
      var step := plan[currentStepIndex];
      var remainingTotalMs := TotalDuration(plan[currentStepIndex..]);
      var elapsedMs := totalDurationMs - remainingTotalMs;
      ElapsedRange(plan, currentStepIndex);
      assert elapsedMs == Elapsed(plan, currentStepIndex);
      overall := (elapsedMs as real) / (totalDurationMs as real);
      ShowStep();
      StartTick(step.durationMs, now);
    }

    /** The texts, state and entry cue of the step just entered. */
    method ShowStep()
      requires 0 <= currentStepIndex < |plan|
      modifies this`texts, this`state, this`events
      ensures texts == StepTexts(plan, currentStepIndex)
      ensures state == StateFor(plan[currentStepIndex].kind)
      ensures events == old(events) + EntryEvents(plan, currentStepIndex)
    {
      var step := plan[currentStepIndex];
      match step.kind {
        case Prepare =>
          texts := Texts("Подготовка", "Подготовка", NextLabelPreview(plan, currentStepIndex));
          SetState(Preparing);
          Play(BeepShort);
          assert CueEvents([BeepShort]) == [Played(BeepShort)];
        case Work =>
          texts := Texts("Упражнение • " + step.title, step.title + " — подход " + SetCounter(step.meta),
                         UpcomingRestPreview(plan, currentStepIndex));
          SetState(Working);
          Play(BeepShort);
          assert CueEvents([BeepShort]) == [Played(BeepShort)];
        case Rest =>
          var isLongRest := step.durationMs > 10 * 1000;
          texts := Texts("Отдых", if isLongRest then "Длинный отдых" else "Короткий отдых",
                         NextLabelPreview(plan, currentStepIndex));
          SetState(Resting);
          if !isLongRest {
            Play(TickSoft);
            assert CueEvents([TickSoft]) == [Played(TickSoft)];
          }
      }
    }

    /** `startWorkout`: restart the plan from its first step at time `now`. */
    method StartWorkout(now: int)
      requires Valid()
      modifies this
      ensures Valid()
      ensures startedAtEpochMs == now && startHidden && restartHidden
      ensures currentStepIndex == 0 && state == StateFor(plan[0].kind) && overall == 0.0
      ensures ticking && tickEndTimestampMs == now + plan[0].durationMs
      ensures texts == StepTexts(plan, 0) && timerText == ClockText(CeilSeconds(plan[0].durationMs))
      ensures ringRemaining == 1.0 && (blinking <==> plan[0].durationMs <= 3000)
      ensures events == old(events) + EntryEvents(plan, 0)
    {
      startedAtEpochMs := now;
      currentStepIndex := -1;
      startHidden := true;
      restartHidden := true;
      AdvanceStep(now);
    }

    /** `resetWorkout`: stop the countdown and show the initial screen. The
        countdown text is left as it was, and the start button stays hidden. */
    method ResetWorkout()
      requires Valid()
      modifies this`ticking, this`ringRemaining, this`overall, this`texts, this`state, this`events
      modifies this`currentStepIndex
      ensures Valid()
      ensures state == Initial && currentStepIndex == -1 && !ticking
      ensures ringRemaining == 1.0 && overall == 0.0 && texts == InitialTexts
      ensures events == old(events) + [Entered(Initial)]
    {
      StopTick();
      ringRemaining := 1.0;
      overall := 0.0;
      texts := InitialTexts;
      SetState(Initial);
      currentStepIndex := -1;
    }

    /** The start button: it starts only from the initial or the completed
        state; pressed during a workout it changes nothing. */
    method StartPressed(now: int)
      requires Valid()
      modifies this
      ensures Valid()
      ensures old(state) == Initial || old(state) == Complete ==>
        && currentStepIndex == 0 && state == StateFor(plan[0].kind)
        && ticking && tickEndTimestampMs == now + plan[0].durationMs
        && startedAtEpochMs == now && startHidden && restartHidden && overall == 0.0
        && texts == StepTexts(plan, 0) && timerText == ClockText(CeilSeconds(plan[0].durationMs))
        && ringRemaining == 1.0 && (blinking <==> plan[0].durationMs <= 3000)
        && events == old(events) + EntryEvents(plan, 0)
      ensures Running(old(state)) ==> unchanged(this)
    {
      if state == Initial || state == Complete {
        StartWorkout(now);
      }
    }

    /** The restart button: reset, then start, whatever the state. */
    method RestartPressed(now: int)
      requires Valid()
      modifies this
      ensures Valid()
      ensures currentStepIndex == 0 && state == StateFor(plan[0].kind)
      ensures ticking && tickEndTimestampMs == now + plan[0].durationMs
      ensures startedAtEpochMs == now && startHidden && restartHidden && overall == 0.0
      ensures texts == StepTexts(plan, 0) && timerText == ClockText(CeilSeconds(plan[0].durationMs))
      ensures ringRemaining == 1.0 && (blinking <==> plan[0].durationMs <= 3000)
      ensures events == old(events) + [Entered(Initial)] + EntryEvents(plan, 0)
    {
      ResetWorkout();
      StartWorkout(now);
    }

    /** One firing of the 100 ms interval at wall-clock time `now`: recompute
        the remaining time from the anchored end, and when it has run out stop
        the interval, play the short beep and advance exactly once. */
    method Tick(now: int)
      requires Valid()
      modifies this`currentStepIndex, this`ticking, this`state, this`events, this`ringRemaining
      modifies this`overall, this`texts, this`restartHidden, this`tickEndTimestampMs
      modifies this`tickStepType, this`timerText, this`blinking
      ensures Valid()
      ensures !old(ticking) ==> unchanged(this)
      ensures old(ticking) && now < old(tickEndTimestampMs) ==>
        && currentStepIndex == old(currentStepIndex) && state == old(state) && ticking
        && tickEndTimestampMs == old(tickEndTimestampMs) && events == old(events) && overall == old(overall)
        && timerText == ClockText(CeilSeconds(Remaining(tickEndTimestampMs, now)))
        && (blinking <==> 0 < Remaining(tickEndTimestampMs, now) <= 3000)
        && ringRemaining == 1.0 - RingProgress(Remaining(tickEndTimestampMs, now), plan[currentStepIndex].durationMs)
        && texts == old(texts) && restartHidden == old(restartHidden) && tickStepType == old(tickStepType)
      ensures old(ticking) && now >= old(tickEndTimestampMs) ==>
        && currentStepIndex == old(currentStepIndex) + 1
        && events == old(events) + [Played(BeepShort)] + EntryEvents(plan, currentStepIndex)
        && (currentStepIndex < |plan| ==>
              && state == StateFor(plan[currentStepIndex].kind)
              && tickEndTimestampMs == now + plan[currentStepIndex].durationMs
              && texts == StepTexts(plan, currentStepIndex)
              && timerText == ClockText(CeilSeconds(plan[currentStepIndex].durationMs))
              && ringRemaining == 1.0 && restartHidden == old(restartHidden)
              && (blinking <==> plan[currentStepIndex].durationMs <= 3000))
        && (currentStepIndex == |plan| ==>
              && timerText == ClockText(0) && !blinking && texts == CompleteTexts
              && ringRemaining == 0.0 && !restartHidden
              && tickEndTimestampMs == old(tickEndTimestampMs))
      ensures old(ticking) ==> old(overall) <= overall
      ensures ticking ==> now < tickEndTimestampMs
    {
      if ticking {
        var remaining := Remaining(tickEndTimestampMs, now);
        UpdateTimerUI(remaining);
        if remaining <= 0 {
          StepElapsed(now);
        }
      }
    }

    /** The countdown of the current step has reached zero at time `now`. */
    method StepElapsed(now: int)
      requires Valid() && ticking && tickEndTimestampMs <= now
      modifies this`currentStepIndex, this`ticking, this`state, this`events, this`ringRemaining
      modifies this`overall, this`texts, this`restartHidden, this`tickEndTimestampMs
      modifies this`tickStepType, this`timerText, this`blinking
      ensures Valid()
      ensures currentStepIndex == old(currentStepIndex) + 1
      ensures events == old(events) + [Played(BeepShort)] + EntryEvents(plan, currentStepIndex)
      ensures currentStepIndex < |plan| ==>
        && state == StateFor(plan[currentStepIndex].kind)
        && ticking && tickEndTimestampMs == now + plan[currentStepIndex].durationMs
        && texts == StepTexts(plan, currentStepIndex)
        && timerText == ClockText(CeilSeconds(plan[currentStepIndex].durationMs))
        && ringRemaining == 1.0 && restartHidden == old(restartHidden)
        && (blinking <==> plan[currentStepIndex].durationMs <= 3000)
      ensures currentStepIndex == |plan| ==>
        && !ticking && timerText == old(timerText) && blinking == old(blinking)
        && tickEndTimestampMs == old(tickEndTimestampMs)
        && texts == CompleteTexts && ringRemaining == 0.0 && !restartHidden
      ensures old(overall) <= overall
    {
      ghost var i := currentStepIndex;
      StopTick();
      if tickStepType == Work || tickStepType == Prepare || tickStepType == Rest {
        Play(BeepShort);
      }
      AdvanceStep(now);
      if currentStepIndex < |plan| {
        OverallMonotone(plan, i, currentStepIndex);
      }
    }

    /** `handleVisibilityChange`: when the page is shown again while a countdown
        runs, redraw it from the anchored end time. It never advances. */
    method VisibilityChanged(hidden: bool, now: int)
      requires Valid()
      modifies this`timerText, this`blinking, this`ringRemaining
      ensures Valid()
      ensures !hidden && ticking ==>
        && timerText == ClockText(CeilSeconds(Remaining(tickEndTimestampMs, now)))
        && (blinking <==> 0 < Remaining(tickEndTimestampMs, now) <= 3000)
        && ringRemaining == 1.0 - RingProgress(Remaining(tickEndTimestampMs, now), plan[currentStepIndex].durationMs)
      ensures hidden || !ticking ==>
        timerText == old(timerText) && blinking == old(blinking) && ringRemaining == old(ringRemaining)
    {
      if hidden {
        return;
      }
      if ticking {
        var remaining := Remaining(tickEndTimestampMs, now);
        UpdateTimerUI(remaining);
      }
    }
  }
}
