/** Whole sessions driven through the controller's public operations, with the
    wall clock supplied by the caller. */
module Scenarios {
  import opened WorkoutPlan
  import opened Display
  import opened SessionController

  /** A tick that arrives 50 ms after the preparation countdown has run out
      advances to the first work set exactly once: a second tick at the same
      instant finds the new countdown running and leaves the index alone. */
  method LateTick(t0: int) returns (afterFirst: int, afterSecond: int, firstState: AppState)
    ensures afterFirst == 1 && afterSecond == 1 && firstState == Working
  {
    var s := new Session();
    PlanLayout();
    PlanEnds(s.plan);
    s.StartPressed(t0);
    s.Tick(t0 + 20050);
    afterFirst := s.currentStepIndex;
    firstState := s.state;
    PlanWork(s.plan, 0, 1);
    s.Tick(t0 + 20050);
    afterSecond := s.currentStepIndex;
  }

  /** Letting every countdown of a started session run out on time: the
      session completes after exactly one elapsed countdown per step, and the
      last one ends the plan's total duration after the start. */
  method RunToEnd(s: Session, t0: int) returns (countdowns: nat, finishedAt: int)
    requires s.Valid() && s.currentStepIndex == 0 && s.ticking
    requires s.tickEndTimestampMs == t0 + s.plan[0].durationMs
    modifies s
    ensures s.Valid() && s.state == Complete
    ensures countdowns == |s.plan| && finishedAt == t0 + TotalDuration(s.plan)
  {
    ElapsedStep(s.plan, 0);
    ElapsedRange(s.plan, 0);
    countdowns := 0;
    var now := t0;
    while s.state != Complete
      invariant s.Valid()
      invariant 0 <= s.currentStepIndex <= |s.plan| && countdowns == s.currentStepIndex
      invariant s.state != Complete ==>
        s.ticking && s.tickEndTimestampMs == t0 + Elapsed(s.plan, s.currentStepIndex + 1)
      invariant s.state == Complete ==> now == t0 + Elapsed(s.plan, |s.plan|)
      decreases |s.plan| - s.currentStepIndex
    {
      now := s.tickEndTimestampMs;
      Expire(s, now);
      countdowns := countdowns + 1;
      if s.currentStepIndex < |s.plan| {
        ElapsedStep(s.plan, s.currentStepIndex);
      }
    }
    finishedAt := now;
    assert s.plan[|s.plan|..] == [];
  }

  /** A tick exactly when the running countdown ends moves to the next step
      and, unless that completes the workout, anchors its countdown at `now`. */
  method Expire(s: Session, now: int)
    requires s.Valid() && s.ticking && s.tickEndTimestampMs == now
    modifies s
    ensures s.Valid() && s.currentStepIndex == old(s.currentStepIndex) + 1
    ensures s.currentStepIndex < |s.plan| ==>
      s.ticking && s.tickEndTimestampMs == now + s.plan[s.currentStepIndex].durationMs
  {
    s.Tick(now);
  }

  /** The whole workout with on-time ticks: 25 countdowns, finished 610 s
      after the start button was pressed. */
  method RunWholeWorkout(t0: int) returns (countdowns: nat, finishedAt: int, finalState: AppState)
    ensures countdowns == 25 && finishedAt == t0 + 610000 && finalState == Complete
  {
    var s := new Session();
    PlanLayout();
    PlanEnds(s.plan);
    s.StartPressed(t0);
    countdowns, finishedAt := RunToEnd(s, t0);
    finalState := s.state;
  }
}
