/** The fixed interval workout: one preparation step, then three exercise
    blocks of four work sets each, short rests between sets and a long rest
    after each block (`buildPlan` in app.js). */
module WorkoutPlan {

  datatype StepType = Prepare | Work | Rest

  /** Kind-specific display data: `{}` for preparation, `{set, of}` for a work
      set, `{next}` (the label that follows the rest) for a rest. */
  datatype Meta = NoMeta | SetMeta(setNo: nat, of: nat) | NextMeta(next: string)

  datatype Step = Step(title: string, kind: StepType, durationMs: int, meta: Meta)

  datatype Block = Block(name: string, longRestSec: nat)

  const PrepareLabel: string := "Подготовка"
  const RestLabel: string := "Отдых"
  const CoolDownLabel: string := "Шавасана"
  const FinishLabel: string := "Завершение"

  const PrepareSec: nat := 20
  const WorkSec: nat := 20
  const ShortRestSec: nat := 10
  const SetsPerBlock: nat := 4

  const Blocks: seq<Block> := [
    Block("Прыжки", 40),
    Block("Приседания", 40),
    Block("Бёрпи", 180)
  ]

  /** The `push` helper: durations are given in seconds and stored in milliseconds. */
  function MakeStep(title: string, kind: StepType, durationSec: nat, meta: Meta): Step {
    Step(title, kind, durationSec * 1000, meta)
  }

  /** A pushed duration is a whole number of seconds in milliseconds: it
      converts back to exactly the seconds given, and is positive exactly when
      they are. */
  lemma StepSeconds(title: string, kind: StepType, durationSec: nat, meta: Meta)
    ensures var ms := MakeStep(title, kind, durationSec, meta).durationMs;
      ms % 1000 == 0 && ms / 1000 == durationSec && (ms > 0 <==> durationSec > 0)
  {
  }

  function WorkStep(name: string, setNo: nat): Step {
    MakeStep(name, Work, WorkSec, SetMeta(setNo, SetsPerBlock))
  }

  function ShortRest(name: string): Step {
    MakeStep(RestLabel, Rest, ShortRestSec, NextMeta(name))
  }

  /** The rest closing block `b`: a cool-down before finishing after the last
      block, otherwise an ordinary rest announcing the next block. */
  function LongRest(b: nat): Step
    requires b < |Blocks|
  {
    if b == |Blocks| - 1 then MakeStep(CoolDownLabel, Rest, Blocks[b].longRestSec, NextMeta(FinishLabel))
    else MakeStep(RestLabel, Rest, Blocks[b].longRestSec, NextMeta(Blocks[b + 1].name))
  }

  /** Steps the inner loop has pushed after sets 1..n of a block. */
  function SetSteps(name: string, n: nat): seq<Step>
    requires n <= SetsPerBlock
  {
    if n == 0 then []
    else SetSteps(name, n - 1) + [WorkStep(name, n)] + (if n < SetsPerBlock then [ShortRest(name)] else [])
  }

  function BlockSteps(b: nat): seq<Step>
    requires b < |Blocks|
  {
    SetSteps(Blocks[b].name, SetsPerBlock) + [LongRest(b)]
  }

  /** Steps of the first b blocks. */
  function BlocksUpTo(b: nat): seq<Step>
    requires b <= |Blocks|
  {
    if b == 0 then [] else BlocksUpTo(b - 1) + BlockSteps(b - 1)
  }

  function PrepareStep(): Step {
    MakeStep(PrepareLabel, Prepare, PrepareSec, NoMeta)
  }

  /** The whole plan, as the builder produces it. */
  function Plan(): seq<Step> {
    [PrepareStep()] + BlocksUpTo(|Blocks|)
  }

  /** `buildPlan`: a nested loop pushing onto a growing list. */
  method BuildPlan() returns (steps: seq<Step>)
    ensures steps == Plan()
  {
    steps := [];
    steps := steps + [MakeStep(PrepareLabel, Prepare, 20, NoMeta)];
    var b := 0;
    while b < |Blocks|
      invariant 0 <= b <= |Blocks|
      invariant steps == [PrepareStep()] + BlocksUpTo(b)
    {
      var block := Blocks[b];
      ghost var before := steps;
      var i := 1;
      while i <= 4
        invariant 1 <= i <= 5
        invariant steps == before + SetSteps(block.name, i - 1)
      {
        SetPushed(before, block.name, i);
        steps := steps + [MakeStep(block.name, Work, 20, SetMeta(i, 4))];
        if i < 4 {
          steps := steps + [MakeStep(RestLabel, Rest, 10, NextMeta(block.name))];
        }
        i := i + 1;
      }
      BlockPushed(b);
      var isLastBlock := b == |Blocks| - 1;
      if isLastBlock {
        steps := steps + [MakeStep(CoolDownLabel, Rest, block.longRestSec, NextMeta(FinishLabel))];
      } else {
        steps := steps + [MakeStep(RestLabel, Rest, block.longRestSec, NextMeta(Blocks[b + 1].name))];
      }
      b := b + 1;
    }
  }

  /** One pass of the inner loop appends set i's work step and, before the
      fourth set, its short rest. */
  lemma SetPushed(before: seq<Step>, name: string, i: nat)
    requires 1 <= i <= SetsPerBlock
    ensures i < SetsPerBlock ==>
      before + SetSteps(name, i) == (before + SetSteps(name, i - 1)) + [WorkStep(name, i)] + [ShortRest(name)]
    ensures i == SetsPerBlock ==>
      before + SetSteps(name, i) == (before + SetSteps(name, i - 1)) + [WorkStep(name, i)]
  {
    var done := SetSteps(name, i - 1);
    AppendAssoc(before, done, [WorkStep(name, i)]);
    if i < SetsPerBlock {
      AppendAssoc(before, done + [WorkStep(name, i)], [ShortRest(name)]);
    } else {
      assert SetSteps(name, i) == done + [WorkStep(name, i)];
    }
  }

  /** One pass of the outer loop appends block b's sets and its long rest. */
  lemma BlockPushed(b: nat)
    requires b < |Blocks|
    ensures [PrepareStep()] + BlocksUpTo(b + 1)
      == ([PrepareStep()] + BlocksUpTo(b)) + SetSteps(Blocks[b].name, SetsPerBlock) + [LongRest(b)]
  {
    var before := [PrepareStep()] + BlocksUpTo(b);
    AppendAssoc(before, SetSteps(Blocks[b].name, SetsPerBlock), [LongRest(b)]);
    AppendAssoc([PrepareStep()], BlocksUpTo(b), BlockSteps(b));
  }

  lemma AppendAssoc<T>(a: seq<T>, b: seq<T>, c: seq<T>)
    ensures (a + b) + c == a + (b + c)
  {
  }

  // ---------------------------------------------------------------------------
  // Structure of the plan, step by step.

  /** Position k (0..7) within block b: even positions below 7 are the work sets
      k/2 + 1, odd positions below 7 are short rests, position 7 is the long rest. */
  function BlockStepAt(b: nat, k: nat): Step
    requires b < |Blocks| && k < 8
  {
    if k == 7 then LongRest(b)
    else if k % 2 == 0 then WorkStep(Blocks[b].name, k / 2 + 1)
    else ShortRest(Blocks[b].name)
  }

  lemma {:induction false} SetStepsAt(name: string, n: nat, k: nat)
    requires n <= SetsPerBlock
    ensures |SetSteps(name, n)| == if n < SetsPerBlock then 2 * n else 2 * n - 1
    ensures k < |SetSteps(name, n)| ==>
      SetSteps(name, n)[k] == if k % 2 == 0 then WorkStep(name, k / 2 + 1) else ShortRest(name)
  {
    if n > 0 {
      SetStepsAt(name, n - 1, k);
    }
  }

  lemma {:induction false} BlocksUpToLength(b: nat)
    requires b <= |Blocks|
    ensures |BlocksUpTo(b)| == 8 * b
  {
    if b > 0 {
      BlocksUpToLength(b - 1);
      SetStepsAt(Blocks[b - 1].name, SetsPerBlock, 0);
    }
  }

  lemma BlockStepsAt(b: nat, k: nat)
    requires b < |Blocks| && k < 8
    ensures |BlockSteps(b)| == 8 && BlockSteps(b)[k] == BlockStepAt(b, k)
  {
    SetStepsAt(Blocks[b].name, SetsPerBlock, k);
  }

  lemma {:induction false} BlocksUpToAt(b: nat, j: nat)
    requires b <= |Blocks| && j < 8 * b
    ensures |BlocksUpTo(b)| == 8 * b
    ensures BlocksUpTo(b)[j] == BlockStepAt(j / 8, j % 8)
  {
    BlocksUpToLength(b);
    BlocksUpToLength(b - 1);
    if j < 8 * (b - 1) {
      BlocksUpToAt(b - 1, j);
    } else {
      var k := j - 8 * (b - 1);
      assert j / 8 == b - 1 && j % 8 == k;
      BlockStepsAt(b - 1, k);
    }
  }

  /** The plan has 25 steps: the preparation, then 8 steps per block. */
  lemma PlanAt(n: nat)
    ensures |Plan()| == 25
    ensures n == 0 ==> Plan()[n] == PrepareStep()
    ensures 1 <= n < 25 ==> Plan()[n] == BlockStepAt((n - 1) / 8, (n - 1) % 8)
  {
    var body := BlocksUpTo(|Blocks|);
    BlocksUpToLength(|Blocks|);
    assert Plan() == [PrepareStep()] + body;
    if 1 <= n < 25 {
      BlocksUpToAt(|Blocks|, n - 1);
      assert Plan()[n] == body[n - 1];
    }
  }

  /** The layout `buildPlan` produces: the preparation, then block b's
      position k at index 1 + 8b + k. `Plan()` has it (`PlanLayout`); the
      lemmas below read facts off any plan that has it. */
  ghost predicate Layout(plan: seq<Step>) {
    && |plan| == 25
    && plan[0] == PrepareStep()
    && forall n :: 1 <= n < 25 ==> plan[n] == BlockStepAt((n - 1) / 8, (n - 1) % 8)
  }

  lemma PlanLayout()
    ensures Layout(Plan())
  {
    PlanAt(0);
    forall n | 1 <= n < 25
      ensures Plan()[n] == BlockStepAt((n - 1) / 8, (n - 1) % 8)
    {
      PlanAt(n);
    }
  }

  /** First and last step: 20 s of preparation, 180 s of cool-down before finishing. */
  lemma PlanEnds(plan: seq<Step>)
    requires Layout(plan)
    ensures |plan| == 25
    ensures plan[0] == Step(PrepareLabel, Prepare, 20000, NoMeta)
    ensures plan[24] == Step(CoolDownLabel, Rest, 180000, NextMeta(FinishLabel))
  {
    assert plan[24] == BlockStepAt(2, 7);
  }

  lemma BlockPosition(b: nat, k: nat)
    requires k < 8
    ensures (8 * b + k) / 8 == b && (8 * b + k) % 8 == k
  {
  }

  /** Work set `setNo` (1..4) of block b: 20 s, labelled with the block name. */
  lemma PlanWork(plan: seq<Step>, b: nat, setNo: nat)
    requires Layout(plan) && b < |Blocks| && 1 <= setNo <= 4
    ensures 1 + 8 * b + 2 * (setNo - 1) < |plan|
    ensures plan[1 + 8 * b + 2 * (setNo - 1)] == Step(Blocks[b].name, Work, 20000, SetMeta(setNo, 4))
  {
    var k := 2 * (setNo - 1);
    assert k % 2 == 0 && k / 2 + 1 == setNo;
    assert BlockStepAt(b, k) == WorkStep(Blocks[b].name, setNo);
    BlockPosition(b, k);
    assert plan[1 + 8 * b + k] == BlockStepAt(b, k);
  }

  /** After sets 1-3 (and only those) of block b: a 10 s rest before the same exercise. */
  lemma PlanShortRest(plan: seq<Step>, b: nat, setNo: nat)
    requires Layout(plan) && b < |Blocks| && 1 <= setNo <= 3
    ensures 2 + 8 * b + 2 * (setNo - 1) < |plan|
    ensures plan[2 + 8 * b + 2 * (setNo - 1)] == Step(RestLabel, Rest, 10000, NextMeta(Blocks[b].name))
  {
    var k := 2 * (setNo - 1) + 1;
    assert k % 2 == 1 && k < 7;
    assert BlockStepAt(b, k) == ShortRest(Blocks[b].name);
    BlockPosition(b, k);
    assert plan[1 + 8 * b + k] == BlockStepAt(b, k);
  }

  /** After set 4 of block b: a 40 s rest announcing the next block, or the
      180 s cool-down announcing the finish after the last block. */
  lemma PlanLongRest(plan: seq<Step>, b: nat)
    requires Layout(plan) && b < |Blocks|
    ensures 8 * (b + 1) < |plan|
    ensures b < 2 ==> plan[8 * (b + 1)] == Step(RestLabel, Rest, 40000, NextMeta(Blocks[b + 1].name))
    ensures b == 2 ==> plan[8 * (b + 1)] == Step(CoolDownLabel, Rest, 180000, NextMeta(FinishLabel))
  {
    BlockPosition(b, 7);
    assert plan[1 + 8 * b + 7] == BlockStepAt(b, 7);
  }

  /** Every rest but the final cool-down names, in its `next` meta, the
      exercise of the work step that follows it. */
  lemma RestNamesNext(plan: seq<Step>, n: nat)
    requires Layout(plan) && 0 < n < 24 && plan[n].kind == Rest
    ensures plan[n].meta.NextMeta?
    ensures plan[n + 1].kind == Work && plan[n + 1].title == plan[n].meta.next
  {
    var b, k := (n - 1) / 8, (n - 1) % 8;
    assert plan[n] == BlockStepAt(b, k);
    if k == 7 {
      assert b < 2 && n == 8 * (b + 1) + 0;
      BlockPosition(b + 1, 0);
      assert plan[n + 1] == BlockStepAt(b + 1, 0);
    } else {
      assert k % 2 == 1;
      BlockPosition(b, k + 1);
      assert plan[n + 1] == BlockStepAt(b, k + 1);
    }
  }

  /** Every step lasts a whole, positive number of seconds. */
  lemma PlanDurations(plan: seq<Step>, n: nat)
    requires Layout(plan) && n < |plan|
    ensures plan[n].durationMs > 0 && plan[n].durationMs % 1000 == 0
  {
    if n > 0 {
      BlockStepDuration((n - 1) / 8, (n - 1) % 8);
    }
  }

  lemma BlockStepDuration(b: nat, k: nat)
    requires b < |Blocks| && k < 8
    ensures BlockStepAt(b, k).durationMs > 0 && BlockStepAt(b, k).durationMs % 1000 == 0
  {
    assert Blocks[b].longRestSec > 0;
  }

  predicate WellFormed(plan: seq<Step>) {
    |plan| > 0 && forall n :: 0 <= n < |plan| ==> plan[n].durationMs > 0
  }

  lemma PlanWellFormed()
    ensures WellFormed(Plan())
  {
    PlanLayout();
    LayoutWellFormed(Plan());
  }

  lemma LayoutWellFormed(plan: seq<Step>)
    requires Layout(plan)
    ensures WellFormed(plan)
  {
    forall n | 0 <= n < |plan| ensures plan[n].durationMs > 0 {
      PlanDurations(plan, n);
    }
  }

  // ---------------------------------------------------------------------------
  // Durations.

  /** `reduce((acc, s) => acc + s.durationMs, 0)`. */
  function TotalDuration(steps: seq<Step>): int {
    if steps == [] then 0 else steps[0].durationMs + TotalDuration(steps[1..])
  }

  lemma {:induction false} TotalDurationConcat(a: seq<Step>, b: seq<Step>)
    ensures TotalDuration(a + b) == TotalDuration(a) + TotalDuration(b)
    decreases |a|
  {
    if a == [] {
      assert a + b == b;
    } else {
      assert (a + b)[1..] == a[1..] + b;
      TotalDurationConcat(a[1..], b);
    }
  }

  lemma {:induction false} SetStepsDuration(name: string, n: nat)
    requires n <= SetsPerBlock
    ensures TotalDuration(SetSteps(name, n)) == n * 20000 + (if n < SetsPerBlock then n else n - 1) * 10000
  {
    if n > 0 {
      SetStepsDuration(name, n - 1);
      var w, r := WorkStep(name, n), ShortRest(name);
      if n < SetsPerBlock {
        assert SetSteps(name, n) == SetSteps(name, n - 1) + [w, r];
        assert TotalDuration([w, r]) == 30000 by {
          assert [w, r][1..] == [r];
          assert TotalDuration([r]) == 10000 by { assert [r][1..] == []; }
        }
        TotalDurationConcat(SetSteps(name, n - 1), [w, r]);
      } else {
        assert SetSteps(name, n) == SetSteps(name, n - 1) + [w];
        assert TotalDuration([w]) == 20000 by { assert [w][1..] == []; }
        TotalDurationConcat(SetSteps(name, n - 1), [w]);
      }
    }
  }

  /** The workout lasts 20 + 3 * (4 * 20 + 3 * 10) + 40 + 40 + 180 = 610 seconds. */
  lemma PlanTotal()
    ensures TotalDuration(Plan()) == 610000
  {
    forall b | 0 <= b < |Blocks|
      ensures TotalDuration(BlockSteps(b)) == 110000 + Blocks[b].longRestSec * 1000
    {
      SetStepsDuration(Blocks[b].name, SetsPerBlock);
      TotalDurationConcat(SetSteps(Blocks[b].name, SetsPerBlock), [LongRest(b)]);
    }
    TotalDurationConcat(BlocksUpTo(2), BlockSteps(2));
    TotalDurationConcat(BlocksUpTo(1), BlockSteps(1));
    TotalDurationConcat(BlocksUpTo(0), BlockSteps(0));
    TotalDurationConcat([PrepareStep()], BlocksUpTo(3));
  }
}
