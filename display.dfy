/** What the session publishes while a step runs: the countdown text, the
    blink flag and the ring fraction (`updateTimerUI`), the overall progress
    (`advanceStep`), the long/short rest rule and the "what comes next"
    previews. All of it is computed from the plan, the step index and the
    remaining milliseconds. */
module Display {
  import opened WorkoutPlan
  import opened Decimal

  // ---------------------------------------------------------------------------
  // Countdown text and blink flag.

  /** `Math.max(0, endMs - now)`: what is left of a countdown anchored to end
      at `endMs`, read at wall-clock time `now`. */
  function Remaining(endMs: int, now: int): (r: nat)
    ensures r == 0 <==> now >= endMs
    ensures r > 0 ==> now + r == endMs
  {
    if endMs - now > 0 then endMs - now else 0
  }

  /** `Math.ceil(remainingMs / 1000)` for a non-negative integer. */
  function CeilSeconds(remainingMs: nat): (s: nat)
    ensures s * 1000 >= remainingMs
    ensures s > 0 ==> (s - 1) * 1000 < remainingMs
  {
    (remainingMs + 999) / 1000
  }

  /** The countdown text: `00:ss` under a minute, otherwise `mm:ss`, each part
      left-padded to two digits. */
  function ClockText(seconds: nat): string {
    if seconds < 60 then "00:" + Pad2(seconds)
    else Pad2(seconds / 60) + ":" + Pad2(seconds % 60)
  }

  datatype Option<T> = None | Some(value: T)

  /** Reads a countdown text back as seconds: the digits before the last three
      characters are minutes, the last two are seconds. */
  function ClockSeconds(text: string): (r: Option<nat>) {
    if |text| < 5 || text[|text| - 3] != ':' then None
    else ClockFields(text[..|text| - 3], text[|text| - 2..])
  }

  function ClockFields(minutes: string, secs: string): Option<nat> {
    if IsDigits(minutes) && IsDigits(secs) then Some(Value(minutes) * 60 + Value(secs)) else None
  }

  /** The countdown text is `mm:ss` with a colon before the last two digits, and
      it denotes exactly the number of seconds it was made from. The special
      case below one minute agrees with the general `mm:ss` rule. */
  lemma ClockTextReadsBack(seconds: nat)
    ensures ClockText(seconds) == Pad2(seconds / 60) + ":" + Pad2(seconds % 60)
    ensures ClockSeconds(ClockText(seconds)) == Some(seconds)
    ensures seconds < 6000 ==> |ClockText(seconds)| == 5
  {
    if seconds < 60 {
      assert seconds / 60 == 0 && seconds % 60 == seconds;
      PadZero();
    }
    ClockPartsRead(Pad2(seconds / 60), Pad2(seconds % 60));
  }

  lemma PadZero()
    ensures Pad2(0) == "00"
  {
    assert ToDecimal(0) == "0";
  }

  /** `m:ss` reads back as m minutes and ss seconds. */
  lemma ClockPartsRead(m: string, s: string)
    requires IsDigits(m) && IsDigits(s) && |m| >= 2 && |s| == 2
    ensures ClockSeconds(m + ":" + s) == Some(Value(m) * 60 + Value(s))
  {
    ClockParts(m, s);
  }

  /** The minutes and seconds can be cut back out of `m:ss`. */
  lemma ClockParts(m: string, s: string)
    requires |s| == 2
    ensures var t := m + ":" + s;
      |t| >= 3 && t[..|t| - 3] == m && t[|t| - 2..] == s && t[|t| - 3] == ':'
  {
    var t := m + ":" + s;
    assert t[..|t| - 3] == m;
    assert t[|t| - 2..] == s;
  }

  /** The blink flag of the last three seconds. */
  function Blink(seconds: nat): bool {
    seconds <= 3 && seconds > 0
  }

  /** Blinking covers exactly the remaining times 1..3000 ms. */
  lemma BlinkWindow(remainingMs: nat)
    ensures Blink(CeilSeconds(remainingMs)) <==> 0 < remainingMs <= 3000
  {
  }

  // ---------------------------------------------------------------------------
  // Ring progress.

  function Clamp01(x: real): real {
    if x < 0.0 then 0.0 else if x > 1.0 then 1.0 else x
  }

  /** `max(0, min(1, 1 - remaining / duration))`: the elapsed fraction of the step. */
  function RingProgress(remainingMs: int, durationMs: int): (p: real)
    requires durationMs > 0
    ensures 0.0 <= p <= 1.0
    ensures remainingMs <= 0 ==> p == 1.0
    ensures remainingMs >= durationMs ==> p == 0.0
  {
    Clamp01(1.0 - (remainingMs as real) / (durationMs as real))
  }

  /** Less time remaining never shows less progress. */
  lemma RingProgressMonotone(r1: int, r2: int, durationMs: int)
    requires durationMs > 0 && r1 <= r2
    ensures RingProgress(r2, durationMs) <= RingProgress(r1, durationMs)
  {
    var d := durationMs as real;
    assert (r1 as real) / d <= (r2 as real) / d by {
      assert (r2 as real) / d - (r1 as real) / d == ((r2 - r1) as real) / d;
    }
  }

  // ---------------------------------------------------------------------------
  // Rest classification and previews.

  /** A rest is long when it lasts more than ten seconds. */
  function IsLongRest(durationMs: int): bool {
    durationMs > 10 * 1000
  }

  lemma BlockRestLength(b: nat, k: nat)
    requires b < |Blocks| && k < 8 && BlockStepAt(b, k).kind == Rest
    ensures IsLongRest(BlockStepAt(b, k).durationMs) <==> k == 7
  {
  }

  lemma EndOfBlock(b: nat, k: nat)
    requires k < 8
    ensures (8 * b + k + 1) % 8 == 0 <==> k == 7
  {
    if k == 7 {
      BlockPosition(b + 1, 0);
    } else {
      BlockPosition(b, k + 1);
    }
  }

  /** In a plan laid out as `buildPlan` lays it out (`Plan()` is, by
      `PlanLayout`), a rest is long exactly when it closes a block (steps 8, 16
      and 24); the rests between sets are short. */
  lemma PlanRestClassification(plan: seq<Step>, n: nat)
    requires Layout(plan) && n < |plan| && plan[n].kind == Rest
    ensures IsLongRest(plan[n].durationMs) <==> n % 8 == 0
  {
    if n > 0 {
      var b, k := (n - 1) / 8, (n - 1) % 8;
      BlockRestLength(b, k);
      EndOfBlock(b, k);
    }
  }

  /** "Next: …" text naming the category of the step after index i; empty when
      there is none. */
  function NextLabelPreview(plan: seq<Step>, i: nat): (r: string)
    ensures r == "" <==> i + 1 >= |plan|
  {
    if i + 1 >= |plan| then ""
    else
      var next := plan[i + 1];
      match next.kind
      case Work => "Дальше: " + next.title
      case Rest => "Дальше: отдых"
      case Prepare => "Дальше: подготовка"
  }

  /** During a work set: announces whether the following rest is long or short,
      and otherwise falls back to `NextLabelPreview`. */
  function UpcomingRestPreview(plan: seq<Step>, i: nat): (r: string)
    ensures r == "" <==> i + 1 >= |plan|
  {
    if i + 1 >= |plan| then ""
    else
      var next := plan[i + 1];
      if next.kind == Rest then
        if IsLongRest(next.durationMs) then "После: длинный отдых" else "После: короткий отдых"
      else NextLabelPreview(plan, i)
  }

  /** In the `buildPlan` layout, sets 1-3 of a block announce a short rest and set 4 a long one. */
  lemma PlanWorkPreviews(plan: seq<Step>, b: nat, setNo: nat)
    requires Layout(plan) && b < |Blocks| && 1 <= setNo <= 4
    ensures var n := 1 + 8 * b + 2 * (setNo - 1);
      && n < |plan| && plan[n].kind == Work && plan[n].meta == SetMeta(setNo, 4)
      && UpcomingRestPreview(plan, n) ==
           if setNo == 4 then "После: длинный отдых" else "После: короткий отдых"
  {
    var n := 1 + 8 * b + 2 * (setNo - 1);
    PlanWork(plan, b, setNo);
    if setNo < 4 {
      PlanShortRest(plan, b, setNo);
    } else {
      PlanLongRest(plan, b);
    }
    RestAnnounced(plan, n, setNo == 4);
  }

  /** A work step followed by a rest announces it as long or short. */
  lemma RestAnnounced(plan: seq<Step>, n: nat, long: bool)
    requires n + 1 < |plan| && plan[n + 1].kind == Rest && (plan[n + 1].durationMs > 10000 <==> long)
    ensures UpcomingRestPreview(plan, n) == if long then "После: длинный отдых" else "После: короткий отдых"
  {
  }

  // ---------------------------------------------------------------------------
  // Texts and cues on entering a step.

  datatype Cue = BeepShort | BeepLong | TickSoft

  /** Stage, current-exercise and next-step texts shown while step i runs. */
  datatype Texts = Texts(stage: string, current: string, next: string)

  function SetCounter(meta: Meta): string {
    match meta
    case SetMeta(s, of) => ToDecimal(s) + "/" + ToDecimal(of)
    case _ => "undefined/undefined"
  }

  function StepTexts(plan: seq<Step>, i: nat): Texts
    requires i < |plan|
  {
    var step := plan[i];
    match step.kind
    case Prepare => Texts("Подготовка", "Подготовка", NextLabelPreview(plan, i))
    case Work => Texts("Упражнение • " + step.title, step.title + " — подход " + SetCounter(step.meta),
                       UpcomingRestPreview(plan, i))
    case Rest => Texts("Отдых", if IsLongRest(step.durationMs) then "Длинный отдых" else "Короткий отдых",
                       NextLabelPreview(plan, i))
  }

  /** The cue played on entering a step: a short beep for preparation and work,
      a soft tick for a short rest, nothing for a long rest. */
  function EntryCues(step: Step): (cues: seq<Cue>)
    ensures step.kind != Rest ==> cues == [BeepShort]
    ensures step.kind == Rest ==> (cues == [] <==> step.durationMs > 10000)
    ensures step.kind == Rest ==> (cues == [TickSoft] <==> step.durationMs <= 10000)
  {
    match step.kind
    case Prepare => [BeepShort]
    case Work => [BeepShort]
    case Rest => if !IsLongRest(step.durationMs) then [TickSoft] else []
  }

  /** One threshold decides both treatments of a rest: a work set announces a
      long rest exactly when that rest, once entered, is titled "Длинный
      отдых" and plays no tick. */
  lemma RestPreviewAgrees(plan: seq<Step>, i: nat)
    requires i + 1 < |plan| && plan[i + 1].kind == Rest
    ensures UpcomingRestPreview(plan, i) == "После: длинный отдых"
      <==> StepTexts(plan, i + 1).current == "Длинный отдых"
    ensures UpcomingRestPreview(plan, i) == "После: длинный отдых" <==> EntryCues(plan[i + 1]) == []
    ensures UpcomingRestPreview(plan, i) == "После: короткий отдых"
      <==> StepTexts(plan, i + 1).current == "Короткий отдых"
  {
  }

  /** The preparation screen names the first exercise as coming next. */
  lemma PlanPrepareTexts(plan: seq<Step>)
    requires Layout(plan)
    ensures 0 < |plan| && StepTexts(plan, 0) == Texts("Подготовка", "Подготовка", "Дальше: Прыжки")
  {
    PlanEnds(plan);
    PlanWork(plan, 0, 1);
  }

  /** The screen of set s of block b: the exercise name, the counter "s/4",
      and the announcement of the rest that follows it. */
  lemma PlanWorkTexts(plan: seq<Step>, b: nat, setNo: nat)
    requires Layout(plan) && b < |Blocks| && 1 <= setNo <= 4
    ensures var n := 1 + 8 * b + 2 * (setNo - 1);
      && n < |plan|
      && StepTexts(plan, n) ==
           Texts("Упражнение • " + Blocks[b].name,
                 Blocks[b].name + " — подход " + [DigitChar(setNo)] + "/4",
                 if setNo == 4 then "После: длинный отдых" else "После: короткий отдых")
  {
    var n := 1 + 8 * b + 2 * (setNo - 1);
    PlanWorkPreviews(plan, b, setNo);
    WorkStepTexts(plan, n, setNo);
  }

  /** The screen of any work step with a one-digit set number out of 4. */
  lemma WorkStepTexts(plan: seq<Step>, n: nat, setNo: nat)
    requires n < |plan| && plan[n].kind == Work && plan[n].meta == SetMeta(setNo, 4) && setNo < 10
    ensures StepTexts(plan, n) ==
      Texts("Упражнение • " + plan[n].title, plan[n].title + " — подход " + [DigitChar(setNo)] + "/4",
            UpcomingRestPreview(plan, n))
  {
    assert ToDecimal(setNo) == [DigitChar(setNo)];
    assert ToDecimal(4) == [DigitChar(4)];
  }

  /** The screen of a rest in the `buildPlan` layout: "Длинный отдых" at the ends of blocks
      (steps 8, 16, 24), "Короткий отдых" between sets. Its "next" line names the
      exercise the builder recorded in the rest's `next` meta, except after the
      cool-down, where nothing follows. */
  lemma PlanRestTexts(plan: seq<Step>, n: nat)
    requires Layout(plan) && n < |plan| && plan[n].kind == Rest
    ensures StepTexts(plan, n).stage == "Отдых"
    ensures StepTexts(plan, n).current == if n % 8 == 0 then "Длинный отдых" else "Короткий отдых"
    ensures n < 24 ==> plan[n].meta.NextMeta? && StepTexts(plan, n).next == "Дальше: " + plan[n].meta.next
    ensures n == 24 ==> StepTexts(plan, n).next == ""
  {
    PlanRestClassification(plan, n);
    if 0 < n < 24 {
      RestNamesNext(plan, n);
    }
  }

  // ---------------------------------------------------------------------------
  // Overall progress.

  /** Milliseconds of the plan already behind when step i starts: the total
      minus the durations from step i to the end. */
  function Elapsed(plan: seq<Step>, i: nat): int
    requires i <= |plan|
  {
    TotalDuration(plan) - TotalDuration(plan[i..])
  }

  /** The elapsed time is the sum of the steps before i. */
  lemma ElapsedIsPrefix(plan: seq<Step>, i: nat)
    requires i <= |plan|
    ensures Elapsed(plan, i) == TotalDuration(plan[..i])
  {
    assert plan == plan[..i] + plan[i..];
    TotalDurationConcat(plan[..i], plan[i..]);
  }

  /** Moving to the next step adds exactly the finished step's duration. */
  lemma ElapsedStep(plan: seq<Step>, i: nat)
    requires i < |plan|
    ensures Elapsed(plan, i + 1) == Elapsed(plan, i) + plan[i].durationMs
  {
    assert plan[i..][1..] == plan[i + 1..];
  }

  lemma {:induction false} TotalDurationPositive(steps: seq<Step>)
    requires forall n :: 0 <= n < |steps| ==> steps[n].durationMs > 0
    ensures steps != [] ==> TotalDuration(steps) > 0
    ensures TotalDuration(steps) >= 0
    decreases |steps|
  {
    if steps != [] {
      TotalDurationPositive(steps[1..]);
    }
  }

  /** Overall elapsed time is 0 at the first step and stays in [0, total),
      strictly below the total, while a step is still to run. */
  lemma ElapsedRange(plan: seq<Step>, i: nat)
    requires WellFormed(plan) && i <= |plan|
    ensures Elapsed(plan, 0) == 0 && TotalDuration(plan) > 0
    ensures 0 <= Elapsed(plan, i) <= TotalDuration(plan)
    ensures i < |plan| ==> Elapsed(plan, i) < TotalDuration(plan)
  {
    assert plan[0..] == plan;
    TotalDurationPositive(plan);
    TotalDurationPositive(plan[i..]);
    TotalDurationPositive(plan[..i]);
    ElapsedIsPrefix(plan, i);
  }

  /** Overall elapsed time strictly grows from one step to any later one. */
  lemma {:induction false} ElapsedMonotone(plan: seq<Step>, i: nat, j: nat)
    requires WellFormed(plan) && i <= j <= |plan|
    ensures Elapsed(plan, i) <= Elapsed(plan, j)
    ensures i < j ==> Elapsed(plan, i) < Elapsed(plan, j)
    decreases j - i
  {
    if i < j {
      ElapsedMonotone(plan, i + 1, j);
      ElapsedStep(plan, i);
    }
  }

  lemma DivMonotone(a: real, b: real, t: real)
    requires 0.0 < t && a <= b
    ensures a / t <= b / t
    ensures a < b ==> a / t < b / t
  {
    var q := 1.0 / t;
    assert a / t == a * q && b / t == b * q;
    assert q > 0.0;
    assert (b - a) * q >= 0.0;
  }

  /** `elapsedMs / totalDurationMs`, the overall-progress fraction. */
  function Overall(plan: seq<Step>, i: nat): (f: real)
    requires WellFormed(plan) && i <= |plan|
    ensures 0.0 <= f <= 1.0
    ensures i < |plan| ==> f < 1.0
    ensures i == 0 ==> f == 0.0
  {
    ElapsedRange(plan, i);
    var total := TotalDuration(plan) as real;
    DivMonotone(Elapsed(plan, i) as real, total, total);
    assert total / total == 1.0;
    (Elapsed(plan, i) as real) / (TotalDuration(plan) as real)
  }

  /** The overall fraction never decreases as the index grows. */
  lemma OverallMonotone(plan: seq<Step>, i: nat, j: nat)
    requires WellFormed(plan) && i <= j <= |plan|
    ensures Overall(plan, i) <= Overall(plan, j)
  {
    ElapsedMonotone(plan, i, j);
    ElapsedRange(plan, 0);
    DivMonotone(Elapsed(plan, i) as real, Elapsed(plan, j) as real, TotalDuration(plan) as real);
  }
}
