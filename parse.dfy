/**
 * Reading a console log back into the status tree: the times of one step
 * (`parseStepTime`), the statuses and times of a stage's steps
 * (`parseSteps`) and the commit a build checked out (`getCommit`).
 */
module LogParse {
  import opened Wrappers
  import opened Strings
  import opened Model
  import opened Jenkins

  /** Nanoseconds in a millisecond. */
  const NanosPerMilli := 1000000

  /**
   * Nanoseconds to milliseconds with Go's `/` on `int64`, which truncates
   * toward zero (Dafny's `/` rounds down for negative dividends).
   */
  function NanosToMillis(ns: int): int {
    if ns >= 0 then ns / NanosPerMilli else -((-ns) / NanosPerMilli)
  }

  /**
   * Truncation rounds toward zero: the whole milliseconds never exceed the
   * elapsed time in magnitude and miss it by less than one millisecond, and
   * a negative interval converts to the negated conversion of its opposite.
   */
  lemma NanosToMillisTowardZero(ns: int)
    ensures ns >= 0 ==> 0 <= NanosToMillis(ns) * NanosPerMilli <= ns < NanosToMillis(ns) * NanosPerMilli + NanosPerMilli
    ensures ns < 0 ==> NanosToMillis(ns) * NanosPerMilli - NanosPerMilli < ns <= NanosToMillis(ns) * NanosPerMilli <= 0
    ensures NanosToMillis(-ns) == -NanosToMillis(ns)
  {
    var n := if ns >= 0 then ns else -ns;
    var q := n / NanosPerMilli;
    assert n == q * NanosPerMilli + n % NanosPerMilli && 0 <= n % NanosPerMilli < NanosPerMilli;
  }

  /**
   * `parseStepTime`: the step starts at the activity start plus the first
   * elapsed-time stamp of its piece of the log; a `Success` or `Fail` step
   * also lasts from the first stamp to the last. A piece without stamps, or
   * whose first stamp does not parse, changes nothing; a last stamp that does
   * not parse leaves the duration.
   */
  function ParseStepTime(step: ActivityStep, seg: Segment, base: int): ActivityStep
  {
    if seg.stamps == [] || seg.stamps[0].None? then step
    else
      var first := seg.stamps[0].value;
      var started := step.(startTS := base + NanosToMillis(first));
      if step.status != Success && step.status != Fail then started
      else if seg.stamps[|seg.stamps| - 1].None? then started
      else started.(duration := NanosToMillis(seg.stamps[|seg.stamps| - 1].value - first))
  }

  /**
   * A step keeps its name and status; only a `Success` or `Fail` step gets a
   * duration, from its first stamp to its last; a piece without a parsable
   * first stamp changes nothing.
   */
  lemma ParseStepTimeSpec(step: ActivityStep, seg: Segment, base: int)
    ensures var r := ParseStepTime(step, seg, base);
      r.name == step.name && r.status == step.status
      && (r.duration != step.duration ==> step.status == Success || step.status == Fail)
      && (seg.stamps == [] || seg.stamps[0].None? ==> r == step)
      && (seg.stamps != [] && seg.stamps[0].Some? ==>
            r.startTS == base + NanosToMillis(seg.stamps[0].value))
      && ((step.status == Success || step.status == Fail) && seg.stamps != []
          && seg.stamps[0].Some? && seg.stamps[|seg.stamps| - 1].Some? ==>
            r.duration == NanosToMillis(seg.stamps[|seg.stamps| - 1].value - seg.stamps[0].value))
  {
  }

  /** The line Jenkins ends a successful build's log with. */
  const FinishedSuccess := "  Finished: SUCCESS\n"
  /** The line Jenkins ends a failed build's log with. */
  const FinishedFailure := "  Finished: FAILURE\n"
  /** The line that marks a checkout still in progress in the first piece. */
  const CloningMarker := "  Cloning the remote Git repository\n"

  /** The status the log gives the last step it reached. */
  function LastStatus(text: string): (r: Status)
    ensures r in {Building, Success, Fail}
    ensures r == Success <==> HasSuffix(text, FinishedSuccess)
    ensures r == Fail <==> !HasSuffix(text, FinishedSuccess) && HasSuffix(text, FinishedFailure)
  {
    if HasSuffix(text, FinishedSuccess) then Success
    else if HasSuffix(text, FinishedFailure) then Fail
    else Building
  }

  /** The stage status after the log's last line was read. */
  function StageStatusAfter(stage: ActivityStage, text: string): Status {
    if LastStatus(text) == Building then stage.status else LastStatus(text)
  }

  /** True when the first piece shows a checkout: only the first step is read. */
  predicate Checkout(stage: ActivityStage, log: RawLog) {
    |log.segments| > 0 && |stage.steps| > 0 && Contains(log.segments[0].text, CloningMarker)
  }

  /**
   * The step `i` after the log is read: with `n` script markers found, the
   * steps before the last reached one passed, the last reached one has the
   * log's final status, the rest are still waiting. The `i+1`-th piece of
   * the log holds step `i`'s output.
   */
  function ParsedStep(stage: ActivityStage, log: RawLog, i: nat): (r: ActivityStep)
    requires WellFormedLog(log) && i < |stage.steps|
    ensures r.name == stage.steps[i].name
  {
    var n := |log.segments| - 1;
    var st := stage.steps[i];
    if i + 1 < n then ParseStepTime(st.(status := Success), log.segments[i + 1], stage.startTS)
    else if i + 1 == n then ParseStepTime(st.(status := LastStatus(log.text)), log.segments[i + 1], stage.startTS)
    else st.(status := Waiting)
  }

  /** Every step after the log is read. */
  function ParsedSteps(stage: ActivityStage, log: RawLog): (r: seq<ActivityStep>)
    requires WellFormedLog(log)
    ensures |r| == |stage.steps|
  {
    seq(|stage.steps|, i requires 0 <= i < |stage.steps| => ParsedStep(stage, log, i))
  }

  /** Sum of the durations of the first `k` steps. */
  function DurationSum(steps: seq<ActivityStep>, k: nat): int
    requires k <= |steps|
  {
    if k == 0 then 0 else DurationSum(steps, k - 1) + steps[k - 1].duration
  }

  /** Some step among the first `k` has a different status in the two lists. */
  predicate StatusChanged(before: seq<ActivityStep>, after: seq<ActivityStep>, k: nat)
    requires k <= |before| == |after|
  {
    k > 0 && (StatusChanged(before, after, k - 1) || before[k - 1].status != after[k - 1].status)
  }

  /** `StatusChanged` holds exactly when some step's status differs. */
  lemma {:induction false} StatusChangedMeans(before: seq<ActivityStep>, after: seq<ActivityStep>, k: nat)
    requires k <= |before| == |after|
    ensures StatusChanged(before, after, k) <==> exists i :: 0 <= i < k && before[i].status != after[i].status
  {
    if k > 0 {
      StatusChangedMeans(before, after, k - 1);
    }
  }

  /** The number of steps the log reached: those not left `Waiting`. */
  function Reached(stage: ActivityStage, log: RawLog): nat
    requires WellFormedLog(log)
  {
    if |log.segments| - 1 < |stage.steps| then |log.segments| - 1 else |stage.steps|
  }

  /**
   * `parseSteps` as a value: the stage with statuses and times read from the
   * log, and whether any step's status changed.
   */
  function ParseStepsF(stage: ActivityStage, log: RawLog): (ActivityStage, bool)
    requires WellFormedLog(log)
  {
    var staged := stage.(status := StageStatusAfter(stage, log.text));
    if Checkout(stage, log) then
      var first := ParseStepTime(stage.steps[0].(status := LastStatus(log.text)), log.segments[0], stage.startTS);
      (staged.(steps := stage.steps[0 := first], duration := first.duration), stage.steps[0].status != LastStatus(log.text))
    else
      var steps := ParsedSteps(stage, log);
      (staged.(steps := steps, duration := DurationSum(steps, Reached(stage, log))), StatusChanged(stage.steps, steps, |steps|))
  }

  /** `parseSteps`: read the statuses and times of a stage's steps from its build log. */
  method ParseSteps(stage: ActivityStage, log: RawLog) returns (r: ActivityStage, updated: bool)
    requires WellFormedLog(log)
    ensures (r, updated) == ParseStepsF(stage, log)
  {
    var lastStatus := Building;
    r := stage;
    if HasSuffix(log.text, FinishedSuccess) {
      lastStatus := Success;
      r := r.(status := Success);
    } else if HasSuffix(log.text, FinishedFailure) {
      lastStatus := Fail;
      r := r.(status := Fail);
    }
    assert lastStatus == LastStatus(log.text);
    assert r == stage.(status := StageStatusAfter(stage, log.text));
    updated := false;
    if |log.segments| > 0 && |r.steps| > 0 && Contains(log.segments[0].text, CloningMarker) {
      if r.steps[0].status != lastStatus {
        updated := true;
      }
      var first := ParseStepTime(r.steps[0].(status := lastStatus), log.segments[0], r.startTS);
      r := r.(steps := r.steps[0 := first], duration := first.duration);
      return;
    }
    var steps, stageTime, changed := ParseReachedSteps(stage, log, lastStatus);
    r := r.(steps := steps, duration := stageTime);
    updated := changed;
  }

  /** The loop of `parseSteps` over the steps, when the first piece shows no checkout. */
  method ParseReachedSteps(stage: ActivityStage, log: RawLog, lastStatus: Status)
    returns (steps: seq<ActivityStep>, stageTime: int, updated: bool)
    requires WellFormedLog(log) && lastStatus == LastStatus(log.text)
    ensures steps == ParsedSteps(stage, log)
    ensures stageTime == DurationSum(steps, Reached(stage, log))
    ensures updated == StatusChanged(stage.steps, steps, |steps|)
  {
    ghost var target := ParsedSteps(stage, log);
    ghost var reached := Reached(stage, log);
    steps := stage.steps;
    stageTime := 0;
    updated := false;
    var i := 0;
    while i < |steps|
      invariant 0 <= i <= |steps| == |stage.steps| == |target|
      invariant forall k :: 0 <= k < i ==> steps[k] == target[k]
      invariant forall k :: i <= k < |steps| ==> steps[k] == stage.steps[k]
      invariant stageTime == DurationSum(target, if i < reached then i else reached)
      invariant updated <==> StatusChanged(stage.steps, target, i)
    {
      var prevStatus := steps[i].status;
      var step, ran := ParseStepAt(stage, log, lastStatus, i);
      assert step == target[i] && prevStatus == stage.steps[i].status;
      if ran {
        assert DurationSum(target, i + 1) == DurationSum(target, i) + target[i].duration;
        stageTime := stageTime + step.duration;
      }
      assert StatusChanged(stage.steps, target, i + 1)
             == (StatusChanged(stage.steps, target, i) || stage.steps[i].status != target[i].status);
      if prevStatus != step.status {
        updated := true;
      }
      steps := steps[i := step];
      i := i + 1;
    }
    assert steps == target;
  }

  /**
   * One round of `parseSteps`' loop: step `i` passed, ended with the log's
   * final status, or has not run; `ran` tells whether its time counts
   * toward the stage's.
   */
  method ParseStepAt(stage: ActivityStage, log: RawLog, lastStatus: Status, i: nat) returns (step: ActivityStep, ran: bool)
    requires WellFormedLog(log) && lastStatus == LastStatus(log.text) && i < |stage.steps|
    ensures step == ParsedStep(stage, log, i)
    ensures ran <==> i < Reached(stage, log)
  {
    var finishStepNum := |log.segments| - 1;
    step := stage.steps[i];
    if i < finishStepNum - 1 {
      step := ParseStepTime(step.(status := Success), log.segments[i + 1], stage.startTS);
      ran := true;
    } else if i == finishStepNum - 1 {
      step := ParseStepTime(step.(status := lastStatus), log.segments[i + 1], stage.startTS);
      ran := true;
    } else {
      step := step.(status := Waiting);
      ran := false;
    }
  }

  // ---- properties of the parse ----

  /**
   * Without a checkout in the first piece and with `n + 1` pieces, steps
   * before `n - 1` pass, step `n - 1` takes the status of the log's last line
   * and the steps from `n` on are waiting.
   */
  lemma ParseStepsStatuses(stage: ActivityStage, log: RawLog, i: nat)
    requires WellFormedLog(log) && !Checkout(stage, log) && i < |stage.steps|
    ensures var n := |log.segments| - 1;
      var st := ParseStepsF(stage, log).0.steps[i].status;
      (i < n - 1 ==> st == Success)
      && (i == n - 1 ==> st == LastStatus(log.text))
      && (i >= n ==> st == Waiting)
  {
  }

  /** A log ending in the success or failure line settles the stage the same way. */
  lemma ParseStepsSettlesStage(stage: ActivityStage, log: RawLog)
    requires WellFormedLog(log)
    ensures var st := ParseStepsF(stage, log).0.status;
      (HasSuffix(log.text, FinishedSuccess) ==> st == Success)
      && (!HasSuffix(log.text, FinishedSuccess) && HasSuffix(log.text, FinishedFailure) ==> st == Fail)
      && (!HasSuffix(log.text, FinishedSuccess) && !HasSuffix(log.text, FinishedFailure) ==> st == stage.status)
  {
  }

  /** With a checkout in the first piece only the first step is read; the stage lasts as long as it. */
  lemma ParseStepsCheckoutOnlyFirst(stage: ActivityStage, log: RawLog)
    requires WellFormedLog(log) && Checkout(stage, log)
    ensures var (r, updated) := ParseStepsF(stage, log);
      r.steps[1..] == stage.steps[1..] && r.duration == r.steps[0].duration
      && r.steps[0].status == LastStatus(log.text)
      && (updated <==> stage.steps[0].status != LastStatus(log.text))
  {
  }

  /** The steps keep their names and number. */
  lemma ParseStepsKeepsShape(stage: ActivityStage, log: RawLog)
    requires WellFormedLog(log)
    ensures var r := ParseStepsF(stage, log).0;
      r.name == stage.name && r.needApproval == stage.needApproval && r.startTS == stage.startTS
      && |r.steps| == |stage.steps|
      && forall i :: 0 <= i < |r.steps| ==> r.steps[i].name == stage.steps[i].name
  {
  }

  /** Sum of the durations of the steps, among the first `k`, that are not `Waiting`. */
  function RunDurations(steps: seq<ActivityStep>, k: nat): int
    requires k <= |steps|
  {
    if k == 0 then 0
    else RunDurations(steps, k - 1) + (if steps[k - 1].status != Waiting then steps[k - 1].duration else 0)
  }

  lemma {:induction false} RunDurationsOfWaitingTail(steps: seq<ActivityStep>, m: nat, k: nat)
    requires m <= k <= |steps|
    requires forall i :: m <= i < k ==> steps[i].status == Waiting
    ensures RunDurations(steps, k) == RunDurations(steps, m)
    decreases k
  {
    if k > m {
      RunDurationsOfWaitingTail(steps, m, k - 1);
    }
  }

  lemma {:induction false} RunDurationsOfRunPrefix(steps: seq<ActivityStep>, k: nat)
    requires k <= |steps|
    requires forall i :: 0 <= i < k ==> steps[i].status != Waiting
    ensures RunDurations(steps, k) == DurationSum(steps, k)
    decreases k
  {
    if k > 0 {
      RunDurationsOfRunPrefix(steps, k - 1);
    }
  }

  /**
   * Without a checkout, the stage lasts the sum of the durations of the
   * steps the log reached, that is of every step not left `Waiting`.
   */
  lemma ParseStepsDuration(stage: ActivityStage, log: RawLog)
    requires WellFormedLog(log) && !Checkout(stage, log)
    ensures var r := ParseStepsF(stage, log).0;
      r.duration == RunDurations(r.steps, |r.steps|)
  {
    var r := ParseStepsF(stage, log).0;
    var m := Reached(stage, log);
    forall i | 0 <= i < m ensures r.steps[i].status != Waiting {
      assert r.steps[i] == ParsedStep(stage, log, i);
    }
    RunDurationsOfRunPrefix(r.steps, m);
    RunDurationsOfWaitingTail(r.steps, m, |r.steps|);
  }

  // ---- getCommit ----

  /** The last non-empty revision of the list, "" when there is none. */
  function LastNonEmpty(revisions: seq<string>): (r: string)
    ensures r == "" || r in revisions
  {
    if revisions == [] then ""
    else if revisions[|revisions| - 1] != "" then revisions[|revisions| - 1]
    else LastNonEmpty(revisions[..|revisions| - 1])
  }

  /** `LastNonEmpty` picks a non-empty revision after which all are empty, or "" when all are. */
  lemma {:induction false} LastNonEmptyIsLast(revisions: seq<string>)
    ensures var r := LastNonEmpty(revisions);
      (r == "" <==> forall k :: 0 <= k < |revisions| ==> revisions[k] == "")
      && (r != "" ==> exists k :: 0 <= k < |revisions| && revisions[k] == r
                               && forall m :: k < m < |revisions| ==> revisions[m] == "")
  {
    if revisions != [] && revisions[|revisions| - 1] == "" {
      var init := revisions[..|revisions| - 1];
      LastNonEmptyIsLast(init);
      if LastNonEmpty(init) != "" {
        var k :| 0 <= k < |init| && init[k] == LastNonEmpty(init) && forall m :: k < m < |init| ==> init[m] == "";
        assert revisions[k] == LastNonEmpty(revisions);
      }
    }
  }

  /** The commit recorded after reading a build: an already recorded one is kept. */
  function CommitAfter(commit: string, build: BuildInfo): string {
    if commit != "" then commit else LastNonEmpty(build.revisions)
  }
}
