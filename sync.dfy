/**
 * Reconciling an activity with the server: `SyncActivity` reads the last
 * build of each step's job, `SyncActivityStale` the build and console log of
 * one job per stage (the older job layout).
 */
module Sync {
  import opened Wrappers
  import opened Model
  import opened Jenkins
  import opened Activities
  import JobNames
  import LogParse

  /** What a sync may change in an activity. */
  datatype Snapshot = Snapshot(status: Status, stopTS: int, commitInfo: string, pendingStage: int, stages: seq<ActivityStage>)

  function SnapOf(a: Activity): Snapshot
    reads a
  {
    Snapshot(a.status, a.stopTS, a.commitInfo, a.pendingStage, a.stages)
  }

  /** How the loop goes on after one unit: to the next one, out of the inner loop, or out with an error. */
  datatype Control = Next | Halt | Fault(err: Error)

  predicate Done(st: ActivityStep) {
    st.status == Success || st.status == Fail
  }

  /**
   * One step of `SyncActivity`: a finished step is passed over. Otherwise its
   * job must exist. Without a build the stage loop ends, after marking an
   * approval stage's first step `Pending` at stage and activity level. A
   * `SUCCESS` build finishes the step, and the stage when it is the last step;
   * a `FAILURE` build fails step, stage and activity; a running build marks
   * all three `Building` and ends the stage loop.
   */
  function SyncStepF(b: Backend, pipelineName: string, id: string, s: Snapshot, i: nat, j: nat): (Snapshot, Control)
    requires i < |s.stages| && j < |s.stages[i].steps|
  {
    var stage := s.stages[i];
    var st := stage.steps[j];
    var job := JobNames.GetJobName(pipelineName, id, stage.name, j);
    if Done(st) then (s, Next)
    else match GetJobInfo(b, job)
    case Err(err) => (s, Fault(err))
    case Ok(_) =>
      match GetBuildInfo(b, job)
      case Err(_) =>
        if stage.needApproval && j == 0 then (s.(status := Pending, stages := s.stages[i := stage.(status := Pending)]), Halt)
        else (s, Halt)
      case Ok(build) =>
        var end := build.timestamp + build.duration;
        if build.result == "SUCCESS" then
          var steps := stage.steps[j := st.(startTS := build.timestamp, duration := build.duration, status := Success)];
          var stage1 := if j == |stage.steps| - 1 then stage.(steps := steps, status := Success, duration := end - stage.startTS)
                        else stage.(steps := steps);
          (s.(stages := s.stages[i := stage1]), Next)
        else if build.result == "FAILURE" then
          var steps := stage.steps[j := st.(startTS := build.timestamp, duration := build.duration, status := Fail)];
          (s.(status := Fail, stopTS := end, stages := s.stages[i := stage.(steps := steps, status := Fail, duration := end - stage.startTS)]), Next)
        else if build.building then
          var steps := stage.steps[j := st.(startTS := build.timestamp, status := Building)];
          (s.(status := Building, stages := s.stages[i := stage.(steps := steps, status := Building)]), Halt)
        else (s, Next)
  }

  /** `SyncActivity` from step `j` of stage `i` to the end of that stage's loop. */
  function SyncStageF(b: Backend, pipelineName: string, id: string, s: Snapshot, i: nat, j: nat): (r: (Snapshot, Option<Error>))
    requires i < |s.stages| && j <= |s.stages[i].steps|
    ensures SameShape(s.stages, r.0.stages)
    decreases |s.stages[i].steps| - j
  {
    if j == |s.stages[i].steps| then (s, None)
    else
      var (s1, c) := SyncStepF(b, pipelineName, id, s, i, j);
      match c
      case Next => SyncStageF(b, pipelineName, id, s1, i, j + 1)
      case Halt => (s1, None)
      case Fault(err) => (s1, Some(err))
  }

  /** `SyncActivity` from stage `i` on. */
  function SyncFromF(b: Backend, pipelineName: string, id: string, s: Snapshot, i: nat): (r: (Snapshot, Option<Error>))
    ensures SameShape(s.stages, r.0.stages)
    decreases |s.stages| - i
  {
    if i >= |s.stages| then (s, None)
    else
      var r := SyncStageF(b, pipelineName, id, s, i, 0);
      if r.1.Some? then r else SyncFromF(b, pipelineName, id, r.0, i + 1)
  }

  /** The body of `SyncActivity`'s inner loop, for step `j` of stage `i`. */
  method SyncStep(a: Activity, b: Backend, i: nat, j: nat) returns (c: Control)
    requires i < |a.stages| && j < |a.stages[i].steps|
    modifies a`status, a`stopTS, a`stages
    ensures (SnapOf(a), c) == SyncStepF(b, a.pipeline.name, a.id, old(SnapOf(a)), i, j)
  {
    var stage := a.stages[i];
    var step := stage.steps[j];
    if step.status == Fail || step.status == Success {
      return Next;
    }
    var job := a.JobName(i, j);
    var jobInfo := GetJobInfo(b, job);
    if jobInfo.Err? {
      return Fault(jobInfo.error);
    }
    var buildInfo := GetBuildInfo(b, job);
    if buildInfo.Err? {
      if stage.needApproval && j == 0 {
        a.stages := a.stages[i := stage.(status := Pending)];
        a.status := Pending;
      }
      return Halt;
    }
    var build := buildInfo.value;
    if build.result == "SUCCESS" {
      stage := stage.(steps := stage.steps[j := step.(startTS := build.timestamp, duration := build.duration, status := Success)]);
      if j == |stage.steps| - 1 {
        stage := stage.(status := Success, duration := build.timestamp + build.duration - stage.startTS);
      }
      a.stages := a.stages[i := stage];
    } else if build.result == "FAILURE" {
      stage := stage.(steps := stage.steps[j := step.(startTS := build.timestamp, duration := build.duration, status := Fail)]);
      stage := stage.(status := Fail, duration := build.timestamp + build.duration - stage.startTS);
      a.stages := a.stages[i := stage];
      a.status := Fail;
      a.stopTS := build.timestamp + build.duration;
    } else if build.building {
      stage := stage.(steps := stage.steps[j := step.(startTS := build.timestamp, status := Building)]);
      stage := stage.(status := Building);
      a.stages := a.stages[i := stage];
      a.status := Building;
      return Halt;
    }
    return Next;
  }

  /** `SyncActivity`: bring the steps' statuses up to date from their last builds. */
  method SyncActivity(a: Activity, b: Backend) returns (err: Option<Error>)
    modifies a`status, a`stopTS, a`stages
    ensures (SnapOf(a), err) == SyncFromF(b, a.pipeline.name, a.id, old(SnapOf(a)), 0)
  {
    ghost var s0 := SnapOf(a);
    ghost var pn, id := a.pipeline.name, a.id;
    var i := 0;
    while i < |a.stages|
      invariant 0 <= i <= |a.stages|
      invariant SyncFromF(b, pn, id, SnapOf(a), i) == SyncFromF(b, pn, id, s0, 0)
      decreases |a.stages| - i
    {
      ghost var si := SnapOf(a);
      err := SyncStage(a, b, i);
      if err.Some? {
        return;
      }
      assert SyncFromF(b, pn, id, si, i) == SyncFromF(b, pn, id, SnapOf(a), i + 1);
      i := i + 1;
    }
    return None;
  }

  /** The inner loop of `SyncActivity`: the steps of stage `i`, until one ends the loop. */
  method SyncStage(a: Activity, b: Backend, i: nat) returns (err: Option<Error>)
    requires i < |a.stages|
    modifies a`status, a`stopTS, a`stages
    ensures (SnapOf(a), err) == SyncStageF(b, a.pipeline.name, a.id, old(SnapOf(a)), i, 0)
  {
    ghost var si := SnapOf(a);
    ghost var pn, id := a.pipeline.name, a.id;
    var j := 0;
    while j < |a.stages[i].steps|
      invariant |a.stages| == |si.stages| && 0 <= j <= |a.stages[i].steps| == |si.stages[i].steps|
      invariant SyncStageF(b, pn, id, SnapOf(a), i, j) == SyncStageF(b, pn, id, si, i, 0)
      decreases |a.stages[i].steps| - j
    {
      ghost var sj := SnapOf(a);
      var c := SyncStep(a, b, i, j);
      if c.Fault? {
        assert SyncStageF(b, pn, id, sj, i, j) == (SnapOf(a), Some(c.err));
        return Some(c.err);
      }
      if c.Halt? {
        assert SyncStageF(b, pn, id, sj, i, j) == (SnapOf(a), None);
        return None;
      }
      assert SyncStageF(b, pn, id, sj, i, j) == SyncStageF(b, pn, id, SnapOf(a), i, j + 1);
      j := j + 1;
    }
    return None;
  }

  // ---- properties of SyncActivity ----

  /** Every step that was `Success` or `Fail` is left exactly as it was. */
  predicate KeepsDone(s: Snapshot, r: Snapshot) {
    SameShape(s.stages, r.stages)
    && forall k, l :: 0 <= k < |s.stages| && 0 <= l < |s.stages[k].steps| && Done(s.stages[k].steps[l]) ==>
         r.stages[k].steps[l] == s.stages[k].steps[l]
  }

  lemma KeepsDoneChain(s: Snapshot, m: Snapshot, r: Snapshot)
    requires KeepsDone(s, m) && KeepsDone(m, r)
    ensures KeepsDone(s, r)
  {
  }

  lemma SyncStepKeepsDone(b: Backend, pipelineName: string, id: string, s: Snapshot, i: nat, j: nat)
    requires i < |s.stages| && j < |s.stages[i].steps|
    ensures KeepsDone(s, SyncStepF(b, pipelineName, id, s, i, j).0)
  {
  }

  lemma {:induction false} SyncStageKeepsDone(b: Backend, pipelineName: string, id: string, s: Snapshot, i: nat, j: nat)
    requires i < |s.stages| && j <= |s.stages[i].steps|
    ensures KeepsDone(s, SyncStageF(b, pipelineName, id, s, i, j).0)
    decreases |s.stages[i].steps| - j
  {
    if j < |s.stages[i].steps| {
      var (s1, c) := SyncStepF(b, pipelineName, id, s, i, j);
      SyncStepKeepsDone(b, pipelineName, id, s, i, j);
      if c.Next? {
        SyncStageKeepsDone(b, pipelineName, id, s1, i, j + 1);
        KeepsDoneChain(s, s1, SyncStageF(b, pipelineName, id, s1, i, j + 1).0);
      }
    }
  }

  /** `SyncActivity` never changes a step that already passed or failed. */
  lemma {:induction false} SyncKeepsDone(b: Backend, pipelineName: string, id: string, s: Snapshot, i: nat)
    ensures KeepsDone(s, SyncFromF(b, pipelineName, id, s, i).0)
    decreases |s.stages| - i
  {
    if i < |s.stages| {
      var r := SyncStageF(b, pipelineName, id, s, i, 0);
      SyncStageKeepsDone(b, pipelineName, id, s, i, 0);
      if r.1.None? {
        SyncKeepsDone(b, pipelineName, id, r.0, i + 1);
        KeepsDoneChain(s, r.0, SyncFromF(b, pipelineName, id, r.0, i + 1).0);
      }
    }
  }

  /** `SyncActivity` fails only on a job it cannot find. */
  lemma {:induction false} SyncErrorIsMissingJob(b: Backend, pipelineName: string, id: string, s: Snapshot, i: nat)
    ensures var err := SyncFromF(b, pipelineName, id, s, i).1;
      err.Some? ==> err.value.JobInfoUnavailable? && err.value.job !in b.jobs
    decreases |s.stages| - i
  {
    if i < |s.stages| {
      var r := SyncStageF(b, pipelineName, id, s, i, 0);
      SyncStageErrorIsMissingJob(b, pipelineName, id, s, i, 0);
      if r.1.None? {
        SyncErrorIsMissingJob(b, pipelineName, id, r.0, i + 1);
      }
    }
  }

  lemma {:induction false} SyncStageErrorIsMissingJob(b: Backend, pipelineName: string, id: string, s: Snapshot, i: nat, j: nat)
    requires i < |s.stages| && j <= |s.stages[i].steps|
    ensures var err := SyncStageF(b, pipelineName, id, s, i, j).1;
      err.Some? ==> err.value.JobInfoUnavailable? && err.value.job !in b.jobs
    decreases |s.stages[i].steps| - j
  {
    if j < |s.stages[i].steps| {
      var (s1, c) := SyncStepF(b, pipelineName, id, s, i, j);
      if c.Next? {
        SyncStageErrorIsMissingJob(b, pipelineName, id, s1, i, j + 1);
      }
    }
  }

  /** The job of step `j` of stage `i` in a snapshot. */
  function StepJobOf(pipelineName: string, id: string, s: Snapshot, i: nat, j: nat): string
    requires i < |s.stages|
  {
    JobNames.GetJobName(pipelineName, id, s.stages[i].name, j)
  }

  /**
   * A `SUCCESS` build passes an open step with the build's start and length;
   * the stage passes only when it is its last step.
   */
  lemma SyncStepSuccess(b: Backend, pipelineName: string, id: string, s: Snapshot, i: nat, j: nat)
    requires i < |s.stages| && j < |s.stages[i].steps| && !Done(s.stages[i].steps[j])
    requires var job := StepJobOf(pipelineName, id, s, i, j);
      job in b.jobs && job in b.builds && b.builds[job].result == "SUCCESS"
    ensures var build := b.builds[StepJobOf(pipelineName, id, s, i, j)];
      var (r, c) := SyncStepF(b, pipelineName, id, s, i, j);
      c == Next && r.status == s.status
      && r.stages[i].steps[j].status == Success
      && r.stages[i].steps[j].startTS == build.timestamp && r.stages[i].steps[j].duration == build.duration
      && (r.stages[i].status == Success <==> j == |s.stages[i].steps| - 1 || s.stages[i].status == Success)
  {
  }

  /**
   * A `FAILURE` build fails the step, its stage and the activity, which stops
   * when the build ended.
   */
  lemma SyncStepFailure(b: Backend, pipelineName: string, id: string, s: Snapshot, i: nat, j: nat)
    requires i < |s.stages| && j < |s.stages[i].steps| && !Done(s.stages[i].steps[j])
    requires var job := StepJobOf(pipelineName, id, s, i, j);
      job in b.jobs && job in b.builds && b.builds[job].result == "FAILURE"
    ensures var build := b.builds[StepJobOf(pipelineName, id, s, i, j)];
      var (r, c) := SyncStepF(b, pipelineName, id, s, i, j);
      c == Next && r.stages[i].steps[j].status == Fail && r.stages[i].status == Fail
      && r.status == Fail && r.stopTS == build.timestamp + build.duration
  {
  }

  /**
   * No build yet for the first step of a stage awaiting approval: the stage
   * and the activity are `Pending` and the stage's loop ends; for any other
   * step the loop ends with nothing changed.
   */
  lemma SyncStepAwaitsApproval(b: Backend, pipelineName: string, id: string, s: Snapshot, i: nat, j: nat)
    requires i < |s.stages| && j < |s.stages[i].steps| && !Done(s.stages[i].steps[j])
    requires var job := StepJobOf(pipelineName, id, s, i, j);
      job in b.jobs && job !in b.builds
    ensures var (r, c) := SyncStepF(b, pipelineName, id, s, i, j);
      c == Halt
      && (s.stages[i].needApproval && j == 0 ==> r.status == Pending && r.stages[i].status == Pending)
      && (!(s.stages[i].needApproval && j == 0) ==> r == s)
  {
  }

  // ---- getCommit ----

  /** `getCommit`: record the last non-empty revision of the build unless a commit is recorded already. */
  method GetCommit(a: Activity, build: BuildInfo)
    modifies a`commitInfo
    ensures a.commitInfo == LogParse.CommitAfter(old(a.commitInfo), build)
  {
    if a.commitInfo != "" {
      return;
    }
    var k := 0;
    while k < |build.revisions|
      invariant 0 <= k <= |build.revisions|
      invariant a.commitInfo == LogParse.LastNonEmpty(build.revisions[..k])
    {
      assert build.revisions[..k + 1][..k] == build.revisions[..k];
      if build.revisions[k] != "" {
        a.commitInfo := build.revisions[k];
      }
      k := k + 1;
    }
    assert build.revisions[..k] == build.revisions;
  }

  // ---- SyncActivityStale ----

  /** How the stale loop goes on after a stage: on (noting a change or not), out, or out with an error. */
  datatype StaleControl = Continue(changed: bool) | Finish | Abandon(err: Error)

  /**
   * One stage of `SyncActivityStale`, against the job named after pipeline,
   * stage and activity. A passed stage is skipped. Without a build a
   * `Pending` stage ends the sync and any other stage goes back to `Waiting`
   * and ends it. With a build the commit is recorded, activity and stage are
   * `Building` from the build's start, and the stage's steps are read from
   * the log; a failed stage fails the activity, the last stage passing
   * completes it, and a passed stage followed by one needing approval makes
   * that one, and the activity, `Pending`.
   */
  function SyncStaleStageF(b: Backend, p: Pipeline, id: string, s: Snapshot, i: nat): (r: (Snapshot, StaleControl))
    requires WellFormedBackend(b) && i < |s.stages| == |p.stages|
    ensures |r.0.stages| == |s.stages|
  {
    var stage := s.stages[i];
    var job := JobNames.StaleJobName(p.name, stage.name, id);
    if stage.status == Success then (s, Continue(false))
    else match GetJobInfo(b, job)
    case Err(err) => (s, Abandon(err))
    case Ok(_) =>
      match GetBuildInfo(b, job)
      case Err(_) =>
        if stage.status == Pending then (s, Finish)
        else (s.(stages := s.stages[i := stage.(status := Waiting)]), Finish)
      case Ok(build) =>
        var (parsed, stepsChanged) := LogParse.ParseStepsF(stage.(status := Building, startTS := build.timestamp), GetBuildRawOutput(b, job));
        var s1 := s.(commitInfo := LogParse.CommitAfter(s.commitInfo, build), status := Building, stages := s.stages[i := parsed]);
        var last := i == |p.stages| - 1;
        var s2 :=
          if parsed.status == Fail then s1.(status := Fail)
          else if parsed.status == Success && last then s1.(stopTS := build.timestamp + build.duration, status := Success)
          else s1;
        var s3 :=
          if parsed.status == Success && !last && p.stages[i + 1].needApprove then
            s2.(status := Pending, stages := s2.stages[i + 1 := s2.stages[i + 1].(status := Pending)], pendingStage := i + 1)
          else s2;
        var changed := parsed.status == Fail || (parsed.status == Success && last) || stepsChanged || stage.status != parsed.status;
        (s3, Continue(changed))
  }

  /** `SyncActivityStale` from stage `i` on, with `updated` noted so far. */
  function SyncStaleFromF(b: Backend, p: Pipeline, id: string, s: Snapshot, i: nat, updated: bool): (r: (Snapshot, bool, Option<Error>))
    requires WellFormedBackend(b) && |s.stages| == |p.stages|
    decreases |s.stages| - i
  {
    if i >= |s.stages| then (s, updated, None)
    else
      var (s1, c) := SyncStaleStageF(b, p, id, s, i);
      match c
      case Continue(changed) => SyncStaleFromF(b, p, id, s1, i + 1, updated || changed)
      case Finish => (s1, updated, None)
      case Abandon(err) => (s1, false, Some(err))
  }

  /** The body of `SyncActivityStale`'s loop, for stage `i`; it says whether the stage changed. */
  method SyncStaleStage(a: Activity, b: Backend, i: nat) returns (c: StaleControl)
    requires WellFormedBackend(b) && i < |a.stages| == |a.pipeline.stages|
    modifies a`status, a`stopTS, a`commitInfo, a`pendingStage, a`stages
    ensures (SnapOf(a), c) == SyncStaleStageF(b, a.pipeline, a.id, old(SnapOf(a)), i)
  {
    var p := a.pipeline;
    var stage := a.stages[i];
    var job := JobNames.StaleJobName(p.name, stage.name, a.id);
    var beforeStatus := stage.status;
    if beforeStatus == Success {
      return Continue(false);
    }
    var jobInfo := GetJobInfo(b, job);
    if jobInfo.Err? {
      return Abandon(jobInfo.error);
    }
    var buildInfo := GetBuildInfo(b, job);
    if buildInfo.Err? {
      if stage.status == Pending {
        return Finish;
      }
      a.stages := a.stages[i := stage.(status := Waiting)];
      return Finish;
    }
    var build := buildInfo.value;
    GetCommit(a, build);
    a.status := Building;
    stage := stage.(status := Building, startTS := build.timestamp);
    var rawOutput := GetBuildRawOutput(b, job);
    var stepStatusUpdated;
    stage, stepStatusUpdated := LogParse.ParseSteps(stage, rawOutput);
    a.stages := a.stages[i := stage];
    var changed := false;
    if stage.status == Fail {
      a.status := Fail;
      changed := true;
    } else if stage.status == Success {
      if i == |p.stages| - 1 {
        a.stopTS := build.timestamp + build.duration;
        a.status := Success;
        changed := true;
      }
      if i < |p.stages| - 1 && p.stages[i + 1].needApprove {
        a.status := Pending;
        a.stages := a.stages[i + 1 := a.stages[i + 1].(status := Pending)];
        a.pendingStage := i + 1;
      }
    }
    changed := changed || stepStatusUpdated;
    if beforeStatus != stage.status {
      changed := true;
    }
    return Continue(changed);
  }

  /**
   * `SyncActivityStale`: bring the stages up to date from the one-job-per-stage
   * layout; the flag says whether anything a caller should save changed.
   */
  method SyncActivityStale(a: Activity, b: Backend) returns (updated: bool, err: Option<Error>)
    requires WellFormedBackend(b) && |a.stages| == |a.pipeline.stages|
    modifies a`status, a`stopTS, a`commitInfo, a`pendingStage, a`stages
    ensures (SnapOf(a), updated, err) == SyncStaleFromF(b, a.pipeline, a.id, old(SnapOf(a)), 0, false)
  {
    ghost var s0 := SnapOf(a);
    updated := false;
    var i := 0;
    while i < |a.stages|
      invariant 0 <= i <= |a.stages| == |a.pipeline.stages|
      invariant SyncStaleFromF(b, a.pipeline, a.id, SnapOf(a), i, updated) == SyncStaleFromF(b, a.pipeline, a.id, s0, 0, false)
      decreases |a.pipeline.stages| - i
    {
      ghost var si := SnapOf(a);
      var c := SyncStaleStage(a, b, i);
      match c
      case Abandon(e) =>
        assert SyncStaleFromF(b, a.pipeline, a.id, si, i, updated) == (SnapOf(a), false, Some(e));
        return false, Some(e);
      case Finish =>
        assert SyncStaleFromF(b, a.pipeline, a.id, si, i, updated) == (SnapOf(a), updated, None);
        return updated, None;
      case Continue(changed) =>
        assert SyncStaleFromF(b, a.pipeline, a.id, si, i, updated) == SyncStaleFromF(b, a.pipeline, a.id, SnapOf(a), i + 1, updated || changed);
        updated := updated || changed;
        i := i + 1;
    }
    return updated, None;
  }

  // ---- properties of SyncActivityStale ----

  /** The stale job of stage `i`. */
  function StaleJobOf(p: Pipeline, id: string, s: Snapshot, i: nat): string
    requires i < |s.stages|
  {
    JobNames.StaleJobName(p.name, s.stages[i].name, id)
  }

  /** An error always comes with "nothing updated", whatever the earlier stages changed. */
  lemma {:induction false} SyncStaleErrorMeansNoUpdate(b: Backend, p: Pipeline, id: string, s: Snapshot, i: nat, updated: bool)
    requires WellFormedBackend(b) && |s.stages| == |p.stages|
    ensures var r := SyncStaleFromF(b, p, id, s, i, updated);
      r.2.Some? ==> !r.1 && r.2.value.JobInfoUnavailable?
    decreases |s.stages| - i
  {
    if i < |s.stages| {
      var (s1, c) := SyncStaleStageF(b, p, id, s, i);
      if c.Continue? {
        SyncStaleErrorMeansNoUpdate(b, p, id, s1, i + 1, updated || c.changed);
      }
    }
  }

  /** Once something is noted as updated, a run that ends without error reports it. */
  lemma {:induction false} SyncStaleUpdateSticks(b: Backend, p: Pipeline, id: string, s: Snapshot, i: nat)
    requires WellFormedBackend(b) && |s.stages| == |p.stages|
    ensures var r := SyncStaleFromF(b, p, id, s, i, true);
      r.2.None? ==> r.1
    decreases |s.stages| - i
  {
    if i < |s.stages| {
      var (s1, c) := SyncStaleStageF(b, p, id, s, i);
      if c.Continue? {
        SyncStaleUpdateSticks(b, p, id, s1, i + 1);
      }
    }
  }

  /**
   * A build whose log ends in the success line, on the last stage, completes
   * the activity when the build ended and counts as an update.
   */
  lemma SyncStaleLastStageCompletes(b: Backend, p: Pipeline, id: string, s: Snapshot)
    requires WellFormedBackend(b) && 0 < |s.stages| == |p.stages|
    requires var i, job := |s.stages| - 1, StaleJobOf(p, id, s, |s.stages| - 1);
      s.stages[i].status != Success && job in b.jobs && job in b.builds
      && Strings.HasSuffix(GetBuildRawOutput(b, job).text, LogParse.FinishedSuccess)
    ensures var i, job := |s.stages| - 1, StaleJobOf(p, id, s, |s.stages| - 1);
      var (r, c) := SyncStaleStageF(b, p, id, s, i);
      c == Continue(true) && r.status == Success
      && r.stopTS == b.builds[job].timestamp + b.builds[job].duration
      && r.stages[i].status == Success
  {
    var i, job := |s.stages| - 1, StaleJobOf(p, id, s, |s.stages| - 1);
    var build := b.builds[job];
    LogParse.ParseStepsSettlesStage(s.stages[i].(status := Building, startTS := build.timestamp), GetBuildRawOutput(b, job));
  }

  /**
   * A stage that passes ahead of one needing approval makes that stage and
   * the activity `Pending` and records it as the pending stage.
   */
  lemma SyncStaleAwaitsApproval(b: Backend, p: Pipeline, id: string, s: Snapshot, i: nat)
    requires WellFormedBackend(b) && i + 1 < |s.stages| == |p.stages| && p.stages[i + 1].needApprove
    requires var job := StaleJobOf(p, id, s, i);
      s.stages[i].status != Success && job in b.jobs && job in b.builds
      && Strings.HasSuffix(GetBuildRawOutput(b, job).text, LogParse.FinishedSuccess)
    ensures var (r, c) := SyncStaleStageF(b, p, id, s, i);
      c.Continue? && r.status == Pending && r.stages[i].status == Success
      && r.stages[i + 1].status == Pending && r.pendingStage == i + 1
  {
    var job := StaleJobOf(p, id, s, i);
    LogParse.ParseStepsSettlesStage(s.stages[i].(status := Building, startTS := b.builds[job].timestamp), GetBuildRawOutput(b, job));
  }

  /** A log ending in the failure line fails the stage and the activity and counts as an update. */
  lemma SyncStaleFailure(b: Backend, p: Pipeline, id: string, s: Snapshot, i: nat)
    requires WellFormedBackend(b) && i < |s.stages| == |p.stages|
    requires var job := StaleJobOf(p, id, s, i);
      var text := GetBuildRawOutput(b, job).text;
      s.stages[i].status != Success && job in b.jobs && job in b.builds
      && !Strings.HasSuffix(text, LogParse.FinishedSuccess) && Strings.HasSuffix(text, LogParse.FinishedFailure)
    ensures var (r, c) := SyncStaleStageF(b, p, id, s, i);
      c == Continue(true) && r.status == Fail && r.stages[i].status == Fail
  {
    var job := StaleJobOf(p, id, s, i);
    LogParse.ParseStepsSettlesStage(s.stages[i].(status := Building, startTS := b.builds[job].timestamp), GetBuildRawOutput(b, job));
  }

  /**
   * No build for a stage that is not `Pending`: the stage goes back to
   * `Waiting` and the sync ends without noting that change.
   */
  lemma SyncStaleNoBuildResets(b: Backend, p: Pipeline, id: string, s: Snapshot, i: nat, updated: bool)
    requires WellFormedBackend(b) && i < |s.stages| == |p.stages|
    requires var job := StaleJobOf(p, id, s, i);
      s.stages[i].status != Success && s.stages[i].status != Pending && job in b.jobs && job !in b.builds
    ensures var r := SyncStaleFromF(b, p, id, s, i, updated);
      r.0.stages == s.stages[i := s.stages[i].(status := Waiting)] && r.1 == updated && r.2.None?
  {
  }
}
