/**
 * The life cycle of a run on the provider side: creating the jobs of a
 * stage (`CreateStage`), triggering a new run (`RunPipeline`) and running an
 * existing activity again (`RerunActivity`).
 */
module Lifecycle {
  import opened Wrappers
  import opened Model
  import opened Jenkins
  import opened Activities
  import opened Driver
  import JobNames
  import Abort

  /** The jobs of stage `o`, one per step, in step order. */
  function StageJobs(pipelineName: string, id: string, stages: seq<ActivityStage>, o: nat): seq<string>
    requires o < |stages|
  {
    JobNames.StageJobNames(pipelineName, id, stages[o].name, |stages[o].steps|)
  }

  /** The jobs of stages `k..`, in stage and step order. */
  function JobsFrom(pipelineName: string, id: string, stages: seq<ActivityStage>, k: nat): seq<string>
    decreases |stages| - k
  {
    if k >= |stages| then [] else StageJobs(pipelineName, id, stages, k) + JobsFrom(pipelineName, id, stages, k + 1)
  }

  /** The jobs of stages `k..` are exactly the step jobs of those stages. */
  lemma JobsFromMembers(pipelineName: string, id: string, stages: seq<ActivityStage>, k: nat, job: string)
    ensures job in JobsFrom(pipelineName, id, stages, k)
            <==> exists o, j :: k <= o < |stages| && 0 <= j < |stages[o].steps|
                             && job == JobNames.GetJobName(pipelineName, id, stages[o].name, j)
  {
    if job in JobsFrom(pipelineName, id, stages, k) {
      JobsFromAreStepJobs(pipelineName, id, stages, k, job);
    }
    if exists o, j :: k <= o < |stages| && 0 <= j < |stages[o].steps|
                     && job == JobNames.GetJobName(pipelineName, id, stages[o].name, j) {
      var o, j :| k <= o < |stages| && 0 <= j < |stages[o].steps|
                  && job == JobNames.GetJobName(pipelineName, id, stages[o].name, j);
      StepJobInJobsFrom(pipelineName, id, stages, k, o, j);
    }
  }

  lemma {:induction false} JobsFromAreStepJobs(pipelineName: string, id: string, stages: seq<ActivityStage>, k: nat, job: string)
    requires job in JobsFrom(pipelineName, id, stages, k)
    ensures exists o, j :: k <= o < |stages| && 0 <= j < |stages[o].steps|
                         && job == JobNames.GetJobName(pipelineName, id, stages[o].name, j)
    decreases |stages| - k
  {
    var here := StageJobs(pipelineName, id, stages, k);
    if job in here {
      var j :| 0 <= j < |here| && here[j] == job;
      assert job == JobNames.GetJobName(pipelineName, id, stages[k].name, j);
    } else {
      JobsFromAreStepJobs(pipelineName, id, stages, k + 1, job);
    }
  }

  lemma {:induction false} StepJobInJobsFrom(pipelineName: string, id: string, stages: seq<ActivityStage>, k: nat, o: nat, j: nat)
    requires k <= o < |stages| && j < |stages[o].steps|
    ensures JobNames.GetJobName(pipelineName, id, stages[o].name, j) in JobsFrom(pipelineName, id, stages, k)
    decreases |stages| - k
  {
    if k == o {
      assert StageJobs(pipelineName, id, stages, k)[j] == JobNames.GetJobName(pipelineName, id, stages[o].name, j);
    } else {
      StepJobInJobsFrom(pipelineName, id, stages, k + 1, o, j);
    }
  }

  /** `CreateStage`: create the job of every step of stage `o`, stopping at the first failure. */
  method CreateStage(a: Activity, srv: Server, o: nat) returns (err: Option<Error>)
    requires o < |a.stages|
    modifies srv`calls
    ensures srv.calls == old(srv.calls) + CreateAll(srv.backend, StageJobs(a.pipeline.name, a.id, a.stages, o)).0
    ensures err == CreateAll(srv.backend, StageJobs(a.pipeline.name, a.id, a.stages, o)).1
  {
    var jobs := StageJobs(a.pipeline.name, a.id, a.stages, o);
    var b := srv.backend;
    ghost var all := CreateAll(b, jobs);
    var j := 0;
    while j < |a.stages[o].steps|
      invariant 0 <= j <= |jobs| == |a.stages[o].steps|
      invariant srv.calls + CreateAll(b, jobs[j..]).0 == old(srv.calls) + all.0
      invariant CreateAll(b, jobs[j..]).1 == all.1
    {
      var job := a.JobName(o, j);
      assert jobs[j..][0] == job && jobs[j..][1..] == jobs[j + 1..];
      err := srv.CreateJob(job);
      if err.Some? {
        return;
      }
      j := j + 1;
    }
    assert CreateAll(b, jobs[j..]) == ([], None);
    return None;
  }

  /** The loop over all stages calling `CreateStage`, stopping at the first failure. */
  method CreateStages(a: Activity, srv: Server) returns (err: Option<Error>)
    modifies srv`calls
    ensures srv.calls == old(srv.calls) + CreateAll(srv.backend, JobsFrom(a.pipeline.name, a.id, a.stages, 0)).0
    ensures err == CreateAll(srv.backend, JobsFrom(a.pipeline.name, a.id, a.stages, 0)).1
  {
    var pn, id, stages, b := a.pipeline.name, a.id, a.stages, srv.backend;
    ghost var all := CreateAll(b, JobsFrom(pn, id, stages, 0));
    var k := 0;
    while k < |stages|
      invariant 0 <= k <= |stages| && a.stages == stages
      invariant srv.calls + CreateAll(b, JobsFrom(pn, id, stages, k)).0 == old(srv.calls) + all.0
      invariant CreateAll(b, JobsFrom(pn, id, stages, k)).1 == all.1
    {
      CreateAllAppend(b, StageJobs(pn, id, stages, k), JobsFrom(pn, id, stages, k + 1));
      err := CreateStage(a, srv, k);
      if err.Some? {
        return;
      }
      k := k + 1;
    }
    return None;
  }

  /** The run variables of a fresh activity. */
  function FirstEnv(p: Pipeline, node: string, id: string, triggerType: string, backend: Backend, stageSuccess: ActivityStage -> bool, now: int): RunEnv
    requires |p.stages| > 0 && |p.stages[0].steps| > 0
  {
    var entries := EnvEntries(p, node, id, p.runCount + 1, "", triggerType);
    RunEnv(p, id, Assign(entries), KeyOrder(entries), backend, stageSuccess, now)
  }

  /**
   * What `RunPipeline` does to the requests sent and which error it reports,
   * with `Waiting`, unstopped mirrors of the stages as the starting state.
   */
  function LaunchF(p: Pipeline, triggerType: string, nodes: Option<seq<string>>, pick: nat, id: string, now: int,
                   b: Backend, stageSuccess: ActivityStage -> bool, calls: seq<Call>): Outcome
    requires |p.stages| > 0 && |p.stages[0].steps| > 0
  {
    var s := RunState(Waiting, 0, StagesOf(p), calls);
    match NodeToRun(nodes, pick)
    case Err(err) => Outcome(s, Some(err))
    case Ok(node) =>
      var created := CreateAll(b, JobsFrom(p.name, id, StagesOf(p), 0));
      var s1 := s.(calls := calls + created.0);
      if created.1.Some? then Outcome(s1, created.1)
      else RunStageF(FirstEnv(p, node, id, triggerType, b, stageSuccess, now), s1, 0)
  }

  /**
   * The fields a new run sets: identity, definition, node, trigger, sequence
   * number, start time, no commit yet, and the run variables.
   */
  predicate Launched(a: Activity, p: Pipeline, triggerType: string, node: string, id: string, now: int)
    reads a`triggerType, a`runSequence, a`startTS, a`nodeName, a`commitInfo, a`envVars, a`envOrder
  {
    |p.stages| > 0 && |p.stages[0].steps| > 0
    && var entries := EnvEntries(p, node, id, p.runCount + 1, "", triggerType);
    a.id == id && a.pipeline == p && a.nodeName == node && a.triggerType == triggerType
    && a.runSequence == p.runCount + 1 && a.startTS == now && a.commitInfo == ""
    && a.envVars == Assign(entries) && a.envOrder == KeyOrder(entries)
  }

  /**
   * The first half of `RunPipeline`: build the activity (node pick,
   * identifier and clock given), record the trigger, set the run variables
   * and create the jobs of every stage.
   */
  method PrepareActivity(p: Pipeline, triggerType: string, nodes: Option<seq<string>>, pick: nat, id: string, now: int, srv: Server)
    returns (r: Result<Activity, Error>)
    requires |p.stages| > 0 && |p.stages[0].steps| > 0
    modifies srv`calls
    ensures NodeToRun(nodes, pick).Err? ==> r == Err(NodeToRun(nodes, pick).error) && srv.calls == old(srv.calls)
    ensures NodeToRun(nodes, pick).Ok? ==>
      var created := CreateAll(srv.backend, JobsFrom(p.name, id, StagesOf(p), 0));
      srv.calls == old(srv.calls) + created.0
      && (created.1.Some? ==> r == Err(created.1.value))
      && (created.1.None? ==> r.Ok?)
    ensures r.Ok? ==>
      fresh(r.value) && r.value.Valid() && Launched(r.value, p, triggerType, NodeToRun(nodes, pick).value, id, now)
      && r.value.status == Waiting && r.value.stopTS == 0 && r.value.stages == StagesOf(p)
  {
    r := NewActivity(p, triggerType, nodes, pick, id, now);
    if r.Err? {
      return;
    }
    var err := CreateStages(r.value, srv);
    if err.Some? {
      return Err(err.value);
    }
  }

  /** Build the activity, record the trigger and set the run variables. */
  method NewActivity(p: Pipeline, triggerType: string, nodes: Option<seq<string>>, pick: nat, id: string, now: int)
    returns (r: Result<Activity, Error>)
    requires |p.stages| > 0 && |p.stages[0].steps| > 0
    ensures NodeToRun(nodes, pick).Err? ==> r == Err(NodeToRun(nodes, pick).error)
    ensures NodeToRun(nodes, pick).Ok? ==> r.Ok?
    ensures r.Ok? ==>
      fresh(r.value) && r.value.Valid() && Launched(r.value, p, triggerType, NodeToRun(nodes, pick).value, id, now)
      && r.value.status == Waiting && r.value.stopTS == 0 && r.value.stages == StagesOf(p)
  {
    r := ToActivity(p, nodes, pick, id, now);
    if r.Err? {
      return;
    }
    var a := r.value;
    a.triggerType := triggerType;
    InitEnvVars(a);
  }

  /**
   * `RunPipeline` on the provider: prepare the activity, then run its first
   * stage. A failure anywhere yields no activity. The definition must have a
   * first step: its repository and branch are read before the check for an
   * empty definition.
   */
  method RunPipeline(p: Pipeline, triggerType: string, nodes: Option<seq<string>>, pick: nat, id: string, now: int,
                     srv: Server, stageSuccess: ActivityStage -> bool)
    returns (r: Result<Activity, Error>)
    requires |p.stages| > 0 && |p.stages[0].steps| > 0
    modifies srv`calls
    ensures var f := LaunchF(p, triggerType, nodes, pick, id, now, srv.backend, stageSuccess, old(srv.calls));
      srv.calls == f.state.calls && (r.Err? <==> f.err.Some?) && (r.Err? ==> r.error == f.err.value)
    ensures r.Ok? ==>
      fresh(r.value) && r.value.Valid() && Launched(r.value, p, triggerType, NodeToRun(nodes, pick).value, id, now)
      && StateOf(r.value, srv) == LaunchF(p, triggerType, nodes, pick, id, now, srv.backend, stageSuccess, old(srv.calls)).state
  {
    ghost var calls0 := srv.calls;
    r := PrepareActivity(p, triggerType, nodes, pick, id, now, srv);
    if r.Err? {
      return;
    }
    var a := r.value;
    LaunchRunsFirstStage(p, triggerType, nodes, pick, id, now, srv.backend, stageSuccess, calls0);
    assert EnvOf(a, srv, stageSuccess, now) == FirstEnv(p, a.nodeName, id, triggerType, srv.backend, stageSuccess, now);
    var err := RunStage(a, srv, 0, stageSuccess, now);
    if err.Some? {
      return Err(err.value);
    }
  }

  /** Once a node is picked and every job is created, a new run is the run of its first stage. */
  lemma LaunchRunsFirstStage(p: Pipeline, triggerType: string, nodes: Option<seq<string>>, pick: nat, id: string, now: int,
                             b: Backend, stageSuccess: ActivityStage -> bool, calls: seq<Call>)
    requires |p.stages| > 0 && |p.stages[0].steps| > 0 && NodeToRun(nodes, pick).Ok?
    requires CreateAll(b, JobsFrom(p.name, id, StagesOf(p), 0)).1.None?
    ensures LaunchF(p, triggerType, nodes, pick, id, now, b, stageSuccess, calls)
            == RunStageF(FirstEnv(p, NodeToRun(nodes, pick).value, id, triggerType, b, stageSuccess, now),
                         RunState(Waiting, 0, StagesOf(p), calls + CreateAll(b, JobsFrom(p.name, id, StagesOf(p), 0)).0), 0)
  {
  }

  /** A new run ends `Waiting`, or `Success` with the clean-up run when every stage was skipped. */
  lemma FirstRunStatus(e: RunEnv, s: RunState)
    requires EnvOk(e) && Fits(e, s) && s.status == Waiting
    ensures var r := RunStageF(e, s, 0).state;
      s.calls <= r.calls
      && (r.status == Success <==> Cleanup(e.activityId) in r.calls[|s.calls|..])
      && (r.status == Waiting <==> Cleanup(e.activityId) !in r.calls[|s.calls|..])
  {
    RunStageEffect(e, s, 0);
  }

  // ---- RerunActivity ----

  /**
   * What a rerun does before picking a node: recreate every job when the
   * first step's job is gone from the server, otherwise delete the builds of
   * the finished steps.
   */
  function RerunPrep(b: Backend, pipelineName: string, id: string, stages: seq<ActivityStage>): (seq<Call>, Option<Error>)
    requires |stages| > 0
  {
    if GetJobInfo(b, JobNames.GetJobName(pipelineName, id, stages[0].name, 0)).Err? then
      CreateAll(b, JobsFrom(pipelineName, id, stages, 0))
    else
      DeleteAll(b, Abort.Targets(pipelineName, id, stages, 0))
  }

  /**
   * When nothing fails, the preparation recreates the job of every step, or
   * deletes the build of every finished step, and touches no other job.
   */
  lemma RerunPrepTargets(b: Backend, pipelineName: string, id: string, stages: seq<ActivityStage>, c: Call)
    requires |stages| > 0 && RerunPrep(b, pipelineName, id, stages).1.None?
    ensures c in RerunPrep(b, pipelineName, id, stages).0 <==>
      if GetJobInfo(b, JobNames.GetJobName(pipelineName, id, stages[0].name, 0)).Err? then
        c.Create? && exists o, j :: 0 <= o < |stages| && 0 <= j < |stages[o].steps|
                                 && c.job == JobNames.GetJobName(pipelineName, id, stages[o].name, j)
      else
        c.Delete? && exists o, j :: 0 <= o < |stages| && 0 <= j < |stages[o].steps| && Abort.Finished(stages[o].steps[j])
                                 && c.job == JobNames.GetJobName(pipelineName, id, stages[o].name, j)
  {
    var job0 := JobNames.GetJobName(pipelineName, id, stages[0].name, 0);
    if GetJobInfo(b, job0).Err? {
      var jobs := JobsFrom(pipelineName, id, stages, 0);
      CreateAllSpec(b, jobs);
      if c.Create? {
        JobsFromMembers(pipelineName, id, stages, 0, c.job);
        if c in RerunPrep(b, pipelineName, id, stages).0 {
          var k :| 0 <= k < |jobs| && RerunPrep(b, pipelineName, id, stages).0[k] == c;
          assert jobs[k] == c.job;
        }
        if c.job in jobs {
          var k :| 0 <= k < |jobs| && jobs[k] == c.job;
          assert RerunPrep(b, pipelineName, id, stages).0[k] == c;
        }
      }
    } else {
      var jobs := Abort.Targets(pipelineName, id, stages, 0);
      DeleteAllSpec(b, jobs);
      if c.Delete? {
        if c in RerunPrep(b, pipelineName, id, stages).0 {
          var k :| 0 <= k < |jobs| && RerunPrep(b, pipelineName, id, stages).0[k] == c;
          Abort.TargetsAreFinished(pipelineName, id, stages, 0, c.job);
        }
        if exists o, j :: 0 <= o < |stages| && 0 <= j < |stages[o].steps| && Abort.Finished(stages[o].steps[j])
                         && c.job == JobNames.GetJobName(pipelineName, id, stages[o].name, j) {
          var o, j :| 0 <= o < |stages| && 0 <= j < |stages[o].steps| && Abort.Finished(stages[o].steps[j])
                      && c.job == JobNames.GetJobName(pipelineName, id, stages[o].name, j);
          Abort.FinishedAreTargets(pipelineName, id, stages, 0, o, j);
          var k :| 0 <= k < |jobs| && jobs[k] == c.job;
          assert RerunPrep(b, pipelineName, id, stages).0[k] == c;
        }
      }
    }
  }

  /** The first part of `RerunActivity`: recreate the jobs or delete the former builds. */
  method RefreshJobs(a: Activity, srv: Server) returns (err: Option<Error>)
    requires a.Valid() && |a.stages| > 0
    modifies srv`calls
    ensures srv.calls == old(srv.calls) + RerunPrep(srv.backend, a.pipeline.name, a.id, a.stages).0
    ensures err == RerunPrep(srv.backend, a.pipeline.name, a.id, a.stages).1
  {
    var info := GetJobInfo(srv.backend, a.JobName(0, 0));
    if info.Err? {
      err := CreateStages(a, srv);
    } else {
      err := Abort.DeleteFormerBuild(a, srv);
    }
  }

  /**
   * `RerunActivity`: prepare the jobs, pick a node, renumber and restart the
   * activity, set its run variables and run the first stage. Statuses left
   * by the previous run are not reset here.
   */
  method RerunActivity(a: Activity, srv: Server, nodes: Option<seq<string>>, pick: nat, now: int,
                       stageSuccess: ActivityStage -> bool)
    returns (err: Option<Error>)
    requires a.Valid() && |a.pipeline.stages| > 0 && |a.pipeline.stages[0].steps| > 0
    modifies a`nodeName, a`runSequence, a`startTS, a`envVars, a`envOrder, a`status, a`stopTS, a`stages, srv`calls
    ensures a.Valid()
    ensures var prep := RerunPrep(srv.backend, a.pipeline.name, a.id, old(a.stages));
      if prep.1.Some? || NodeToRun(nodes, pick).Err? then
        err == (if prep.1.Some? then prep.1 else Some(NodeToRun(nodes, pick).error))
        && srv.calls == old(srv.calls) + prep.0 && unchanged(a)
      else
        var entries := EnvEntries(a.pipeline, NodeToRun(nodes, pick).value, a.id, a.pipeline.runCount + 1, old(a.commitInfo), old(a.triggerType));
        a.nodeName == NodeToRun(nodes, pick).value && a.runSequence == a.pipeline.runCount + 1 && a.startTS == now
        && a.envVars == Assign(entries) && a.envOrder == KeyOrder(entries)
        && Outcome(StateOf(a, srv), err)
           == RunStageF(EnvOf(a, srv, stageSuccess, now), RunState(old(a.status), old(a.stopTS), old(a.stages), old(srv.calls) + prep.0), 0)
  {
    err := RefreshJobs(a, srv);
    if err.Some? {
      return;
    }
    var node := NodeToRun(nodes, pick);
    if node.Err? {
      return Some(node.error);
    }
    ghost var s0 := StateOf(a, srv);
    Restart(a, node.value, now);
    assert StateOf(a, srv) == s0;
    err := RunStage(a, srv, 0, stageSuccess, now);
  }

  /** The middle of `RerunActivity`: the new node, sequence number, start time and run variables. */
  method Restart(a: Activity, node: string, now: int)
    requires a.Valid() && |a.pipeline.stages| > 0 && |a.pipeline.stages[0].steps| > 0
    modifies a`nodeName, a`runSequence, a`startTS, a`envVars, a`envOrder
    ensures a.Valid()
    ensures var entries := EnvEntries(a.pipeline, node, a.id, a.pipeline.runCount + 1, a.commitInfo, a.triggerType);
      a.nodeName == node && a.runSequence == a.pipeline.runCount + 1 && a.startTS == now
      && a.envVars == Assign(entries) && a.envOrder == KeyOrder(entries)
  {
    a.nodeName := node;
    a.runSequence := a.pipeline.runCount + 1;
    a.startTS := now;
    InitEnvVars(a);
  }
}
