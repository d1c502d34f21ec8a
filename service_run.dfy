/**
 * The pipeline service's `RunPipeline`: look the definition up, start a run
 * on the provider and write the run counters back into the stored
 * definition.
 */
module ServiceRun {
  import opened Wrappers
  import opened Model
  import opened Jenkins
  import opened Activities
  import opened Driver
  import opened Lifecycle
  import opened PipelineService

  /** The stored pipeline definitions, by identifier. */
  class PipelineStore {
    var pipelines: map<string, Pipeline>

    constructor (pipelines: map<string, Pipeline>)
      ensures this.pipelines == pipelines
    {
      this.pipelines := pipelines;
    }

    /** `GetPipelineById`. */
    function GetPipelineById(id: string): (r: Result<Pipeline, Error>)
      reads this
      ensures r.Ok? <==> id in pipelines
      ensures r.Ok? ==> r.value == pipelines[id]
      ensures r.Err? ==> r.error == PipelineNotFound(id)
    {
      if id in pipelines then Ok(pipelines[id]) else Err(PipelineNotFound(id))
    }
  }

  /**
   * The definition after a run started: the run counters and the last run's
   * identity, status and start time, then the next cron time.
   */
  function RecordRun(p: Pipeline, runSequence: int, activityId: string, status: Status, startTS: int,
                     zoneLoads: string -> bool, cronParses: string -> bool, nextFire: (string, string) -> int): (q: Pipeline)
    ensures q.id == p.id && q.name == p.name && q.stages == p.stages && q.parameters == p.parameters
    ensures q.cronTrigger == p.cronTrigger && q.isActivate == p.isActivate && q.keepWorkspace == p.keepWorkspace
    ensures q.nextRunTime == GetNextRunTime(p, zoneLoads, cronParses, nextFire)
  {
    var q := p.(runCount := runSequence, lastRunId := activityId, lastRunStatus := status, lastRunTime := startTS);
    q.(nextRunTime := GetNextRunTime(q, zoneLoads, cronParses, nextFire))
  }

  /**
   * `RunPipeline` on the service. A definition that is not stored yields
   * `PipelineNotFound`; a provider failure is passed on; in both cases the
   * stored definition is left alone.
   */
  method RunPipeline(store: PipelineStore, srv: Server, id: string, triggerType: string,
                     nodes: Option<seq<string>>, pick: nat, activityId: string, now: int,
                     stageSuccess: ActivityStage -> bool,
                     zoneLoads: string -> bool, cronParses: string -> bool, nextFire: (string, string) -> int)
    returns (r: Result<Activity, Error>)
    requires id in store.pipelines ==> |store.pipelines[id].stages| > 0 && |store.pipelines[id].stages[0].steps| > 0
    modifies store`pipelines, srv`calls
    ensures id !in old(store.pipelines) ==> r == Err(PipelineNotFound(id)) && srv.calls == old(srv.calls)
    ensures r.Err? ==> store.pipelines == old(store.pipelines)
    ensures id in old(store.pipelines) ==>
      var p := old(store.pipelines)[id];
      var f := LaunchF(p, triggerType, nodes, pick, activityId, now, srv.backend, stageSuccess, old(srv.calls));
      srv.calls == f.state.calls && (r.Err? <==> f.err.Some?) && (r.Err? ==> r.error == f.err.value)
      && (r.Ok? ==>
            r.value.pipeline == p && r.value.runSequence == p.runCount + 1
            && r.value.status == f.state.status && r.value.startTS == now
            && store.pipelines == old(store.pipelines)[id := RecordRun(p, p.runCount + 1, activityId, f.state.status, now,
                                                                      zoneLoads, cronParses, nextFire)])
  {
    var found := store.GetPipelineById(id);
    if found.Err? {
      return Err(found.error);
    }
    var p := found.value;
    r := Lifecycle.RunPipeline(p, triggerType, nodes, pick, activityId, now, srv, stageSuccess);
    if r.Err? {
      return;
    }
    var a := r.value;
    var q := RecordRun(p, a.runSequence, a.id, a.status, a.startTS, zoneLoads, cronParses, nextFire);
    store.pipelines := store.pipelines[id := q];
  }

  /** A run that starts leaves the pipeline `Waiting`, or `Success` when every stage was skipped. */
  lemma {:induction false} LaunchStatus(p: Pipeline, triggerType: string, nodes: Option<seq<string>>, pick: nat, id: string, now: int,
                                        b: Backend, stageSuccess: ActivityStage -> bool, calls: seq<Call>)
    requires |p.stages| > 0 && |p.stages[0].steps| > 0
    ensures var s := LaunchF(p, triggerType, nodes, pick, id, now, b, stageSuccess, calls).state;
      s.status == Waiting || s.status == Success
  {
    var s := RunState(Waiting, 0, StagesOf(p), calls);
    match NodeToRun(nodes, pick)
    case Err(_) =>
    case Ok(node) =>
      var created := CreateAll(b, JobsFrom(p.name, id, StagesOf(p), 0));
      var s1 := s.(calls := calls + created.0);
      if created.1.None? {
        var e := FirstEnv(p, node, id, triggerType, b, stageSuccess, now);
        assert Fits(e, s1) by {
          forall i | 0 <= i < |s1.stages|
            ensures |s1.stages[i].steps| == |e.pipeline.stages[i].steps|
          {
            assert s1.stages[i] == StageMirror(p.stages[i]);
          }
        }
        FirstRunStatus(e, s1);
      }
  }

  /**
   * After a successful run the stored definition counts one more run, names
   * this activity as its last run with a `Waiting` or `Success` status, and
   * keeps its stages, parameters and trigger.
   */
  lemma RecordedRunCounts(p: Pipeline, triggerType: string, nodes: Option<seq<string>>, pick: nat, activityId: string, now: int,
                          b: Backend, stageSuccess: ActivityStage -> bool, calls: seq<Call>,
                          zoneLoads: string -> bool, cronParses: string -> bool, nextFire: (string, string) -> int)
    requires |p.stages| > 0 && |p.stages[0].steps| > 0
    ensures var f := LaunchF(p, triggerType, nodes, pick, activityId, now, b, stageSuccess, calls);
      var q := RecordRun(p, p.runCount + 1, activityId, f.state.status, now, zoneLoads, cronParses, nextFire);
      q.runCount == p.runCount + 1 && q.lastRunId == activityId && q.lastRunTime == now
      && (q.lastRunStatus == Waiting || q.lastRunStatus == Success)
      && q.stages == p.stages && q.parameters == p.parameters && q.cronTrigger == p.cronTrigger
  {
    LaunchStatus(p, triggerType, nodes, pick, activityId, now, b, stageSuccess, calls);
  }
}
