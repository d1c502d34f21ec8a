/**
 * Aborting an activity (`StopActivity`, `StopStep`) and removing the builds
 * of a finished run before it is run again (`DeleteFormerBuild`).
 */
module Abort {
  import opened Wrappers
  import opened Model
  import opened Jenkins
  import opened Activities
  import opened Driver
  import JobNames

  /** A stage `StopActivity` passes over. */
  predicate Settled(st: ActivityStage) {
    st.status == Success || st.status == Skip
  }

  /** The first stage that is neither `Success` nor `Skip`, or `|stages|`. */
  function FirstLive(stages: seq<ActivityStage>): (k: nat)
    ensures k <= |stages|
    ensures forall j :: 0 <= j < k ==> Settled(stages[j])
    ensures k < |stages| ==> !Settled(stages[k])
  {
    if stages == [] then 0
    else if !Settled(stages[0]) then 0
    else 1 + FirstLive(stages[1..])
  }

  /** The requests `StopStep` sends for a job, which depend only on the server's answers. */
  function StopCalls(b: Backend, job: string): seq<Call> {
    match GetJobInfo(b, job)
    case Err(_) => []
    case Ok(info) =>
      if info.inQueue then
        (if info.queueItem.QueueId? then [CancelQueue(info.queueItem.id)] else [])
      else
        match GetBuildInfo(b, job)
        case Err(_) => []
        case Ok(build) => if build.building then [Stop(job)] else []
  }

  /**
   * `StopStep(a, o, i)`: a queued build is removed from the queue; a running
   * one is stopped and its step marked `Abort`, its duration running to now.
   */
  function StopStepF(b: Backend, pipelineName: string, id: string, s: RunState, o: nat, i: nat, now: int): (r: Outcome)
    requires o < |s.stages| && i < |s.stages[o].steps|
    ensures r.state.calls == s.calls + StopCalls(b, JobNames.GetJobName(pipelineName, id, s.stages[o].name, i))
    ensures r.state.status == s.status && r.state.stopTS == s.stopTS
    ensures |r.state.stages| == |s.stages|
    ensures forall k :: 0 <= k < |s.stages| && k != o ==> r.state.stages[k] == s.stages[k]
    ensures r.state.stages[o] == s.stages[o].(steps := r.state.stages[o].steps)
    ensures |r.state.stages[o].steps| == |s.stages[o].steps|
    ensures forall j :: 0 <= j < |s.stages[o].steps| && j != i ==> r.state.stages[o].steps[j] == s.stages[o].steps[j]
  {
    var job := JobNames.GetJobName(pipelineName, id, s.stages[o].name, i);
    match GetJobInfo(b, job)
    case Err(err) => Outcome(s, Some(err))
    case Ok(info) =>
      if info.inQueue then
        match info.queueItem
        case NotAMap => Outcome(s, Some(QueueItemNotAMap))
        case NoId => Outcome(s, Some(QueueIdMissing))
        case QueueId(q) =>
          Outcome(s.(calls := s.calls + [CancelQueue(q)]), if q in b.cancelFails then Some(CancelQueueFailed(q)) else None)
      else
        match GetBuildInfo(b, job)
        case Err(err) => Outcome(s, Some(err))
        case Ok(build) =>
          if !build.building then Outcome(s, None)
          else if job in b.stopFails then Outcome(s.(calls := s.calls + [Stop(job)]), Some(StopJobFailed(job)))
          else
            var step := s.stages[o].steps[i];
            Outcome(RunState(s.status, s.stopTS, SetStep(s.stages, o, i, step.(status := Abort, duration := now - step.startTS)), s.calls + [Stop(job)]), None)
  }

  /** The requests `StopStep` sends for steps `i..` of a stage. */
  function StopCallsFrom(b: Backend, pipelineName: string, id: string, stageName: string, i: nat, n: nat): seq<Call>
    decreases n - i
  {
    if i >= n then [] else StopCalls(b, JobNames.GetJobName(pipelineName, id, stageName, i)) + StopCallsFrom(b, pipelineName, id, stageName, i + 1, n)
  }

  /** `StopStep` on steps `i..` of stage `o`, carrying on past errors. */
  function StopStepsF(b: Backend, pipelineName: string, id: string, s: RunState, o: nat, i: nat, now: int): (r: RunState)
    requires o < |s.stages| && i <= |s.stages[o].steps|
    ensures r.calls == s.calls + StopCallsFrom(b, pipelineName, id, s.stages[o].name, i, |s.stages[o].steps|)
    ensures r.status == s.status && r.stopTS == s.stopTS
    ensures |r.stages| == |s.stages|
    ensures forall k :: 0 <= k < |s.stages| && k != o ==> r.stages[k] == s.stages[k]
    ensures r.stages[o] == s.stages[o].(steps := r.stages[o].steps)
    ensures |r.stages[o].steps| == |s.stages[o].steps|
    decreases |s.stages[o].steps| - i
  {
    if i == |s.stages[o].steps| then s
    else StopStepsF(b, pipelineName, id, StopStepF(b, pipelineName, id, s, o, i, now).state, o, i + 1, now)
  }

  /**
   * `StopActivity`: the activity is `Abort`, stopped now; the first stage
   * that is neither `Success` nor `Skip` has every step stopped and becomes
   * `Abort`, its duration running to now. Later stages are left alone.
   */
  function StopActivityF(b: Backend, pipelineName: string, id: string, s: RunState, now: int): RunState {
    var s1 := s.(status := Abort, stopTS := now);
    var k := FirstLive(s.stages);
    if k == |s.stages| then s1 else AbortStageF(b, pipelineName, id, s1, k, now)
  }

  /** Stage `k` has every step stopped and becomes `Abort`, its duration running to now. */
  function AbortStageF(b: Backend, pipelineName: string, id: string, s: RunState, k: nat, now: int): RunState
    requires k < |s.stages|
  {
    var s2 := StopStepsF(b, pipelineName, id, s, k, 0, now);
    s2.(stages := s2.stages[k := s2.stages[k].(status := Abort, duration := now - s2.stages[k].startTS)])
  }

  /** `StopStep`: stop step `i` of stage `o`. */
  method StopStep(a: Activity, srv: Server, o: nat, i: nat, now: int) returns (err: Option<Error>)
    requires o < |a.stages| && i < |a.stages[o].steps|
    modifies a`stages, srv`calls
    ensures Outcome(StateOf(a, srv), err) == StopStepF(srv.backend, a.pipeline.name, a.id, old(StateOf(a, srv)), o, i, now)
  {
    var job := a.JobName(o, i);
    var info := GetJobInfo(srv.backend, job);
    if info.Err? {
      return Some(info.error);
    }
    if info.value.inQueue {
      var item := info.value.queueItem;
      if item.NotAMap? {
        return Some(QueueItemNotAMap);
      }
      if item.NoId? {
        return Some(QueueIdMissing);
      }
      err := srv.CancelQueueItem(item.id);
      return;
    }
    var build := GetBuildInfo(srv.backend, job);
    if build.Err? {
      return Some(build.error);
    }
    if build.value.building {
      err := srv.StopJob(job);
      if err.Some? {
        return;
      }
      var step := a.stages[o].steps[i];
      a.stages := SetStep(a.stages, o, i, step.(status := Abort, duration := now - step.startTS));
    }
    return None;
  }

  /** `StopActivity`: abort the activity and its first live stage. */
  method StopActivity(a: Activity, srv: Server, now: int)
    modifies a`status, a`stopTS, a`stages, srv`calls
    ensures StateOf(a, srv) == StopActivityF(srv.backend, a.pipeline.name, a.id, old(StateOf(a, srv)), now)
  {
    ghost var s0 := StateOf(a, srv);
    a.status := Abort;
    a.stopTS := now;
    var k := 0;
    while k < |a.stages|
      invariant 0 <= k <= |a.stages|
      invariant forall j :: 0 <= j < k ==> Settled(a.stages[j])
      invariant StateOf(a, srv) == s0.(status := Abort, stopTS := now)
    {
      if Settled(a.stages[k]) {
        k := k + 1;
        continue;
      }
      assert FirstLive(s0.stages) == k;
      AbortStage(a, srv, k, now);
      return;
    }
    assert FirstLive(s0.stages) == |s0.stages|;
  }

  /** The abort of the first live stage `k`: stop each of its steps in turn, then mark it. */
  method AbortStage(a: Activity, srv: Server, k: nat, now: int)
    requires k < |a.stages|
    modifies a`stages, srv`calls
    ensures StateOf(a, srv) == AbortStageF(srv.backend, a.pipeline.name, a.id, old(StateOf(a, srv)), k, now)
  {
    ghost var s1 := StateOf(a, srv);
    var i := 0;
    while i < |a.stages[k].steps|
      invariant |a.stages| == |s1.stages| && 0 <= i <= |a.stages[k].steps|
      invariant StopStepsF(srv.backend, a.pipeline.name, a.id, StateOf(a, srv), k, i, now)
                == StopStepsF(srv.backend, a.pipeline.name, a.id, s1, k, 0, now)
    {
      var _ := StopStep(a, srv, k, i, now);
      i := i + 1;
    }
    a.stages := a.stages[k := a.stages[k].(status := Abort, duration := now - a.stages[k].startTS)];
  }

  // ---- properties of an abort ----

  /**
   * After an abort the activity is `Abort`, stopped now; `Success` and `Skip`
   * stages before the first live one are untouched, that stage is `Abort`
   * (even one that had failed) and every later stage is untouched.
   */
  lemma StopAbortsFirstLiveStage(b: Backend, pipelineName: string, id: string, s: RunState, now: int)
    ensures var r := StopActivityF(b, pipelineName, id, s, now);
      r.status == Abort && r.stopTS == now && |r.stages| == |s.stages|
      && (forall j :: 0 <= j < |s.stages| && j != FirstLive(s.stages) ==> r.stages[j] == s.stages[j])
      && (FirstLive(s.stages) < |s.stages| ==>
            var k := FirstLive(s.stages);
            r.stages[k].status == Abort && r.stages[k].duration == now - s.stages[k].startTS
            && r.stages[k].name == s.stages[k].name && |r.stages[k].steps| == |s.stages[k].steps|)
  {
  }

  /** A failed stage met first is re-marked `Abort`. */
  lemma StopRemarksFailedStage(b: Backend, pipelineName: string, id: string, s: RunState, now: int, k: nat)
    requires k < |s.stages| && s.stages[k].status == Fail
    requires forall j :: 0 <= j < k ==> Settled(s.stages[j])
    ensures StopActivityF(b, pipelineName, id, s, now).stages[k].status == Abort
  {
    FirstLiveIs(s.stages, k);
  }

  lemma {:induction false} FirstLiveIs(stages: seq<ActivityStage>, k: nat)
    requires k < |stages| && !Settled(stages[k])
    requires forall j :: 0 <= j < k ==> Settled(stages[j])
    ensures FirstLive(stages) == k
  {
    if k > 0 {
      FirstLiveIs(stages[1..], k - 1);
    }
  }

  /**
   * `StopStep` marks a step `Abort` exactly when its job is not queued, its
   * last build is running and the stop request succeeds.
   */
  lemma StopStepAbortsOnlyRunningBuilds(b: Backend, pipelineName: string, id: string, s: RunState, o: nat, i: nat, now: int)
    requires o < |s.stages| && i < |s.stages[o].steps| && s.stages[o].steps[i].status != Abort
    ensures var job := JobNames.GetJobName(pipelineName, id, s.stages[o].name, i);
      StopStepF(b, pipelineName, id, s, o, i, now).state.stages[o].steps[i].status == Abort
      <==> job in b.jobs && !b.jobs[job].inQueue && job in b.builds && b.builds[job].building && job !in b.stopFails
  {
  }

  /**
   * The abort sends, for each step of the first live stage in order, a queue
   * cancellation for a queued build and a stop for a running one, and nothing
   * else, whatever errors individual steps meet.
   */
  lemma StopReachesEveryStep(b: Backend, pipelineName: string, id: string, s: RunState, now: int)
    requires FirstLive(s.stages) < |s.stages|
    ensures var k := FirstLive(s.stages);
      StopActivityF(b, pipelineName, id, s, now).calls
      == s.calls + StopCallsFrom(b, pipelineName, id, s.stages[k].name, 0, |s.stages[k].steps|)
  {
  }

  /** Illustration of `StopReachesEveryStep`: two running builds in the aborted stage mean exactly two stop requests. */
  lemma StopTwoRunningSteps(b: Backend, pipelineName: string, id: string, stageName: string)
    requires var j0, j1 := JobNames.GetJobName(pipelineName, id, stageName, 0), JobNames.GetJobName(pipelineName, id, stageName, 1);
      j0 in b.jobs && !b.jobs[j0].inQueue && j0 in b.builds && b.builds[j0].building
      && j1 in b.jobs && !b.jobs[j1].inQueue && j1 in b.builds && b.builds[j1].building
    ensures StopCallsFrom(b, pipelineName, id, stageName, 0, 2)
            == [Stop(JobNames.GetJobName(pipelineName, id, stageName, 0)), Stop(JobNames.GetJobName(pipelineName, id, stageName, 1))]
  {
    assert StopCallsFrom(b, pipelineName, id, stageName, 2, 2) == [];
  }

  // ---- DeleteFormerBuild ----

  /** A step whose build a rerun deletes: one that finished. */
  predicate Finished(st: ActivityStep) {
    st.status == Success || st.status == Fail
  }

  /** The jobs of the finished steps of stage `k` from step `j` on. */
  function StepTargets(pipelineName: string, id: string, stages: seq<ActivityStage>, k: nat, j: nat): seq<string>
    requires k < |stages|
    decreases |stages[k].steps| - j
  {
    if j >= |stages[k].steps| then []
    else
      (if Finished(stages[k].steps[j]) then [JobNames.GetJobName(pipelineName, id, stages[k].name, j)] else [])
      + StepTargets(pipelineName, id, stages, k, j + 1)
  }

  /** The jobs of the finished steps of stages `k..`, in stage and step order. */
  function Targets(pipelineName: string, id: string, stages: seq<ActivityStage>, k: nat): seq<string>
    decreases |stages| - k
  {
    if k >= |stages| then [] else StepTargets(pipelineName, id, stages, k, 0) + Targets(pipelineName, id, stages, k + 1)
  }

  /** Every job the rerun deletes belongs to a `Success` or `Fail` step. */
  lemma {:induction false} TargetsAreFinished(pipelineName: string, id: string, stages: seq<ActivityStage>, k: nat, job: string)
    requires job in Targets(pipelineName, id, stages, k)
    ensures exists o, j :: k <= o < |stages| && 0 <= j < |stages[o].steps| && Finished(stages[o].steps[j])
                         && job == JobNames.GetJobName(pipelineName, id, stages[o].name, j)
    decreases |stages| - k
  {
    if job in StepTargets(pipelineName, id, stages, k, 0) {
      StepTargetsAreFinished(pipelineName, id, stages, k, 0, job);
    } else {
      TargetsAreFinished(pipelineName, id, stages, k + 1, job);
    }
  }

  lemma {:induction false} StepTargetsAreFinished(pipelineName: string, id: string, stages: seq<ActivityStage>, k: nat, j: nat, job: string)
    requires k < |stages| && job in StepTargets(pipelineName, id, stages, k, j)
    ensures exists i :: j <= i < |stages[k].steps| && Finished(stages[k].steps[i])
                      && job == JobNames.GetJobName(pipelineName, id, stages[k].name, i)
    decreases |stages[k].steps| - j
  {
    if !(Finished(stages[k].steps[j]) && job == JobNames.GetJobName(pipelineName, id, stages[k].name, j)) {
      StepTargetsAreFinished(pipelineName, id, stages, k, j + 1, job);
    }
  }

  /** Every finished step has its job's build deleted. */
  lemma {:induction false} FinishedAreTargets(pipelineName: string, id: string, stages: seq<ActivityStage>, k: nat, o: nat, j: nat)
    requires k <= o < |stages| && j < |stages[o].steps| && Finished(stages[o].steps[j])
    ensures JobNames.GetJobName(pipelineName, id, stages[o].name, j) in Targets(pipelineName, id, stages, k)
    decreases |stages| - k
  {
    if k == o {
      FinishedStepIsTarget(pipelineName, id, stages, o, 0, j);
    } else {
      FinishedAreTargets(pipelineName, id, stages, k + 1, o, j);
    }
  }

  lemma {:induction false} FinishedStepIsTarget(pipelineName: string, id: string, stages: seq<ActivityStage>, o: nat, i: nat, j: nat)
    requires o < |stages| && i <= j < |stages[o].steps| && Finished(stages[o].steps[j])
    ensures JobNames.GetJobName(pipelineName, id, stages[o].name, j) in StepTargets(pipelineName, id, stages, o, i)
    decreases j - i
  {
    if i < j {
      FinishedStepIsTarget(pipelineName, id, stages, o, i + 1, j);
    }
  }

  /** The inner loop of `DeleteFormerBuild`: the finished steps of stage `k`. */
  method DeleteStageBuilds(srv: Server, pipelineName: string, id: string, stages: seq<ActivityStage>, k: nat) returns (err: Option<Error>)
    requires k < |stages|
    modifies srv`calls
    ensures srv.calls == old(srv.calls) + DeleteAll(srv.backend, StepTargets(pipelineName, id, stages, k, 0)).0
    ensures err == DeleteAll(srv.backend, StepTargets(pipelineName, id, stages, k, 0)).1
  {
    var b := srv.backend;
    ghost var all := DeleteAll(b, StepTargets(pipelineName, id, stages, k, 0));
    var j := 0;
    while j < |stages[k].steps|
      invariant 0 <= j <= |stages[k].steps|
      invariant srv.calls + DeleteAll(b, StepTargets(pipelineName, id, stages, k, j)).0 == old(srv.calls) + all.0
      invariant DeleteAll(b, StepTargets(pipelineName, id, stages, k, j)).1 == all.1
    {
      var job := JobNames.GetJobName(pipelineName, id, stages[k].name, j);
      ghost var later := StepTargets(pipelineName, id, stages, k, j + 1);
      if Finished(stages[k].steps[j]) {
        assert StepTargets(pipelineName, id, stages, k, j) == [job] + later;
        assert ([job] + later)[1..] == later;
        err := srv.DeleteBuild(job);
        if err.Some? {
          return;
        }
      } else {
        assert StepTargets(pipelineName, id, stages, k, j) == later;
      }
      j := j + 1;
    }
    return None;
  }

  /**
   * `DeleteFormerBuild`: delete the last build of every `Success` or `Fail`
   * step, in stage and step order, stopping at the first failure.
   */
  method DeleteFormerBuild(a: Activity, srv: Server) returns (err: Option<Error>)
    modifies srv`calls
    ensures srv.calls == old(srv.calls) + DeleteAll(srv.backend, Targets(a.pipeline.name, a.id, a.stages, 0)).0
    ensures err == DeleteAll(srv.backend, Targets(a.pipeline.name, a.id, a.stages, 0)).1
  {
    var pn, id, stages, b := a.pipeline.name, a.id, a.stages, srv.backend;
    ghost var all := DeleteAll(b, Targets(pn, id, stages, 0));
    var k := 0;
    while k < |stages|
      invariant 0 <= k <= |stages|
      invariant srv.calls + DeleteAll(b, Targets(pn, id, stages, k)).0 == old(srv.calls) + all.0
      invariant DeleteAll(b, Targets(pn, id, stages, k)).1 == all.1
    {
      DeleteAllAppend(b, StepTargets(pn, id, stages, k, 0), Targets(pn, id, stages, k + 1));
      err := DeleteStageBuilds(srv, pn, id, stages, k);
      if err.Some? {
        return;
      }
      k := k + 1;
    }
    return None;
  }
}
