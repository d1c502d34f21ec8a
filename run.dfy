/**
 * The orchestration driver: `RunStage` and `RunStep` trigger the jobs of a
 * stage (all of them for a parallel stage, the first for a sequential one),
 * skip units whose conditions are false and cascade a skip into the
 * completion of the stage or of the whole activity.
 *
 * `RunStageF`/`RunStepF` state what a call does to the part of the activity
 * it changes and to the requests sent to the server; the methods are proved
 * to do exactly that.
 */
module Driver {
  import opened Wrappers
  import opened Model
  import opened Jenkins
  import opened Activities
  import JobNames
  import PipelineService
  import Conditions

  /** What a run changes: activity status and stop time, the stage tree, the requests sent. */
  datatype RunState = RunState(status: Status, stopTS: int, stages: seq<ActivityStage>, calls: seq<Call>)

  datatype Outcome = Outcome(state: RunState, err: Option<Error>)

  /**
   * What a run reads: the pipeline snapshot, the activity id, the run
   * variables with their iteration order, the server's answers, the stage
   * success test of the service layer and the clock.
   */
  datatype RunEnv = RunEnv(
    pipeline: Pipeline,
    activityId: string,
    env: map<string, string>,
    order: seq<string>,
    backend: Backend,
    stageSuccess: ActivityStage -> bool,
    now: int)

  predicate EnvOk(e: RunEnv) {
    forall k | k in e.order :: k in e.env
  }

  /** The stage tree mirrors the definition: as many stages, as many steps in each. */
  predicate Fits(e: RunEnv, s: RunState) {
    |s.stages| == |e.pipeline.stages|
    && forall i :: 0 <= i < |s.stages| ==> |s.stages[i].steps| == |e.pipeline.stages[i].steps|
  }

  /** Two stage trees agree on everything but statuses and times. */
  predicate SameTree(a: seq<ActivityStage>, b: seq<ActivityStage>) {
    |a| == |b|
    && forall i :: 0 <= i < |a| ==>
      a[i].name == b[i].name && |a[i].steps| == |b[i].steps|
      && forall j :: 0 <= j < |a[i].steps| ==> a[i].steps[j].name == b[i].steps[j].name
  }

  /** The stage's gate: its conditions when it has any, otherwise open. */
  function StageGate(e: RunEnv, o: nat): Result<bool, Error>
    requires EnvOk(e) && o < |e.pipeline.stages|
  {
    var stage := e.pipeline.stages[o];
    if PipelineService.HasStageCondition(stage) then Conditions.EvaluateConditions(e.env, e.order, stage.conditions)
    else Ok(true)
  }

  /** The step's gate: its conditions when it has any, otherwise open. */
  function StepGate(e: RunEnv, o: nat, i: nat): Result<bool, Error>
    requires EnvOk(e) && o < |e.pipeline.stages| && i < |e.pipeline.stages[o].steps|
  {
    var step := e.pipeline.stages[o].steps[i];
    if PipelineService.HasStepCondition(step) then Conditions.EvaluateConditions(e.env, e.order, step.conditions)
    else Ok(true)
  }

  /** The activity succeeds: status, stop time and the clean-up run. */
  function Complete(e: RunEnv, s: RunState): RunState {
    s.(status := Success, stopTS := e.now, calls := s.calls + [Cleanup(e.activityId)])
  }

  /** Mark stage `o` skipped. */
  function SkipStage(stages: seq<ActivityStage>, o: nat): seq<ActivityStage>
    requires o < |stages|
  {
    stages[o := stages[o].(status := Skip)]
  }

  /** Stamp the start time of stage `o`. */
  function StartStage(stages: seq<ActivityStage>, o: nat, now: int): seq<ActivityStage>
    requires o < |stages|
  {
    stages[o := stages[o].(startTS := now)]
  }

  /** Mark step `i` of stage `o` skipped. */
  function SkipStep(stages: seq<ActivityStage>, o: nat, i: nat): seq<ActivityStage>
    requires o < |stages| && i < |stages[o].steps|
  {
    SetStepStatus(stages, o, i, Skip)
  }

  /** Stage `o` succeeds, its duration running from its start to `now`. */
  function FinishStage(stages: seq<ActivityStage>, o: nat, now: int): seq<ActivityStage>
    requires o < |stages|
  {
    stages[o := stages[o].(status := Success, duration := now - stages[o].startTS)]
  }

  function StepJob(e: RunEnv, stages: seq<ActivityStage>, o: nat, i: nat): string
    requires o < |stages|
  {
    JobNames.GetJobName(e.pipeline.name, e.activityId, stages[o].name, i)
  }

  function StepsMeasure(e: RunEnv, o: nat, i: nat): nat {
    if o < |e.pipeline.stages| && i <= |e.pipeline.stages[o].steps| then |e.pipeline.stages[o].steps| - i else 0
  }

  /** `RunStage(activity, o)`. */
  function RunStageF(e: RunEnv, s: RunState, o: nat): (r: Outcome)
    requires EnvOk(e) && Fits(e, s)
    ensures Fits(e, r.state) && SameTree(s.stages, r.state.stages)
    ensures s.calls <= r.state.calls
    ensures forall k :: 0 <= k < o && k < |s.stages| ==> r.state.stages[k] == s.stages[k]
    decreases |e.pipeline.stages| - o, 3, 0, 0
  {
    if |s.stages| <= o then Outcome(s, Some(IndexOutOfRange))
    else
      var gate := StageGate(e, o);
      if gate.Err? then Outcome(s, Some(gate.error))
      else if !gate.value then SkipStageF(e, s, o)
      else OpenStageF(e, s, o)
  }

  /** A stage whose conditions are false: skipped, then the activity completes or the next stage runs. */
  function SkipStageF(e: RunEnv, s: RunState, o: nat): (r: Outcome)
    requires EnvOk(e) && Fits(e, s) && o < |s.stages|
    ensures Fits(e, r.state) && SameTree(s.stages, r.state.stages)
    ensures s.calls <= r.state.calls
    ensures forall k :: 0 <= k < o ==> r.state.stages[k] == s.stages[k]
    decreases |e.pipeline.stages| - o, 2, 0, 0
  {
    var s1 := s.(stages := SkipStage(s.stages, o));
    if o == |s.stages| - 1 then Outcome(Complete(e, s1), None)
    else RunStageF(e, s1, o + 1)
  }

  /** A stage whose conditions hold: its start is stamped, then every step (parallel) or the first one runs. */
  function OpenStageF(e: RunEnv, s: RunState, o: nat): (r: Outcome)
    requires EnvOk(e) && Fits(e, s) && o < |s.stages|
    ensures Fits(e, r.state) && SameTree(s.stages, r.state.stages)
    ensures s.calls <= r.state.calls
    ensures forall k :: 0 <= k < o ==> r.state.stages[k] == s.stages[k]
    decreases |e.pipeline.stages| - o, 2, 0, 0
  {
    var s1 := s.(stages := StartStage(s.stages, o, e.now));
    if e.pipeline.stages[o].parallel then RunStepsF(e, s1, o, 0)
    else RunStepF(e, s1, o, 0)
  }

  /** The parallel trigger loop: `RunStep` on steps `i..` of stage `o`, stopping at the first error. */
  function RunStepsF(e: RunEnv, s: RunState, o: nat, i: nat): (r: Outcome)
    requires EnvOk(e) && Fits(e, s)
    requires o < |s.stages| && i <= |e.pipeline.stages[o].steps|
    ensures Fits(e, r.state) && SameTree(s.stages, r.state.stages)
    ensures s.calls <= r.state.calls
    ensures forall k :: 0 <= k < o ==> r.state.stages[k] == s.stages[k]
    decreases |e.pipeline.stages| - o, 1, StepsMeasure(e, o, i), 0
  {
    if i == |e.pipeline.stages[o].steps| then Outcome(s, None)
    else
      var r1 := RunStepF(e, s, o, i);
      if r1.err.Some? then r1 else RunStepsF(e, r1.state, o, i + 1)
  }

  /** `RunStep(activity, o, i)`. */
  function RunStepF(e: RunEnv, s: RunState, o: nat, i: nat): (r: Outcome)
    requires EnvOk(e) && Fits(e, s)
    ensures Fits(e, r.state) && SameTree(s.stages, r.state.stages)
    ensures s.calls <= r.state.calls
    ensures forall k :: 0 <= k < o && k < |s.stages| ==> r.state.stages[k] == s.stages[k]
    decreases |e.pipeline.stages| - o, 0, StepsMeasure(e, o, i), 1
  {
    if |s.stages| <= o || |s.stages[o].steps| <= i then Outcome(s, Some(IndexOutOfRange))
    else
      var gate := StepGate(e, o, i);
      if gate.Err? then Outcome(s, Some(gate.error))
      else if !gate.value then SkipStepF(e, s, o, i)
      else
        var job := StepJob(e, s.stages, o, i);
        Outcome(s.(calls := s.calls + [Build(job)]), if job in e.backend.buildFails then Some(BuildJobFailed(job)) else None)
  }

  /**
   * A step whose conditions are false: skipped; when the stage then counts
   * as successful it finishes and the activity completes or the next stage
   * runs; otherwise a sequential stage runs its next step.
   */
  function SkipStepF(e: RunEnv, s: RunState, o: nat, i: nat): (r: Outcome)
    requires EnvOk(e) && Fits(e, s) && o < |s.stages| && i < |s.stages[o].steps|
    ensures Fits(e, r.state) && SameTree(s.stages, r.state.stages)
    ensures s.calls <= r.state.calls
    ensures forall k :: 0 <= k < o ==> r.state.stages[k] == s.stages[k]
    decreases |e.pipeline.stages| - o, 0, StepsMeasure(e, o, i), 0
  {
    var s1 := s.(stages := SkipStep(s.stages, o, i));
    if e.stageSuccess(s1.stages[o]) then
      var s2 := s1.(stages := FinishStage(s1.stages, o, e.now));
      if o == |s.stages| - 1 then Outcome(Complete(e, s2), None)
      else RunStageF(e, s2, o + 1)
    else if !e.pipeline.stages[o].parallel then RunStepF(e, s1, o, i + 1)
    else Outcome(s1, None)
  }

  // ---- the methods ----

  function EnvOf(a: Activity, srv: Server, stageSuccess: ActivityStage -> bool, now: int): RunEnv
    reads a`envVars, a`envOrder
  {
    RunEnv(a.pipeline, a.id, a.envVars, a.envOrder, srv.backend, stageSuccess, now)
  }

  function StateOf(a: Activity, srv: Server): RunState
    reads a`status, a`stopTS, a`stages, srv`calls
  {
    RunState(a.status, a.stopTS, a.stages, srv.calls)
  }

  /** `RunStage`: run stage `o` of the activity. */
  method RunStage(a: Activity, srv: Server, o: nat, stageSuccess: ActivityStage -> bool, now: int)
    returns (err: Option<Error>)
    requires a.Valid()
    modifies a`status, a`stopTS, a`stages, srv`calls
    ensures a.Valid()
    ensures Outcome(StateOf(a, srv), err) == RunStageF(EnvOf(a, srv, stageSuccess, now), old(StateOf(a, srv)), o)
    decreases |a.pipeline.stages| - o, 3, 0, 0
  {
    ghost var e := EnvOf(a, srv, stageSuccess, now);
    if |a.stages| <= o {
      return Some(IndexOutOfRange);
    }
    var stage := a.pipeline.stages[o];
    var gate: Result<bool, Error> := Ok(true);
    if PipelineService.HasStageCondition(stage) {
      gate := Conditions.EvaluateConditions(a.envVars, a.envOrder, stage.conditions);
    }
    assert gate == StageGate(e, o);
    if gate.Err? {
      return Some(gate.error);
    }
    if !gate.value {
      err := SkipStageThenNext(a, srv, o, stageSuccess, now);
      return;
    }
    a.stages := StartStage(a.stages, o, now);
    if stage.parallel {
      err := RunParallelSteps(a, srv, o, stageSuccess, now);
    } else {
      err := RunStep(a, srv, o, 0, stageSuccess, now);
    }
  }

  /** A stage whose conditions are false: skip it, then complete the activity or run the next stage. */
  method SkipStageThenNext(a: Activity, srv: Server, o: nat, stageSuccess: ActivityStage -> bool, now: int)
    returns (err: Option<Error>)
    requires a.Valid() && o < |a.stages|
    modifies a`status, a`stopTS, a`stages, srv`calls
    ensures a.Valid()
    ensures var e := EnvOf(a, srv, stageSuccess, now);
      var s1 := old(StateOf(a, srv)).(stages := SkipStage(old(a.stages), o));
      Outcome(StateOf(a, srv), err)
      == if o == |s1.stages| - 1 then Outcome(Complete(e, s1), None) else RunStageF(e, s1, o + 1)
    decreases |a.pipeline.stages| - o, 2, 0, 0
  {
    a.stages := SkipStage(a.stages, o);
    if o == |a.stages| - 1 {
      a.status := Success;
      a.stopTS := now;
      srv.OnActivityComplete(a.id);
      err := None;
    } else {
      err := RunStage(a, srv, o + 1, stageSuccess, now);
    }
  }

  /** The trigger loop of a parallel stage: `RunStep` on every step, stopping at the first error. */
  method RunParallelSteps(a: Activity, srv: Server, o: nat, stageSuccess: ActivityStage -> bool, now: int)
    returns (err: Option<Error>)
    requires a.Valid() && o < |a.stages|
    modifies a`status, a`stopTS, a`stages, srv`calls
    ensures a.Valid()
    ensures Outcome(StateOf(a, srv), err) == RunStepsF(EnvOf(a, srv, stageSuccess, now), old(StateOf(a, srv)), o, 0)
    decreases |a.pipeline.stages| - o, 1, 0, 0
  {
    ghost var e := EnvOf(a, srv, stageSuccess, now);
    ghost var s1 := StateOf(a, srv);
    var n := |a.pipeline.stages[o].steps|;
    var i := 0;
    while i < n
      invariant 0 <= i <= n
      invariant a.Valid() && EnvOf(a, srv, stageSuccess, now) == e
      invariant RunStepsF(e, StateOf(a, srv), o, i) == RunStepsF(e, s1, o, 0)
    {
      var stepErr := RunStep(a, srv, o, i, stageSuccess, now);
      if stepErr.Some? {
        return stepErr;
      }
      i := i + 1;
    }
    err := None;
  }

  /** `RunStep`: run step `i` of stage `o`. */
  method RunStep(a: Activity, srv: Server, o: nat, i: nat, stageSuccess: ActivityStage -> bool, now: int)
    returns (err: Option<Error>)
    requires a.Valid()
    modifies a`status, a`stopTS, a`stages, srv`calls
    ensures a.Valid()
    ensures Outcome(StateOf(a, srv), err) == RunStepF(EnvOf(a, srv, stageSuccess, now), old(StateOf(a, srv)), o, i)
    decreases |a.pipeline.stages| - o, 0, StepsMeasure(EnvOf(a, srv, stageSuccess, now), o, i), 1
  {
    ghost var e := EnvOf(a, srv, stageSuccess, now);
    if |a.stages| <= o || |a.stages[o].steps| <= i {
      return Some(IndexOutOfRange);
    }
    var step := a.pipeline.stages[o].steps[i];
    var gate: Result<bool, Error> := Ok(true);
    if PipelineService.HasStepCondition(step) {
      gate := Conditions.EvaluateConditions(a.envVars, a.envOrder, step.conditions);
    }
    assert gate == StepGate(e, o, i);
    if gate.Err? {
      return Some(gate.error);
    }
    if !gate.value {
      err := SkipStepThenNext(a, srv, o, i, stageSuccess, now);
      return;
    }
    var job := a.JobName(o, i);
    err := srv.BuildJob(job);
  }

  /**
   * A step whose conditions are false: skip it; when the stage then counts as
   * successful, finish the stage and complete the activity or run the next
   * stage, otherwise run the next step of a sequential stage.
   */
  method SkipStepThenNext(a: Activity, srv: Server, o: nat, i: nat, stageSuccess: ActivityStage -> bool, now: int)
    returns (err: Option<Error>)
    requires a.Valid() && o < |a.stages| && i < |a.stages[o].steps|
    modifies a`status, a`stopTS, a`stages, srv`calls
    ensures a.Valid()
    ensures var e := EnvOf(a, srv, stageSuccess, now);
      var s1 := old(StateOf(a, srv)).(stages := SkipStep(old(a.stages), o, i));
      var s2 := s1.(stages := FinishStage(s1.stages, o, now));
      Outcome(StateOf(a, srv), err)
      == if stageSuccess(s1.stages[o]) then
           if o == |s1.stages| - 1 then Outcome(Complete(e, s2), None) else RunStageF(e, s2, o + 1)
         else if !a.pipeline.stages[o].parallel then RunStepF(e, s1, o, i + 1)
         else Outcome(s1, None)
    decreases |a.pipeline.stages| - o, 0, StepsMeasure(EnvOf(a, srv, stageSuccess, now), o, i), 0
  {
    a.stages := SkipStep(a.stages, o, i);
    err := None;
    if stageSuccess(a.stages[o]) {
      a.stages := FinishStage(a.stages, o, now);
      if o == |a.stages| - 1 {
        a.status := Success;
        a.stopTS := now;
        srv.OnActivityComplete(a.id);
      } else {
        err := RunStage(a, srv, o + 1, stageSuccess, now);
      }
    } else if !a.pipeline.stages[o].parallel {
      err := RunStep(a, srv, o, i + 1, stageSuccess, now);
    }
  }

  // ---- properties of a run ----

  /** The requests a run adds after those already sent. */
  function Added(s: RunState, r: RunState): seq<Call>
    requires s.calls <= r.calls
  {
    r.calls[|s.calls|..]
  }

  /**
   * A run only triggers builds and runs the clean-up; it changes the activity
   * status and stop time exactly when it runs the clean-up, and then to
   * `Success` at `now`.
   */
  predicate RunEffect(e: RunEnv, s: RunState, r: RunState)
    requires s.calls <= r.calls
  {
    var added := Added(s, r);
    (forall c | c in added :: c.Build? || c == Cleanup(e.activityId))
    && (Cleanup(e.activityId) in added ==> r.status == Success && r.stopTS == e.now)
    && (Cleanup(e.activityId) !in added ==> r.status == s.status && r.stopTS == s.stopTS)
  }

  lemma RunEffectChain(e: RunEnv, s: RunState, m: RunState, r: RunState)
    requires s.calls <= m.calls <= r.calls
    requires RunEffect(e, s, m) && RunEffect(e, m, r)
    ensures RunEffect(e, s, r)
  {
    assert Added(s, r) == Added(s, m) + Added(m, r);
  }

  /** A state change that sends nothing and keeps status and stop time has no effect. */
  lemma QuietStepEffect(e: RunEnv, s: RunState, m: RunState, r: RunState)
    requires m.calls == s.calls && m.status == s.status && m.stopTS == s.stopTS
    requires m.calls <= r.calls && RunEffect(e, m, r)
    ensures RunEffect(e, s, r)
  {
    assert Added(s, r) == Added(m, r);
  }

  lemma NoEffect(e: RunEnv, s: RunState)
    ensures RunEffect(e, s, s)
  {
    assert Added(s, s) == [];
  }

  lemma CompleteEffect(e: RunEnv, s: RunState, m: RunState)
    requires m.calls == s.calls && m.status == s.status && m.stopTS == s.stopTS
    ensures RunEffect(e, s, Complete(e, m))
  {
    assert Added(s, Complete(e, m)) == [Cleanup(e.activityId)];
  }

  lemma BuildEffect(e: RunEnv, s: RunState, job: string)
    ensures RunEffect(e, s, s.(calls := s.calls + [Build(job)]))
  {
    assert Added(s, s.(calls := s.calls + [Build(job)])) == [Build(job)];
  }

  lemma {:induction false} RunStageEffect(e: RunEnv, s: RunState, o: nat)
    requires EnvOk(e) && Fits(e, s)
    ensures RunEffect(e, s, RunStageF(e, s, o).state)
    decreases |e.pipeline.stages| - o, 3, 0, 0
  {
    if |s.stages| <= o || StageGate(e, o).Err? {
      NoEffect(e, s);
    } else if !StageGate(e, o).value {
      SkipStageEffect(e, s, o);
    } else {
      OpenStageEffect(e, s, o);
    }
  }

  lemma {:induction false} SkipStageEffect(e: RunEnv, s: RunState, o: nat)
    requires EnvOk(e) && Fits(e, s) && o < |s.stages|
    ensures RunEffect(e, s, SkipStageF(e, s, o).state)
    decreases |e.pipeline.stages| - o, 2, 0, 0
  {
    var s1 := s.(stages := SkipStage(s.stages, o));
    if o == |s.stages| - 1 {
      CompleteEffect(e, s, s1);
    } else {
      RunStageEffect(e, s1, o + 1);
      QuietStepEffect(e, s, s1, RunStageF(e, s1, o + 1).state);
    }
  }

  lemma {:induction false} OpenStageEffect(e: RunEnv, s: RunState, o: nat)
    requires EnvOk(e) && Fits(e, s) && o < |s.stages|
    ensures RunEffect(e, s, OpenStageF(e, s, o).state)
    decreases |e.pipeline.stages| - o, 2, 0, 0
  {
    var s1 := s.(stages := StartStage(s.stages, o, e.now));
    if e.pipeline.stages[o].parallel {
      RunStepsEffect(e, s1, o, 0);
      QuietStepEffect(e, s, s1, RunStepsF(e, s1, o, 0).state);
    } else {
      RunStepEffect(e, s1, o, 0);
      QuietStepEffect(e, s, s1, RunStepF(e, s1, o, 0).state);
    }
  }

  lemma {:induction false} RunStepsEffect(e: RunEnv, s: RunState, o: nat, i: nat)
    requires EnvOk(e) && Fits(e, s)
    requires o < |s.stages| && i <= |e.pipeline.stages[o].steps|
    ensures RunEffect(e, s, RunStepsF(e, s, o, i).state)
    decreases |e.pipeline.stages| - o, 1, StepsMeasure(e, o, i), 0
  {
    if i == |e.pipeline.stages[o].steps| {
      NoEffect(e, s);
    } else {
      var r1 := RunStepF(e, s, o, i);
      RunStepEffect(e, s, o, i);
      if r1.err.None? {
        RunStepsEffect(e, r1.state, o, i + 1);
        RunEffectChain(e, s, r1.state, RunStepsF(e, r1.state, o, i + 1).state);
      }
    }
  }

  lemma {:induction false} RunStepEffect(e: RunEnv, s: RunState, o: nat, i: nat)
    requires EnvOk(e) && Fits(e, s)
    ensures RunEffect(e, s, RunStepF(e, s, o, i).state)
    decreases |e.pipeline.stages| - o, 0, StepsMeasure(e, o, i), 1
  {
    if |s.stages| <= o || |s.stages[o].steps| <= i || StepGate(e, o, i).Err? {
      NoEffect(e, s);
    } else if !StepGate(e, o, i).value {
      SkipStepEffect(e, s, o, i);
    } else {
      BuildEffect(e, s, StepJob(e, s.stages, o, i));
    }
  }

  lemma {:induction false} SkipStepEffect(e: RunEnv, s: RunState, o: nat, i: nat)
    requires EnvOk(e) && Fits(e, s) && o < |s.stages| && i < |s.stages[o].steps|
    ensures RunEffect(e, s, SkipStepF(e, s, o, i).state)
    decreases |e.pipeline.stages| - o, 0, StepsMeasure(e, o, i), 0
  {
    var s1 := s.(stages := SkipStep(s.stages, o, i));
    if e.stageSuccess(s1.stages[o]) {
      var s2 := s1.(stages := FinishStage(s1.stages, o, e.now));
      if o == |s.stages| - 1 {
        CompleteEffect(e, s, s2);
      } else {
        RunStageEffect(e, s2, o + 1);
        QuietStepEffect(e, s, s2, RunStageF(e, s2, o + 1).state);
      }
    } else if !e.pipeline.stages[o].parallel {
      RunStepEffect(e, s1, o, i + 1);
      QuietStepEffect(e, s, s1, RunStepF(e, s1, o, i + 1).state);
    } else {
      NoEffect(e, s1);
      QuietStepEffect(e, s, s1, s1);
    }
  }

  predicate Sequential(p: Pipeline) {
    forall k :: 0 <= k < |p.stages| ==> !p.stages[k].parallel
  }

  /** Every request a run adds but the last is a build: the clean-up, if any, comes last. */
  predicate CleanupLast(s: RunState, r: RunState)
    requires s.calls <= r.calls
  {
    var added := Added(s, r);
    forall k :: 0 <= k < |added| - 1 ==> added[k].Build?
  }

  lemma QuietCleanupLast(s: RunState, m: RunState, r: RunState)
    requires m.calls == s.calls && m.calls <= r.calls && CleanupLast(m, r)
    ensures CleanupLast(s, r)
  {
    assert Added(s, r) == Added(m, r);
  }

  lemma OneCallCleanupLast(s: RunState, r: RunState, c: Call)
    requires r.calls == s.calls + [c]
    ensures CleanupLast(s, r)
  {
    assert Added(s, r) == [c];
  }

  /**
   * In a pipeline without parallel stages, a run sends builds and then at
   * most one clean-up, as its last request (with `RunStageEffect`: exactly
   * when the activity turns `Success`).
   */
  lemma {:induction false} SequentialStageCleansUpLast(e: RunEnv, s: RunState, o: nat)
    requires EnvOk(e) && Fits(e, s) && Sequential(e.pipeline)
    ensures CleanupLast(s, RunStageF(e, s, o).state)
    decreases |e.pipeline.stages| - o, 3, 0, 0
  {
    if |s.stages| <= o || StageGate(e, o).Err? {
      assert Added(s, s) == [];
    } else if !StageGate(e, o).value {
      SequentialSkipStageCleansUpLast(e, s, o);
    } else {
      var s1 := s.(stages := StartStage(s.stages, o, e.now));
      assert OpenStageF(e, s, o) == RunStepF(e, s1, o, 0);
      SequentialStepCleansUpLast(e, s1, o, 0);
      QuietCleanupLast(s, s1, RunStepF(e, s1, o, 0).state);
    }
  }

  lemma {:induction false} SequentialSkipStageCleansUpLast(e: RunEnv, s: RunState, o: nat)
    requires EnvOk(e) && Fits(e, s) && Sequential(e.pipeline) && o < |s.stages|
    ensures CleanupLast(s, SkipStageF(e, s, o).state)
    decreases |e.pipeline.stages| - o, 2, 0, 0
  {
    var s1 := s.(stages := SkipStage(s.stages, o));
    if o == |s.stages| - 1 {
      OneCallCleanupLast(s, Complete(e, s1), Cleanup(e.activityId));
    } else {
      SequentialStageCleansUpLast(e, s1, o + 1);
      QuietCleanupLast(s, s1, RunStageF(e, s1, o + 1).state);
    }
  }

  lemma {:induction false} SequentialStepCleansUpLast(e: RunEnv, s: RunState, o: nat, i: nat)
    requires EnvOk(e) && Fits(e, s) && Sequential(e.pipeline)
    ensures CleanupLast(s, RunStepF(e, s, o, i).state)
    decreases |e.pipeline.stages| - o, 0, StepsMeasure(e, o, i), 1
  {
    if |s.stages| <= o || |s.stages[o].steps| <= i || StepGate(e, o, i).Err? {
      assert Added(s, s) == [];
    } else if !StepGate(e, o, i).value {
      SequentialSkipCleansUpLast(e, s, o, i);
    } else {
      OneCallCleanupLast(s, s.(calls := s.calls + [Build(StepJob(e, s.stages, o, i))]), Build(StepJob(e, s.stages, o, i)));
    }
  }

  lemma {:induction false} SequentialSkipCleansUpLast(e: RunEnv, s: RunState, o: nat, i: nat)
    requires EnvOk(e) && Fits(e, s) && Sequential(e.pipeline) && o < |s.stages| && i < |s.stages[o].steps|
    ensures CleanupLast(s, SkipStepF(e, s, o, i).state)
    decreases |e.pipeline.stages| - o, 0, StepsMeasure(e, o, i), 0
  {
    var s1 := s.(stages := SkipStep(s.stages, o, i));
    if e.stageSuccess(s1.stages[o]) {
      var s2 := s1.(stages := FinishStage(s1.stages, o, e.now));
      if o == |s.stages| - 1 {
        OneCallCleanupLast(s, Complete(e, s2), Cleanup(e.activityId));
      } else {
        SequentialStageCleansUpLast(e, s2, o + 1);
        QuietCleanupLast(s, s2, RunStageF(e, s2, o + 1).state);
      }
    } else {
      SequentialStepCleansUpLast(e, s1, o, i + 1);
      QuietCleanupLast(s, s1, RunStepF(e, s1, o, i + 1).state);
    }
  }

  /** An ordinal past the last stage, or a condition that cannot be evaluated, changes nothing. */
  lemma RunStageRejects(e: RunEnv, s: RunState, o: nat)
    requires EnvOk(e) && Fits(e, s)
    requires o >= |s.stages| || StageGate(e, o).Err?
    ensures RunStageF(e, s, o).state == s
    ensures RunStageF(e, s, o).err == Some(if o >= |s.stages| then IndexOutOfRange else StageGate(e, o).error)
  {
  }

  /** Skipping the last stage completes the activity: `Success`, stopped now, one clean-up, no build. */
  lemma SkipLastStageCompletes(e: RunEnv, s: RunState)
    requires EnvOk(e) && Fits(e, s) && |s.stages| > 0
    requires StageGate(e, |s.stages| - 1) == Ok(false)
    ensures var r := RunStageF(e, s, |s.stages| - 1);
      r.err.None? && r.state.status == Success && r.state.stopTS == e.now
      && r.state.stages[|s.stages| - 1].status == Skip
      && r.state.calls == s.calls + [Cleanup(e.activityId)]
  {
  }

  /**
   * A step whose conditions are false is skipped; when the stage then counts
   * as successful, the stage becomes `Success` with its duration measured
   * from its start to now, whatever the later stages do.
   */
  lemma SkippedStepCompletesStage(e: RunEnv, s: RunState, o: nat, i: nat)
    requires EnvOk(e) && Fits(e, s) && o < |s.stages| && i < |s.stages[o].steps|
    requires StepGate(e, o, i) == Ok(false)
    requires e.stageSuccess(SkipStep(s.stages, o, i)[o])
    ensures var r := RunStepF(e, s, o, i).state;
      r.stages[o].status == Success && r.stages[o].duration == e.now - s.stages[o].startTS
      && r.stages[o].steps[i].status == Skip
    ensures o == |s.stages| - 1 ==> RunStepF(e, s, o, i).state.status == Success
  {
    var s1 := s.(stages := SkipStep(s.stages, o, i));
    var s2 := s1.(stages := FinishStage(s1.stages, o, e.now));
    assert s2.stages[o].steps[i].status == Skip;
    if o < |s.stages| - 1 {
      assert RunStepF(e, s, o, i) == RunStageF(e, s2, o + 1);
    }
  }

  /** The build requests for steps `i..n` of the stage named `stageName`, in order. */
  function BuildsFrom(e: RunEnv, stageName: string, i: nat, n: nat): (r: seq<Call>)
    ensures |r| == if i <= n then n - i else 0
    decreases n - i
  {
    if n <= i then []
    else [Build(JobNames.GetJobName(e.pipeline.name, e.activityId, stageName, i))] + BuildsFrom(e, stageName, i + 1, n)
  }

  lemma OpenStepBuilds(e: RunEnv, s: RunState, o: nat, i: nat)
    requires EnvOk(e) && Fits(e, s) && o < |s.stages| && i < |e.pipeline.stages[o].steps|
    requires StepGate(e, o, i) == Ok(true) && StepJob(e, s.stages, o, i) !in e.backend.buildFails
    ensures RunStepF(e, s, o, i) == Outcome(s.(calls := s.calls + [Build(StepJob(e, s.stages, o, i))]), None)
    ensures RunStepsF(e, s, o, i) == RunStepsF(e, s.(calls := s.calls + [Build(StepJob(e, s.stages, o, i))]), o, i + 1)
  {
  }

  /** Steps `i..` of stage `o` have open gates and builds that succeed. */
  predicate OpenFrom(e: RunEnv, stages: seq<ActivityStage>, o: nat, i: nat)
    requires EnvOk(e) && o < |stages| && o < |e.pipeline.stages|
    decreases |e.pipeline.stages[o].steps| - i
  {
    i >= |e.pipeline.stages[o].steps|
    || (StepGate(e, o, i) == Ok(true) && StepJob(e, stages, o, i) !in e.backend.buildFails && OpenFrom(e, stages, o, i + 1))
  }

  lemma {:induction false} OpenFromAll(e: RunEnv, stages: seq<ActivityStage>, o: nat, i: nat)
    requires EnvOk(e) && o < |stages| && o < |e.pipeline.stages|
    requires forall j :: i <= j < |e.pipeline.stages[o].steps| ==>
      StepGate(e, o, j) == Ok(true) && StepJob(e, stages, o, j) !in e.backend.buildFails
    ensures OpenFrom(e, stages, o, i)
    decreases |e.pipeline.stages[o].steps| - i
  {
    if i < |e.pipeline.stages[o].steps| {
      OpenFromAll(e, stages, o, i + 1);
    }
  }

  /** Steps whose gates are open and whose builds succeed are all triggered, in order. */
  lemma {:induction false} ParallelStepsTriggerAll(e: RunEnv, s: RunState, o: nat, i: nat, calls: seq<Call>)
    requires EnvOk(e) && Fits(e, s) && o < |s.stages| && i <= |e.pipeline.stages[o].steps|
    requires OpenFrom(e, s.stages, o, i)
    ensures RunStepsF(e, s.(calls := calls), o, i)
            == Outcome(s.(calls := calls + BuildsFrom(e, s.stages[o].name, i, |e.pipeline.stages[o].steps|)), None)
    decreases |e.pipeline.stages[o].steps| - i
  {
    var n := |e.pipeline.stages[o].steps|;
    if i < n {
      var job := StepJob(e, s.stages, o, i);
      OpenStepBuilds(e, s.(calls := calls), o, i);
      ParallelStepsTriggerAll(e, s, o, i + 1, calls + [Build(job)]);
      assert (calls + [Build(job)]) + BuildsFrom(e, s.stages[o].name, i + 1, n) == calls + BuildsFrom(e, s.stages[o].name, i, n);
    }
  }

  /**
   * An open parallel stage whose steps are all open stamps its start time and
   * triggers the job of every step, in order, and nothing else.
   */
  lemma ParallelStageTriggersAll(e: RunEnv, s: RunState, o: nat)
    requires EnvOk(e) && Fits(e, s) && o < |s.stages|
    requires e.pipeline.stages[o].parallel && StageGate(e, o) == Ok(true)
    requires forall j :: 0 <= j < |e.pipeline.stages[o].steps| ==>
      StepGate(e, o, j) == Ok(true) && StepJob(e, s.stages, o, j) !in e.backend.buildFails
    ensures var r := RunStageF(e, s, o);
      r.err.None? && r.state.stages == StartStage(s.stages, o, e.now)
      && r.state.status == s.status
      && r.state.calls == s.calls + BuildsFrom(e, s.stages[o].name, 0, |e.pipeline.stages[o].steps|)
  {
    var s1 := s.(stages := StartStage(s.stages, o, e.now));
    assert s1.stages[o].name == s.stages[o].name;
    assert forall j :: 0 <= j < |e.pipeline.stages[o].steps| ==> StepJob(e, s1.stages, o, j) == StepJob(e, s.stages, o, j);
    OpenFromAll(e, s1.stages, o, 0);
    ParallelStepsTriggerAll(e, s1, o, 0, s1.calls);
  }

  /** An open sequential stage stamps its start time and runs only its first step. */
  lemma SequentialStageTriggersFirst(e: RunEnv, s: RunState, o: nat)
    requires EnvOk(e) && Fits(e, s) && o < |s.stages| && |s.stages[o].steps| > 0
    requires !e.pipeline.stages[o].parallel && StageGate(e, o) == Ok(true) && StepGate(e, o, 0) == Ok(true)
    ensures var r := RunStageF(e, s, o);
      r.state.stages == StartStage(s.stages, o, e.now)
      && r.state.calls == s.calls + [Build(StepJob(e, s.stages, o, 0))]
      && r.err == (if StepJob(e, s.stages, o, 0) in e.backend.buildFails then Some(BuildJobFailed(StepJob(e, s.stages, o, 0))) else None)
  {
    var s1 := s.(stages := StartStage(s.stages, o, e.now));
    assert RunStageF(e, s, o) == RunStepF(e, s1, o, 0);
    assert StepJob(e, s1.stages, o, 0) == StepJob(e, s.stages, o, 0);
  }

  // ---- a skipped unit never triggers its own job ----

  /** No step job from step `i` of stage `o` onwards (in run order) is named `x`. */
  predicate NotLater(e: RunEnv, stages: seq<ActivityStage>, x: string, o: nat, i: nat) {
    forall k, j :: o <= k < |stages| && 0 <= j < |stages[k].steps| && (o < k || i <= j) ==> StepJob(e, stages, k, j) != x
  }

  /** The run adds no build request for the job `x`. */
  predicate NoBuild(x: string, s: RunState, r: RunState)
    requires s.calls <= r.calls
  {
    Build(x) !in Added(s, r)
  }

  /** Job names only depend on stage names and step counts, which a run keeps. */
  lemma NotLaterKept(e: RunEnv, a: seq<ActivityStage>, b: seq<ActivityStage>, x: string, o: nat, i: nat)
    requires |a| == |b| && forall k :: 0 <= k < |a| ==> a[k].name == b[k].name && |a[k].steps| == |b[k].steps|
    requires NotLater(e, a, x, o, i)
    ensures NotLater(e, b, x, o, i)
  {
    forall k, j | o <= k < |b| && 0 <= j < |b[k].steps| && (o < k || i <= j)
      ensures StepJob(e, b, k, j) != x
    {
      assert StepJob(e, b, k, j) == StepJob(e, a, k, j);
    }
  }

  lemma NoBuildChain(x: string, s: RunState, m: RunState, r: RunState)
    requires s.calls <= m.calls <= r.calls
    requires NoBuild(x, s, m) && NoBuild(x, m, r)
    ensures NoBuild(x, s, r)
  {
    assert Added(s, r) == Added(s, m) + Added(m, r);
  }

  lemma NoBuildQuiet(x: string, s: RunState, m: RunState, r: RunState)
    requires m.calls == s.calls && m.calls <= r.calls && NoBuild(x, m, r)
    ensures NoBuild(x, s, r)
  {
    assert Added(s, r) == Added(m, r);
  }

  lemma NoBuildComplete(e: RunEnv, x: string, s: RunState, m: RunState)
    requires m.calls == s.calls
    ensures NoBuild(x, s, Complete(e, m))
  {
    assert Added(s, Complete(e, m)) == [Cleanup(e.activityId)];
  }

  lemma NoBuildNothing(x: string, s: RunState, m: RunState)
    requires m.calls == s.calls
    ensures NoBuild(x, s, m)
  {
    assert Added(s, m) == [];
  }

  /** `RunStage(o)` triggers no job named `x` when no step from stage `o` on has that job name. */
  lemma {:induction false} RunStageBuildsNot(e: RunEnv, s: RunState, o: nat, x: string)
    requires EnvOk(e) && Fits(e, s) && NotLater(e, s.stages, x, o, 0)
    ensures NoBuild(x, s, RunStageF(e, s, o).state)
    decreases |e.pipeline.stages| - o, 3, 0, 0
  {
    if |s.stages| <= o || StageGate(e, o).Err? {
      NoBuildNothing(x, s, s);
    } else if !StageGate(e, o).value {
      SkipStageBuildsNot(e, s, o, x);
    } else {
      OpenStageBuildsNot(e, s, o, x);
    }
  }

  /** Skipping stage `o` triggers no job named `x` when no step after stage `o` has that job name. */
  lemma {:induction false} SkipStageBuildsNot(e: RunEnv, s: RunState, o: nat, x: string)
    requires EnvOk(e) && Fits(e, s) && o < |s.stages| && NotLater(e, s.stages, x, o + 1, 0)
    ensures NoBuild(x, s, SkipStageF(e, s, o).state)
    decreases |e.pipeline.stages| - o, 2, 0, 0
  {
    var s1 := s.(stages := SkipStage(s.stages, o));
    if o == |s.stages| - 1 {
      NoBuildComplete(e, x, s, s1);
    } else {
      NotLaterKept(e, s.stages, s1.stages, x, o + 1, 0);
      RunStageBuildsNot(e, s1, o + 1, x);
      NoBuildQuiet(x, s, s1, RunStageF(e, s1, o + 1).state);
    }
  }

  lemma {:induction false} OpenStageBuildsNot(e: RunEnv, s: RunState, o: nat, x: string)
    requires EnvOk(e) && Fits(e, s) && o < |s.stages| && NotLater(e, s.stages, x, o, 0)
    ensures NoBuild(x, s, OpenStageF(e, s, o).state)
    decreases |e.pipeline.stages| - o, 2, 0, 0
  {
    var s1 := s.(stages := StartStage(s.stages, o, e.now));
    NotLaterKept(e, s.stages, s1.stages, x, o, 0);
    if e.pipeline.stages[o].parallel {
      RunStepsBuildsNot(e, s1, o, 0, x);
      NoBuildQuiet(x, s, s1, RunStepsF(e, s1, o, 0).state);
    } else {
      RunStepBuildsNot(e, s1, o, 0, x);
      NoBuildQuiet(x, s, s1, RunStepF(e, s1, o, 0).state);
    }
  }

  lemma {:induction false} RunStepsBuildsNot(e: RunEnv, s: RunState, o: nat, i: nat, x: string)
    requires EnvOk(e) && Fits(e, s)
    requires o < |s.stages| && i <= |e.pipeline.stages[o].steps|
    requires NotLater(e, s.stages, x, o, i)
    ensures NoBuild(x, s, RunStepsF(e, s, o, i).state)
    decreases |e.pipeline.stages| - o, 1, StepsMeasure(e, o, i), 0
  {
    if i == |e.pipeline.stages[o].steps| {
      NoBuildNothing(x, s, s);
    } else {
      var r1 := RunStepF(e, s, o, i);
      RunStepBuildsNot(e, s, o, i, x);
      if r1.err.None? {
        assert NotLater(e, s.stages, x, o, i + 1);
        NotLaterKept(e, s.stages, r1.state.stages, x, o, i + 1);
        RunStepsBuildsNot(e, r1.state, o, i + 1, x);
        NoBuildChain(x, s, r1.state, RunStepsF(e, r1.state, o, i + 1).state);
      }
    }
  }

  lemma {:induction false} RunStepBuildsNot(e: RunEnv, s: RunState, o: nat, i: nat, x: string)
    requires EnvOk(e) && Fits(e, s) && NotLater(e, s.stages, x, o, i)
    ensures NoBuild(x, s, RunStepF(e, s, o, i).state)
    decreases |e.pipeline.stages| - o, 0, StepsMeasure(e, o, i), 1
  {
    if |s.stages| <= o || |s.stages[o].steps| <= i || StepGate(e, o, i).Err? {
      NoBuildNothing(x, s, s);
    } else if !StepGate(e, o, i).value {
      assert NotLater(e, s.stages, x, o, i + 1);
      SkipStepBuildsNot(e, s, o, i, x);
    } else {
      var job := StepJob(e, s.stages, o, i);
      assert job != x;
      assert Added(s, s.(calls := s.calls + [Build(job)])) == [Build(job)];
    }
  }

  /** Skipping step `i` of stage `o` triggers no job named `x` when no later step has that job name. */
  lemma {:induction false} SkipStepBuildsNot(e: RunEnv, s: RunState, o: nat, i: nat, x: string)
    requires EnvOk(e) && Fits(e, s) && o < |s.stages| && i < |s.stages[o].steps|
    requires NotLater(e, s.stages, x, o, i + 1)
    ensures NoBuild(x, s, SkipStepF(e, s, o, i).state)
    decreases |e.pipeline.stages| - o, 0, StepsMeasure(e, o, i), 0
  {
    var s1 := s.(stages := SkipStep(s.stages, o, i));
    if e.stageSuccess(s1.stages[o]) {
      var s2 := s1.(stages := FinishStage(s1.stages, o, e.now));
      if o == |s.stages| - 1 {
        NoBuildComplete(e, x, s, s2);
      } else {
        assert NotLater(e, s.stages, x, o + 1, 0);
        NotLaterKept(e, s.stages, s2.stages, x, o + 1, 0);
        RunStageBuildsNot(e, s2, o + 1, x);
        NoBuildQuiet(x, s, s2, RunStageF(e, s2, o + 1).state);
      }
    } else if !e.pipeline.stages[o].parallel {
      NotLaterKept(e, s.stages, s1.stages, x, o, i + 1);
      RunStepBuildsNot(e, s1, o, i + 1, x);
      NoBuildQuiet(x, s, s1, RunStepF(e, s1, o, i + 1).state);
    } else {
      NoBuildNothing(x, s, s1);
    }
  }

  /** The stages of the activity have pairwise distinct names. */
  predicate DistinctStageNames(stages: seq<ActivityStage>) {
    forall a, b :: 0 <= a < b < |stages| ==> stages[a].name != stages[b].name
  }

  /**
   * A stage whose conditions are false triggers none of its own step jobs:
   * whatever later stages run, no build request names a job of stage `o`.
   */
  lemma SkippedStageBuildsNone(e: RunEnv, s: RunState, o: nat, j: nat)
    requires EnvOk(e) && Fits(e, s) && o < |s.stages| && j < |s.stages[o].steps|
    requires DistinctStageNames(s.stages) && StageGate(e, o) == Ok(false)
    ensures Build(StepJob(e, s.stages, o, j)) !in Added(s, RunStageF(e, s, o).state)
  {
    var x := StepJob(e, s.stages, o, j);
    forall k, l | o + 1 <= k < |s.stages| && 0 <= l < |s.stages[k].steps|
      ensures StepJob(e, s.stages, k, l) != x
    {
      JobNames.JobNamesDistinctStages(e.pipeline.name, e.activityId, s.stages[k].name, s.stages[o].name, l, j);
    }
    SkipStageBuildsNot(e, s, o, x);
  }

  /**
   * A step whose conditions are false never triggers its own job, whether the
   * run then moves on to the next step, to the next stage or stops.
   */
  lemma SkippedStepBuildsNotItsJob(e: RunEnv, s: RunState, o: nat, i: nat)
    requires EnvOk(e) && Fits(e, s) && o < |s.stages| && i < |s.stages[o].steps|
    requires DistinctStageNames(s.stages) && StepGate(e, o, i) == Ok(false)
    ensures Build(StepJob(e, s.stages, o, i)) !in Added(s, RunStepF(e, s, o, i).state)
  {
    var x := StepJob(e, s.stages, o, i);
    forall k, l | o <= k < |s.stages| && 0 <= l < |s.stages[k].steps| && (o < k || i + 1 <= l)
      ensures StepJob(e, s.stages, k, l) != x
    {
      if k == o {
        JobNames.JobNamesDistinct(e.pipeline.name, e.activityId, s.stages[o].name, l, i);
      } else {
        JobNames.JobNamesDistinctStages(e.pipeline.name, e.activityId, s.stages[k].name, s.stages[o].name, l, i);
      }
    }
    SkipStepBuildsNot(e, s, o, i, x);
  }

  /**
   * In a parallel stage, a step whose conditions are false and whose skip
   * does not make the stage successful is marked skipped and sends nothing.
   */
  lemma ParallelSkipSendsNothing(e: RunEnv, s: RunState, o: nat, i: nat)
    requires EnvOk(e) && Fits(e, s) && o < |s.stages| && i < |s.stages[o].steps|
    requires e.pipeline.stages[o].parallel && StepGate(e, o, i) == Ok(false)
    requires !e.stageSuccess(SkipStep(s.stages, o, i)[o])
    ensures RunStepF(e, s, o, i) == Outcome(s.(stages := SkipStep(s.stages, o, i)), None)
  {
  }
}
