/**
 * The records of the pipeline engine: a pipeline definition (stages of steps
 * with optional conditions) and the run-time status tree of one activity.
 */
module Model {
  import opened Wrappers

  /** The status strings shared by activities, stages and steps. */
  datatype Status = Waiting | Pending | Building | Success | Fail | Skip | Abort

  /** `All` (conjunction) and `Any` (disjunction) lists of `key=value` / `key!=value` predicates. */
  datatype Conditions = Conditions(all: seq<string>, any: seq<string>)

  /** A step of a pipeline definition; only the fields the engine core reads. */
  datatype Step = Step(
    name: string,
    conditions: Option<Conditions>,
    repository: string,
    branch: string,
    accessKey: string,
    secretKey: string)

  datatype Stage = Stage(
    name: string,
    steps: seq<Step>,
    parallel: bool,
    needApprove: bool,
    conditions: Option<Conditions>)

  datatype CronTrigger = CronTrigger(spec: string, timezone: string)

  datatype Pipeline = Pipeline(
    id: string,
    name: string,
    stages: seq<Stage>,
    parameters: seq<string>,
    cronTrigger: CronTrigger,
    isActivate: bool,
    keepWorkspace: bool,
    runCount: int,
    lastRunId: string,
    lastRunStatus: Status,
    lastRunTime: int,
    nextRunTime: int)

  /** Run-time mirror of one step. Times are epoch milliseconds. */
  datatype ActivityStep = ActivityStep(name: string, status: Status, startTS: int, duration: int)

  /** Run-time mirror of one stage. */
  datatype ActivityStage = ActivityStage(
    name: string,
    needApproval: bool,
    status: Status,
    startTS: int,
    duration: int,
    steps: seq<ActivityStep>)

  /** The error values the core returns. */
  datatype Error =
    | NilCondition
    | CannotParseCondition(condition: string)
    | IndexOutOfRange
    | NoStage
    | NoActiveNode
    | NodeListUnavailable
    | JobInfoUnavailable(job: string)
    | BuildInfoUnavailable(job: string)
    | QueueItemNotAMap
    | QueueIdMissing
    | CancelQueueFailed(id: int)
    | StopJobFailed(job: string)
    | BuildJobFailed(job: string)
    | CreateJobFailed(job: string)
    | DeleteBuildFailed(job: string)
    | EnvKeyStoreFailed(key: string)
    | MissingSecretToken
    | PipelineNotFound(pipelineId: string)
    | ConfigItemNotFound

  /** Replace the status of step `j` of stage `i`. */
  function SetStepStatus(stages: seq<ActivityStage>, i: nat, j: nat, st: Status): (r: seq<ActivityStage>)
    requires i < |stages| && j < |stages[i].steps|
    ensures |r| == |stages| && |r[i].steps| == |stages[i].steps|
    ensures r[i].steps[j].status == st
    ensures forall k :: 0 <= k < |r| && k != i ==> r[k] == stages[k]
    ensures r[i] == stages[i].(steps := r[i].steps)
    ensures forall k :: 0 <= k < |r[i].steps| && k != j ==> r[i].steps[k] == stages[i].steps[k]
    ensures r[i].steps[j] == stages[i].steps[j].(status := st)
  {
    stages[i := stages[i].(steps := stages[i].steps[j := stages[i].steps[j].(status := st)])]
  }

  /** Replace step `j` of stage `i`. */
  function SetStep(stages: seq<ActivityStage>, i: nat, j: nat, step: ActivityStep): (r: seq<ActivityStage>)
    requires i < |stages| && j < |stages[i].steps|
    ensures |r| == |stages| && |r[i].steps| == |stages[i].steps|
    ensures r[i].steps[j] == step
    ensures forall k :: 0 <= k < |r| && k != i ==> r[k] == stages[k]
    ensures r[i] == stages[i].(steps := r[i].steps)
    ensures forall k :: 0 <= k < |r[i].steps| && k != j ==> r[i].steps[k] == stages[i].steps[k]
  {
    stages[i := stages[i].(steps := stages[i].steps[j := step])]
  }

  /** Two stage lists have the same number of stages and of steps in each. */
  predicate SameShape(a: seq<ActivityStage>, b: seq<ActivityStage>) {
    |a| == |b| && forall i :: 0 <= i < |a| ==> |a[i].steps| == |b[i].steps|
  }
}
