/**
 * An activity: one run of a pipeline. It is built from the pipeline
 * definition (`ToActivity`, `ToActivityStage`), gets its run variables from
 * `initActivityEnvvars`, and is then updated in place by the driver and the
 * reconciler.
 */
module Activities {
  import opened Wrappers
  import opened Strings
  import opened Model
  import opened Jenkins
  import JobNames

  /** The status mirror of one definition step: same name, `Waiting`, zero times. */
  function StepMirror(s: Step): ActivityStep {
    ActivityStep(s.name, Waiting, 0, 0)
  }

  /** The status mirror of one definition stage. */
  function StageMirror(s: Stage): ActivityStage {
    ActivityStage(s.name, s.needApprove, Waiting, 0, 0, seq(|s.steps|, i requires 0 <= i < |s.steps| => StepMirror(s.steps[i])))
  }

  /** `ToActivityStage`: one `Waiting` step per definition step, name and approval flag copied. */
  method ToActivityStage(stage: Stage) returns (r: ActivityStage)
    ensures r.name == stage.name && r.needApproval == stage.needApprove && r.status == Waiting
    ensures |r.steps| == |stage.steps|
    ensures forall i :: 0 <= i < |r.steps| ==> r.steps[i].name == stage.steps[i].name && r.steps[i].status == Waiting
    ensures r == StageMirror(stage)
  {
    var steps: seq<ActivityStep> := [];
    var i := 0;
    while i < |stage.steps|
      invariant 0 <= i <= |stage.steps|
      invariant steps == seq(i, k requires 0 <= k < i => StepMirror(stage.steps[k]))
    {
      steps := steps + [ActivityStep(stage.steps[i].name, Waiting, 0, 0)];
      i := i + 1;
    }
    r := ActivityStage(stage.name, stage.needApprove, Waiting, 0, 0, steps);
  }

  /** The stage mirrors of a whole pipeline, in order. */
  function StagesOf(p: Pipeline): (r: seq<ActivityStage>)
    ensures |r| == |p.stages|
  {
    seq(|p.stages|, i requires 0 <= i < |p.stages| => StageMirror(p.stages[i]))
  }

  class Activity {
    const id: string
    /** The snapshot of the pipeline definition taken when the run was triggered. */
    const pipeline: Pipeline
    var triggerType: string
    var runSequence: int
    var status: Status
    var startTS: int
    var stopTS: int
    var nodeName: string
    var commitInfo: string
    var pendingStage: int
    var envVars: map<string, string>
    /** The iteration order of `envVars`: its keys, each once. */
    var envOrder: seq<string>
    var stages: seq<ActivityStage>

    /** The stage and step lists mirror the definition's, and `envOrder` lists every key of `envVars` exactly once. */
    predicate Valid()
      reads this
    {
      |stages| == |pipeline.stages|
      && (forall i :: 0 <= i < |stages| ==> |stages[i].steps| == |pipeline.stages[i].steps|)
      && (forall k | k in envOrder :: k in envVars)
      && (forall k | k in envVars :: k in envOrder)
      && (forall i, j :: 0 <= i < j < |envOrder| ==> envOrder[i] != envOrder[j])
    }

    /** `getJobName` for step `j` of stage `i` of this activity. */
    function JobName(i: nat, j: nat): string
      reads this
      requires i < |stages|
    {
      JobNames.GetJobName(pipeline.name, id, stages[i].name, j)
    }

    constructor (p: Pipeline, id: string, nodeName: string, now: int, stages: seq<ActivityStage>)
      ensures this.id == id && pipeline == p && this.nodeName == nodeName && this.stages == stages
      ensures runSequence == p.runCount + 1 && status == Waiting && startTS == now
      ensures stopTS == 0 && commitInfo == "" && triggerType == "" && pendingStage == 0
      ensures envVars == map[] && envOrder == []
    {
      this.id := id;
      pipeline := p;
      this.nodeName := nodeName;
      runSequence := p.runCount + 1;
      status := Waiting;
      startTS := now;
      stopTS := 0;
      commitInfo := "";
      triggerType := "";
      pendingStage := 0;
      envVars := map[];
      envOrder := [];
      this.stages := stages;
    }
  }

  /**
   * `ToActivity`: pick a node (`pick` stands for the random index, `id` for
   * the random identifier, `now` for the clock) and mirror the pipeline.
   */
  method ToActivity(p: Pipeline, nodes: Option<seq<string>>, pick: nat, id: string, now: int)
    returns (r: Result<Activity, Error>)
    ensures NodeToRun(nodes, pick).Err? ==> r == Err(NodeToRun(nodes, pick).error)
    ensures NodeToRun(nodes, pick).Ok? ==> r.Ok? && fresh(r.value)
    ensures r.Ok? ==>
      var a := r.value;
      a.id == id && a.pipeline == p && a.nodeName == NodeToRun(nodes, pick).value
      && a.status == Waiting && a.runSequence == p.runCount + 1 && a.startTS == now
      && a.stages == StagesOf(p) && a.envVars == map[] && a.envOrder == []
      && a.stopTS == 0 && a.commitInfo == "" && a.triggerType == "" && a.Valid()
  {
    var node := NodeToRun(nodes, pick);
    if node.Err? {
      return Err(node.error);
    }
    var stages: seq<ActivityStage> := [];
    var i := 0;
    while i < |p.stages|
      invariant 0 <= i <= |p.stages|
      invariant stages == StagesOf(p)[..i]
    {
      var stage := ToActivityStage(p.stages[i]);
      stages := stages + [stage];
      i := i + 1;
    }
    var a := new Activity(p, id, node.value, now, stages);
    return Ok(a);
  }

  // ---- run variables ----

  /** `SplitN(param, "=", 2)`: the text before the first `=` and the rest; `None` without `=`. */
  function ParamPair(param: string): (r: Option<(string, string)>)
    ensures r.None? <==> '=' !in param
    ensures r.Some? ==> r.value.0 + "=" + r.value.1 == param && '=' !in r.value.0
  {
    var i := IndexOfChar(param, '=');
    if i == |param| then None
    else
      assert param[..i] + "=" + param[i + 1..] == param;
      Some((param[..i], param[i + 1..]))
  }

  /** The assignments the user parameters make, in order; parameters without `=` are ignored. */
  function ParamPairs(params: seq<string>): seq<(string, string)> {
    if params == [] then []
    else
      var last := params[|params| - 1];
      ParamPairs(params[..|params| - 1]) + (if ParamPair(last).Some? then [ParamPair(last).value] else [])
  }

  /** The map a sequence of assignments builds, later ones overwriting earlier ones. */
  function Assign(entries: seq<(string, string)>): map<string, string> {
    if entries == [] then map[]
    else
      var last := entries[|entries| - 1];
      Assign(entries[..|entries| - 1])[last.0 := last.1]
  }

  /** The keys a sequence of assignments introduces, in order of first assignment. */
  function KeyOrder(entries: seq<(string, string)>): (r: seq<string>)
    ensures forall k :: k in r <==> k in Assign(entries)
    ensures forall i, j :: 0 <= i < j < |r| ==> r[i] != r[j]
  {
    if entries == [] then []
    else
      var last := entries[|entries| - 1];
      var ks := KeyOrder(entries[..|entries| - 1]);
      if last.0 in ks then ks else ks + [last.0]
  }

  /** The last assignment to a key decides its value. */
  lemma {:induction false} AssignLastWins(entries: seq<(string, string)>, j: nat)
    requires j < |entries|
    requires forall k :: j < k < |entries| ==> entries[k].0 != entries[j].0
    ensures entries[j].0 in Assign(entries) && Assign(entries)[entries[j].0] == entries[j].1
  {
    if j < |entries| - 1 {
      AssignLastWins(entries[..|entries| - 1], j);
    }
  }

  /** A key no assignment mentions is absent. */
  lemma {:induction false} AssignAbsent(entries: seq<(string, string)>, key: string)
    requires forall k :: 0 <= k < |entries| ==> entries[k].0 != key
    ensures key !in Assign(entries)
  {
    if entries != [] {
      AssignAbsent(entries[..|entries| - 1], key);
    }
  }

  lemma ParamPairsSnoc(params: seq<string>, i: nat)
    requires i < |params|
    ensures ParamPairs(params[..i + 1])
            == ParamPairs(params[..i]) + (if ParamPair(params[i]).Some? then [ParamPair(params[i]).value] else [])
  {
    assert params[..i + 1][..i] == params[..i];
  }

  lemma EntriesSnoc(entries: seq<(string, string)>, e: (string, string))
    ensures Assign(entries + [e]) == Assign(entries)[e.0 := e.1]
    ensures KeyOrder(entries + [e]) == if e.0 in KeyOrder(entries) then KeyOrder(entries) else KeyOrder(entries) + [e.0]
  {
    assert (entries + [e])[..|entries|] == entries;
  }

  /** The nine variables every run gets, before the user parameters. */
  function BuiltInVars(p: Pipeline, nodeName: string, id: string, runSequence: int, commit: string, trigger: string): seq<(string, string)>
    requires |p.stages| > 0 && |p.stages[0].steps| > 0
  {
    [("CICD_PIPELINE_NAME", p.name),
     ("CICD_PIPELINE_ID", p.id),
     ("CICD_NODE_NAME", nodeName),
     ("CICD_ACTIVITY_ID", id),
     ("CICD_ACTIVITY_SEQUENCE", IntToString(runSequence)),
     ("CICD_GIT_URL", p.stages[0].steps[0].repository),
     ("CICD_GIT_BRANCH", p.stages[0].steps[0].branch),
     ("CICD_GIT_COMMIT", commit),
     ("CICD_TRIGGER_TYPE", trigger)]
  }

  /** All assignments `initActivityEnvvars` makes, in order. */
  function EnvEntries(p: Pipeline, nodeName: string, id: string, runSequence: int, commit: string, trigger: string): seq<(string, string)>
    requires |p.stages| > 0 && |p.stages[0].steps| > 0
  {
    BuiltInVars(p, nodeName, id, runSequence, commit, trigger) + ParamPairs(p.parameters)
  }

  /**
   * `initActivityEnvvars`: the built-in run variables, then each `key=value`
   * parameter in order. The definition must have a first step, whose
   * repository and branch are read.
   */
  method InitEnvVars(a: Activity)
    requires |a.pipeline.stages| > 0 && |a.pipeline.stages[0].steps| > 0
    modifies a`envVars, a`envOrder
    ensures var entries := EnvEntries(a.pipeline, a.nodeName, a.id, a.runSequence, a.commitInfo, a.triggerType);
      a.envVars == Assign(entries) && a.envOrder == KeyOrder(entries)
    ensures forall k :: k in a.envOrder <==> k in a.envVars
    ensures forall i, j :: 0 <= i < j < |a.envOrder| ==> a.envOrder[i] != a.envOrder[j]
  {
    var base := BuiltInVars(a.pipeline, a.nodeName, a.id, a.runSequence, a.commitInfo, a.triggerType);
    var vars := Assign(base);
    var order := KeyOrder(base);
    var params := a.pipeline.parameters;
    var i := 0;
    assert base + ParamPairs(params[..0]) == base by { assert params[..0] == []; }
    while i < |params|
      invariant 0 <= i <= |params|
      invariant vars == Assign(base + ParamPairs(params[..i]))
      invariant order == KeyOrder(base + ParamPairs(params[..i]))
    {
      ParamPairsSnoc(params, i);
      var split := ParamPair(params[i]);
      ghost var prev := base + ParamPairs(params[..i]);
      if split.Some? {
        assert base + ParamPairs(params[..i + 1]) == prev + [split.value];
        EntriesSnoc(prev, split.value);
        if split.value.0 !in order {
          order := order + [split.value.0];
        }
        vars := vars[split.value.0 := split.value.1];
      } else {
        assert base + ParamPairs(params[..i + 1]) == prev;
      }
      i := i + 1;
    }
    assert params[..|params|] == params;
    a.envVars := vars;
    a.envOrder := order;
  }

  /** A `key=value` parameter sets `key` unless a later parameter sets it again. */
  lemma ParameterSetsVariable(p: Pipeline, nodeName: string, id: string, runSequence: int, commit: string, trigger: string, j: nat, key: string, value: string)
    requires |p.stages| > 0 && |p.stages[0].steps| > 0
    requires j < |ParamPairs(p.parameters)| && ParamPairs(p.parameters)[j] == (key, value)
    requires forall k :: j < k < |ParamPairs(p.parameters)| ==> ParamPairs(p.parameters)[k].0 != key
    ensures var env := Assign(EnvEntries(p, nodeName, id, runSequence, commit, trigger));
      key in env && env[key] == value
  {
    var base := BuiltInVars(p, nodeName, id, runSequence, commit, trigger);
    AssignLastWins(EnvEntries(p, nodeName, id, runSequence, commit, trigger), |base| + j);
  }

  /** The keys the parameters assign; `KeyOf` names its component for triggers. */
  function KeyOf(e: (string, string)): string { e.0 }

  /** Without a parameter of that name, `CICD_GIT_BRANCH` is the first step's branch. */
  lemma BranchVariableDefault(p: Pipeline, nodeName: string, id: string, runSequence: int, commit: string, trigger: string)
    requires |p.stages| > 0 && |p.stages[0].steps| > 0
    requires forall k :: 0 <= k < |ParamPairs(p.parameters)| ==> KeyOf(ParamPairs(p.parameters)[k]) != "CICD_GIT_BRANCH"
    ensures var env := Assign(EnvEntries(p, nodeName, id, runSequence, commit, trigger));
      "CICD_GIT_BRANCH" in env && env["CICD_GIT_BRANCH"] == p.stages[0].steps[0].branch
  {
    var entries := EnvEntries(p, nodeName, id, runSequence, commit, trigger);
    var base := BuiltInVars(p, nodeName, id, runSequence, commit, trigger);
    forall k | 6 < k < |entries| ensures entries[k].0 != entries[6].0 {
      if k < |base| {
      } else {
        assert entries[k] == ParamPairs(p.parameters)[k - |base|];
        assert KeyOf(ParamPairs(p.parameters)[k - |base|]) != "CICD_GIT_BRANCH";
      }
    }
    AssignLastWins(entries, 6);
  }
}
