# Jenkins pipeline provider — a Dafny model

This project models the core of a CI pipeline service whose pipelines run as
Jenkins jobs. A pipeline is a list of stages. Each stage holds steps. Stages
and steps may carry `all`/`any` conditions over run variables. A stage may
need approval, and it may run its steps in parallel or one after another.
Running a pipeline does three things:

- it creates an *activity*, the record of one run;
- it creates one Jenkins job per step;
- it starts the first stage.

From then on the driver reacts to the server. It triggers builds, skips units
whose conditions are false, and cascades completion into the next stage or
into the activity's clean-up. It also stops activities, deletes former builds
before a re-run, and reads build logs back into step and stage statuses. The
service layer keeps the pipeline record up to date: run count, last run and
next cron fire. It also keeps the access-key store in step with the steps.

The modules follow the source:

- `Model`: entities.
- `Jenkins`: the server and its answers.
- `Activities`: activity creation and run variables.
- `JobNames`: job naming.
- `Conditions`: condition evaluation and variable substitution.
- `ShellText`: shell quoting, template paths and log trimming.
- `LogParse`: log parsing.
- `Driver`: RunStage/RunStep.
- `Abort`: stop and delete.
- `Lifecycle`: run and re-run.
- `Sync`: status synchronisation.
- `PipelineService` and `ServiceRun`: the service layer.
- `JenkinsConf`: the configuration table.

`Activity`, `Server`, `EnvKeyStore`, `PipelineStore` and `JenkinsConfig`
are classes, because the source updates them in place. Each method that
changes them is proved equal to a function over values: `RunStageF`,
`StopActivityF`, `SyncFromF`, `SyncStaleFromF`, `EnvKeysF` and `LaunchF`.
The lemmas state the source's promises about those functions.

The Jenkins server is a value, `Backend`. It holds the jobs, builds, raw logs
and node list it would report, and the names whose create, build, stop,
cancel or delete request would fail. `Server` records every request sent, in
order, in `calls`.

Some inputs become parameters:

- The clock is `now`.
- The activity uuid is `id`.
- The random node pick is `pick`.
- The service layer's stage-success test is `stageSuccess`.
- Time-zone loading, cron parsing and the next cron fire are `zoneLoads`, `cronParses` and `nextFire`.
- The timestamp regular expression's matches are the log's `segments` with their `stamps`.

## Model

| member | source | states |
|---|---|---|
| Activities.ToActivityStage | provider/jenkins/jenkins_provider.go:1099-1115 | a stage of the activity mirrors the pipeline stage: same name, same approval flag, one step per pipeline step with its name, everything `Waiting` |
| Activities.StagesOf | provider/jenkins/jenkins_provider.go:1069-1071 | the activity has exactly one stage per pipeline stage |
| Activities.Activity.constructor | provider/jenkins/jenkins_provider.go:1054-1074 | a new activity belongs to its pipeline, runs as sequence `runCount + 1`, starts `Waiting` at `now` with no commit, trigger or variables |
| Activities.ToActivity | provider/jenkins/jenkins_provider.go:1054-1074 | a node failure is returned unchanged; otherwise the activity runs on the picked node with mirrored stages, sequence `runCount + 1`, start `now` |
| Activities.ParamPair | provider/jenkins/jenkins_provider.go:1089-1094 | a parameter without `=` is ignored; otherwise it splits at its first `=` and key, `=` and value give back the parameter |
| Activities.KeyOrder | provider/jenkins/jenkins_provider.go:1077-1096 | the variable order lists each assigned name exactly once |
| Activities.AssignLastWins | provider/jenkins/jenkins_provider.go:1089-1095 | a variable holds the value of its last assignment |
| Activities.AssignAbsent | provider/jenkins/jenkins_provider.go:1077-1096 | a name never assigned is not a variable |
| Activities.InitEnvVars | provider/jenkins/jenkins_provider.go:1076-1097 | the run variables are the built-in ones followed by the parameters, last assignment winning; every ordered name is defined |
| Activities.ParameterSetsVariable | provider/jenkins/jenkins_provider.go:1089-1095 | a well-formed parameter sets its variable to its value when no later parameter reassigns it |
| Activities.BranchVariableDefault | provider/jenkins/jenkins_provider.go:1085 | without a parameter of that name, `CICD_GIT_BRANCH` is the first step's branch |
| Jenkins.GetJobInfo | provider/jenkins/jenkins_provider.go:125-129 | job information is available exactly for existing jobs; otherwise the error names the job |
| Jenkins.GetBuildInfo | provider/jenkins/jenkins_provider.go:721-728 | build information is available exactly for jobs with a last build; otherwise the error names the job |
| Jenkins.GetBuildRawOutput | provider/jenkins/jenkins_provider.go:811-819 | a fetched log is always cut into at least one piece, and a job whose output cannot be fetched has an empty log |
| Jenkins.NodeToRun | provider/jenkins/jenkins_provider.go:177-189 | no node list is an error, an empty list is "no active node", otherwise the node is one of the list |
| Jenkins.EveryNodeCanBePicked | provider/jenkins/jenkins_provider.go:185-188 | every active node can be the one chosen |
| Jenkins.CreateAllSpec | provider/jenkins/jenkins_provider.go:162-174 | creating a list of jobs succeeds iff none fails, sending one create per job in order; on failure it stops right after the first failing job and reports it |
| Jenkins.DeleteAllSpec | provider/jenkins/jenkins_provider.go:192-206 | deleting a list of builds succeeds iff none fails, one delete per job in order; on failure it stops right after the first failing job |
| Jenkins.CreateAllAppend | provider/jenkins/jenkins_provider.go:40-46 | creating two lists one after the other is creating their concatenation, stopping at the first error |
| Jenkins.DeleteAllAppend | provider/jenkins/jenkins_provider.go:192-206 | deleting two lists one after the other is deleting their concatenation, stopping at the first error |
| Jenkins.Server.CreateJob | provider/jenkins/jenkins_provider.go:162-174 | a create request is appended; it fails exactly for the jobs the server refuses |
| Jenkins.Server.BuildJob | provider/jenkins/jenkins_provider.go:374-380 | a build request is appended; it fails exactly for the jobs the server refuses |
| Jenkins.Server.StopJob | provider/jenkins/jenkins_provider.go:146-157 | a stop request is appended; it fails exactly for the jobs the server refuses |
| Jenkins.Server.CancelQueueItem | provider/jenkins/jenkins_provider.go:132-145 | a cancel request for the queue item is appended; it fails exactly for refused ids |
| Jenkins.Server.DeleteBuild | provider/jenkins/jenkins_provider.go:192-206 | a delete request is appended; it fails exactly for refused jobs |
| Jenkins.Server.OnActivityComplete | provider/jenkins/jenkins_provider.go:853-875 | completing an activity sends exactly one clean-up request for it |
| JobNames.GetJobNameParts | provider/jenkins/jenkins_provider.go:1189-1193 | a step's job is named pipeline, activity id, stage and step index joined by `_` |
| JobNames.NatToStringInjective | provider/jenkins/jenkins_provider.go:1189-1193 | distinct step indices print differently |
| JobNames.JobNamesDistinct | provider/jenkins/jenkins_provider.go:1189-1193 | two steps of one stage never share a job |
| JobNames.GetJobName | provider/jenkins/jenkins_provider.go:1189-1193 | the job of step `i` of a stage: pipeline name, activity id, stage name and decimal `i` joined by `_`; its shape is stated by `GetJobNameParts`, its injectivity by `JobNamesDistinct` and `JobNamesDistinctStages` |
| JobNames.StageSuffixesDiffer | provider/jenkins/jenkins_provider.go:1189-1193 | `<stage>_<digits>` determines the stage, since the step number holds no `_` |
| JobNames.JobNamesDistinctStages | provider/jenkins/jenkins_provider.go:1189-1193 | steps of two differently named stages of one activity never share a job |
| JobNames.StaleJobName | provider/jenkins/jenkins_provider.go:775 | the stale-sync job name is pipeline, stage and activity id with two separators |
| JobNames.StaleJobNameNeverAStepJob | provider/jenkins/jenkins_provider.go:775 | the stale-sync job is never the job of any step of that stage |
| JobNames.StageJobNames | provider/jenkins/jenkins_provider.go:1195-1203 | a stage's job list holds each step's job name at that step's index |
| JobNames.GetStageJobsName | provider/jenkins/jenkins_provider.go:1195-1203 | the stage's job list is the comma-joined job names of its steps |
| JobNames.SplitJoin | provider/jenkins/jenkins_provider.go:1195-1203 | splitting a joined list gives it back when no element holds the separator |
| JobNames.StageJobsNameSplits | provider/jenkins/jenkins_provider.go:1195-1203 | a downstream split on `,` recovers every step job of the stage when names have no comma |
| Conditions.SubstituteVar | provider/jenkins/jenkins_provider.go:1140-1148 | each variable in iteration order replaces `$K` followed by a space or a newline, and `${K}`, by its value; `SubstituteVarNoDollar`, `BracedReferenceReplaced`, `SpacedReferenceReplaced`, `NewlineReferenceReplaced` and `BareReferenceStays` state what it does |
| Conditions.MatchParams | provider/jenkins/jenkins_provider.go:260-271 | the `Key` and `Value` groups of the leftmost match of `(?P<Key>.*?)OP(?P<Value>.*)`, `.` not matching a newline; `MatchParamsOneLine`, `MatchParamsPlain` and `MatchParamsEqFallback` state its results |
| Conditions.EvaluateCondition | provider/jenkins/jenkins_provider.go:259-282 | `!=` is tried first, then `=`; the only error is the cannot-parse error for this very condition; `EvaluateNotEqual`, `EvaluateEqual`, `EvaluateEmptySide` and `EvaluateEmptyKeyNotEqual` state the outcomes |
| Conditions.EvaluateAll | provider/jenkins/jenkins_provider.go:233-244 | the `all` list stops at the first condition that is false or fails; `EvaluateAllTrue` and `EvaluateAllStops` state its outcome |
| Conditions.EvaluateAny | provider/jenkins/jenkins_provider.go:246-255 | the `any` list stops at the first condition that is true or fails; `EvaluateAnyFalse` and `EvaluateAnyStops` state its outcome |
| Conditions.ComputeSubstituteVar | provider/jenkins/jenkins_provider.go:1140-1148 | the loop replaces every variable in iteration order, as `SubstituteVar` specifies |
| Conditions.SubstituteVarNoDollar | provider/jenkins/jenkins_provider.go:1140-1148 | text without `$` is left unchanged whatever the variables |
| Conditions.SubstituteSingle | provider/jenkins/jenkins_provider.go:1142-1146 | with one variable, substitution replaces its three reference forms only |
| Conditions.BareReferenceStays | provider/jenkins/jenkins_provider.go:1142-1146 | a bare `$K` at the end of the text is not replaced |
| Conditions.BracedReferenceReplaced | provider/jenkins/jenkins_provider.go:1143 | `${K}` becomes the value |
| Conditions.SpacedReferenceReplaced | provider/jenkins/jenkins_provider.go:1144 | `$K ` (with its space) becomes the value |
| Conditions.NewlineReferenceReplaced | provider/jenkins/jenkins_provider.go:1145 | `$K` and a newline become the value |
| Conditions.FirstOccurrence | provider/jenkins/jenkins_provider.go:259-282 | the match position is the first occurrence of the operator at or after the start, or none exists |
| Conditions.LineStart | provider/jenkins/jenkins_provider.go:259-282 | the regular expression's line begins at the nearest preceding newline |
| Conditions.LineEnd | provider/jenkins/jenkins_provider.go:259-282 | the regular expression's line ends at the next newline or the end of text |
| Conditions.MatchParamsPlain | provider/jenkins/jenkins_provider.go:260-280 | a one-line `key op value` splits into key and value |
| Conditions.NoBangNoNotEqual | provider/jenkins/jenkins_provider.go:260 | a condition without `!` never takes the `!=` branch |
| Conditions.EvaluateNotEqual | provider/jenkins/jenkins_provider.go:260-269 | `k!=v` holds iff the variable named by substituted `k` differs from substituted `v`; for a non-empty `k` and `v` free of `=`, `!` and newlines |
| Conditions.EvaluateEqual | provider/jenkins/jenkins_provider.go:271-280 | `k=v` holds iff the variable named by substituted `k` equals substituted `v`; for a non-empty `k` and `v` free of `=`, `!` and newlines |
| Conditions.MatchParamsEqFallback | provider/jenkins/jenkins_provider.go:271-280 | matched as `=`, `k!=v` splits into `k!` and `v` |
| Conditions.EvaluateEmptySide | provider/jenkins/jenkins_provider.go:281 | a condition with an empty side cannot be parsed and reports itself |
| Conditions.EvaluateEmptyKeyNotEqual | provider/jenkins/jenkins_provider.go:260-280 | `!=v` with no key falls through to `=` with key `!` |
| Conditions.EvaluateLiteralEqual | provider/jenkins/jenkins_provider.go:271-280 | without references, `k=v` compares the variable `k` with the literal `v` |
| Conditions.EvaluateConditions | provider/jenkins/jenkins_provider.go:229-256 | the nil-condition error is returned exactly when the unit has no condition, as the service-layer test decides |
| Conditions.ComputeEvaluateConditions | provider/jenkins/jenkins_provider.go:229-256 | an absent or empty condition set is the nil-condition error; otherwise the `all` loop or else the `any` loop decides, as `EvaluateConditions` specifies |
| Conditions.ComputeEvaluateAll | provider/jenkins/jenkins_provider.go:233-244 | the `all` loop returns at the first false or failing predicate, as `EvaluateAll` specifies |
| Conditions.ComputeEvaluateAny | provider/jenkins/jenkins_provider.go:246-255 | the `any` loop returns at the first true or failing predicate, as `EvaluateAny` specifies |
| Conditions.EvaluateAllNeverNil | provider/jenkins/jenkins_provider.go:233-244 | the `all` list never reports a nil condition |
| Conditions.EvaluateAnyNeverNil | provider/jenkins/jenkins_provider.go:246-255 | the `any` list never reports a nil condition |
| Conditions.EvaluateAllTrue | provider/jenkins/jenkins_provider.go:233-244 | `all` holds iff every condition evaluates to true |
| Conditions.EvaluateAllStops | provider/jenkins/jenkins_provider.go:233-244 | `all` answers with the first condition that is not true (false or error) |
| Conditions.EvaluateAnyFalse | provider/jenkins/jenkins_provider.go:246-255 | `any` is false iff every condition evaluates to false |
| Conditions.EvaluateAnyStops | provider/jenkins/jenkins_provider.go:246-255 | `any` answers with the first condition that is not false (true or error) |
| Conditions.AllMasksAny | provider/jenkins/jenkins_provider.go:233-245 | a non-empty `all` decides alone; `any` is then not consulted |
| Conditions.AllExample | provider/jenkins/jenkins_provider.go:233-244 | illustration: with `a=1, b=3`, `all [a=1, b=2]` is false |
| Conditions.AnyExample | provider/jenkins/jenkins_provider.go:246-255 | illustration: with `a=2`, `any [a=1, a=2]` is true |
| ShellText.QuoteShell | provider/jenkins/jenkins_provider.go:1117-1124 | quoting as written: only double quotes are escaped, because the second replacement starts again from the script; `QuoteShellLosesBackslash` shows the consequence |
| ShellText.QuoteShellIntended | provider/jenkins/jenkins_provider.go:1117-1124 | quoting as evidently intended: backslashes doubled, then quotes escaped; `QuoteShellIntendedRoundTrip` proves a shell reads the script back |
| ShellText.EscapeShell | provider/jenkins/jenkins_provider.go:1126-1137 | backslashes doubled, every `$` escaped, then `$K` followed by a space or a newline, and `${K}`, restored for each run variable; `EscapeShellNoVariables` and `EscapeShellKeepsBracedReference` state what a shell reads |
| ShellText.QuoteShellLosesBackslash | provider/jenkins/jenkins_provider.go:1117-1124 | as written, a lone backslash is quoted to a string a shell cannot read back |
| ShellText.MapCharsAreEscapeQuoted | provider/jenkins/jenkins_provider.go:1120-1121 | escaping backslashes then quotes is one character-wise escape |
| ShellText.QuoteShellIntendedRoundTrip | provider/jenkins/jenkins_provider.go:1117-1124 | the intended quoting reads back to the original script |
| ShellText.ComputeEscapeShell | provider/jenkins/jenkins_provider.go:1126-1137 | the loop over variables restores each `${K}` after escaping, as `EscapeShell` specifies |
| ShellText.MapCharsAreEscapeDollars | provider/jenkins/jenkins_provider.go:1127-1128 | escaping backslashes then dollars is one character-wise escape |
| ShellText.EscapeShellWithoutKeys | provider/jenkins/jenkins_provider.go:1126-1129 | with no variables, escaping doubles every backslash and escapes every `$`, one character at a time |
| ShellText.EscapeShellNoVariables | provider/jenkins/jenkins_provider.go:1126-1137 | with no variables, a script without quotes or backquotes reads back unchanged inside double quotes |
| ShellText.EscapeShellKeepsBracedReference | provider/jenkins/jenkins_provider.go:1126-1137 | a braced reference to a run variable survives escaping, so the shell expands it |
| ShellText.RestoreBracedReference | provider/jenkins/jenkins_provider.go:1131-1135 | restoring a key turns its escaped braced reference back into `${K}` |
| ShellText.SplitTemplate | provider/jenkins/jenkins_provider.go:1170-1186 | a part with two or more `*` is rejected; otherwise neither half holds `*` |
| ShellText.TemplateURLPath | provider/jenkins/jenkins_provider.go:1150-1187 | a path is rejected iff it has neither one nor two `:` or its template part has two or more `*` |
| ShellText.TemplatePathRoundTrip | provider/jenkins/jenkins_provider.go:1150-1187 | parsing a composed template reference gives it back |
| ShellText.TrimFirstLine | provider/jenkins/jenkins_provider.go:1205-1212 | trimming always shortens the text or empties it |
| ShellText.TrimFirstLineKeepsRest | provider/jenkins/jenkins_provider.go:1205-1212 | after leading newlines and one line, the rest of the text is kept as it is |
| ShellText.TrimFirstLineSingleLine | provider/jenkins/jenkins_provider.go:1205-1212 | a single line is trimmed to nothing |
| LogParse.NanosToMillisTowardZero | provider/jenkins/jenkins_provider.go:1041-1049 | nanosecond offsets become milliseconds by division truncated toward zero |
| LogParse.ParseStepTime | provider/jenkins/jenkins_provider.go:1018-1051 | the step starts at the activity start plus its first stamp and, when finished, lasts from first to last stamp; `ParseStepTimeSpec` states it |
| LogParse.ParseStepTimeSpec | provider/jenkins/jenkins_provider.go:1018-1051 | a segment's first stamp sets the start; only a finished step gets a duration, the span from first to last stamp; no stamp changes nothing |
| LogParse.LastStatus | provider/jenkins/jenkins_provider.go:964-970 | a log ending `Finished: SUCCESS` means success, `Finished: FAILURE` failure, otherwise still building |
| LogParse.StatusChangedMeans | provider/jenkins/jenkins_provider.go:986-1010 | "updated" means some step's status changed |
| LogParse.ParseSteps | provider/jenkins/jenkins_provider.go:960-1016 | the loop computes the parsed stage and the updated flag |
| LogParse.ParseReachedSteps | provider/jenkins/jenkins_provider.go:986-1011 | the step loop yields every parsed step, the sum of reached steps' durations and whether a status changed |
| LogParse.ParseStepAt | provider/jenkins/jenkins_provider.go:987-1009 | one iteration parses step `i` and says whether the log reached it |
| LogParse.ParseStepsStatuses | provider/jenkins/jenkins_provider.go:986-1010 | steps before the log's last are successes, the last takes the log's final status, later steps wait |
| LogParse.ParseStepsSettlesStage | provider/jenkins/jenkins_provider.go:964-970 | a finished log settles the stage as success or failure; an unfinished one leaves its status |
| LogParse.ParseStepsCheckoutOnlyFirst | provider/jenkins/jenkins_provider.go:973-983 | a checkout log updates only the first step, whose duration becomes the stage's |
| LogParse.ParseStepsKeepsShape | provider/jenkins/jenkins_provider.go:960-1016 | parsing keeps the stage's name, approval flag, start and step names |
| LogParse.ParseStepsDuration | provider/jenkins/jenkins_provider.go:986-1011 | the stage duration is the sum of durations of the steps that ran |
| LogParse.LastNonEmpty | provider/jenkins/jenkins_provider.go:943-956 | the commit chosen is empty or one of the revisions |
| LogParse.LastNonEmptyIsLast | provider/jenkins/jenkins_provider.go:943-956 | the commit is empty iff all revisions are, otherwise it is the last non-empty one |
| Driver.RunStageF | provider/jenkins/jenkins_provider.go:284-333 | running a stage keeps the stage tree's shape, only appends requests and leaves earlier stages alone |
| Driver.RunStepF | provider/jenkins/jenkins_provider.go:335-383 | running a step keeps the tree's shape, only appends requests and leaves earlier stages alone |
| Driver.RunStepsF | provider/jenkins/jenkins_provider.go:316-322 | the parallel loop keeps the tree's shape, only appends requests and leaves earlier stages alone |
| Driver.SkipStageF | provider/jenkins/jenkins_provider.go:300-312 | skipping a stage keeps the tree's shape, only appends requests and leaves earlier stages alone |
| Driver.OpenStageF | provider/jenkins/jenkins_provider.go:314-329 | opening a stage keeps the tree's shape, only appends requests and leaves earlier stages alone |
| Driver.SkipStepF | provider/jenkins/jenkins_provider.go:352-373 | skipping a step keeps the tree's shape, only appends requests and leaves earlier stages alone |
| Driver.RunStage | provider/jenkins/jenkins_provider.go:284-333 | the activity and the server end as `RunStageF` says |
| Driver.SkipStageThenNext | provider/jenkins/jenkins_provider.go:300-312 | a skipped stage completes the activity when it is the last, and otherwise runs the next stage |
| Driver.RunParallelSteps | provider/jenkins/jenkins_provider.go:316-322 | the parallel loop ends as `RunStepsF` from the first step says |
| Driver.RunStep | provider/jenkins/jenkins_provider.go:335-383 | the activity and the server end as `RunStepF` says |
| Driver.SkipStepThenNext | provider/jenkins/jenkins_provider.go:352-373 | a skipped step finishes its stage when the stage succeeds (then completes the activity or runs the next stage), else runs the next step of a sequential stage |
| Driver.RunStageEffect | provider/jenkins/jenkins_provider.go:284-333 | a run sends only builds and the activity's clean-up, and changes status and stop time exactly when it cleans up, to `Success` at `now` |
| Driver.SkipStageEffect | provider/jenkins/jenkins_provider.go:300-312 | the same holds for a stage skip |
| Driver.OpenStageEffect | provider/jenkins/jenkins_provider.go:314-329 | the same holds for opening a stage |
| Driver.RunStepsEffect | provider/jenkins/jenkins_provider.go:316-322 | the same holds for the parallel loop |
| Driver.RunStepEffect | provider/jenkins/jenkins_provider.go:335-383 | the same holds for a step |
| Driver.SkipStepEffect | provider/jenkins/jenkins_provider.go:352-373 | the same holds for a step skip |
| Driver.RunStageBuildsNot | provider/jenkins/jenkins_provider.go:284-333 | running stage `o` never triggers a job that no step from stage `o` on is named |
| Driver.SkipStageBuildsNot | provider/jenkins/jenkins_provider.go:300-312 | skipping stage `o` never triggers a job that no step after stage `o` is named |
| Driver.OpenStageBuildsNot | provider/jenkins/jenkins_provider.go:314-329 | the same for opening a stage |
| Driver.RunStepsBuildsNot | provider/jenkins/jenkins_provider.go:316-322 | the same for the parallel loop from step `i` on |
| Driver.RunStepBuildsNot | provider/jenkins/jenkins_provider.go:335-383 | running step `i` never triggers a job that no step from `i` on (in run order) is named |
| Driver.SkipStepBuildsNot | provider/jenkins/jenkins_provider.go:352-373 | skipping step `i` never triggers a job that no later step is named |
| Driver.SkippedStageBuildsNone | provider/jenkins/jenkins_provider.go:301-312 | a stage whose conditions are false never triggers any of its own step jobs, whatever later stages do, when stage names are distinct |
| Driver.SkippedStepBuildsNotItsJob | provider/jenkins/jenkins_provider.go:352-373 | a step whose conditions are false never triggers its own job, whether the run moves to the next step, the next stage or stops, when stage names are distinct |
| Driver.ParallelSkipSendsNothing | provider/jenkins/jenkins_provider.go:352-373 | in a parallel stage, a skipped step that does not make the stage successful is marked `Skip` and sends no request |
| Driver.SequentialStageCleansUpLast | provider/jenkins/jenkins_provider.go:300-312 | in a pipeline of sequential stages the clean-up, if sent, is the last request of a run |
| Driver.SequentialSkipStageCleansUpLast | provider/jenkins/jenkins_provider.go:300-312 | the same for a stage skip |
| Driver.SequentialStepCleansUpLast | provider/jenkins/jenkins_provider.go:352-373 | the same for a step run |
| Driver.SequentialSkipCleansUpLast | provider/jenkins/jenkins_provider.go:352-373 | the same for a step skip |
| Driver.RunStageRejects | provider/jenkins/jenkins_provider.go:285-299 | an out-of-range stage or a condition error changes nothing and is reported |
| Driver.SkipLastStageCompletes | provider/jenkins/jenkins_provider.go:300-312 | skipping the last stage marks it skipped, completes the activity at `now` and cleans up once |
| Driver.SkippedStepCompletesStage | provider/jenkins/jenkins_provider.go:352-373 | a skipped step that makes the stage successful finishes the stage at `now`, and the activity too when the stage is last |
| Driver.BuildsFrom | provider/jenkins/jenkins_provider.go:316-322 | one build per remaining step |
| Driver.OpenStepBuilds | provider/jenkins/jenkins_provider.go:374-380 | a step whose condition holds triggers exactly its job's build |
| Driver.ParallelStepsTriggerAll | provider/jenkins/jenkins_provider.go:316-322 | when every condition holds and no build fails, the parallel loop triggers every remaining step, in order |
| Driver.ParallelStageTriggersAll | provider/jenkins/jenkins_provider.go:314-322 | a parallel stage starts at `now` and triggers every step's build |
| Driver.SequentialStageTriggersFirst | provider/jenkins/jenkins_provider.go:323-329 | a sequential stage starts at `now` and triggers only its first step's build |
| Abort.FirstLive | provider/jenkins/jenkins_provider.go:105-120 | the stop loop reaches the first stage that is neither successful nor skipped |
| Abort.StopStepF | provider/jenkins/jenkins_provider.go:124-159 | stopping a step sends the stop requests for its job and changes at most that step |
| Abort.StopStepsF | provider/jenkins/jenkins_provider.go:107-113 | stopping a stage's steps sends their stop requests in order and touches only that stage's steps |
| Abort.StopStep | provider/jenkins/jenkins_provider.go:124-159 | the activity and the server end as `StopStepF` says |
| Abort.StopActivityF | provider/jenkins/jenkins_provider.go:99-122 | the activity is aborted now and the first stage that is neither successful nor skipped is aborted; `StopAbortsFirstLiveStage` and `StopRemarksFailedStage` state it |
| Abort.AbortStageF | provider/jenkins/jenkins_provider.go:107-118 | every step of the stage is stopped, then the stage is aborted with its duration running to now; `StopReachesEveryStep` states the requests |
| Abort.AbortStage | provider/jenkins/jenkins_provider.go:107-118 | the activity and the server end as `AbortStageF` says |
| Abort.StopActivity | provider/jenkins/jenkins_provider.go:99-122 | the activity and the server end as `StopActivityF` says |
| Abort.StopAbortsFirstLiveStage | provider/jenkins/jenkins_provider.go:99-122 | stopping aborts the activity at `now` and aborts the first unsettled stage with its elapsed time, leaving every other stage alone |
| Abort.StopRemarksFailedStage | provider/jenkins/jenkins_provider.go:105-118 | a failed stage after settled ones is re-marked aborted |
| Abort.FirstLiveIs | provider/jenkins/jenkins_provider.go:105-120 | the first unsettled stage is the one the loop stops at |
| Abort.StopStepAbortsOnlyRunningBuilds | provider/jenkins/jenkins_provider.go:124-159 | a step becomes aborted iff its job is out of the queue, building, and its stop succeeds |
| Abort.StopReachesEveryStep | provider/jenkins/jenkins_provider.go:107-113 | stop requests go to every step of the aborted stage, in order |
| Abort.StopTwoRunningSteps | provider/jenkins/jenkins_provider.go:146-157 | illustration of `StopReachesEveryStep`: two running steps are both sent a stop |
| Abort.TargetsAreFinished | provider/jenkins/jenkins_provider.go:192-206 | only the jobs of finished steps are deleted |
| Abort.FinishedAreTargets | provider/jenkins/jenkins_provider.go:192-206 | every finished step's job is deleted |
| Abort.StepTargetsAreFinished | provider/jenkins/jenkins_provider.go:194-203 | within a stage, only finished steps' jobs are targets |
| Abort.FinishedStepIsTarget | provider/jenkins/jenkins_provider.go:194-203 | within a stage, each finished step's job is a target |
| Abort.DeleteStageBuilds | provider/jenkins/jenkins_provider.go:194-203 | one stage's deletes are sent in order, stopping at the first failure |
| Abort.DeleteFormerBuild | provider/jenkins/jenkins_provider.go:192-206 | deletes are sent for the finished steps' jobs in order, stopping at the first failure |
| Lifecycle.JobsFromMembers | provider/jenkins/jenkins_provider.go:40-46 | the jobs created are exactly the step jobs of the activity |
| Lifecycle.CreateStage | provider/jenkins/jenkins_provider.go:162-174 | a stage's jobs are created step by step, stopping at the first failure |
| Lifecycle.CreateStages | provider/jenkins/jenkins_provider.go:40-46 | every stage's jobs are created in order, stopping at the first failure |
| Lifecycle.NewActivity | provider/jenkins/jenkins_provider.go:30-35 | a new activity carries the node and the run variables, or the node error |
| Lifecycle.PrepareActivity | provider/jenkins/jenkins_provider.go:30-46 | after a node is chosen every job is created; a creation error is returned, otherwise a fresh waiting activity |
| Lifecycle.LaunchF | provider/jenkins/jenkins_provider.go:28-59 | a run picks a node, creates every step job, then runs stage 0 of a waiting activity, stopping at the first error; `LaunchRunsFirstStage` and `FirstRunStatus` state it |
| Lifecycle.RunPipeline | provider/jenkins/jenkins_provider.go:28-59 | running a pipeline ends as `LaunchF` says: a node, the jobs, then the first stage |
| Lifecycle.LaunchRunsFirstStage | provider/jenkins/jenkins_provider.go:48-50 | once the jobs exist, a launch is running stage 0 from a waiting activity |
| Lifecycle.FirstRunStatus | provider/jenkins/jenkins_provider.go:48-50 | after the first stage the activity is `Success` iff it was cleaned up, else still `Waiting` |
| Lifecycle.RerunPrep | provider/jenkins/jenkins_provider.go:64-78 | a re-run recreates every job when the first step job is missing, and otherwise deletes the finished steps' builds; `RerunPrepTargets` states it |
| Lifecycle.RerunPrepTargets | provider/jenkins/jenkins_provider.go:64-78 | a re-run recreates every step job when the first is missing, and otherwise deletes exactly the finished steps' builds |
| Lifecycle.RefreshJobs | provider/jenkins/jenkins_provider.go:64-78 | the server ends as `RerunPrep` says |
| Lifecycle.Restart | provider/jenkins/jenkins_provider.go:80-94 | a re-run moves to the new node, takes sequence `runCount + 1`, restarts at `now` and rebuilds the run variables |
| Lifecycle.RerunActivity | provider/jenkins/jenkins_provider.go:62-97 | a preparation or node error leaves the activity as it was; otherwise it restarts and runs stage 0 |
| Sync.SyncStageF | provider/jenkins/jenkins_provider.go:714-760 | syncing a stage keeps the activity's shape |
| Sync.SyncFromF | provider/jenkins/jenkins_provider.go:707-765 | syncing keeps the activity's shape |
| Sync.SyncStepF | provider/jenkins/jenkins_provider.go:710-758 | one step of the sync, as stated by `SyncStepKeepsDone`, `SyncErrorIsMissingJob`, `SyncStepSuccess`, `SyncStepFailure` and `SyncStepAwaitsApproval` |
| Sync.SyncStep | provider/jenkins/jenkins_provider.go:710-758 | the activity ends as `SyncStepF` says |
| Sync.SyncStage | provider/jenkins/jenkins_provider.go:709-760 | the activity ends as `SyncStageF` says |
| Sync.SyncActivity | provider/jenkins/jenkins_provider.go:707-765 | the activity ends as `SyncFromF` says |
| Sync.SyncStepKeepsDone | provider/jenkins/jenkins_provider.go:710-712 | a sync never changes a successful or failed step |
| Sync.SyncStageKeepsDone | provider/jenkins/jenkins_provider.go:709-760 | the same across a stage |
| Sync.SyncKeepsDone | provider/jenkins/jenkins_provider.go:707-765 | the same across the activity |
| Sync.SyncErrorIsMissingJob | provider/jenkins/jenkins_provider.go:714-719 | a sync error always names a job the server does not have |
| Sync.SyncStageErrorIsMissingJob | provider/jenkins/jenkins_provider.go:714-719 | the same within a stage |
| Sync.SyncStepSuccess | provider/jenkins/jenkins_provider.go:731-739 | a successful build makes the step successful with the build's time and duration, and the stage successful when it is its last step |
| Sync.SyncStepFailure | provider/jenkins/jenkins_provider.go:740-749 | a failed build fails the step, the stage and the activity, stopping at the build's end |
| Sync.SyncStepAwaitsApproval | provider/jenkins/jenkins_provider.go:721-728 | with no build yet the sync leaves this stage's step loop and goes on with the next stage; a first step needing approval puts stage and activity `Pending`, and otherwise nothing changes |
| Sync.GetCommit | provider/jenkins/jenkins_provider.go:943-956 | the commit becomes the build's last non-empty revision, or stays |
| Sync.SyncStaleStageF | provider/jenkins/jenkins_provider.go:775-841 | stale sync keeps the number of stages |
| Sync.SyncStaleStage | provider/jenkins/jenkins_provider.go:775-841 | the activity ends as `SyncStaleStageF` says |
| Sync.SyncStaleFromF | provider/jenkins/jenkins_provider.go:768-850 | the stale sync from stage `i` on, as stated by the `SyncStale…` lemmas below |
| Sync.SyncActivityStale | provider/jenkins/jenkins_provider.go:768-850 | the activity, flag and error end as `SyncStaleFromF` says |
| Sync.SyncStaleErrorMeansNoUpdate | provider/jenkins/jenkins_provider.go:782-787 | an error reports a missing job and no update |
| Sync.SyncStaleUpdateSticks | provider/jenkins/jenkins_provider.go:838-841 | once updated, a stale sync without error reports updated |
| Sync.SyncStaleLastStageCompletes | provider/jenkins/jenkins_provider.go:819-836 | a successful log of the last stage completes the activity at the build's end |
| Sync.SyncStaleAwaitsApproval | provider/jenkins/jenkins_provider.go:833-837 | success before a stage needing approval makes that stage and the activity pending |
| Sync.SyncStaleFailure | provider/jenkins/jenkins_provider.go:819-836 | a failed log fails the stage and the activity |
| Sync.SyncStaleNoBuildResets | provider/jenkins/jenkins_provider.go:796-803 | a stage without a build that is not `Pending` goes back to `Waiting` and the sync ends there, without reporting the change |
| PipelineService.HasCondition | server/service/pipeline_service.go:200-206 | a condition set gates only when present with a non-empty `all` or `any` list; `Conditions.EvaluateConditions` reports the nil-condition error exactly when it does not |
| PipelineService.HasStepCondition | server/service/pipeline_service.go:200-202 | a step gates when its condition set does |
| PipelineService.HasStageCondition | server/service/pipeline_service.go:204-206 | a stage gates when its condition set does |
| PipelineService.GetNextRunTime | server/service/pipeline_service.go:208-232 | inactive, without cron spec, with a bad time zone or a bad spec the next run is 0; otherwise the next cron fire |
| PipelineService.EnvKeyStore.constructor | server/service/account_service.go:366-390 | a token store holds the given tokens and failure sets |
| PipelineService.EnvKeyStore.GetEnvKey | server/service/account_service.go:366-390 | a read fails exactly for unreadable keys, otherwise returns the stored token or "" |
| PipelineService.EnvKeyStore.CreateOrUpdateEnvKey | server/service/account_service.go:392-425 | a write stores the token, or fails and changes nothing |
| PipelineService.UpdatePipelineEnvKey | server/service/pipeline_service.go:178-198 | the store and the error end as `EnvKeysF` says; `EnvKeysCoverEveryStep`, `EnvKeysStoreSecret` and `MissingTokenStops` state what that walk guarantees |
| PipelineService.StepEnvKeyCovers | server/service/pipeline_service.go:180-195 | a step's handling keeps tokens and, without error, leaves its key covered |
| PipelineService.StageEnvKeysCover | server/service/pipeline_service.go:180-196 | the same for the rest of a stage |
| PipelineService.EnvKeysCoverEveryStep | server/service/pipeline_service.go:178-198 | without error, every step with an access key has a stored token, and no token is removed |
| PipelineService.MissingTokenStops | server/service/pipeline_service.go:186-193 | a key with no secret and no stored token stops the walk with the missing-token error |
| PipelineService.StageEnvKeysStoreSecret | server/service/pipeline_service.go:181-183 | within a stage, a successful walk leaves a step's secret stored under its access key when no later step of the stage writes that key |
| PipelineService.EnvKeysStoreSecret | server/service/pipeline_service.go:178-198 | a successful update leaves, under the access key of each step with both keys, that step's secret, unless a later step writes the same key |
| PipelineService.EnvKeysWriteOnlyStepKeys | server/service/pipeline_service.go:178-198 | keys no step supplies a secret for keep their token |
| PipelineService.StageEnvKeysKeep | server/service/pipeline_service.go:180-196 | the same within a stage |
| ServiceRun.PipelineStore.constructor | server/service/pipeline_service.go:16-38 | a store holds the given pipelines |
| ServiceRun.PipelineStore.GetPipelineById | server/service/pipeline_service.go:16-38 | a pipeline is found exactly when stored; otherwise the error names the id |
| ServiceRun.RecordRun | server/service/pipeline_service.go:169-174 | recording a run keeps the definition and recomputes the next run time |
| ServiceRun.RunPipeline | server/service/pipeline_service.go:158-176 | an unknown id fails with nothing sent; a provider error leaves the store; a run is recorded in the pipeline |
| ServiceRun.LaunchStatus | server/service/pipeline_service.go:169-174 | a freshly launched activity is `Waiting` or already `Success` |
| ServiceRun.RecordedRunCounts | server/service/pipeline_service.go:169-174 | the record bumps the run count and keeps id, start and a `Waiting`/`Success` status |
| JenkinsConf.JenkinsConfig.constructor | provider/jenkins/jenkins_conf.go:48-63 | the configuration starts as the fourteen URI entries |
| JenkinsConf.JenkinsConfig.Get | provider/jenkins/jenkins_conf.go:39-46 | a present key gives its value; a missing key gives "" and the not-found error |
| JenkinsConf.JenkinsConfig.Set | provider/jenkins/jenkins_conf.go:33-37 | a set key reads back its value and no other key changes |
| JenkinsConf.InitialTableKeys | provider/jenkins/jenkins_conf.go:48-63 | the initial table's keys are exactly the URI keys |
| JenkinsConf.SetupKeysAbsent | provider/jenkins/jenkins_conf.go:10-28 | server address, user, token and crumb settings start unset |

## Left out

- The Jenkins HTTP client (job creation XML, build, stop, queue and log
  requests) is not part of this model. `Backend` holds its answers and the
  names whose requests fail.
- Job configuration XML is not modelled. This covers `UpdateJobConf`, the
  step project generator and the command builder, so a re-run's
  configuration update is not modelled.
- The Groovy node and upgrade scripts are not modelled.
- `OnActivityCompelte` is reduced to its single clean-up request.
- `GetStepLog`, `OnCreateAccount` and `OnDeleteAccount` are not modelled.
- Storing a new activity (`CreateActivity`) is not modelled. The pipeline
  update after a run is modelled as a map write.
- The locks (`RWMutex`) and concurrency are not modelled. Each model call
  runs alone.
- Clock, uuid, random node choice, time zones, cron parsing and the
  timestamp regular expression are parameters. Each top-level call reads
  one `now`.
- Go's map iteration order for run variables is not modelled. It is an
  explicit key order, `envOrder`. Substitution and escaping are proved for
  the order given, so results that depend on the order hold for that order
  only.
- PipelineService.EnvKeyStore.GetEnvKey: keys are stored without the
  `envKey:` prefix the account service adds, and the backing API client is
  a store with failure sets.
- Lifecycle.RunPipeline: requires a first stage with a first step. Building
  the run variables reads `Stages[0].Steps[0]` (jenkins_provider.go:1084-1085)
  before the empty-stage check at lines 37-39, so that check is unreachable.
- Lifecycle.RerunActivity: does not reset former stage and step statuses,
  because the source does not either. The model re-runs stage 0 over the
  old tree.
- Driver.SequentialStageCleansUpLast: proves clean-up-last only for
  pipelines whose stages are all sequential. In a parallel stage every
  skipped step can cascade into the next stage, so a run may send more than
  one clean-up.
- The service layer's stage-success test, `IsStageSuccess`, is not part of
  this model. The driver takes it as the parameter `stageSuccess`.
- Conditions.MatchParams: `util.GetParams` is not part of this model. It is
  taken to behave like Go's `FindStringSubmatch` on the pattern: the
  leftmost match, a lazy `.*?` key, and `.` not matching a newline.
- Integers are unbounded. The width of Go's `int` and `int64` is not
  modelled for timestamps, durations, the run sequence or the step ordinal.
- LogParse.ParseStepTime: Go's `ParseDuration` is replaced by stamps already
  converted to nanoseconds, so malformed stamps read as absent.

## Findings

| source | as written | input that shows it | evidently intended | confidence | as-written member | corrected member |
|---|---|---|---|---|---|---|
| provider/jenkins/jenkins_provider.go:1120-1121 | the second `Replace` starts again from `script`, discarding the backslash escaping of the first | the script `\` quotes to `"\"`, an unterminated string | escape backslashes, then quotes, on the escaped text | not executed | ShellText.QuoteShellLosesBackslash | ShellText.QuoteShellIntendedRoundTrip |
