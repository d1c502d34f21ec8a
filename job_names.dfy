/**
 * Names of the Jenkins jobs an activity creates: one job per step, named
 * `<pipeline>_<activity>_<stage>_<step ordinal>`, and the comma-separated list
 * of a stage's jobs.
 */
module JobNames {
  import opened Strings

  /** `getJobName`: the four parts joined with `_`. */
  function GetJobName(pipelineName: string, activityId: string, stageName: string, step: nat): string {
    Join([pipelineName, activityId, stageName, NatToString(step)], "_")
  }

  /** The job name spelled out: the four parts with `_` between them. */
  lemma GetJobNameParts(pipelineName: string, activityId: string, stageName: string, step: nat)
    ensures GetJobName(pipelineName, activityId, stageName, step)
            == pipelineName + "_" + activityId + "_" + stageName + "_" + NatToString(step)
  {
    var xs := [pipelineName, activityId, stageName, NatToString(step)];
    var d := NatToString(step);
    assert Join(xs[1..][1..][1..], "_") == d by { assert xs[1..][1..][1..] == [d]; }
    assert Join(xs[1..][1..], "_") == stageName + "_" + d;
    assert Join(xs[1..], "_") == activityId + "_" + stageName + "_" + d;
  }

  lemma {:induction false} NatToStringLong(n: nat)
    requires n >= 10
    ensures |NatToString(n)| >= 2
  {
  }

  lemma DigitInjective(a: nat, b: nat)
    requires a < 10 && b < 10 && Digit(a) == Digit(b)
    ensures a == b
  {
  }

  /** Decimal notation is injective. */
  lemma {:induction false} NatToStringInjective(a: nat, b: nat)
    requires NatToString(a) == NatToString(b)
    ensures a == b
  {
    if a < 10 && b < 10 {
      DigitInjective(a, b);
    } else if a < 10 {
      NatToStringLong(b);
    } else if b < 10 {
      NatToStringLong(a);
    } else {
      var sa, sb := NatToString(a), NatToString(b);
      assert sa == NatToString(a / 10) + [Digit(a % 10)];
      assert sb == NatToString(b / 10) + [Digit(b % 10)];
      assert sa[|sa| - 1] == Digit(a % 10) && sb[|sb| - 1] == Digit(b % 10);
      DigitInjective(a % 10, b % 10);
      assert sa[..|sa| - 1] == NatToString(a / 10);
      assert sb[..|sb| - 1] == NatToString(b / 10);
      NatToStringInjective(a / 10, b / 10);
    }
  }

  /** The steps of one stage of one activity get pairwise distinct job names. */
  lemma JobNamesDistinct(pipelineName: string, activityId: string, stageName: string, i: nat, j: nat)
    requires i != j
    ensures GetJobName(pipelineName, activityId, stageName, i) != GetJobName(pipelineName, activityId, stageName, j)
  {
    var prefix := pipelineName + "_" + activityId + "_" + stageName + "_";
    var ni, nj := GetJobName(pipelineName, activityId, stageName, i), GetJobName(pipelineName, activityId, stageName, j);
    if ni == nj {
      GetJobNameParts(pipelineName, activityId, stageName, i);
      GetJobNameParts(pipelineName, activityId, stageName, j);
      assert ni == prefix + NatToString(i) && nj == prefix + NatToString(j);
      assert ni[|prefix|..] == NatToString(i) && nj[|prefix|..] == NatToString(j);
      NatToStringInjective(i, j);
      assert false;
    }
  }

  /** `<stage>_<number>` determines the stage: the number holds no `_`. */
  lemma StageSuffixesDiffer(stage1: string, stage2: string, d1: string, d2: string)
    requires stage1 != stage2
    requires forall k :: 0 <= k < |d1| ==> '0' <= d1[k] <= '9'
    requires forall k :: 0 <= k < |d2| ==> '0' <= d2[k] <= '9'
    ensures stage1 + "_" + d1 != stage2 + "_" + d2
  {
    var a, b := stage1 + "_" + d1, stage2 + "_" + d2;
    if |a| == |b| {
      if |d1| < |d2| {
        // the `_` before the shorter number faces a digit of the longer one
        assert a[|stage1|] == '_';
        assert b[|stage1|] == d2[|stage1| - |stage2| - 1];
      } else if |d2| < |d1| {
        assert b[|stage2|] == '_';
        assert a[|stage2|] == d1[|stage2| - |stage1| - 1];
      } else {
        assert a[..|stage1|] == stage1 && b[..|stage2|] == stage2;
      }
    }
  }

  /** Steps of two differently named stages of one activity get different job names. */
  lemma JobNamesDistinctStages(pipelineName: string, activityId: string, stage1: string, stage2: string, i: nat, j: nat)
    requires stage1 != stage2
    ensures GetJobName(pipelineName, activityId, stage1, i) != GetJobName(pipelineName, activityId, stage2, j)
  {
    GetJobNameParts(pipelineName, activityId, stage1, i);
    GetJobNameParts(pipelineName, activityId, stage2, j);
    var prefix := pipelineName + "_" + activityId + "_";
    var a, b := stage1 + "_" + NatToString(i), stage2 + "_" + NatToString(j);
    StageSuffixesDiffer(stage1, stage2, NatToString(i), NatToString(j));
    assert GetJobName(pipelineName, activityId, stage1, i) == prefix + a;
    assert GetJobName(pipelineName, activityId, stage2, j) == prefix + b;
    assert (prefix + a)[|prefix|..] == a && (prefix + b)[|prefix|..] == b;
  }

  /**
   * The job name the stale reconciler looks up, `<pipeline>_<stage>_<activity>`:
   * a different scheme from `GetJobName`.
   */
  function StaleJobName(pipelineName: string, stageName: string, activityId: string): (r: string)
    ensures |r| == |pipelineName| + |stageName| + |activityId| + 2
  {
    pipelineName + "_" + stageName + "_" + activityId
  }

  /** The stale scheme never names a job that `GetJobName` gives to a step of the same activity. */
  lemma StaleJobNameNeverAStepJob(pipelineName: string, activityId: string, stageName: string, step: nat)
    ensures StaleJobName(pipelineName, stageName, activityId) != GetJobName(pipelineName, activityId, stageName, step)
  {
    GetJobNameParts(pipelineName, activityId, stageName, step);
  }

  /** Names of the first `n` step jobs of a stage. */
  function StageJobNames(pipelineName: string, activityId: string, stageName: string, n: nat): (r: seq<string>)
    ensures |r| == n
    ensures forall i :: 0 <= i < n ==> r[i] == GetJobName(pipelineName, activityId, stageName, i)
  {
    seq(n, i requires 0 <= i => GetJobName(pipelineName, activityId, stageName, i))
  }

  /** `getStageJobsName`: the names of the stage's step jobs, comma-separated. */
  method GetStageJobsName(pipelineName: string, activityId: string, stageName: string, stepCount: nat)
    returns (r: string)
    ensures r == Join(StageJobNames(pipelineName, activityId, stageName, stepCount), ",")
  {
    var names: seq<string> := [];
    var i := 0;
    while i < stepCount
      invariant 0 <= i <= stepCount
      invariant names == StageJobNames(pipelineName, activityId, stageName, i)
    {
      names := names + [GetJobName(pipelineName, activityId, stageName, i)];
      i := i + 1;
    }
    r := Join(names, ",");
  }

  /** Splitting a `sep`-joined list of non-empty-list pieces free of `sep` gives the pieces back. */
  lemma {:induction false} SplitJoin(xs: seq<string>, sep: char)
    requires xs != []
    requires forall k :: 0 <= k < |xs| ==> sep !in xs[k]
    ensures Split(Join(xs, [sep]), sep) == xs
  {
    if |xs| == 1 {
      SplitNoSep(xs[0], sep);
    } else {
      var rest := Join(xs[1..], [sep]);
      assert Join(xs, [sep]) == xs[0] + [sep] + rest;
      SplitJoin(xs[1..], sep);
      SplitAt(xs[0], sep, rest);
      assert [xs[0]] + xs[1..] == xs;
    }
  }

  /**
   * With names free of `,`, the list a stage advertises splits back into
   * exactly its step jobs, in step order.
   */
  lemma StageJobsNameSplits(pipelineName: string, activityId: string, stageName: string, stepCount: nat)
    requires stepCount > 0
    requires ',' !in pipelineName && ',' !in activityId && ',' !in stageName
    ensures Split(Join(StageJobNames(pipelineName, activityId, stageName, stepCount), ","), ',')
            == StageJobNames(pipelineName, activityId, stageName, stepCount)
  {
    var names := StageJobNames(pipelineName, activityId, stageName, stepCount);
    forall k | 0 <= k < |names| ensures ',' !in names[k] {
      var d := NatToString(k);
      GetJobNameParts(pipelineName, activityId, stageName, k);
      assert names[k] == pipelineName + "_" + activityId + "_" + stageName + "_" + d;
      assert ',' !in d;
    }
    SplitJoin(names, ',');
  }
}
