/**
 * The Jenkins server as the engine sees it: a snapshot of answers to its
 * queries (job info, build info, raw console output, active nodes, which
 * requests fail) and a record of the requests the engine sends it.
 */
module Jenkins {
  import opened Wrappers
  import opened Model

  /** The `queueItem` of a job: not a JSON object, an object without `id`, or a queue id. */
  datatype QueueItem = NotAMap | NoId | QueueId(id: int)

  datatype JobInfo = JobInfo(inQueue: bool, queueItem: QueueItem)

  /**
   * The last build of a job. `revisions` holds the `lastBuiltRevision.SHA1`
   * of each entry of `actions`, "" where an action has none.
   */
  datatype BuildInfo = BuildInfo(result: string, building: bool, timestamp: int, duration: int, revisions: seq<string>)

  /**
   * One piece of a console log cut at each step's shell-script marker. `stamps`
   * are the elapsed-time prefixes of its lines, in nanoseconds, `None` where a
   * prefix does not parse as a duration.
   */
  datatype Segment = Segment(text: string, stamps: seq<Option<int>>)

  /** A console log and its pieces; cutting any text yields at least one piece. */
  datatype RawLog = RawLog(text: string, segments: seq<Segment>)

  predicate WellFormedLog(l: RawLog) {
    |l.segments| >= 1
  }

  /** The log of a job whose output cannot be fetched: the empty text, one empty piece. */
  const EmptyLog := RawLog("", [Segment("", [])])

  datatype Backend = Backend(
    jobs: map<string, JobInfo>,
    builds: map<string, BuildInfo>,
    rawOutputs: map<string, RawLog>,
    nodes: Option<seq<string>>,
    createFails: set<string>,
    buildFails: set<string>,
    stopFails: set<string>,
    cancelFails: set<int>,
    deleteFails: set<string>)

  /** A request the engine sends to the server, or the clean-up it runs on a worker. */
  datatype Call = Create(job: string) | Build(job: string) | Stop(job: string) | CancelQueue(id: int) | Delete(job: string) | Cleanup(activityId: string)

  predicate WellFormedBackend(b: Backend) {
    forall job | job in b.rawOutputs :: WellFormedLog(b.rawOutputs[job])
  }

  function GetJobInfo(b: Backend, job: string): (r: Result<JobInfo, Error>)
    ensures r.Ok? <==> job in b.jobs
    ensures r.Err? ==> r.error == JobInfoUnavailable(job)
  {
    if job in b.jobs then Ok(b.jobs[job]) else Err(JobInfoUnavailable(job))
  }

  function GetBuildInfo(b: Backend, job: string): (r: Result<BuildInfo, Error>)
    ensures r.Ok? <==> job in b.builds
    ensures r.Err? ==> r.error == BuildInfoUnavailable(job)
  {
    if job in b.builds then Ok(b.builds[job]) else Err(BuildInfoUnavailable(job))
  }

  /** The console output of a job's last build; an unavailable one reads as empty. */
  function GetBuildRawOutput(b: Backend, job: string): (r: RawLog)
    requires WellFormedBackend(b)
    ensures WellFormedLog(r)
    ensures job !in b.rawOutputs ==> r.text == ""
  {
    if job in b.rawOutputs then b.rawOutputs[job] else EmptyLog
  }

  /**
   * `getNodeNameToRun`: the node at the random index `pick` of the active
   * nodes; an error when the list cannot be fetched or is empty.
   */
  function NodeToRun(nodes: Option<seq<string>>, pick: nat): (r: Result<string, Error>)
    ensures nodes.None? ==> r == Err(NodeListUnavailable)
    ensures nodes == Some([]) ==> r == Err(NoActiveNode)
    ensures nodes.Some? && nodes.value != [] ==> r.Ok? && r.value in nodes.value
  {
    if nodes.None? then Err(NodeListUnavailable)
    else if |nodes.value| == 0 then Err(NoActiveNode)
    else Ok(nodes.value[pick % |nodes.value|])
  }

  /** Every active node is picked for some random index. */
  lemma EveryNodeCanBePicked(nodes: seq<string>, k: nat)
    requires k < |nodes|
    ensures NodeToRun(Some(nodes), k) == Ok(nodes[k])
  {
  }

  /**
   * Create the jobs in order, stopping at the first failure: the requests
   * sent and the error, if any.
   */
  function CreateAll(b: Backend, jobs: seq<string>): (seq<Call>, Option<Error>)
  {
    if jobs == [] then ([], None)
    else if jobs[0] in b.createFails then ([Create(jobs[0])], Some(CreateJobFailed(jobs[0])))
    else
      var rest := CreateAll(b, jobs[1..]);
      ([Create(jobs[0])] + rest.0, rest.1)
  }

  /**
   * `CreateAll` fails exactly when one of the jobs is refused; then the requests end
   * at that job. Otherwise every job gets its request, in order.
   */
  lemma {:induction false} CreateAllSpec(b: Backend, jobs: seq<string>)
    ensures var r := CreateAll(b, jobs);
      (r.1.None? <==> forall k :: 0 <= k < |jobs| ==> jobs[k] !in b.createFails)
      && (r.1.None? ==> r.0 == seq(|jobs|, k requires 0 <= k < |jobs| => Create(jobs[k])))
      && (r.1.Some? ==> exists k :: 0 <= k < |jobs| && r.1 == Some(CreateJobFailed(jobs[k])) && |r.0| == k + 1)
  {
    if jobs != [] && jobs[0] !in b.createFails {
      CreateAllSpec(b, jobs[1..]);
      var r, rest := CreateAll(b, jobs), CreateAll(b, jobs[1..]);
      if rest.1.Some? {
        var k :| 0 <= k < |jobs[1..]| && rest.1 == Some(CreateJobFailed(jobs[1..][k])) && |rest.0| == k + 1;
        assert r.1 == Some(CreateJobFailed(jobs[k + 1])) && |r.0| == k + 2;
      }
    }
  }

  /** Delete the last builds of the jobs in order, stopping at the first failure. */
  function DeleteAll(b: Backend, jobs: seq<string>): (seq<Call>, Option<Error>)
  {
    if jobs == [] then ([], None)
    else if jobs[0] in b.deleteFails then ([Delete(jobs[0])], Some(DeleteBuildFailed(jobs[0])))
    else
      var rest := DeleteAll(b, jobs[1..]);
      ([Delete(jobs[0])] + rest.0, rest.1)
  }

  /**
   * `DeleteAll` fails exactly when one of the jobs is refused; then the requests end
   * at that job. Otherwise every job gets its request, in order.
   */
  lemma {:induction false} DeleteAllSpec(b: Backend, jobs: seq<string>)
    ensures var r := DeleteAll(b, jobs);
      (r.1.None? <==> forall k :: 0 <= k < |jobs| ==> jobs[k] !in b.deleteFails)
      && (r.1.None? ==> r.0 == seq(|jobs|, k requires 0 <= k < |jobs| => Delete(jobs[k])))
      && (r.1.Some? ==> exists k :: 0 <= k < |jobs| && r.1 == Some(DeleteBuildFailed(jobs[k])) && |r.0| == k + 1)
  {
    if jobs != [] && jobs[0] !in b.deleteFails {
      DeleteAllSpec(b, jobs[1..]);
      var r, rest := DeleteAll(b, jobs), DeleteAll(b, jobs[1..]);
      if rest.1.Some? {
        var k :| 0 <= k < |jobs[1..]| && rest.1 == Some(DeleteBuildFailed(jobs[1..][k])) && |rest.0| == k + 1;
        assert r.1 == Some(DeleteBuildFailed(jobs[k + 1])) && |r.0| == k + 2;
      }
    }
  }

  /** Deleting `xs + ys` is deleting `xs` and then, unless that failed, `ys`. */
  lemma {:induction false} DeleteAllAppend(b: Backend, xs: seq<string>, ys: seq<string>)
    ensures DeleteAll(b, xs + ys)
            == if DeleteAll(b, xs).1.Some? then DeleteAll(b, xs)
               else (DeleteAll(b, xs).0 + DeleteAll(b, ys).0, DeleteAll(b, ys).1)
  {
    if xs != [] {
      assert (xs + ys)[0] == xs[0] && (xs + ys)[1..] == xs[1..] + ys;
      DeleteAllAppend(b, xs[1..], ys);
      var d, t, u := [Delete(xs[0])], DeleteAll(b, xs[1..]), DeleteAll(b, xs[1..] + ys);
      if xs[0] !in b.deleteFails {
        assert DeleteAll(b, xs) == (d + t.0, t.1);
        assert DeleteAll(b, xs + ys) == (d + u.0, u.1);
        if t.1.None? {
          assert u == (t.0 + DeleteAll(b, ys).0, DeleteAll(b, ys).1);
          assert d + (t.0 + DeleteAll(b, ys).0) == (d + t.0) + DeleteAll(b, ys).0;
        } else {
          assert u == t;
        }
      } else {
        assert DeleteAll(b, xs) == (d, Some(DeleteBuildFailed(xs[0])));
        assert DeleteAll(b, xs + ys) == (d, Some(DeleteBuildFailed(xs[0])));
      }
    } else {
      assert xs + ys == ys;
      assert DeleteAll(b, xs) == ([], None);
      assert [] + DeleteAll(b, ys).0 == DeleteAll(b, ys).0;
    }
  }

  /** Creating `xs + ys` is creating `xs` and then, unless that failed, `ys`. */
  lemma {:induction false} CreateAllAppend(b: Backend, xs: seq<string>, ys: seq<string>)
    ensures CreateAll(b, xs + ys)
            == if CreateAll(b, xs).1.Some? then CreateAll(b, xs)
               else (CreateAll(b, xs).0 + CreateAll(b, ys).0, CreateAll(b, ys).1)
  {
    if xs != [] {
      assert (xs + ys)[0] == xs[0] && (xs + ys)[1..] == xs[1..] + ys;
      CreateAllAppend(b, xs[1..], ys);
      var d, t, u := [Create(xs[0])], CreateAll(b, xs[1..]), CreateAll(b, xs[1..] + ys);
      if xs[0] !in b.createFails {
        assert CreateAll(b, xs) == (d + t.0, t.1);
        assert CreateAll(b, xs + ys) == (d + u.0, u.1);
        if t.1.None? {
          assert u == (t.0 + CreateAll(b, ys).0, CreateAll(b, ys).1);
          assert d + (t.0 + CreateAll(b, ys).0) == (d + t.0) + CreateAll(b, ys).0;
        } else {
          assert u == t;
        }
      } else {
        assert CreateAll(b, xs) == (d, Some(CreateJobFailed(xs[0])));
        assert CreateAll(b, xs + ys) == (d, Some(CreateJobFailed(xs[0])));
      }
    } else {
      assert xs + ys == ys;
      assert CreateAll(b, xs) == ([], None);
      assert [] + CreateAll(b, ys).0 == CreateAll(b, ys).0;
    }
  }

  /** The server: fixed answers to queries and the requests received so far. */
  class Server {
    const backend: Backend
    var calls: seq<Call>

    constructor (backend: Backend)
      ensures this.backend == backend && calls == []
    {
      this.backend := backend;
      calls := [];
    }

    method CreateJob(job: string) returns (err: Option<Error>)
      modifies this`calls
      ensures calls == old(calls) + [Create(job)]
      ensures err == (if job in backend.createFails then Some(CreateJobFailed(job)) else None)
    {
      calls := calls + [Create(job)];
      err := if job in backend.createFails then Some(CreateJobFailed(job)) else None;
    }

    method BuildJob(job: string) returns (err: Option<Error>)
      modifies this`calls
      ensures calls == old(calls) + [Build(job)]
      ensures err == (if job in backend.buildFails then Some(BuildJobFailed(job)) else None)
    {
      calls := calls + [Build(job)];
      err := if job in backend.buildFails then Some(BuildJobFailed(job)) else None;
    }

    method StopJob(job: string) returns (err: Option<Error>)
      modifies this`calls
      ensures calls == old(calls) + [Stop(job)]
      ensures err == (if job in backend.stopFails then Some(StopJobFailed(job)) else None)
    {
      calls := calls + [Stop(job)];
      err := if job in backend.stopFails then Some(StopJobFailed(job)) else None;
    }

    method CancelQueueItem(id: int) returns (err: Option<Error>)
      modifies this`calls
      ensures calls == old(calls) + [CancelQueue(id)]
      ensures err == (if id in backend.cancelFails then Some(CancelQueueFailed(id)) else None)
    {
      calls := calls + [CancelQueue(id)];
      err := if id in backend.cancelFails then Some(CancelQueueFailed(id)) else None;
    }

    method DeleteBuild(job: string) returns (err: Option<Error>)
      modifies this`calls
      ensures calls == old(calls) + [Delete(job)]
      ensures err == (if job in backend.deleteFails then Some(DeleteBuildFailed(job)) else None)
    {
      calls := calls + [Delete(job)];
      err := if job in backend.deleteFails then Some(DeleteBuildFailed(job)) else None;
    }

    /** `OnActivityCompelte`: the clean-up script run for a finished activity. */
    method OnActivityComplete(activityId: string)
      modifies this`calls
      ensures calls == old(calls) + [Cleanup(activityId)]
    {
      calls := calls + [Cleanup(activityId)];
    }
  }
}
