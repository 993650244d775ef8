/**
 * Job-index normalisation (server.js, inside `getTravisBuildJobState`): every
 * job of a build is filed under `Math.round((job.number - build.number) * 10)`,
 * and that integer, written as a property key, is what a request's job
 * segment is matched against.
 */
module Jobs {
  import opened Wrappers
  import opened Decimal

  /** What the cache keeps per job: `{id, state}`. */
  datatype Job = Job(id: int, state: string)

  /** A job as the build-detail response lists it. */
  datatype RawJob = RawJob(number: real, id: int, state: string)

  /** The parsed build-detail response: `build.number` and `jobs`. */
  datatype BuildDetail = BuildDetail(number: real, jobs: seq<RawJob>)

  /** The `jobs` object, keyed by the decimal text of the job index. */
  type JobMap = map<string, Job>

  /** JavaScript's `Math.round`: the nearest integer, halves rounded upward. */
  function Round(x: real): (r: int)
    ensures x - 0.5 < r as real <= x + 0.5
  {
    (x + 0.5).Floor
  }

  function JobIndex(buildNumber: real, jobNumber: real): int {
    Round((jobNumber - buildNumber) * 10.0)
  }

  function JobKey(buildNumber: real, job: RawJob): string {
    IntString(JobIndex(buildNumber, job.number))
  }

  /** The job map after the `forEach` has visited every job of `raw`, in order: empty exactly for an empty list, and the last-listed job's key is always present. */
  function IndexJobs(buildNumber: real, raw: seq<RawJob>): (jobs: JobMap)
    ensures raw == [] <==> jobs == map[]
    ensures raw != [] ==> JobKey(buildNumber, raw[|raw| - 1]) in jobs
    decreases |raw|
  {
    if raw == [] then map[]
    else
      var last := raw[|raw| - 1];
      IndexJobs(buildNumber, raw[..|raw| - 1])[JobKey(buildNumber, last) := Job(last.id, last.state)]
  }

  /** `jobs[jobNumber]`: the job filed under the requested text, if any (`undefined` otherwise). */
  function JobAt(jobs: JobMap, jobNumber: string): (found: Option<Job>)
    ensures found == None <==> jobNumber !in jobs
    ensures found.Some? ==> jobs[jobNumber] == found.value
  {
    if jobNumber in jobs then Some(jobs[jobNumber]) else None
  }

  /** Fills the `jobs` object job by job, as the `forEach` does. */
  method BuildJobMap(detail: BuildDetail) returns (jobs: JobMap)
    ensures jobs == IndexJobs(detail.number, detail.jobs)
  {
    jobs := map[];
    var i := 0;
    while i < |detail.jobs|
      invariant 0 <= i <= |detail.jobs|
      invariant jobs == IndexJobs(detail.number, detail.jobs[..i])
    {
      var job := detail.jobs[i];
      assert detail.jobs[..i + 1][..i] == detail.jobs[..i];
      jobs := jobs[JobKey(detail.number, job) := Job(job.id, job.state)];
      i := i + 1;
    }
    assert detail.jobs[..i] == detail.jobs;
  }

  /** `isEmpty`: stops at the first own property it enumerates. */
  method IsEmpty(jobs: JobMap) returns (empty: bool)
    ensures empty <==> jobs == map[]
  {
    empty := true;
    var names := jobs.Keys;
    while names != {} && empty
      invariant names <= jobs.Keys
      invariant empty ==> names == jobs.Keys
      invariant !empty ==> jobs != map[]
      decreases names
    {
      var name :| name in names;
      if name in jobs {  // `obj.hasOwnProperty(name)`: always true, since `names` ranges over the map's own keys
        empty := false;
      }
      names := names - {name};
    }
  }

  /** The keys of a list's jobs are those of all but its last job, plus the last job's. */
  lemma ListedKeysStep(buildNumber: real, front: seq<RawJob>, last: RawJob)
    ensures (set i | 0 <= i < |front + [last]| :: JobKey(buildNumber, (front + [last])[i]))
         == (set i | 0 <= i < |front| :: JobKey(buildNumber, front[i])) + {JobKey(buildNumber, last)}
  {
    var raw := front + [last];
    var all := set i | 0 <= i < |raw| :: JobKey(buildNumber, raw[i]);
    var before := set i | 0 <= i < |front| :: JobKey(buildNumber, front[i]);
    assert raw[|front|] == last;
    forall k | k in all ensures k in before + {JobKey(buildNumber, last)} {
      var i :| 0 <= i < |raw| && JobKey(buildNumber, raw[i]) == k;
      if i < |front| {
        assert front[i] == raw[i];
      }
    }
    forall k | k in before ensures k in all {
      var i :| 0 <= i < |front| && JobKey(buildNumber, front[i]) == k;
      assert raw[i] == front[i];
    }
  }

  /** The keys are exactly the keys of the listed jobs. */
  lemma {:induction false} IndexJobsKeys(buildNumber: real, raw: seq<RawJob>)
    ensures IndexJobs(buildNumber, raw).Keys == set i | 0 <= i < |raw| :: JobKey(buildNumber, raw[i])
    decreases |raw|
  {
    if raw != [] {
      IndexJobsKeys(buildNumber, raw[..|raw| - 1]);
      assert raw == raw[..|raw| - 1] + [raw[|raw| - 1]];
      ListedKeysStep(buildNumber, raw[..|raw| - 1], raw[|raw| - 1]);
    }
  }

  /** A job is filed under its own index unless a later job has the same index. */
  lemma {:induction false} IndexJobsLastWins(buildNumber: real, raw: seq<RawJob>, i: int)
    requires 0 <= i < |raw|
    requires forall j :: i < j < |raw| ==> JobKey(buildNumber, raw[j]) != JobKey(buildNumber, raw[i])
    ensures JobAt(IndexJobs(buildNumber, raw), JobKey(buildNumber, raw[i])) == Some(Job(raw[i].id, raw[i].state))
    decreases |raw|
  {
    if i < |raw| - 1 {
      var front := raw[..|raw| - 1];
      assert front[i] == raw[i];
      IndexJobsLastWins(buildNumber, front, i);
    }
  }

  /** The job map is empty exactly when the build lists no jobs. */
  lemma IndexJobsEmpty(buildNumber: real, raw: seq<RawJob>)
    ensures IndexJobs(buildNumber, raw) == map[] <==> raw == []
  {
    IndexJobsKeys(buildNumber, raw);
    if raw != [] {
      assert JobKey(buildNumber, raw[0]) in IndexJobs(buildNumber, raw).Keys;
    }
  }

  /** Every key is canonical decimal text, so a padded request such as "01" finds nothing. */
  lemma PaddedRequestNotFound(buildNumber: real, raw: seq<RawJob>, jobNumber: string)
    requires |jobNumber| > 1 && jobNumber[0] == '0'
    ensures JobAt(IndexJobs(buildNumber, raw), jobNumber) == None
  {
    IndexJobsKeys(buildNumber, raw);
    forall i | 0 <= i < |raw| ensures JobKey(buildNumber, raw[i]) != jobNumber {
      PaddedTextIsNoKey(jobNumber, JobIndex(buildNumber, raw[i].number));
    }
  }

  /** Build 100 with jobs 100.1, 100.2, 100.3 files them under "1", "2" and "3". */
  lemma MatrixExample()
    ensures IndexJobs(100.0, [RawJob(100.1, 501, "passed"), RawJob(100.2, 502, "failed"), RawJob(100.3, 503, "started")])
         == map["1" := Job(501, "passed"), "2" := Job(502, "failed"), "3" := Job(503, "started")]
  {
    var raw := [RawJob(100.1, 501, "passed"), RawJob(100.2, 502, "failed"), RawJob(100.3, 503, "started")];
    assert raw[..2] == raw[..1] + [raw[1]] && raw[..1] == [raw[0]] && [raw[0]][..0] == [];
    assert JobIndex(100.0, 100.1) == 1 && IntString(1) == "1";
    assert JobIndex(100.0, 100.2) == 2 && IntString(2) == "2";
    assert JobIndex(100.0, 100.3) == 3 && IntString(3) == "3";
    assert IndexJobs(100.0, raw[..1]) == map["1" := Job(501, "passed")];
    assert IndexJobs(100.0, raw[..2]) == map["1" := Job(501, "passed"), "2" := Job(502, "failed")];
  }

  /**
   * Two jobs on one index: the later overwrites the earlier under "1". In
   * JavaScript the tenth job's number "100.10" parses to 100.1 before it
   * reaches this model, so in Dafny the literals `100.10` and `100.1` are the
   * same real and the lemma shows only the overwrite.
   */
  lemma TenthJobOverwritesFirst()
    ensures IndexJobs(100.0, [RawJob(100.1, 501, "passed"), RawJob(100.10, 510, "failed")])
         == map["1" := Job(510, "failed")]
  {
    assert JobIndex(100.0, 100.10) == 1;
    assert IntString(1) == "1";
  }

  /**
   * In a matrix of ten or more jobs the indices collide beyond the tenth:
   * 100.11 to 100.14 round to index 1 and 100.15 to 100.19 to index 2.
   */
  lemma LargeMatrixCollisions()
    ensures IndexJobs(100.0, [RawJob(100.1, 501, "passed"), RawJob(100.14, 514, "failed")])
         == map["1" := Job(514, "failed")]
    ensures IndexJobs(100.0, [RawJob(100.2, 502, "passed"), RawJob(100.15, 515, "failed")])
         == map["2" := Job(515, "failed")]
  {
    assert JobIndex(100.0, 100.1) == 1 && JobIndex(100.0, 100.14) == 1;
    assert JobIndex(100.0, 100.2) == 2 && JobIndex(100.0, 100.15) == 2;
    assert IntString(1) == "1" && IntString(2) == "2";
  }
}
