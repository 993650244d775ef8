/**
 * The two routes of server.js and the helpers that shape their responses.
 * The repository-summary request is an input (failed, or the parsed summary);
 * so is the build-detail response, which only a cache miss consults.
 */
module Routes {
  import opened Wrappers
  import opened Decimal
  import opened Jobs
  import opened BuildCache
  import opened Resolver

  /** The fields of the repository summary the routes read: `id`, `last_build_id`, `last_build_started_at`. */
  datatype RepoSummary = RepoSummary(id: Option<int>, lastBuildId: Option<int>, lastBuildStartedAt: Option<string>)

  /** The repository-summary fetch: transport error or non-200 status, or the parsed body. */
  datatype RepoFetch = RepoFailed | RepoOk(summary: RepoSummary)

  /** What the client receives: a status with a plain body, a redirect, or nothing at all. */
  datatype Outcome = Send(status: int, body: string) | Redirect(status: int, location: string) | NoReply

  const BuildIdNotFound: Outcome := Send(400, "Branch build id not found.")
  const JobNotFound: Outcome := Send(404, "Job not found.")

  /** The stand-in job the badge route serves when the repository has no build. */
  const UnknownJob: Job := Job(-1, "unknown")

  const BadgePrefix: string := "https://img.shields.io/badge/build-"

  /** The shields.io image for a "build" badge with the given status and colour; the status reads back from it. */
  function BadgeUrl(status: string): (url: string)
    ensures |url| == |BadgePrefix| + |status| + 4
    ensures url[..|BadgePrefix|] == BadgePrefix && url[|url| - 4..] == ".svg"
    ensures url[|BadgePrefix|..|url| - 4] == status
  {
    BadgePrefix + status + ".svg"
  }

  const PassingBadge: string := BadgeUrl("passing-brightgreen")
  const FailingBadge: string := BadgeUrl("failing-red")
  const UnknownBadge: string := BadgeUrl("unknown-lightgrey")

  /** `stateToStatus`: total, with "unknown-lightgrey" for every state but "passed" and "failed". */
  function StateToStatus(state: string): (status: string)
    ensures status == "passing-brightgreen" <==> state == "passed"
    ensures status == "failing-red" <==> state == "failed"
    ensures status == "unknown-lightgrey" <==> state != "passed" && state != "failed"
  {
    match state
    case "passed" => "passing-brightgreen"
    case "failed" => "failing-red"
    case _ => "unknown-lightgrey"
  }

  /** `sendResponse`: a 301 to the shields.io badge for the job's state. */
  function SendResponse(job: Job): (o: Outcome)
    ensures o == Redirect(301, if job.state == "passed" then PassingBadge
                               else if job.state == "failed" then FailingBadge
                               else UnknownBadge)
  {
    Redirect(301, BadgeUrl(StateToStatus(job.state)))
  }

  /** `username + '/' + repository`. */
  function RepoPath(username: string, repository: string): string {
    username + "/" + repository
  }

  const TravisPrefix: string := "https://travis-ci.org/"

  /** The Travis CI page of a job: under the repository's path, ending in the job id's text. */
  function JobUrl(repo: string, jobId: int): (url: string)
    ensures |url| >= |TravisPrefix| && url[..|TravisPrefix|] == TravisPrefix
    ensures |url| >= |IntString(jobId)| && url[|url| - |IntString(jobId)|..] == IntString(jobId)
  {
    TravisPrefix + repo + "/jobs/" + IntString(jobId)
  }

  /** `if (buildId)`: JavaScript truthiness of `last_build_id`; absent, null and 0 are the falsy values. */
  predicate Truthy(buildId: Option<int>): (truthy: bool)
    ensures !truthy <==> buildId == None || buildId == Some(0)
  {
    buildId.Some? && buildId.value != 0
  }

  /** Whether a route goes on to `getBuildJobState`. */
  predicate ResolvesBuild(summary: RepoFetch) {
    summary.RepoOk? && Truthy(summary.summary.lastBuildId)
  }

  /** The cache step a request performs: resolution when the summary names a build, nothing otherwise. */
  function RequestStep(entries: Entries, summary: RepoFetch, jobNumber: string, fetch: BuildFetch): Step {
    if ResolvesBuild(summary) then
      var s := summary.summary;
      Resolve(entries, s.id, s.lastBuildId.value, s.lastBuildStartedAt, jobNumber, fetch)
    else
      Step(Unanswered, entries)
  }

  /** The outcome of `/:username/:repository/:job`, given what `getBuildJobState` delivered. */
  function JobRoute(username: string, repository: string, summary: RepoFetch, resolved: Resolution): (o: Outcome)
    ensures o == BuildIdNotFound <==> !ResolvesBuild(summary)
    ensures o == NoReply <==> ResolvesBuild(summary) && resolved == Unanswered
    ensures o == JobNotFound <==> ResolvesBuild(summary) && resolved == Answered(None)
    ensures o.Redirect? <==> ResolvesBuild(summary) && resolved.Answered? && resolved.job.Some?
    ensures o.Redirect? ==> o == Redirect(301, JobUrl(RepoPath(username, repository), resolved.job.value.id))
  {
    if ResolvesBuild(summary) then
      match resolved
      case Unanswered => NoReply
      case Answered(None) => JobNotFound
      case Answered(Some(job)) => Redirect(301, JobUrl(RepoPath(username, repository), job.id))
    else
      BuildIdNotFound
  }

  /** The outcome of `/:username/:repository/:job/badge`, given what `getBuildJobState` delivered. */
  function BadgeRoute(summary: RepoFetch, resolved: Resolution): (o: Outcome)
    ensures o == BuildIdNotFound <==> summary.RepoFailed?
    ensures o == NoReply <==> ResolvesBuild(summary) && resolved == Unanswered
    ensures o == JobNotFound <==> ResolvesBuild(summary) && resolved == Answered(None)
    ensures summary.RepoOk? && !ResolvesBuild(summary) ==> o == Redirect(301, UnknownBadge)
    ensures o.Redirect? <==> summary.RepoOk? && (!ResolvesBuild(summary) || (resolved.Answered? && resolved.job.Some?))
  {
    if summary.RepoFailed? then
      BuildIdNotFound
    else if !Truthy(summary.summary.lastBuildId) then
      SendResponse(UnknownJob)
    else
      match resolved
      case Unanswered => NoReply
      case Answered(None) => JobNotFound
      case Answered(Some(job)) => SendResponse(job)
  }

  /** Serves `/:username/:repository/:job` against the shared cache. */
  method HandleJobRequest(cache: BuildsCache, username: string, repository: string, jobNumber: string,
                          summary: RepoFetch, fetch: BuildFetch) returns (o: Outcome)
    modifies cache
    ensures old(cache.Valid()) ==> cache.Valid()
    ensures var step := RequestStep(old(cache.entries), summary, jobNumber, fetch);
      o == JobRoute(username, repository, summary, step.answer) && cache.entries == step.entries
  {
    var resolved := Unanswered;
    if ResolvesBuild(summary) {
      var s := summary.summary;
      resolved := GetBuildJobState(cache, s.id, s.lastBuildId.value, s.lastBuildStartedAt, jobNumber, fetch);
    }
    o := JobRoute(username, repository, summary, resolved);
  }

  /** Serves `/:username/:repository/:job/badge` against the shared cache. */
  method HandleBadgeRequest(cache: BuildsCache, jobNumber: string, summary: RepoFetch, fetch: BuildFetch)
    returns (o: Outcome)
    modifies cache
    ensures old(cache.Valid()) ==> cache.Valid()
    ensures var step := RequestStep(old(cache.entries), summary, jobNumber, fetch);
      o == BadgeRoute(summary, step.answer) && cache.entries == step.entries
  {
    var resolved := Unanswered;
    if ResolvesBuild(summary) {
      var s := summary.summary;
      resolved := GetBuildJobState(cache, s.id, s.lastBuildId.value, s.lastBuildStartedAt, jobNumber, fetch);
    }
    o := BadgeRoute(summary, resolved);
  }

  /** Distinct statuses give distinct badge images. */
  lemma BadgeUrlInjective(status1: string, status2: string)
    requires BadgeUrl(status1) == BadgeUrl(status2)
    ensures status1 == status2
  {
    var prefix := "https://img.shields.io/badge/build-";
    var u1, u2 := BadgeUrl(status1), BadgeUrl(status2);
    assert |status1| == |status2|;
    assert u1[|prefix|..|prefix| + |status1|] == status1;
    assert u2[|prefix|..|prefix| + |status2|] == status2;
  }

  /** The three badges are different images. */
  lemma BadgesDistinct()
    ensures PassingBadge != FailingBadge && PassingBadge != UnknownBadge && FailingBadge != UnknownBadge
  {
    if PassingBadge == FailingBadge {
      BadgeUrlInjective("passing-brightgreen", "failing-red");
    }
    if PassingBadge == UnknownBadge {
      BadgeUrlInjective("passing-brightgreen", "unknown-lightgrey");
    }
    if FailingBadge == UnknownBadge {
      BadgeUrlInjective("failing-red", "unknown-lightgrey");
    }
  }

  /** Distinct jobs of one repository redirect to distinct pages. */
  lemma JobUrlInjective(repo: string, id1: int, id2: int)
    requires JobUrl(repo, id1) == JobUrl(repo, id2)
    ensures id1 == id2
  {
    var prefix := "https://travis-ci.org/" + repo + "/jobs/";
    assert JobUrl(repo, id1)[|prefix|..] == IntString(id1);
    assert JobUrl(repo, id2)[|prefix|..] == IntString(id2);
    IntStringInjective(id1, id2);
  }

  /**
   * How the two routes compare: both answer 400 on a failed summary; without
   * a build the job route answers 400 while the badge route serves the
   * "unknown" badge; otherwise both agree on 404 and on no reply, and both
   * redirect when a job was found.
   */
  lemma RoutesCompared(username: string, repository: string, summary: RepoFetch, resolved: Resolution)
    ensures summary.RepoFailed? ==>
              && JobRoute(username, repository, summary, resolved) == BuildIdNotFound
              && BadgeRoute(summary, resolved) == BuildIdNotFound
    ensures summary.RepoOk? && !Truthy(summary.summary.lastBuildId) ==>
              && JobRoute(username, repository, summary, resolved) == BuildIdNotFound
              && BadgeRoute(summary, resolved) == Redirect(301, UnknownBadge)
    ensures JobRoute(username, repository, summary, resolved) == JobNotFound
        <==> BadgeRoute(summary, resolved) == JobNotFound
    ensures JobRoute(username, repository, summary, resolved) == NoReply
        <==> BadgeRoute(summary, resolved) == NoReply
    ensures JobRoute(username, repository, summary, resolved).Redirect?
        <==> ResolvesBuild(summary) && resolved.Answered? && resolved.job.Some?
  {
  }

  /** Without a build the request never reaches the cache or the build-detail fetch. */
  lemma NoBuildNoFetch(entries: Entries, summary: RepoFetch, jobNumber: string, fetch1: BuildFetch, fetch2: BuildFetch)
    requires !ResolvesBuild(summary)
    ensures RequestStep(entries, summary, jobNumber, fetch1) == RequestStep(entries, summary, jobNumber, fetch2)
    ensures RequestStep(entries, summary, jobNumber, fetch1).entries == entries
  {
  }

  const Build55Summary: RepoFetch := RepoOk(RepoSummary(Some(9), Some(55), Some("2016-01-01T00:00:00Z")))
  const Build55Fetch: BuildFetch := BuildOk(BuildDetail(55.0, [RawJob(55.1, 7, "passed"), RawJob(55.2, 8, "failed")]))

  /** Build 55's jobs 55.1 and 55.2 are filed under "1" and "2". */
  lemma Build55Jobs()
    ensures IndexJobs(55.0, Build55Fetch.detail.jobs) == map["1" := Job(7, "passed"), "2" := Job(8, "failed")]
  {
    var raw := Build55Fetch.detail.jobs;
    assert raw[..1] == [raw[0]] && [raw[0]][..0] == [];
    assert JobIndex(55.0, 55.1) == 1 && IntString(1) == "1";
    assert JobIndex(55.0, 55.2) == 2 && IntString(2) == "2";
  }

  /** Build 55, not yet cached, is fetched and answers from its fresh job map. */
  lemma Build55Resolution(entries: Entries, jobNumber: string)
    requires "55" !in entries
    ensures RequestStep(entries, Build55Summary, jobNumber, Build55Fetch).answer
         == Answered(JobAt(map["1" := Job(7, "passed"), "2" := Job(8, "failed")], jobNumber))
  {
    Build55Jobs();
    assert CacheKey(55) == "55";
  }

  /** Build 55, not yet cached: the badge for job 2 is "failing-red" and job 3 is not found. */
  lemma Build55Badges(entries: Entries)
    requires "55" !in entries
    ensures BadgeRoute(Build55Summary, RequestStep(entries, Build55Summary, "2", Build55Fetch).answer) == Redirect(301, FailingBadge)
    ensures BadgeRoute(Build55Summary, RequestStep(entries, Build55Summary, "3", Build55Fetch).answer) == JobNotFound
  {
    Build55Resolution(entries, "2");
    Build55Resolution(entries, "3");
  }

  /** Build 55, not yet cached: job 1 redirects to its Travis CI page. */
  lemma Build55Redirect(entries: Entries)
    requires "55" !in entries
    ensures JobRoute("a", "b", Build55Summary, RequestStep(entries, Build55Summary, "1", Build55Fetch).answer)
         == Redirect(301, "https://travis-ci.org/a/b/jobs/7")
  {
    Build55Resolution(entries, "1");
    assert IntString(7) == "7";
  }

  /** A repository that has never built: 400 on the job route, the "unknown" badge on the badge route. */
  lemma NoBuildScenario(entries: Entries, jobNumber: string, fetch: BuildFetch)
    ensures var summary := RepoOk(RepoSummary(Some(9), None, None));
      && JobRoute("a", "b", summary, RequestStep(entries, summary, jobNumber, fetch).answer) == Send(400, "Branch build id not found.")
      && BadgeRoute(summary, RequestStep(entries, summary, jobNumber, fetch).answer) == Redirect(301, UnknownBadge)
  {
  }
}
