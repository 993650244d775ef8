/**
 * Job resolution: `getBuildJobState` (cache first) and
 * `getTravisBuildJobState` (fetch the build, index its jobs, cache a non-empty
 * result). The upstream build-detail response is an input; a failed fetch
 * never calls back, so the request gets no answer.
 */
module Resolver {
  import opened Wrappers
  import opened Jobs
  import opened BuildCache

  /** The build-detail fetch: transport error or non-200 status, or the parsed body. */
  datatype BuildFetch = BuildFailed | BuildOk(detail: BuildDetail)

  /** What the callback receives: nothing (never called), or `jobs[jobNumber]`, possibly undefined. */
  datatype Resolution = Unanswered | Answered(job: Option<Job>)

  /** A resolution together with the cache it leaves behind. */
  datatype Step = Step(answer: Resolution, entries: Entries)

  /**
   * `getTravisBuildJobState` on the cache `entries`, saving with `eviction`
   * (the code as written unless `ByRepo` is asked for): only a successful
   * fetch is answered, and a changed cache holds a valid record of the build.
   */
  function Refresh(entries: Entries, repoId: Option<int>, buildId: int, lastBuild: Option<string>,
                   jobNumber: string, fetch: BuildFetch, eviction: Eviction := AsWritten): (r: Step)
    ensures r.answer == Unanswered <==> fetch.BuildFailed?
    ensures r.entries != entries ==> fetch.BuildOk? && Hit(r.entries, buildId, lastBuild)
  {
    match fetch
    case BuildFailed => Step(Unanswered, entries)
    case BuildOk(detail) =>
      var jobs := IndexJobs(detail.number, detail.jobs);
      var saved := if jobs == map[] then entries else Saved(eviction, entries, repoId, buildId, jobs, lastBuild);
      Step(Answered(JobAt(jobs, jobNumber)), saved)
  }

  /**
   * `getBuildJobState` on the cache `entries`: a request goes unanswered only
   * on a miss whose fetch failed, and the cache changes only on a miss, after
   * which the build hits.
   */
  function Resolve(entries: Entries, repoId: Option<int>, buildId: int, lastBuild: Option<string>,
                   jobNumber: string, fetch: BuildFetch, eviction: Eviction := AsWritten): (r: Step)
    ensures r.answer == Unanswered <==> !Hit(entries, buildId, lastBuild) && fetch.BuildFailed?
    ensures r.entries != entries ==> !Hit(entries, buildId, lastBuild) && Hit(r.entries, buildId, lastBuild)
  {
    if Hit(entries, buildId, lastBuild) then
      Step(Answered(JobAt(entries[CacheKey(buildId)].jobs, jobNumber)), entries)
    else
      Refresh(entries, repoId, buildId, lastBuild, jobNumber, fetch, eviction)
  }

  /** `getTravisBuildJobState`: index the fetched build, cache it unless empty, answer the request. */
  method FetchBuildJobState(cache: BuildsCache, repoId: Option<int>, buildId: int, lastBuild: Option<string>,
                            jobNumber: string, fetch: BuildFetch) returns (r: Resolution)
    modifies cache
    ensures old(cache.Valid()) ==> cache.Valid()
    ensures Step(r, cache.entries) == Refresh(old(cache.entries), repoId, buildId, lastBuild, jobNumber, fetch)
  {
    match fetch
    case BuildFailed =>
      r := Unanswered;
    case BuildOk(detail) =>
      var jobs := BuildJobMap(detail);
      var empty := IsEmpty(jobs);
      if !empty {
        if cache.Valid() {
          SavedAsWrittenKeepsNoEmpty(cache.entries, repoId, buildId, jobs, lastBuild);
        }
        cache.Save(repoId, buildId, jobs, lastBuild);
      }
      r := Answered(JobAt(jobs, jobNumber));
  }

  /** `getBuildJobState`: answer from a valid cache record, otherwise fetch. */
  method GetBuildJobState(cache: BuildsCache, repoId: Option<int>, buildId: int, lastBuild: Option<string>,
                          jobNumber: string, fetch: BuildFetch) returns (r: Resolution)
    modifies cache
    ensures old(cache.Valid()) ==> cache.Valid()
    ensures Step(r, cache.entries) == Resolve(old(cache.entries), repoId, buildId, lastBuild, jobNumber, fetch)
  {
    var hit := cache.Lookup(buildId, lastBuild);
    if hit.Some? {
      r := Answered(JobAt(hit.value, jobNumber));
    } else {
      r := FetchBuildJobState(cache, repoId, buildId, lastBuild, jobNumber, fetch);
    }
  }

  /** Resolution never stores an empty job map. */
  lemma ResolveKeepsNoEmptyRecord(entries: Entries, repoId: Option<int>, buildId: int, lastBuild: Option<string>,
                                  jobNumber: string, fetch: BuildFetch)
    requires NoEmptyRecord(entries)
    ensures NoEmptyRecord(Resolve(entries, repoId, buildId, lastBuild, jobNumber, fetch).entries)
  {
    if !Hit(entries, buildId, lastBuild) && fetch.BuildOk? {
      var jobs := IndexJobs(fetch.detail.number, fetch.detail.jobs);
      if jobs != map[] {
        SavedAsWrittenKeepsNoEmpty(entries, repoId, buildId, jobs, lastBuild);
      }
    }
  }

  /** Resolution with the intended save also keeps at most one record per repository. */
  lemma ResolveEvictingRepoKeepsInvariant(entries: Entries, repoId: Option<int>, buildId: int, lastBuild: Option<string>,
                                          jobNumber: string, fetch: BuildFetch)
    requires IntendedInvariant(entries)
    ensures IntendedInvariant(Resolve(entries, repoId, buildId, lastBuild, jobNumber, fetch, ByRepo).entries)
  {
    if !Hit(entries, buildId, lastBuild) && fetch.BuildOk? {
      var jobs := IndexJobs(fetch.detail.number, fetch.detail.jobs);
      if jobs != map[] {
        SavedEvictingRepoKeepsInvariant(entries, repoId, buildId, jobs, lastBuild);
      }
    }
  }

  /**
   * The as-written and the intended resolutions give the same answer and
   * leave the same record (or none) under the build's key; they differ only
   * in the other entries they keep.
   */
  lemma EvictionVariantsAgree(entries: Entries, repoId: Option<int>, buildId: int, lastBuild: Option<string>,
                              jobNumber: string, fetch: BuildFetch)
    ensures var written := Resolve(entries, repoId, buildId, lastBuild, jobNumber, fetch);
      var intended := Resolve(entries, repoId, buildId, lastBuild, jobNumber, fetch, ByRepo);
      && written.answer == intended.answer
      && (CacheKey(buildId) in written.entries <==> CacheKey(buildId) in intended.entries)
      && (CacheKey(buildId) in written.entries ==>
            written.entries[CacheKey(buildId)] == intended.entries[CacheKey(buildId)])
  {
    if !Hit(entries, buildId, lastBuild) && fetch.BuildOk? {
      var jobs := IndexJobs(fetch.detail.number, fetch.detail.jobs);
      if jobs == map[] {
        assert Resolve(entries, repoId, buildId, lastBuild, jobNumber, fetch).entries == entries;
        assert Resolve(entries, repoId, buildId, lastBuild, jobNumber, fetch, ByRepo).entries == entries;
      }
    }
  }

  /** On a valid hit the upstream build is not consulted: any two fetch results give the same step, and the cache is unchanged. */
  lemma HitIgnoresUpstream(entries: Entries, repoId: Option<int>, buildId: int, lastBuild: Option<string>,
                           jobNumber: string, fetch1: BuildFetch, fetch2: BuildFetch)
    requires Hit(entries, buildId, lastBuild)
    ensures Resolve(entries, repoId, buildId, lastBuild, jobNumber, fetch1)
         == Resolve(entries, repoId, buildId, lastBuild, jobNumber, fetch2)
    ensures Resolve(entries, repoId, buildId, lastBuild, jobNumber, fetch1).entries == entries
  {
  }

  /** A missing or stale record contributes nothing: the answer is the one an empty cache would give. */
  lemma MissIgnoresCache(entries: Entries, repoId: Option<int>, buildId: int, lastBuild: Option<string>,
                         jobNumber: string, fetch: BuildFetch)
    requires !Hit(entries, buildId, lastBuild)
    ensures Resolve(entries, repoId, buildId, lastBuild, jobNumber, fetch).answer
         == Resolve(map[], repoId, buildId, lastBuild, jobNumber, fetch).answer
  {
  }

  /** A stale record (different build start time) forces the fetch even when it holds the requested job. */
  lemma StaleRecordRefetched(entries: Entries, repoId: Option<int>, buildId: int, lastBuild: Option<string>,
                             jobNumber: string, detail: BuildDetail)
    requires CacheKey(buildId) in entries && entries[CacheKey(buildId)].lastBuild != lastBuild
    ensures Resolve(entries, repoId, buildId, lastBuild, jobNumber, BuildOk(detail)).answer
         == Answered(JobAt(IndexJobs(detail.number, detail.jobs), jobNumber))
    ensures Resolve(entries, repoId, buildId, lastBuild, jobNumber, BuildFailed).answer == Unanswered
  {
  }

  /** After resolution the build answers from the cache exactly when it already did or a non-empty job map was fetched. */
  lemma ResolveCaches(entries: Entries, repoId: Option<int>, buildId: int, lastBuild: Option<string>,
                      jobNumber: string, fetch: BuildFetch)
    ensures Hit(Resolve(entries, repoId, buildId, lastBuild, jobNumber, fetch).entries, buildId, lastBuild)
        <==> Hit(entries, buildId, lastBuild)
             || (fetch.BuildOk? && fetch.detail.jobs != [])
  {
    if !Hit(entries, buildId, lastBuild) && fetch.BuildOk? {
      IndexJobsEmpty(fetch.detail.number, fetch.detail.jobs);
    }
  }

  /** A build that lists no jobs is not cached, and the request is answered with no job. */
  lemma EmptyBuildNotCached(entries: Entries, repoId: Option<int>, buildId: int, lastBuild: Option<string>,
                            jobNumber: string, buildNumber: real)
    requires !Hit(entries, buildId, lastBuild)
    ensures Resolve(entries, repoId, buildId, lastBuild, jobNumber, BuildOk(BuildDetail(buildNumber, [])))
         == Step(Answered(None), entries)
  {
  }

  /**
   * Idempotence: once a resolution leaves a valid record behind, resolving the
   * same build and job again, with any upstream result, is a cache hit that
   * gives the same answer and changes nothing.
   */
  lemma ResolveIdempotent(entries: Entries, repoId: Option<int>, buildId: int, lastBuild: Option<string>,
                          jobNumber: string, fetch1: BuildFetch, repoId2: Option<int>, fetch2: BuildFetch)
    requires Hit(Resolve(entries, repoId, buildId, lastBuild, jobNumber, fetch1).entries, buildId, lastBuild)
    ensures var first := Resolve(entries, repoId, buildId, lastBuild, jobNumber, fetch1);
      Resolve(first.entries, repoId2, buildId, lastBuild, jobNumber, fetch2) == first
  {
    if !Hit(entries, buildId, lastBuild) {
      var jobs := IndexJobs(fetch1.detail.number, fetch1.detail.jobs);
      var first := Resolve(entries, repoId, buildId, lastBuild, jobNumber, fetch1);
      assert first.entries[CacheKey(buildId)] == CachedBuild(repoId, lastBuild, jobs);
    }
  }

  /** A resolved job is resolved again from the cache. */
  lemma FoundJobIsCached(entries: Entries, repoId: Option<int>, buildId: int, lastBuild: Option<string>,
                         jobNumber: string, fetch: BuildFetch)
    requires Resolve(entries, repoId, buildId, lastBuild, jobNumber, fetch).answer.Answered?
    requires Resolve(entries, repoId, buildId, lastBuild, jobNumber, fetch).answer.job.Some?
    ensures Hit(Resolve(entries, repoId, buildId, lastBuild, jobNumber, fetch).entries, buildId, lastBuild)
  {
    if !Hit(entries, buildId, lastBuild) {
      ResolveCaches(entries, repoId, buildId, lastBuild, jobNumber, fetch);
      IndexJobsEmpty(fetch.detail.number, fetch.detail.jobs);
    }
  }
}
