/**
 * The build cache (`buildsCache` in server.js). node-cache files a value under
 * the property-key text of its key, so build 42 lives under "42". It is
 * created without options, so entries never expire by time; the cache is a
 * plain map that `set` overwrites and `del` shrinks.
 */
module BuildCache {
  import opened Wrappers
  import opened Decimal
  import opened Jobs

  /** A cache value: owning repository, build start time it was computed for, and its job map. */
  datatype CachedBuild = CachedBuild(repoId: Option<int>, lastBuild: Option<string>, jobs: JobMap)

  type Entries = map<string, CachedBuild>

  /** The key a build id is filed under. */
  function CacheKey(buildId: int): string {
    IntString(buildId)
  }

  /** A record answers a lookup only if present and computed for the repository's current build start. */
  predicate Hit(entries: Entries, buildId: int, lastBuild: Option<string>) {
    CacheKey(buildId) in entries && entries[CacheKey(buildId)].lastBuild == lastBuild
  }

  /** The array indices "0", "1", ..., that `for ... in` yields over an array of n keys. */
  function IndexKeys(n: nat): set<string> {
    if n == 0 then {} else IndexKeys(n - 1) + {IntString(n - 1)}
  }

  /**
   * The first `n` rounds of the eviction loop as written: the loop variable
   * is an array index, whose `repo_id` is undefined, so a round deletes only
   * when `repoId` is itself undefined, and then it deletes the index, not a
   * cached build id.
   */
  function EvictIndices(entries: Entries, repoId: Option<int>, n: nat): Entries {
    if repoId == None then entries - IndexKeys(n) else entries
  }

  lemma EvictIndicesStep(entries: Entries, repoId: Option<int>, n: nat)
    ensures EvictIndices(entries, repoId, n + 1)
         == if repoId == None then EvictIndices(entries, repoId, n) - {IntString(n)} else EvictIndices(entries, repoId, n)
  {
  }

  /**
   * The cache after `saveBuildCache` as written: the build's key holds the new
   * record, no other key is added, and with `repoId` defined nothing is removed.
   */
  function SavedAsWritten(entries: Entries, repoId: Option<int>, buildId: int, jobs: JobMap, lastBuild: Option<string>): (after: Entries)
    ensures CacheKey(buildId) in after && after[CacheKey(buildId)] == CachedBuild(repoId, lastBuild, jobs)
    ensures after.Keys <= entries.Keys + {CacheKey(buildId)}
    ensures repoId.Some? ==> after.Keys == entries.Keys + {CacheKey(buildId)}
  {
    EvictIndices(entries, repoId, |entries|)[CacheKey(buildId) := CachedBuild(repoId, lastBuild, jobs)]
  }

  /** Every record of `repoId` removed, comparing the stored `repo_id` (deviation from server.js:152-156). */
  function EvictByRepo(entries: Entries, repoId: Option<int>): Entries {
    map k | k in entries && entries[k].repoId != repoId :: entries[k]
  }

  /** The cache after the intended save: evict the repository's records, then store the new one. */
  function SavedEvictingRepo(entries: Entries, repoId: Option<int>, buildId: int, jobs: JobMap, lastBuild: Option<string>): Entries {
    EvictByRepo(entries, repoId)[CacheKey(buildId) := CachedBuild(repoId, lastBuild, jobs)]
  }
  /** Which eviction a save performs: the loop as written, or the intended one by stored `repo_id`. */
  datatype Eviction = AsWritten | ByRepo

  /** The cache after a save with the given eviction. */
  function Saved(eviction: Eviction, entries: Entries, repoId: Option<int>, buildId: int, jobs: JobMap,
                 lastBuild: Option<string>): Entries
  {
    match eviction
    case AsWritten => SavedAsWritten(entries, repoId, buildId, jobs, lastBuild)
    case ByRepo => SavedEvictingRepo(entries, repoId, buildId, jobs, lastBuild)
  }


  /** No repository owns two records at once. */
  ghost predicate OneRecordPerRepo(entries: Entries) {
    forall k1, k2 :: k1 in entries && k2 in entries && entries[k1].repoId == entries[k2].repoId ==> k1 == k2
  }

  /** An empty job map is never cached. */
  ghost predicate NoEmptyRecord(entries: Entries) {
    forall k :: k in entries ==> entries[k].jobs != map[]
  }

  /** What the intended save keeps: no empty record and at most one record per repository. */
  ghost predicate IntendedInvariant(entries: Entries) {
    OneRecordPerRepo(entries) && NoEmptyRecord(entries)
  }

  class BuildsCache {
    var entries: Entries

    /** What every cache server.js reaches satisfies: no empty job map is stored. */
    ghost predicate Valid()
      reads this
    {
      NoEmptyRecord(entries)
    }

    /** `new NodeCache()`: an empty cache. */
    constructor ()
      ensures Valid() && entries == map[]
    {
      entries := map[];
    }

    /** `buildsCache.get(buildId, true)` followed by the `last_build` comparison. */
    method Lookup(buildId: int, lastBuild: Option<string>) returns (hit: Option<JobMap>)
      ensures hit.Some? <==> CacheKey(buildId) in entries && entries[CacheKey(buildId)].lastBuild == lastBuild
      ensures hit.Some? ==> hit.value == entries[CacheKey(buildId)].jobs
    {
      var key := CacheKey(buildId);
      if key !in entries {
        // get(..., true) throws on a missing key
        return None;
      }
      var record := entries[key];
      if record.lastBuild != lastBuild {
        // 'Outdated build cache.'
        return None;
      }
      return Some(record.jobs);
    }

    /** `saveBuildCache` as written: the eviction loop over `buildsCache.keys()`, then `set`. */
    method Save(repoId: Option<int>, buildId: int, jobs: JobMap, lastBuild: Option<string>)
      modifies this
      ensures entries == SavedAsWritten(old(entries), repoId, buildId, jobs, lastBuild)
    {
      var before := entries;
      var count := |before|;
      var build := 0;
      while build < count
        invariant 0 <= build <= count
        invariant entries == EvictIndices(before, repoId, build)
      {
        // `build` is an array index, and `build.repo_id` is undefined
        EvictIndicesStep(before, repoId, build);
        if repoId == None {
          entries := entries - {IntString(build)};
        }
        build := build + 1;
      }
      entries := entries[CacheKey(buildId) := CachedBuild(repoId, lastBuild, jobs)];
    }

    /** The evidently intended `saveBuildCache` (deviation from server.js:152-156): scan the stored records. */
    method SaveEvictingRepo(repoId: Option<int>, buildId: int, jobs: JobMap, lastBuild: Option<string>)
      modifies this
      ensures entries == SavedEvictingRepo(old(entries), repoId, buildId, jobs, lastBuild)
    {
      var before := entries;
      var pending := entries.Keys;
      while pending != {}
        invariant pending <= entries.Keys <= before.Keys
        invariant forall k :: k in entries ==> entries[k] == before[k]
        invariant forall k :: k in before && k !in pending ==> (k in entries <==> before[k].repoId != repoId)
        decreases pending
      {
        var build :| build in pending;
        if entries[build].repoId == repoId {
          entries := entries - {build};
        }
        pending := pending - {build};
      }
      assert entries == EvictByRepo(before, repoId);
      entries := entries[CacheKey(buildId) := CachedBuild(repoId, lastBuild, jobs)];
    }
  }

  /** With `repoId` defined, the as-written save deletes nothing: it only stores (or overwrites) `buildId`. */
  lemma SavedAsWrittenKeepsAll(entries: Entries, repoId: Option<int>, buildId: int, jobs: JobMap, lastBuild: Option<string>)
    requires repoId.Some?
    ensures var after := SavedAsWritten(entries, repoId, buildId, jobs, lastBuild);
      && after.Keys == entries.Keys + {CacheKey(buildId)}
      && after[CacheKey(buildId)] == CachedBuild(repoId, lastBuild, jobs)
      && forall k :: k in entries && k != CacheKey(buildId) ==> after[k] == entries[k]
  {
  }

  /** The as-written save leaves the repository's superseded record in place: two records for one repository. */
  lemma SavedAsWrittenKeepsSuperseded()
    ensures var before := map["7" := CachedBuild(Some(1), Some("t1"), map["1" := Job(70, "passed")])];
      var after := SavedAsWritten(before, Some(1), 8, map["1" := Job(80, "failed")], Some("t2"));
      && IntendedInvariant(before)
      && "7" in after && after["7"].repoId == Some(1)
      && !OneRecordPerRepo(after)
  {
    var before := map["7" := CachedBuild(Some(1), Some("t1"), map["1" := Job(70, "passed")])];
    var after := SavedAsWritten(before, Some(1), 8, map["1" := Job(80, "failed")], Some("t2"));
    assert "1" in before["7"].jobs;
    assert CacheKey(8) == "8";
    assert after["7"].repoId == after["8"].repoId;
  }

  /** With `repoId` undefined, the as-written save deletes records by index: here another repository's build 1. */
  lemma SavedAsWrittenDeletesByIndex()
    ensures var before := map["1" := CachedBuild(Some(2), Some("t"), map["1" := Job(10, "passed")]),
                              "5" := CachedBuild(Some(3), Some("t"), map["1" := Job(50, "passed")])];
      && "1" in before
      && "1" !in SavedAsWritten(before, None, 9, map["1" := Job(90, "failed")], Some("u"))
  {
    var before := map["1" := CachedBuild(Some(2), Some("t"), map["1" := Job(10, "passed")]),
                      "5" := CachedBuild(Some(3), Some("t"), map["1" := Job(50, "passed")])];
    assert |before| == 2 by {
      assert before.Keys == {"1", "5"};
    }
    assert IntString(1) == "1" && IntString(9) == "9";
    assert "1" in IndexKeys(2);
  }

  /** The as-written save of a non-empty job map stores no empty record. */
  lemma SavedAsWrittenKeepsNoEmpty(entries: Entries, repoId: Option<int>, buildId: int, jobs: JobMap, lastBuild: Option<string>)
    requires NoEmptyRecord(entries)
    requires jobs != map[]
    ensures NoEmptyRecord(SavedAsWritten(entries, repoId, buildId, jobs, lastBuild))
  {
  }

  /** The intended save removes all and only the repository's records, then stores the new one. */
  lemma SavedEvictingRepoScope(entries: Entries, repoId: Option<int>, buildId: int, jobs: JobMap, lastBuild: Option<string>)
    ensures var after := SavedEvictingRepo(entries, repoId, buildId, jobs, lastBuild);
      && CacheKey(buildId) in after && after[CacheKey(buildId)] == CachedBuild(repoId, lastBuild, jobs)
      && forall k :: k != CacheKey(buildId) ==>
           && (k in after <==> k in entries && entries[k].repoId != repoId)
           && (k in after ==> after[k] == entries[k])
  {
  }

  /** The intended save keeps `IntendedInvariant` when the stored job map is non-empty. */
  lemma SavedEvictingRepoKeepsInvariant(entries: Entries, repoId: Option<int>, buildId: int, jobs: JobMap, lastBuild: Option<string>)
    requires IntendedInvariant(entries)
    requires jobs != map[]
    ensures IntendedInvariant(SavedEvictingRepo(entries, repoId, buildId, jobs, lastBuild))
  {
    var after := SavedEvictingRepo(entries, repoId, buildId, jobs, lastBuild);
    forall k1, k2 | k1 in after && k2 in after && after[k1].repoId == after[k2].repoId
      ensures k1 == k2
    {
      if k1 != CacheKey(buildId) && k2 != CacheKey(buildId) {
        assert after[k1] == entries[k1] && after[k2] == entries[k2];
      }
    }
  }
}
