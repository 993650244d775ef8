# travis-job-badge: build cache and job resolution

A Dafny model of the core of `server.js`, a small Express server that turns
`/:username/:repository/:job` into a redirect to a Travis CI job page and
`/:username/:repository/:job/badge` into a redirect to a shields.io badge for
that job's state.

What is modelled:

- **Job-index normalisation** (`Jobs`): each job of a build is filed under
  `Math.round((job.number - build.number) * 10)`, modelled on exact `real`
  numbers with `Math.round(x)` as `(x + 0.5).Floor`. The key is the decimal
  text JavaScript gives that integer (`Decimal.IntString`), and the request's
  raw `:job` segment is looked up as text, so "1" finds index 1 and "01" finds
  nothing. A later job with the same index overwrites an earlier one. A tenth
  job numbered "100.10" is parsed by JavaScript as 100.1 before it reaches the
  model, so it lands on index 1; in matrices of more than ten jobs, 100.11 to
  100.14 also land on index 1 and 100.15 to 100.19 on index 2.
  `BuildJobMap`, the `forEach` loop, is proved equal to the specification
  function `IndexJobs`; `IsEmpty`, the early-exit `isEmpty` loop, is proved
  true exactly for the empty job map.
- **The build cache** (`BuildCache.BuildsCache`): a class whose one field is
  the map from key text to `{repo_id, last_build, jobs}`. `Lookup` is
  `buildsCache.get` plus the timestamp check; `Save` is `saveBuildCache`
  exactly as written; `SaveEvictingRepo` is the evidently intended save (see
  Findings). Keys are the text of the build id, as node-cache files them.
- **Resolution** (`Resolver`): `GetBuildJobState` (cache first) and
  `FetchBuildJobState` (`getTravisBuildJobState`), proved against the
  functions `Resolve` and `Refresh` over the cache map. The build-detail
  response is an input (`BuildFailed` or the parsed body), consulted only on a
  miss. A failed fetch never calls back, so the request gets no answer
  (`Unanswered`). The lemmas give the hit/miss rule, staleness, "an empty job
  map is never cached", and idempotence. The cache never holds an empty job
  map. `Resolve` and `Refresh` take the eviction to use (`AsWritten` by
  default); with `ByRepo`, resolution uses the intended save. That variant also
  keeps at most one record per repository, and it gives the same answer and
  the same record for the requested build as the code as written.
- **Routes and response helpers** (`Routes`): `stateToStatus`,
  `sendResponse`, the redirect URLs, and the outcome of each route as a
  function of the repository-summary result and the resolution. The handler
  methods run a request against the shared cache.

`stateToStatus` has three outcomes: "passed", "failed", and every other state,
such as "started", which gives "unknown-lightgrey". The cache has no
time-based expiry. A failed build-detail fetch produces no response on either
route.

JavaScript values are modelled as follows:
- `undefined` and `null` are both `None`, because `==` does not tell them apart.
- `last_build_id` is truthy when present and non-zero.
- Job and build numbers are exact reals.
- Ids are integers.

## Model

| member | source | states |
|---|---|---|
| `Decimal.NatString` | server.js:136 | the digits of a non-negative integer are decimal digits, and the first is "0" only for zero |
| `Decimal.IntString` | server.js:136 | an integer's property-key text is canonical (optional "-", no leading zero) and starts with "-" exactly for negatives |
| `Decimal.NatStringRoundTrip` | server.js:136 | reading back the digits of n gives n |
| `Decimal.IntStringRoundTrip` | server.js:136 | reading back an integer's key text gives the integer |
| `Decimal.IntStringInjective` | server.js:136 | distinct job indices never share a key |
| `Decimal.PaddedTextIsNoKey` | server.js:146 | a zero-padded text such as "01" is the key of no integer |
| `Jobs.Round` | server.js:136 | `Math.round` gives the nearest integer, halves rounded upward |
| `Jobs.IndexJobs` | server.js:133-140 | the job map after the `forEach` is empty exactly when no job is listed, and the last-listed job's index key is always present |
| `Jobs.JobAt` | server.js:146 | `jobs[jobNumber]` (also read from the cached map at line 113) is undefined exactly when the text is no key of the job map, and otherwise the job filed under it |
| `Jobs.BuildJobMap` | server.js:133-140 | the job object filled by the `forEach` is `IndexJobs` of the build's job list |
| `Jobs.IsEmpty` | server.js:187-194 | `isEmpty` is true exactly for the empty job map |
| `Jobs.IndexJobsKeys` | server.js:133-140 | the job map's keys are exactly the normalised indices of the listed jobs |
| `Jobs.IndexJobsLastWins` | server.js:135-140 | a job is stored as `{id, state}` under its index unless a later job has the same index |
| `Jobs.IndexJobsEmpty` | server.js:135-142 | the job map is empty exactly when the build lists no jobs |
| `Jobs.PaddedRequestNotFound` | server.js:136-146 | a zero-padded request such as "01" finds no job |
| `Jobs.MatrixExample` | server.js:131-140 | build 100 with jobs 100.1, 100.2, 100.3 gives indices "1", "2", "3" |
| `Jobs.TenthJobOverwritesFirst` | server.js:135-140 | a second job on index 1 (the tenth job, whose "100.10" JavaScript reads as 100.1) overwrites job 100.1 |
| `Jobs.LargeMatrixCollisions` | server.js:135-140 | jobs 100.14 and 100.15 land on indices 1 and 2 and overwrite jobs 100.1 and 100.2 |
| `BuildCache.BuildsCache.constructor` | server.js:6 | the cache starts empty, so it holds no empty record |
| `BuildCache.BuildsCache.Lookup` | server.js:107-111 | a record is returned only if the build's key is present and its stored `last_build` equals the current one, and then it is that record's job map |
| `BuildCache.BuildsCache.Save` | server.js:151-170 | the new cache is the as-written eviction followed by the overwriting `set` of `{repo_id, last_build, jobs}` |
| `BuildCache.BuildsCache.SaveEvictingRepo` | server.js:151-170 | the new cache drops every record whose stored `repo_id` is `repoId`, then stores the new record |
| `BuildCache.SavedAsWritten` | server.js:151-170 | after the as-written save the build's key holds `{repo_id, last_build, jobs}`, no other key is added, and with `repoId` defined no key is removed |
| `BuildCache.SavedAsWrittenKeepsAll` | server.js:152-164 | with `repoId` defined, `saveBuildCache` deletes nothing: every other entry is unchanged and the build's entry is the new record |
| `BuildCache.SavedAsWrittenKeepsSuperseded` | server.js:152-156 | the as-written save keeps a repository's superseded record, leaving two records for one repository |
| `BuildCache.SavedAsWrittenDeletesByIndex` | server.js:152-156 | with `repoId` undefined, the as-written save deletes the entry keyed "1" of another repository |
| `BuildCache.SavedAsWrittenKeepsNoEmpty` | server.js:142-164 | storing a non-empty job map with the as-written save leaves no empty record in a cache that had none |
| `BuildCache.SavedEvictingRepoScope` | server.js:152-164 | the intended save removes all and only the records of `repoId` (other than the build's own key), leaves the rest unchanged, and stores the new record |
| `BuildCache.SavedEvictingRepoKeepsInvariant` | server.js:142-164 | storing a non-empty job map with the intended save keeps "one record per repository, no empty record" |
| `Resolver.Refresh` | server.js:120-148 | a fetched build leaves the request unanswered exactly when the fetch failed, and a changed cache holds a valid record of the build |
| `Resolver.Resolve` | server.js:105-118 | a request goes unanswered exactly on a miss whose fetch failed; the cache changes only on a miss, and then the build hits afterwards |
| `Resolver.FetchBuildJobState` | server.js:120-148 | a failed fetch gives no answer and leaves the cache alone; a fetched build answers `jobs[jobNumber]` and is cached, by the as-written save, only when its job map is non-empty |
| `Resolver.GetBuildJobState` | server.js:105-118 | a valid hit answers from the cached job map without a fetch; otherwise the request goes to the fetch; a cache without empty records stays so |
| `Resolver.ResolveKeepsNoEmptyRecord` | server.js:105-148 | resolution never stores an empty job map |
| `Resolver.ResolveEvictingRepoKeepsInvariant` | server.js:105-164 | resolution with the intended save also keeps at most one record per repository |
| `Resolver.EvictionVariantsAgree` | server.js:105-164 | resolution as written and with the intended save give the same answer and the same record (or none) under the build's key |
| `Resolver.HitIgnoresUpstream` | server.js:107-113 | on a valid hit the build-detail result does not matter and the cache is unchanged |
| `Resolver.MissIgnoresCache` | server.js:109-116 | on a missing or stale record the answer is what an empty cache would give |
| `Resolver.StaleRecordRefetched` | server.js:109-116 | a record with a different `last_build` is ignored: the answer comes from the fetched build, or there is none if the fetch failed |
| `Resolver.ResolveCaches` | server.js:107-146 | afterwards the build hits exactly when it already did or a build with jobs was fetched |
| `Resolver.EmptyBuildNotCached` | server.js:142-146 | a fetched build without jobs leaves the cache unchanged and answers "no job" |
| `Resolver.ResolveIdempotent` | server.js:107-146 | once a valid record is left behind, resolving the same build and job again, with any upstream result, gives the same answer and the same cache |
| `Resolver.FoundJobIsCached` | server.js:142-146 | whenever a job is found, the build is a valid hit afterwards |
| `Routes.StateToStatus` | server.js:176-185 | "passed" maps to "passing-brightgreen", "failed" to "failing-red", and every other state to "unknown-lightgrey" |
| `Routes.SendResponse` | server.js:172-174 | the badge response is a 301 to the passing, failing or unknown badge according to the job's state |
| `Routes.BadgeUrlInjective` | server.js:173 | distinct statuses give distinct badge URLs |
| `Routes.BadgesDistinct` | server.js:173-185 | the three badges are different URLs |
| `Routes.JobUrlInjective` | server.js:42 | distinct job ids of one repository redirect to distinct pages |
| `Routes.BadgeUrl` | server.js:173 | the badge URL is the shields.io "build-" prefix, the status and ".svg", and the status reads back from it |
| `Routes.JobUrl` | server.js:42 | the job URL starts with "https://travis-ci.org/" and ends with the job id's decimal text |
| `Routes.Truthy` | server.js:39 | `last_build_id` (tested the same way at line 76) is falsy exactly when it is absent, null or 0 |
| `Routes.JobRoute` | server.js:32-56 | 400 exactly when the summary failed or names no truthy build; otherwise no reply, 404, or a 301 to the job's Travis CI page, according to the resolution |
| `Routes.BadgeRoute` | server.js:69-98 | 400 exactly when the summary failed; the unknown badge when it names no build; otherwise no reply, 404, or a 301 badge redirect, according to the resolution |
| `Routes.HandleJobRequest` | server.js:22-57 | the job route's outcome and the new cache are those of `JobRoute` after the request's resolution step |
| `Routes.HandleBadgeRequest` | server.js:59-99 | the badge route's outcome and the new cache are those of `BadgeRoute` after the request's resolution step |
| `Routes.RoutesCompared` | server.js:32-98 | both routes give 400 on a failed summary; without a build the job route gives 400 and the badge route the unknown badge; the routes agree on 404 and on no reply; the job route redirects exactly when a job was found |
| `Routes.NoBuildNoFetch` | server.js:39-92 | when the summary names no build, neither the cache nor the build-detail result is involved |
| `Routes.Build55Jobs` | server.js:131-140 | build 55 with jobs 55.1 (passed) and 55.2 (failed) files them under "1" and "2" |
| `Routes.Build55Resolution` | server.js:105-146 | build 55, not yet cached, is fetched and every request is answered from its fresh job map |
| `Routes.Build55Badges` | server.js:76-85 | for build 55, job 2's badge is "failing-red" and job 3 gets 404 |
| `Routes.Build55Redirect` | server.js:39-43 | for build 55, job 1 redirects to its Travis CI page |
| `Routes.NoBuildScenario` | server.js:36-96 | a repository without a build gets 400 on the job route and the unknown badge on the badge route |

## Left out

- Express setup, the no-cache header middleware, static files and `app.listen` (server.js:8-20, 101-103): HTTP plumbing with no logic.
- The `request` HTTP client and `JSON.parse` are foreign I/O. Their results are inputs: failure (error or non-200 status) or the parsed fields.
- The `set` failure callback only logs (server.js:164-169) and is omitted.
- Concurrent requests interleaving on the shared cache are not modelled. Each request is one sequential step over the cache.
- JavaScript floating-point error in `job.number - buildNumber` is not modelled; job and build numbers are exact reals. The same goes for Number-to-text conversion of integers of 10^21 or more.
- Exceptions thrown inside the cache-hit callback (server.js:113) would be caught and turned into a fetch. They are not modelled, because the modelled callbacks do not throw.
- Inherited properties of the `jobs` object are not modelled. In JavaScript a request such as "constructor" finds an inherited member rather than `undefined`; here such a request finds no job.

## Findings

| source | as written | input that shows it | evidently intended | confidence | as-written member | corrected member |
|---|---|---|---|---|---|---|
| server.js:152-156 | `for (var build in buildsCache.keys())` walks array indices "0", "1", ..., whose `repo_id` is undefined. With a defined `repoId` nothing is deleted; with an undefined one the entries keyed "0", "1", ... are deleted whatever repository owns them. | cache {"7": repo 1}; save build 8 of repo 1: record "7" stays, so repo 1 has two records | delete every record whose stored `repo_id` equals `repoId`, then `set` | high (not executed) | `BuildCache.BuildsCache.Save`, `BuildCache.SavedAsWrittenKeepsSuperseded` | `BuildCache.BuildsCache.SaveEvictingRepo`, `BuildCache.SavedEvictingRepoKeepsInvariant`, `Resolver.ResolveEvictingRepoKeepsInvariant` |
