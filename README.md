# cf-light-api worker, modelled in Dafny

cf-light-api periodically collects an inventory from a Cloud Foundry API and
publishes it into Redis. Its worker walks organizations → spaces → apps. It
builds one record per org (with the memory quota converted to bytes) and one
record per app (routes, running state, instance statistics, or an error
sentinel). It guards each cycle with a Redis lock key that expires after 900
seconds. The helper library follows paginated API responses (`next_url`),
resolves route names against the domain list, extracts instance statistics,
exports per-instance usage metrics to Graphite and formats durations. An
older Clockwork script does the same traversal without a lock and writes
everything under one key.

The project has seven modules:

- `Wrappers`: `Option` and `Result`.
- `CfModel`: the CFoundry objects as inputs and the nested org → space → app
  traversal. The traversal is specified by `MapUntilFailure`, where the first
  exception stops every enclosing `each` loop. It is implemented by one
  method per loop level.
- `KeyValue`: GET, SET, EXPIRE and DEL on a store with explicit time, and a
  `Redis` class holding that store.
- `Lib`: lib/cf_light_api/lib.rb.
- `CfClient`: lib/cf_light_api/client/cf_client.rb with the `Orgs`, `Org` and
  `OrgEntity` shapes.
- `Worker`: lib/cf_light_api/worker.rb.
- `WorkersSchedule`: script/workers_schedule.rb.

Conventions:

- **Remote API.** It is a finite sequence of parsed responses, in the order
  the requests are made. A request made after the last response raises
  `RequestFailed(path)`. Every call that walks pages also returns the list of
  paths it requested.
- **CFoundry app objects.** What `app.routes`, `app.running?` and `app.stats`
  return is given as a `Result`: the value, or the message of the exception
  raised.
- **Clock and timeout.** The wall clock is a parameter `now`. The scheduler's
  timeout is a flag `timedOut`.
- **The two `cf_rest` versions.** The recursive `cf_rest` of lib.rb is a
  recursive method. The enumerator of cf_client.rb is a `while true` loop.
  `CfClient.OrgsAgreesWithCfRest` proves the two agree on pages that carry
  `resources`.

Two behaviours of worker.rb shape the model:

- A cycle aborted by the timeout does not release the lock. The `rescue` at
  worker.rb:50-52 never reaches `unlock`, so the lock stays until its lease
  expires.
- In worker.rb's `format_app_data`, an exception from `app.routes` is not
  rescued. It ends the whole cycle. Only `running?` and `stats` are rescued
  (worker.rb:85-98).

## Model

| member | source | states |
|---|---|---|
| CfModel.Values | lib/cf_light_api/lib.rb:4 | the hash's values: one per key/value pair, in key order |
| CfModel.AppContexts | lib/cf_light_api/worker.rb:26-42 | the app visits of the three nested `each` loops, in traversal order; defined by its body, stated by `AppContextsLength` and `AppContextsAppend` |
| CfModel.SpaceContexts | lib/cf_light_api/worker.rb:36-42 | the app visits of `org.spaces.each`; defined by its body, stated by `SpaceContextsLength` |
| CfModel.AppsContexts | lib/cf_light_api/worker.rb:38-42 | the app visits of `space.apps.each`; defined by its body, stated by `AppsContextsAt` |
| CfModel.MapUntilFailure | lib/cf_light_api/worker.rb:38-41 | specification of an `each` loop that appends inside it; defined by its body, with its properties stated by `MapUntilFailureSucceeds`, `MapUntilFailureFirstError`, `MapUntilFailureCons` and `MapUntilFailureAppend` |
| CfModel.AppsContextsAt | lib/cf_light_api/worker.rb:38-42 | the innermost loop visits each app of the space once, in order, with the org's and space's names |
| CfModel.SpaceContextsLength | lib/cf_light_api/worker.rb:36-42 | the spaces loop visits as many apps as its spaces hold |
| CfModel.AppContextsLength | lib/cf_light_api/worker.rb:26-43 | the nested loops visit exactly one app per app of every space of every org |
| CfModel.AppContextsAppend | lib/cf_light_api/worker.rb:26-43 | traversal order: the visits of a list of orgs are those of its first part followed by the rest's |
| CfModel.MapUntilFailureSucceeds | lib/cf_light_api/worker.rb:38-41 | appending inside `each` completes exactly when no visit raises, and then holds one result per visit, in order |
| CfModel.MapUntilFailureFirstError | lib/cf_light_api/worker.rb:38-41 | when it does not complete, the exception is that of the first visit that raises; all earlier visits succeeded |
| CfModel.MapUntilFailureCons | lib/cf_light_api/worker.rb:38-41 | one loop step: a raising visit ends the loop with its exception, otherwise its result comes first |
| CfModel.MapUntilFailureAppend | lib/cf_light_api/worker.rb:26-43 | looping over `a` then `b` raises the first exception of `a`, or else that of `b`; without one, `a`'s results precede `b`'s |
| CfModel.VisitApp | lib/cf_light_api/worker.rb:39-41 | the app loop's invariant is kept by one visit: an exception becomes the traversal's, a result is appended |
| CfModel.CollectApps | lib/cf_light_api/worker.rb:38-42 | the `space.apps.each` loop appends the map-until-failure of its visits to what was collected before |
| CfModel.VisitSpace | lib/cf_light_api/worker.rb:36-42 | the spaces loop's invariant is kept by the visit of one space's apps |
| CfModel.CollectSpaces | lib/cf_light_api/worker.rb:36-42 | the `org.spaces.each` loop appends the map-until-failure of all its apps' visits |
| CfModel.VisitOrg | lib/cf_light_api/worker.rb:26-43 | the orgs loop's invariant is kept by the visit of one org's spaces |
| CfModel.TraversalBounds | lib/cf_light_api/worker.rb:24-43 | before the first org nothing is collected; after the last, the invariant gives the whole result |
| KeyValue.Lookup | lib/cf_light_api/worker.rb:56 | GET returns a value exactly when the key is present and its expiry has not been reached |
| KeyValue.Put | lib/cf_light_api/worker.rb:60 | after SET the key reads as the value at every time, and no other key changes |
| KeyValue.WithExpiry | lib/cf_light_api/worker.rb:61 | EXPIRE keeps a live key readable exactly until now + seconds; a missing key stays missing; no other key changes |
| KeyValue.Without | lib/cf_light_api/worker.rb:65 | after DEL the key is absent, and no other key changes |
| KeyValue.Lease | lib/cf_light_api/worker.rb:59-62 | SET followed by EXPIRE: the key holds the value exactly until now + seconds |
| KeyValue.Redis.Get | lib/cf_light_api/worker.rb:56 | GET reads the store, changes nothing, and is logged as a GET command |
| KeyValue.Redis.Set | lib/cf_light_api/worker.rb:60 | the new store is `Put` of the old one, and a SET command is logged |
| KeyValue.Redis.Expire | lib/cf_light_api/worker.rb:61 | the new store is `WithExpiry` of the old one, and an EXPIRE command is logged |
| KeyValue.Redis.Del | lib/cf_light_api/worker.rb:65 | the new store is `Without` of the old one, and a DEL command is logged |
| Lib.ChainEnd | lib/cf_light_api/lib.rb:22 | the first page without a `next_url`: every earlier page has one, and none has one when there is no such page |
| Lib.Flatten | lib/cf_light_api/lib.rb:23 | `resources.flatten` of the pages' contributions; defined by its body, stated by `FlattenAppend` and `FlattenLength` |
| Lib.Contribution | lib/cf_light_api/lib.rb:14-18 | what one page adds; defined by its body, stated by `SinglePage` |
| Lib.RequestLog | lib/cf_light_api/lib.rb:11-22 | along a chain, `path` is requested first, then each page's `next_url` in turn |
| Lib.Requests | lib/cf_light_api/lib.rb:11-22 | the first request is always `path` |
| Lib.Fetch | lib/cf_light_api/lib.rb:7-24 | what `cf_rest(path)` returns; defined by its body, stated by `CfRest`, `FetchEmpty`, `FetchStep` and `StopsAtFirstNil` |
| Lib.CfRest | lib/cf_light_api/lib.rb:7-24 | the recursion returns the flattened contributions up to the first page without `next_url`, or the failure of the first unanswered request, and makes exactly `Requests` |
| Lib.FetchEmpty | lib/cf_light_api/lib.rb:11 | with nothing answered, the first request raises and is the only one |
| Lib.FetchStep | lib/cf_light_api/lib.rb:14-23 | one unrolling: the first page's contribution, then, when it has a `next_url`, what the request for that URL returns; an exception there propagates |
| Lib.ChainEndStep | lib/cf_light_api/lib.rb:22 | following `next_url` moves the chain's end one page closer |
| Lib.FlattenAppend | lib/cf_light_api/lib.rb:23 | `flatten` keeps page order: pages contribute in turn |
| Lib.FlattenLength | lib/cf_light_api/lib.rb:20-23 | the result has as many elements as the pages contribute together |
| Lib.SinglePage | lib/cf_light_api/lib.rb:14-18 | a page with 'resources' contributes exactly those; a flat document contributes itself as one element |
| Lib.StopsAtFirstNil | lib/cf_light_api/lib.rb:11-22 | one request per page up to the first without `next_url`; later answers are never requested and change nothing; the result length is the sum of the contributions |
| Lib.ChainEndPrefix | lib/cf_light_api/lib.rb:22 | the end of a chain does not depend on what the server would answer after it |
| Lib.InstanceValues | lib/cf_light_api/lib.rb:2-4 | no document raises nil's `[]`; an 'error_code' raises "Unable to retrieve app instance stats"; otherwise the map's values in key order |
| Lib.StatsPath | lib/cf_light_api/lib.rb:2 | the path `/v2/apps/<guid>/stats`; defined by its body, and `FormattedInstanceStatsForApp` states that it is the one request made |
| Lib.StatsErrorMessage | lib/cf_light_api/lib.rb:3 | the message of the raised error, with the `error_code` quoted; defined by its body, and `InstanceValues` states when it is raised |
| Lib.FormattedInstanceStatsForApp | lib/cf_light_api/lib.rb:1-5 | requests `/v2/apps/<guid>/stats` through `cf_rest`; its exception propagates, otherwise the first document is read |
| Lib.StatsOfOneDocument | lib/cf_light_api/lib.rb:2-4 | a single flat stats document succeeds exactly when it has no 'error_code', and then gives its values in key order |
| Lib.FindDomain | lib/cf_light_api/lib.rb:68 | `@domains.find`: the first domain with the route's guid, or none when no domain has it |
| Lib.RouteName | lib/cf_light_api/lib.rb:71 | the host, a ".", the domain's name and the path (nil as empty); defined by its body, and `RouteNames` states it for each route |
| Lib.RouteNames | lib/cf_light_api/lib.rb:64-72 | one name per route, in route order, host + "." + the first matching domain's name + path; succeeds exactly when every route's domain is found, otherwise raises nil's `[]` |
| Lib.FormatRoutesForApp | lib/cf_light_api/lib.rb:62-73 | fetches the routes from `routes_url` through `cf_rest`; its exception propagates, otherwise each route is named |
| Lib.Graphite.Metrics | lib/cf_light_api/lib.rb:41 | each metric sent is appended to what was sent before |
| Lib.Underscored | lib/cf_light_api/lib.rb:33 | `gsub(".", "_")`: same length, each '.' becomes '_', every other character stays |
| Lib.UnderscoredHasNoDots | lib/cf_light_api/lib.rb:33 | afterwards no '.' remains, and replacing again changes nothing |
| Lib.Digits | lib/cf_light_api/lib.rb:36 | the rendered index is a non-empty string of decimal digits |
| Lib.DigitsRoundTrip | lib/cf_light_api/lib.rb:36 | the rendered index reads back as the index |
| Lib.BaseKey | lib/cf_light_api/lib.rb:36 | `graphite_base_key`: `cf_apps.<org>.<space>.<app>.<index>`; defined by its body, stated by `UsageMetricsAt` |
| Lib.QuotaFigure | lib/cf_light_api/lib.rb:40-42 | `instance_data['stats'][key]` for mem_quota and disk_quota; defined by its body, stated by `UsageMetricsAt` |
| Lib.UsageFigure | lib/cf_light_api/lib.rb:45-47 | `instance_data['stats']['usage'][key]` for mem, disk and cpu; defined by its body, stated by `UsageMetricsAt` |
| Lib.InstanceMetrics | lib/cf_light_api/lib.rb:40-47 | the five metrics of one instance, quotas first; defined by its body, stated by `UsageMetricsAt` and `SendInstanceMetrics` |
| Lib.UsageMetrics | lib/cf_light_api/lib.rb:35-47 | the metrics of all instances in index order; defined by its body, stated by `UsageMetricsAt` |
| Lib.UsageMetricsAt | lib/cf_light_api/lib.rb:35-47 | exactly five metrics per instance; metric j of instance i is at 5*i + j, keyed `cf_apps.<org>.<space>.<app>.<i>.<name>` with mem_quota, disk_quota, mem, disk, cpu in order |
| Lib.SendInstanceMetrics | lib/cf_light_api/lib.rb:36-47 | one instance's body sends its two quota metrics and then its three usage metrics |
| Lib.SendInstanceUsageDataToGraphite | lib/cf_light_api/lib.rb:32-49 | the caller's app name is changed in place to its underscored form, and the metrics sent are exactly `UsageMetrics` for all instances in index order |
| Lib.DurationFields | lib/cf_light_api/lib.rb:55-58 | hours*3600 + minutes*60 + seconds == elapsed, with seconds and minutes in 0..59, and hours ≥ 0 for non-negative input |
| Lib.Seconds | lib/cf_light_api/lib.rb:56 | `elapsed_seconds % 60`; defined by its body, stated by `DurationFields` |
| Lib.Minutes | lib/cf_light_api/lib.rb:57 | `(elapsed_seconds / 60) % 60`; defined by its body, stated by `DurationFields` |
| Lib.Hours | lib/cf_light_api/lib.rb:58 | `elapsed_seconds / 3600`; defined by its body, stated by `DurationFields` |
| Lib.Pad2 | lib/cf_light_api/lib.rb:59 | `%02d`; defined by its body, stated by `Pad2RoundTrip` |
| Lib.Pad2RoundTrip | lib/cf_light_api/lib.rb:59 | `%02d` of a non-negative field gives at least two digits (exactly two below 100) that read back as the field |
| Lib.FieldsLayout | lib/cf_light_api/lib.rb:59 | the two-digit minutes and seconds are found between the separators of " hrs, MM mins, SS secs" |
| Lib.ParseLayout | lib/cf_light_api/lib.rb:59 | the hours are everything before the 22 fixed-width characters |
| Lib.FormatDuration | lib/cf_light_api/lib.rb:55-60 | `format_duration`; defined by its body, stated by `DurationFields` and `FormatDurationRoundTrip` |
| Lib.FormatDurationRoundTrip | lib/cf_light_api/lib.rb:55-60 | for non-negative input, "HH hrs, MM mins, SS secs" reads back as the elapsed time |
| CfClient.LastPage | lib/cf_light_api/client/cf_client.rb:25-26 | the first page whose `next_url` is nil: all earlier pages have one, and none has one when there is no such page |
| CfClient.Taken | lib/cf_light_api/client/cf_client.rb:21-23 | the resources yielded from the first pages, page after page; defined by its body, stated by `TakenExtended` and `TakenIsFlatten` |
| CfClient.Requested | lib/cf_light_api/client/cf_client.rb:17-28 | the first request is GET /v2/organizations; request i is the `next_url` of page i-1 |
| CfClient.Enumerated | lib/cf_light_api/client/cf_client.rb:15-33 | what the enumerator yields and requests; defined by its body, stated by `CfRest`, `StopsAfterNilPage`, `TakenIsFlatten` and `OrgsAgreesWithCfRest` |
| CfClient.CfRest | lib/cf_light_api/client/cf_client.rb:15-33 | the `while true` loop yields every page's resources in order, follows `next_url` until a page has none, and raises on the request after the last answer |
| CfClient.Orgs | lib/cf_light_api/client/cf_client.rb:11-13 | `orgs` is the enumeration of `cf_rest` |
| CfClient.LastPageExtended | lib/cf_light_api/client/cf_client.rb:25-26 | the nil page ends the walk whatever follows it |
| CfClient.TakenExtended | lib/cf_light_api/client/cf_client.rb:21-23 | what the first pages yield does not depend on later pages |
| CfClient.StopsAfterNilPage | lib/cf_light_api/client/cf_client.rb:25-26 | one request per page up to the nil page; no further page is requested and later answers change nothing |
| CfClient.SameRequests | lib/cf_light_api/client/cf_client.rb:28 | the requests depend only on the pages' `next_url`s |
| CfClient.EmptyPageIsFollowed | lib/cf_light_api/client/cf_client.rb:20-31 | a page with empty resources still has its `next_url` followed: same last page, same requests, same outcome |
| CfClient.SameEndWithoutResources | lib/cf_light_api/client/cf_client.rb:20-31 | emptying one page's resources does not move the last page |
| CfClient.TakenIsFlatten | lib/cf_light_api/client/cf_client.rb:21-23 | the resources yielded from the first pages are what the recursive `cf_rest` flattens from them |
| CfClient.OrgsAgreesWithCfRest | lib/cf_light_api/client/cf_client.rb:11-31 | on pages that carry 'resources', `orgs` and the recursive `cf_rest("/v2/organizations")` stop at the same page, request the same paths, yield the same orgs in order, and fail on the same request |
| CfClient.AgreeWhenEnded | lib/cf_light_api/client/cf_client.rb:25-26 | with a nil page, both versions request and return the same |
| CfClient.AgreeWhenUnanswered | lib/cf_light_api/client/cf_client.rb:28 | when the server stops first, both versions fail on the same request |
| CfClient.RequestedIsLog | lib/cf_light_api/client/cf_client.rb:17-28 | the loop's requests are the recursive version's request log |
| CfClient.SameEnd | lib/cf_light_api/client/cf_client.rb:25 | both versions find the same last page |
| CfClient.OnePageOneOrg | spec/cf_client_spec.rb:26-40 | one page with one org: the first org yielded is "casper" |
| CfClient.OnePageTwoOrgs | spec/cf_client_spec.rb:42-63 | one page with two orgs: "casper" then "oscar" |
| CfClient.TwoPages | spec/cf_client_spec.rb:65-89 | two pages: page 1's org, then page 2's, after requesting the first page's `next_url` |
| Worker.KeysDistinct | lib/cf_light_api/worker.rb:47-66 | the lock, orgs and apps keys of one prefix are three different keys |
| Worker.LockKey | lib/cf_light_api/worker.rb:56-65 | the key `<prefix>:lock`; defined by its body, stated by `KeysDistinct` |
| Worker.OrgsKey | lib/cf_light_api/worker.rb:47 | the key `<prefix>:orgs`; defined by its body, stated by `KeysDistinct` |
| Worker.AppsKey | lib/cf_light_api/worker.rb:48 | the key `<prefix>:apps`; defined by its body, stated by `KeysDistinct` |
| Worker.FormatOrgData | lib/cf_light_api/worker.rb:28-34 | one org's record; defined by its body, stated by `OrgRecordQuota` |
| Worker.OrgRecordQuota | lib/cf_light_api/worker.rb:27-33 | the org record keeps the name and `total_services`; `memory_limit` is the MB value times 1048576, so it divides exactly back to the MB value |
| Worker.OrgData | lib/cf_light_api/worker.rb:26-34 | one org record per org, in order |
| Worker.Healthy | lib/cf_light_api/worker.rb:85-90 | the `begin` block completes: neither `running?` nor, for a running app, `stats` raises; defined by its body, stated by `FormatAppData` |
| Worker.RescuedMessage | lib/cf_light_api/worker.rb:91-97 | `e.message` of the rescued exception: that of `running?`, else that of `stats`; defined by its body, stated by `FormatAppData` |
| Worker.Additional | lib/cf_light_api/worker.rb:84-98 | `additional_data` from the `begin` block or its `rescue`; defined by its body, stated by `FormatAppData` |
| Worker.FormatAppData | lib/cf_light_api/worker.rb:74-101 | raises exactly when `app.routes` raises; otherwise it keeps the base fields. It sets `running`/`instances` from `running?` and the stats values (or []) with `error` nil when neither raises, and 'error', [] and the message when one does |
| Worker.Collected | lib/cf_light_api/worker.rb:24-43 | the org and app records the loops collect; defined by its body, stated by `CollectedShape` |
| Worker.CollectedShape | lib/cf_light_api/worker.rb:24-43 | collection succeeds exactly when no app's routes raise, and otherwise fails with the first such exception. `org_data` is one record per org; `app_data` is one record per app of every space of every org, in traversal order |
| Worker.Collect | lib/cf_light_api/worker.rb:24-43 | the nested loops compute `Collected` |
| Worker.IsLocked | lib/cf_light_api/worker.rb:55-57 | `locked?` is true exactly when the lock key holds a value; it sends one GET and changes no key |
| Worker.Locked | lib/cf_light_api/worker.rb:59-62 | the store after `lock`; defined by its body, stated by `Lock` and `AbortedCycle` |
| Worker.Lock | lib/cf_light_api/worker.rb:59-62 | `lock` sets the lock key and then gives it a 900-second expiry: a SET, then an EXPIRE |
| Worker.Unlock | lib/cf_light_api/worker.rb:64-66 | `unlock` deletes the lock key with one DEL |
| Worker.PutInRedis | lib/cf_light_api/worker.rb:103-106 | `put_in_redis` sets the key to the data with one SET |
| Worker.Cycle | lib/cf_light_api/worker.rb:11-53 | a cycle skips exactly when the lock is held, and then changes nothing; it publishes exactly when it is not locked, does not time out, and the inventory and collection succeed |
| Worker.CycleCommands | lib/cf_light_api/worker.rb:11-48 | the Redis commands of one run, in order: GET of the lock alone when skipped; then SET and a 900-second EXPIRE of the lock; when publishing, DEL of the lock and only then the SETs of orgs and apps with the collected records |
| Worker.RunCycle | lib/cf_light_api/worker.rb:12-52 | the scheduler block's new store and outcome are those of `Cycle`, and the commands it sends to Redis are `CycleCommands`, so on publishing the lock is deleted before either key is written |
| Worker.PublishedCycle | lib/cf_light_api/worker.rb:45-48 | after publishing, the lock is gone, the orgs key holds the org records and the apps key the app records, and no other key changes |
| Worker.AbortedCycle | lib/cf_light_api/worker.rb:50-52 | a cycle that took the lock and then timed out or raised writes nothing; the lock stays exactly until its 900-second expiry |
| Worker.NextCycleAfterAbort | lib/cf_light_api/worker.rb:11-16 | after an aborted cycle, a later cycle skips exactly when it starts less than 900 s later: the runs 5 and 10 minutes later skip; with check and lock at one second, the one 15 minutes later proceeds |
| Worker.LeaseOutlastsTimeout | lib/cf_light_api/worker.rb:11 | at any moment before the 15-minute timeout fires, the lock of a timed-out cycle is still held |
| WorkersSchedule.FormatAppData | script/workers_schedule.rb:14-24 | copies org, space, name and route names; `running` is `running?`; `stats` is `app.stats` when running and empty otherwise; the first of routes, `running?` and stats that raises ends the call |
| WorkersSchedule.Data | script/workers_schedule.rb:34-43 | the list the loops build; defined by its body, stated by `DataShape` |
| WorkersSchedule.DataShape | script/workers_schedule.rb:34-43 | the loops succeed exactly when every app's record can be built, and then hold one record per app of every org and space, in traversal order |
| WorkersSchedule.CollectData | script/workers_schedule.rb:34-43 | the nested loops compute `Data` |
| WorkersSchedule.Handler | script/workers_schedule.rb:31-46 | any exception leaves Redis unchanged, sends no command, and is what the job raises; otherwise the whole list is written under the key with exactly one SET |
| WorkersSchedule.HandlerWrites | script/workers_schedule.rb:45 | after a successful job the key holds exactly the records, one per app, and no other key changed |

## Left out

- lib/sinatra/cf_light_api.rb, api.rb and lib/cf_light_api/redis.rb are left out. They are HTTP routes that return Redis values verbatim, plus connection setup from environment variables.
- `get_client`, login, and the HTTP requests are left out, and so are the environment-variable checks at worker.rb:5-8. These are I/O. Each request's answer is an input.
- `JSON.parse`, `to_json` and Virtus attribute coercion are left out. Pages are already parsed values, and Redis values are the documents themselves.
- `app.routes`, `app.running?` and `app.stats` are inputs given as a value or an exception message. worker.rb calls `running?` twice (lines 87-88); the model assumes both calls give the same answer.
- `Time.now` is one parameter `now` per cycle. The source reads the clock once per app.
- Rufus scheduling, `:overlap => false` and `:first_in` are left out. The timeout is a flag that fires while the data is collected; a timeout at any other point of the block is not modelled.
- The race between `locked?` and `lock` is left out. Two workers can both see the key absent and both take the lock. This is concurrency; the model is the sequential state machine.
- Graphite network delivery and all `puts` and `@logger` output are left out. Only the list of metrics sent is kept.
- Lib.QuotaFigure, Lib.UsageFigure, Lib.SendInstanceUsageDataToGraphite: do not model an instance document that lacks one of the five figures (Ruby would send nil), nor one without a 'stats' or 'usage' hash, as a DOWN or CRASHED instance has. In Ruby the latter raises NoMethodError at lib.rb:41 or lib.rb:46, after the earlier instances' metrics were already sent. In the model every `InstanceData` has both hashes and all five figures, so the export never raises.
- Worker.CollectedShape, WorkersSchedule.DataShape: `org.quota_definition`, `org.spaces`, `space.apps`, `app.guid` and `app.name` (worker.rb:31-32, 36, 38, 76-77; workers_schedule.rb:37, 39) are lazy CFoundry calls that can raise, and a nil quota definition raises NoMethodError at worker.rb:31. `CfOrg`, `CfSpace` and `CfApp` hold these as plain values, which amounts to assuming they do not raise. So "collection succeeds exactly when no app's routes raise" holds only under that assumption.
- CfModel.InstanceData: an instance is modelled by the five figures Graphite reads. worker.rb:88 publishes each whole instance hash in `instances`, with its state, uris, uptime and the rest; the published instances in the model are this projection.
- CfClient.CfRest: the `Enumerator` is modelled as the whole enumeration run to the end. Lazy, partial consumption is not modelled.
- The `next_url` recursion of `cf_rest` (lib.rb:22) and the `while true` loop of cf_client.rb:20-31 have no depth limit; the model follows a chain as far as the answers given.
- Worker.Cycle, Worker.AbortedCycle: the `timedOut` flag models only a timeout that fires outside the `begin` block of `format_app_data` (worker.rb:85-98). A timeout raised while `app.running?` or `app.stats` runs is caught by the bare `rescue => e` at worker.rb:91, because Rufus's timeout error is a `StandardError`; the cycle then goes on. The model covers that case only as an app whose `running?` or `stats` input is a failure carrying the timeout's message.
- Worker.NextCycleAfterAbort: the `locked?` GET (worker.rb:13) and `lock`'s EXPIRE (worker.rb:61) share the one second `now`. In the program EXPIRE is sent after the GET and the SET, so the lease ends slightly after the cycle's start, and whether the run exactly 900 seconds later proceeds is a race. The clause that the run 15 minutes later proceeds holds only in the model.
- WorkersSchedule.FormatAppData: script/workers_schedule.rb:21-22 also calls `running?` twice; the model assumes both calls give the same answer.
- The `method='GET'` parameter of `cf_rest` (lib.rb:7, passed on at lib.rb:22) is left out. Every caller uses the default, and the verb reaches only the HTTP request and the log line.
- Lib.Contribution: `resources.flatten` (lib.rb:23) flattens recursively, so a resource that is itself an array would be spliced into the result. The model keeps every resource as one opaque element; no Cloud Foundry endpoint modelled here returns nested arrays.
- CfModel.Usage, CfModel.InstanceStats: JSON integers and floats in the stats documents are both modelled as `real`. The Integer/Float distinction, which Graphite and `to_json` would see, is not kept.
