/** lib/cf_light_api/worker.rb: every five minutes the worker takes the lock
    `<prefix>:lock`, walks orgs → spaces → apps collecting one record per org
    and one per app, releases the lock and publishes both lists under
    `<prefix>:orgs` and `<prefix>:apps`.

    The CFoundry inventory is an input (the orgs, or the message of the
    exception listing them raised); the Redis server is a `KeyValue.Redis`; the
    wall clock is the parameter `now`; the scheduler's timeout is the flag
    `timedOut`, which fires while the data is being collected. */
module Worker {
  import opened Wrappers
  import opened CfModel
  import opened KeyValue

  /** `REDIS.expire ... 900` */
  const LockExpirySeconds: int := 900
  /** The scheduler's `:timeout => '15m'`. */
  const TimeoutSeconds: int := 15 * 60
  /** The scheduler's `every '5m'`. */
  const IntervalSeconds: int := 5 * 60

  function LockKey(prefix: string): string { prefix + ":lock" }
  function OrgsKey(prefix: string): string { prefix + ":orgs" }
  function AppsKey(prefix: string): string { prefix + ":apps" }

  /** The three keys of one prefix are different keys. */
  lemma KeysDistinct(prefix: string)
    ensures LockKey(prefix) != OrgsKey(prefix)
    ensures LockKey(prefix) != AppsKey(prefix)
    ensures OrgsKey(prefix) != AppsKey(prefix)
  {
    var n := |prefix| + 1;
    assert LockKey(prefix)[n] == 'l';
    assert OrgsKey(prefix)[n] == 'o';
    assert AppsKey(prefix)[n] == 'a';
  }

  // ---------------------------------------------------------------- org records

  const BytesPerMegabyte: int := 1024 * 1024

  datatype QuotaRecord = QuotaRecord(total_services: int, memory_limit: int)

  datatype OrgRecord = OrgRecord(name: string, quota: QuotaRecord)

  /** The record pushed onto `org_data`. */
  function FormatOrgData(org: CfOrg): OrgRecord
  {
    OrgRecord(org.name, QuotaRecord(org.quota_definition.total_services,
                                    org.quota_definition.memory_limit * 1024 * 1024))
  }

  /** An org record keeps the org's name and service quota and converts the
      memory limit from megabytes to bytes, so that dividing it by 1048576
      gives back the megabytes exactly. */
  lemma OrgRecordQuota(org: CfOrg)
    ensures FormatOrgData(org).name == org.name
    ensures FormatOrgData(org).quota.total_services == org.quota_definition.total_services
    ensures FormatOrgData(org).quota.memory_limit % BytesPerMegabyte == 0
    ensures FormatOrgData(org).quota.memory_limit / BytesPerMegabyte == org.quota_definition.memory_limit
  {
    assert FormatOrgData(org).quota.memory_limit == org.quota_definition.memory_limit * BytesPerMegabyte;
  }

  /** One record per org, in order. */
  function OrgData(orgs: seq<CfOrg>): (r: seq<OrgRecord>)
    ensures |r| == |orgs|
    ensures forall i :: 0 <= i < |orgs| ==> r[i] == FormatOrgData(orgs[i])
  {
    if orgs == [] then [] else OrgData(orgs[..|orgs| - 1]) + [FormatOrgData(orgs[|orgs| - 1])]
  }

  // ---------------------------------------------------------------- app records

  /** `:running`: the answer of `app.running?`, or the string 'error'. */
  datatype RunningField = Running(isRunning: bool) | ErrorSentinel

  /** `base_data.merge additional_data`. */
  datatype AppRecord = AppRecord(
    guid: string,
    name: string,
    org: string,
    space: string,
    routes: seq<string>,
    data_from: int,
    running: RunningField,
    instances: seq<InstanceData>,
    error: Option<string>)

  /** Neither `app.running?` nor, for a running app, `app.stats` raises. */
  predicate Healthy(app: CfApp)
  {
    app.running.Success? && (app.running.value ==> app.stats.Success?)
  }

  /** The message of the exception the `begin` block rescues. */
  function RescuedMessage(app: CfApp): string
    requires !Healthy(app)
  {
    if app.running.Failure? then app.running.error else app.stats.error
  }

  /** `additional_data`: running, instances and error, each from the `begin`
      block or from its `rescue`. */
  datatype AdditionalData = AdditionalData(running: RunningField, instances: seq<InstanceData>, error: Option<string>)

  function Additional(app: CfApp): AdditionalData
  {
    if !Healthy(app) then AdditionalData(ErrorSentinel, [], Some(RescuedMessage(app)))
    else if app.running.value then AdditionalData(Running(true), Values(app.stats.value), None)
    else AdditionalData(Running(false), [], None)
  }

  /** `format_app_data`. The base fields are computed outside the `begin`
      block, so an exception from `app.routes` is not rescued and ends the
      call; one from `running?` or `stats` is rescued and only replaces the
      last three fields. */
  function FormatAppData(app: CfApp, orgName: string, spaceName: string, now: int): (r: Result<AppRecord, string>)
    ensures r.Failure? <==> app.routes.Failure?
    ensures r.Failure? ==> r.error == app.routes.error
    ensures r.Success? ==>
      r.value.guid == app.guid && r.value.name == app.name && r.value.org == orgName &&
      r.value.space == spaceName && r.value.routes == app.routes.value && r.value.data_from == now
    ensures r.Success? ==> (r.value.error.None? <==> Healthy(app))
    ensures r.Success? && Healthy(app) ==>
      r.value.running == Running(app.running.value) &&
      r.value.instances == (if app.running.value then Values(app.stats.value) else [])
    ensures r.Success? && !Healthy(app) ==>
      r.value.running == ErrorSentinel && r.value.instances == [] && r.value.error == Some(RescuedMessage(app))
  {
    if app.routes.Failure? then Failure(app.routes.error)
    else
      var extra := Additional(app);
      Success(AppRecord(app.guid, app.name, orgName, spaceName, app.routes.value, now,
                        extra.running, extra.instances, extra.error))
  }

  /** The body of the innermost loop, for one visit. */
  function FormatAt(now: int): AppContext -> Result<AppRecord, string>
  {
    (c: AppContext) => FormatAppData(c.app, c.orgName, c.spaceName, now)
  }

  // ------------------------------------------------------------------ collection

  datatype Snapshot = Snapshot(orgs: seq<OrgRecord>, apps: seq<AppRecord>)

  /** `org_data` and `app_data` once the nested loops have run to the end, or
      the first exception raised inside them. */
  function Collected(orgs: seq<CfOrg>, now: int): Result<Snapshot, string>
  {
    var apps := MapUntilFailure(AppContexts(orgs), FormatAt(now));
    if apps.Failure? then Failure(apps.error) else Success(Snapshot(OrgData(orgs), apps.value))
  }

  /** Collection fails exactly when some app's routes raise, and then with the
      first such exception in traversal order. Otherwise `org_data` has one
      record per org in order and `app_data` one record per app of every space
      of every org, in the nested traversal order. */
  lemma CollectedShape(orgs: seq<CfOrg>, now: int)
    ensures Collected(orgs, now).Success? <==>
      forall i :: 0 <= i < |AppContexts(orgs)| ==> AppContexts(orgs)[i].app.routes.Success?
    ensures Collected(orgs, now).Failure? ==>
      exists i :: 0 <= i < |AppContexts(orgs)| &&
        AppContexts(orgs)[i].app.routes == Failure(Collected(orgs, now).error) &&
        forall j :: 0 <= j < i ==> AppContexts(orgs)[j].app.routes.Success?
    ensures Collected(orgs, now).Success? ==>
      Collected(orgs, now).value.orgs == OrgData(orgs) &&
      |Collected(orgs, now).value.apps| == |AppContexts(orgs)| == AppCount(orgs) &&
      forall i :: 0 <= i < |AppContexts(orgs)| ==>
        Collected(orgs, now).value.apps[i] ==
          FormatAppData(AppContexts(orgs)[i].app, AppContexts(orgs)[i].orgName, AppContexts(orgs)[i].spaceName, now).value
  {
    var f := FormatAt(now);
    var cs := AppContexts(orgs);
    MapUntilFailureSucceeds(cs, f);
    MapUntilFailureFirstError(cs, f);
    AppContextsLength(orgs);
    assert forall i :: 0 <= i < |cs| ==> f(cs[i]) == FormatAppData(cs[i].app, cs[i].orgName, cs[i].spaceName, now);
  }

  /** The nested `each` loops of the scheduler block. */
  method Collect(orgs: seq<CfOrg>, now: int) returns (r: Result<Snapshot, string>)
    ensures r == Collected(orgs, now)
  {
    var f := FormatAt(now);
    ghost var goal := MapUntilFailure(AppContexts(orgs), f);
    var orgData: seq<OrgRecord> := [];
    var appData: seq<AppRecord> := [];
    var i := 0;
    TraversalBounds(goal, appData, orgs, f);
    while i < |orgs|
      invariant 0 <= i <= |orgs|
      invariant orgData == OrgData(orgs[..i])
      invariant goal == After(appData, MapUntilFailure(AppContexts(orgs[i..]), f))
    {
      assert orgs[..i + 1][..i] == orgs[..i];
      orgData := orgData + [FormatOrgData(orgs[i])];
      var visited := CollectSpaces(orgs[i].name, orgs[i].spaces, f, appData);
      VisitOrg(goal, appData, visited, orgs, i, f);
      if visited.Failure? {
        return Failure(visited.error);
      }
      appData := visited.value;
      i := i + 1;
    }
    TraversalBounds(goal, appData, orgs, f);
    assert orgs[..i] == orgs;
    r := Success(Snapshot(orgData, appData));
  }

  // ------------------------------------------------------------------------ lock

  /** What the worker keeps in Redis. */
  datatype Document = LockFlag | OrgList(orgs: seq<OrgRecord>) | AppList(apps: seq<AppRecord>)

  /** `locked?`: any value under the lock key counts. */
  method IsLocked(redis: Redis<Document>, prefix: string, now: int) returns (locked: bool)
    modifies redis
    ensures locked <==> Live(old(redis.store), LockKey(prefix), now)
    ensures redis.store == old(redis.store)
    ensures redis.log == old(redis.log) + [GetCmd(LockKey(prefix))]
  {
    var v := redis.Get(LockKey(prefix), now);
    locked := v.Some?;
  }

  /** The store once `lock` has run at `now`. */
  function Locked(s: Store<Document>, prefix: string, now: int): Store<Document>
  {
    WithExpiry(Put(s, LockKey(prefix), LockFlag), LockKey(prefix), LockExpirySeconds, now)
  }

  /** `lock`: SET the key, then EXPIRE it in 900 seconds. */
  method Lock(redis: Redis<Document>, prefix: string, now: int)
    modifies redis
    ensures redis.store == Locked(old(redis.store), prefix, now)
    ensures redis.log == old(redis.log) + [SetCmd(LockKey(prefix), LockFlag), ExpireCmd(LockKey(prefix), LockExpirySeconds)]
  {
    redis.Set(LockKey(prefix), LockFlag);
    redis.Expire(LockKey(prefix), LockExpirySeconds, now);
  }

  /** `unlock` */
  method Unlock(redis: Redis<Document>, prefix: string)
    modifies redis
    ensures redis.store == Without(old(redis.store), LockKey(prefix))
    ensures redis.log == old(redis.log) + [DelCmd(LockKey(prefix))]
  {
    redis.Del(LockKey(prefix));
  }

  /** `put_in_redis` (the JSON encoding is not modelled). */
  method PutInRedis(redis: Redis<Document>, key: string, data: Document)
    modifies redis
    ensures redis.store == Put(old(redis.store), key, data)
    ensures redis.log == old(redis.log) + [SetCmd(key, data)]
  {
    redis.Set(key, data);
  }

  // ----------------------------------------------------------------- the cycle

  /** How one run of the scheduler block ends: skipped because the lock was
      held, aborted by the timeout, ended by an exception, or published. */
  datatype Outcome = Skipped | TimedOut | Raised(message: string) | Published

  datatype CycleResult = CycleResult(store: Store<Document>, outcome: Outcome)

  /** One run of the scheduler block on store `s` at second `now`. */
  function Cycle(s: Store<Document>, prefix: string, inventory: Result<seq<CfOrg>, string>,
                 now: int, timedOut: bool): (r: CycleResult)
    ensures r.outcome.Skipped? <==> Live(s, LockKey(prefix), now)
    ensures r.outcome.Skipped? ==> r.store == s
    ensures r.outcome.Published? <==>
      !Live(s, LockKey(prefix), now) && !timedOut && inventory.Success? && Collected(inventory.value, now).Success?
  {
    if Live(s, LockKey(prefix), now) then CycleResult(s, Skipped)
    else
      var locked := Locked(s, prefix, now);
      if timedOut then CycleResult(locked, TimedOut)
      else if inventory.Failure? then CycleResult(locked, Raised(inventory.error))
      else
        var collected := Collected(inventory.value, now);
        if collected.Failure? then CycleResult(locked, Raised(collected.error))
        else
          var unlocked := Without(locked, LockKey(prefix));
          var withOrgs := Put(unlocked, OrgsKey(prefix), OrgList(collected.value.orgs));
          CycleResult(Put(withOrgs, AppsKey(prefix), AppList(collected.value.apps)), Published)
  }

  /** The Redis commands one run of the scheduler block on store `s` sends,
      in order: only the lock check when it skips; the check and `lock` when it
      is aborted; and when it publishes, the lock's DEL before the SETs of the
      orgs and then the apps. */
  function CycleCommands(s: Store<Document>, prefix: string, inventory: Result<seq<CfOrg>, string>,
                         now: int, timedOut: bool): (cmds: seq<Command<Document>>)
    ensures |cmds| > 0 && cmds[0] == GetCmd(LockKey(prefix))
    ensures Cycle(s, prefix, inventory, now, timedOut).outcome.Skipped? <==> |cmds| == 1
    ensures !Cycle(s, prefix, inventory, now, timedOut).outcome.Skipped? ==>
      |cmds| >= 3 && cmds[1..3] == [SetCmd(LockKey(prefix), LockFlag), ExpireCmd(LockKey(prefix), LockExpirySeconds)]
    ensures Cycle(s, prefix, inventory, now, timedOut).outcome.Published? <==> |cmds| == 6
    ensures Cycle(s, prefix, inventory, now, timedOut).outcome.Published? ==>
      cmds[3..] == [DelCmd(LockKey(prefix)),
                    SetCmd(OrgsKey(prefix), OrgList(OrgData(inventory.value))),
                    SetCmd(AppsKey(prefix), AppList(Collected(inventory.value, now).value.apps))]
  {
    var check := [GetCmd(LockKey(prefix))];
    var lock := [SetCmd(LockKey(prefix), LockFlag), ExpireCmd(LockKey(prefix), LockExpirySeconds)];
    if Live(s, LockKey(prefix), now) then check
    else if timedOut || inventory.Failure? || Collected(inventory.value, now).Failure? then check + lock
    else
      var collected := Collected(inventory.value, now).value;
      check + lock + [DelCmd(LockKey(prefix)), SetCmd(OrgsKey(prefix), OrgList(collected.orgs)),
                      SetCmd(AppsKey(prefix), AppList(collected.apps))]
  }

  /** The scheduler block: skip when locked; otherwise lock, collect, and only
      after collection unlock and write the orgs, then the apps. */
  method RunCycle(redis: Redis<Document>, prefix: string, inventory: Result<seq<CfOrg>, string>,
                  now: int, timedOut: bool) returns (outcome: Outcome)
    modifies redis
    ensures CycleResult(redis.store, outcome) == Cycle(old(redis.store), prefix, inventory, now, timedOut)
    ensures redis.log == old(redis.log) + CycleCommands(old(redis.store), prefix, inventory, now, timedOut)
  {
    ghost var s0, log0 := redis.store, redis.log;
    ghost var check := [GetCmd(LockKey(prefix))];
    ghost var lock := [SetCmd(LockKey(prefix), LockFlag), ExpireCmd(LockKey(prefix), LockExpirySeconds)];
    var locked := IsLocked(redis, prefix, now);
    if locked {
      assert CycleCommands(s0, prefix, inventory, now, timedOut) == check;
      return Skipped;
    }
    Lock(redis, prefix, now);
    assert redis.log == log0 + (check + lock);
    if timedOut || inventory.Failure? {
      assert CycleCommands(s0, prefix, inventory, now, timedOut) == check + lock;
      return if timedOut then TimedOut else Raised(inventory.error);
    }
    var collected := Collect(inventory.value, now);
    if collected.Failure? {
      assert CycleCommands(s0, prefix, inventory, now, timedOut) == check + lock;
      return Raised(collected.error);
    }
    ghost var writes := [DelCmd(LockKey(prefix)), SetCmd(OrgsKey(prefix), OrgList(collected.value.orgs)),
                         SetCmd(AppsKey(prefix), AppList(collected.value.apps))];
    assert CycleCommands(s0, prefix, inventory, now, timedOut) == check + lock + writes;
    Unlock(redis, prefix);
    PutInRedis(redis, OrgsKey(prefix), OrgList(collected.value.orgs));
    PutInRedis(redis, AppsKey(prefix), AppList(collected.value.apps));
    assert redis.log == log0 + (check + lock + writes);
    return Published;
  }

  /** After a published cycle the lock is released and, at any later second,
      `<prefix>:orgs` holds the org records and `<prefix>:apps` the app records
      of the collection (one per org and one per app, by `CollectedShape`); no
      other key changes. */
  lemma PublishedCycle(s: Store<Document>, prefix: string, orgs: seq<CfOrg>, now: int, later: int)
    requires Cycle(s, prefix, Success(orgs), now, false).outcome.Published?
    ensures Lookup(Cycle(s, prefix, Success(orgs), now, false).store, LockKey(prefix), later) == None
    ensures Lookup(Cycle(s, prefix, Success(orgs), now, false).store, OrgsKey(prefix), later) ==
      Some(OrgList(OrgData(orgs)))
    ensures Lookup(Cycle(s, prefix, Success(orgs), now, false).store, AppsKey(prefix), later) ==
      Some(AppList(Collected(orgs, now).value.apps))
    ensures forall k :: k != LockKey(prefix) && k != OrgsKey(prefix) && k != AppsKey(prefix) ==>
      Lookup(Cycle(s, prefix, Success(orgs), now, false).store, k, later) == Lookup(s, k, later)
  {
    KeysDistinct(prefix);
    var locked := Locked(s, prefix, now);
    var unlocked := Without(locked, LockKey(prefix));
    var withOrgs := Put(unlocked, OrgsKey(prefix), OrgList(OrgData(orgs)));
    assert Cycle(s, prefix, Success(orgs), now, false).store ==
      Put(withOrgs, AppsKey(prefix), AppList(Collected(orgs, now).value.apps));
    assert Lookup(withOrgs, OrgsKey(prefix), later) == Some(OrgList(OrgData(orgs)));
  }

  /** A cycle that takes the lock but is aborted (timeout or exception) writes
      nothing: the lock stays until its 900-second expiry and every other key
      is as it was. */
  lemma AbortedCycle(s: Store<Document>, prefix: string, inventory: Result<seq<CfOrg>, string>,
                     now: int, timedOut: bool, later: int)
    requires !Live(s, LockKey(prefix), now)
    requires !Cycle(s, prefix, inventory, now, timedOut).outcome.Published?
    ensures Lookup(Cycle(s, prefix, inventory, now, timedOut).store, LockKey(prefix), later) ==
      (if later < now + LockExpirySeconds then Some(LockFlag) else None)
    ensures SameElsewhere(s, Cycle(s, prefix, inventory, now, timedOut).store, LockKey(prefix))
  {
    Lease(s, LockKey(prefix), LockFlag, LockExpirySeconds, now, later);
    assert Cycle(s, prefix, inventory, now, timedOut).store == Locked(s, prefix, now);
  }

  /** After an aborted cycle at `now`, a later cycle skips exactly when it
      starts less than 900 seconds later. The runs 5 and 10 minutes later
      skip. The run 15 minutes later proceeds only because the model reads
      the lock and sets its expiry at the same second `now`. */
  lemma NextCycleAfterAbort(s: Store<Document>, prefix: string, inventory: Result<seq<CfOrg>, string>,
                            now: int, timedOut: bool,
                            next: Result<seq<CfOrg>, string>, later: int, nextTimedOut: bool)
    requires !Live(s, LockKey(prefix), now)
    requires !Cycle(s, prefix, inventory, now, timedOut).outcome.Published?
    ensures Cycle(Cycle(s, prefix, inventory, now, timedOut).store, prefix, next, later, nextTimedOut).outcome.Skipped? <==>
      later < now + LockExpirySeconds
    ensures Cycle(Cycle(s, prefix, inventory, now, timedOut).store, prefix, next, now + IntervalSeconds, nextTimedOut).outcome.Skipped?
    ensures Cycle(Cycle(s, prefix, inventory, now, timedOut).store, prefix, next, now + 2 * IntervalSeconds, nextTimedOut).outcome.Skipped?
    ensures !Cycle(Cycle(s, prefix, inventory, now, timedOut).store, prefix, next, now + 3 * IntervalSeconds, nextTimedOut).outcome.Skipped?
  {
    var t := Cycle(s, prefix, inventory, now, timedOut).store;
    AbortedCycle(s, prefix, inventory, now, timedOut, later);
    AbortedCycle(s, prefix, inventory, now, timedOut, now + IntervalSeconds);
    AbortedCycle(s, prefix, inventory, now, timedOut, now + 2 * IntervalSeconds);
    AbortedCycle(s, prefix, inventory, now, timedOut, now + 3 * IntervalSeconds);
  }

  /** A cycle aborted by the timeout still holds the lock at the moment the
      timeout fires: the lease is not shorter than the timeout. */
  lemma LeaseOutlastsTimeout(s: Store<Document>, prefix: string, inventory: Result<seq<CfOrg>, string>, now: int, t: int)
    requires !Live(s, LockKey(prefix), now)
    requires now <= t < now + TimeoutSeconds
    ensures Lookup(Cycle(s, prefix, inventory, now, true).store, LockKey(prefix), t) == Some(LockFlag)
  {
    AbortedCycle(s, prefix, inventory, now, true, t);
  }
}
