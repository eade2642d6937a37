/** script/workers_schedule.rb: the older Clockwork job, which walks
    orgs → spaces → apps and writes one list of app records under a single
    Redis key. It has no lock and no rescue: the first exception ends the job
    before anything is written.

    As in `Worker`, the inventory is an input and the clock is `now`. */
module WorkersSchedule {
  import opened Wrappers
  import opened CfModel
  import opened KeyValue

  /** The hash `format_app_data` builds; `stats` is `app.stats` itself. */
  datatype ScriptAppRecord = ScriptAppRecord(
    org: string,
    space: string,
    name: string,
    routes: seq<string>,
    data_from: int,
    running: bool,
    stats: OrderedHash<InstanceData>)

  /** The hash literal is evaluated in key order, so the first of `app.routes`,
      `app.running?` and (for a running app) `app.stats` that raises ends the
      call with its exception. */
  function FormatAppData(app: CfApp, orgName: string, spaceName: string, now: int): (r: Result<ScriptAppRecord, string>)
    ensures r.Success? <==> app.routes.Success? && app.running.Success? && (app.running.value ==> app.stats.Success?)
    ensures r.Failure? ==>
      r.error == (if app.routes.Failure? then app.routes.error
                  else if app.running.Failure? then app.running.error
                  else app.stats.error)
    ensures r.Success? ==>
      r.value.org == orgName && r.value.space == spaceName && r.value.name == app.name &&
      r.value.routes == app.routes.value && r.value.data_from == now &&
      r.value.running == app.running.value &&
      r.value.stats == (if app.running.value then app.stats.value else [])
  {
    var routes :- app.routes;
    var running :- app.running;
    var stats :- if running then app.stats else Success([]);
    Success(ScriptAppRecord(orgName, spaceName, app.name, routes, now, running, stats))
  }

  function FormatAt(now: int): AppContext -> Result<ScriptAppRecord, string>
  {
    (c: AppContext) => FormatAppData(c.app, c.orgName, c.spaceName, now)
  }

  /** `data` once the handler's nested loops have run to the end, or the first
      exception raised in them. */
  function Data(orgs: seq<CfOrg>, now: int): Result<seq<ScriptAppRecord>, string>
  {
    MapUntilFailure(AppContexts(orgs), FormatAt(now))
  }

  /** The job succeeds exactly when every app's record can be built; then it
      has one record per app of every space of every org, in traversal order,
      each naming the org, space and app it was built from. */
  lemma DataShape(orgs: seq<CfOrg>, now: int)
    ensures Data(orgs, now).Success? <==>
      forall i :: 0 <= i < |AppContexts(orgs)| ==>
        FormatAppData(AppContexts(orgs)[i].app, AppContexts(orgs)[i].orgName, AppContexts(orgs)[i].spaceName, now).Success?
    ensures Data(orgs, now).Success? ==>
      |Data(orgs, now).value| == |AppContexts(orgs)| == AppCount(orgs) &&
      forall i :: 0 <= i < |AppContexts(orgs)| ==>
        Data(orgs, now).value[i].org == AppContexts(orgs)[i].orgName &&
        Data(orgs, now).value[i].space == AppContexts(orgs)[i].spaceName &&
        Data(orgs, now).value[i].name == AppContexts(orgs)[i].app.name &&
        Data(orgs, now).value[i] ==
          FormatAppData(AppContexts(orgs)[i].app, AppContexts(orgs)[i].orgName, AppContexts(orgs)[i].spaceName, now).value
  {
    var f := FormatAt(now);
    var cs := AppContexts(orgs);
    MapUntilFailureSucceeds(cs, f);
    AppContextsLength(orgs);
    assert forall i :: 0 <= i < |cs| ==> f(cs[i]) == FormatAppData(cs[i].app, cs[i].orgName, cs[i].spaceName, now);
  }

  /** The handler's nested `each` loops, appending to `data`. */
  method CollectData(orgs: seq<CfOrg>, now: int) returns (r: Result<seq<ScriptAppRecord>, string>)
    ensures r == Data(orgs, now)
  {
    var f := FormatAt(now);
    ghost var goal := MapUntilFailure(AppContexts(orgs), f);
    var data: seq<ScriptAppRecord> := [];
    var i := 0;
    TraversalBounds(goal, data, orgs, f);
    while i < |orgs|
      invariant 0 <= i <= |orgs|
      invariant goal == After(data, MapUntilFailure(AppContexts(orgs[i..]), f))
    {
      var visited := CollectSpaces(orgs[i].name, orgs[i].spaces, f, data);
      VisitOrg(goal, data, visited, orgs, i, f);
      if visited.Failure? {
        return Failure(visited.error);
      }
      data := visited.value;
      i := i + 1;
    }
    TraversalBounds(goal, data, orgs, f);
    r := Success(data);
  }

  /** The `handler` block: list the orgs (which may raise), build `data`, and
      only then write it, once, under `redis_key`. Any exception leaves Redis
      as it was and is what the job raises. */
  method Handler(redis: Redis<seq<ScriptAppRecord>>, key: string, inventory: Result<seq<CfOrg>, string>, now: int)
    returns (raised: Option<string>)
    modifies redis
    ensures inventory.Failure? ==>
      raised == Some(inventory.error) && redis.store == old(redis.store) && redis.log == old(redis.log)
    ensures inventory.Success? && Data(inventory.value, now).Failure? ==>
      raised == Some(Data(inventory.value, now).error) && redis.store == old(redis.store) &&
      redis.log == old(redis.log)
    ensures inventory.Success? && Data(inventory.value, now).Success? ==>
      raised == None && redis.store == Put(old(redis.store), key, Data(inventory.value, now).value) &&
      redis.log == old(redis.log) + [SetCmd(key, Data(inventory.value, now).value)]
  {
    if inventory.Failure? {
      return Some(inventory.error);
    }
    var data := CollectData(inventory.value, now);
    if data.Failure? {
      return Some(data.error);
    }
    redis.Set(key, data.value);
    raised := None;
  }

  /** After a successful job the key holds exactly the traversal's records and
      no other key changed. */
  lemma HandlerWrites(s: Store<seq<ScriptAppRecord>>, key: string, orgs: seq<CfOrg>, now: int, later: int)
    requires Data(orgs, now).Success?
    ensures Lookup(Put(s, key, Data(orgs, now).value), key, later) == Some(Data(orgs, now).value)
    ensures |Lookup(Put(s, key, Data(orgs, now).value), key, later).value| == AppCount(orgs)
    ensures forall k :: k != key ==> Lookup(Put(s, key, Data(orgs, now).value), k, later) == Lookup(s, k, later)
  {
    DataShape(orgs, now);
  }
}
