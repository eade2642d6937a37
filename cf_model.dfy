/** The CFoundry client's objects as the worker and the schedule script see them:
    organizations, their spaces and quota, and apps. Every remote call an app
    object makes (routes, running?, stats) is given by what it returns or by the
    message of the exception it raises. Also the nested org → space → app
    traversal both scripts share, and the "map until the first exception" that
    an `each` loop with `<<` performs when the block may raise. */
module CfModel {
  import opened Wrappers

  /** 'usage' of one instance's stats; JSON numbers are read as reals. */
  datatype Usage = Usage(mem: real, disk: real, cpu: real)

  /** 'stats' of one instance: its quotas and its usage sample. */
  datatype InstanceStats = InstanceStats(mem_quota: real, disk_quota: real, usage: Usage)

  /** One value of an instance-stats document (keyed there by instance index),
      reduced to the five figures Graphite reads. The instance hash has more
      (state, uris, uptime, …), which this projection leaves out. */
  datatype InstanceData = InstanceData(stats: InstanceStats)

  /** A Ruby Hash as key/value pairs in insertion order. */
  type OrderedHash<V> = seq<(string, V)>

  /** `hash.map { |key, value| value }`: the values in key order. */
  function Values<V>(h: OrderedHash<V>): (vs: seq<V>)
    ensures |vs| == |h|
    ensures forall i :: 0 <= i < |h| ==> vs[i] == h[i].1
  {
    if h == [] then [] else [h[0].1] + Values(h[1..])
  }

  /** `org.quota_definition`; `memory_limit` is in megabytes. */
  datatype QuotaDefinition = QuotaDefinition(total_services: int, memory_limit: int)

  /** A CFoundry app object.
      routes:  `app.routes.map { |route| route.name }`
      running: `app.running?`
      stats:   `app.stats` (instance index → instance data)
      Each is either the value returned or Failure(message) for what it raised. */
  datatype CfApp = CfApp(
    guid: string,
    name: string,
    routes: Result<seq<string>, string>,
    running: Result<bool, string>,
    stats: Result<OrderedHash<InstanceData>, string>)

  datatype CfSpace = CfSpace(name: string, apps: seq<CfApp>)

  datatype CfOrg = CfOrg(name: string, quota_definition: QuotaDefinition, spaces: seq<CfSpace>)

  /** One visit of the innermost loop body: an app with its org's and space's names. */
  datatype AppContext = AppContext(orgName: string, spaceName: string, app: CfApp)

  /** `space.apps.each` inside `org.spaces.each` inside `organizations.each`:
      the visits in traversal order. */
  function AppContexts(orgs: seq<CfOrg>): seq<AppContext>
  {
    if orgs == [] then [] else SpaceContexts(orgs[0].name, orgs[0].spaces) + AppContexts(orgs[1..])
  }

  function SpaceContexts(orgName: string, spaces: seq<CfSpace>): seq<AppContext>
  {
    if spaces == [] then []
    else AppsContexts(orgName, spaces[0].name, spaces[0].apps) + SpaceContexts(orgName, spaces[1..])
  }

  function AppsContexts(orgName: string, spaceName: string, apps: seq<CfApp>): seq<AppContext>
  {
    if apps == [] then [] else [AppContext(orgName, spaceName, apps[0])] + AppsContexts(orgName, spaceName, apps[1..])
  }

  /** Number of apps over every space of every org. */
  function AppCount(orgs: seq<CfOrg>): nat
  {
    if orgs == [] then 0 else SpaceAppCount(orgs[0].spaces) + AppCount(orgs[1..])
  }

  function SpaceAppCount(spaces: seq<CfSpace>): nat
  {
    if spaces == [] then 0 else |spaces[0].apps| + SpaceAppCount(spaces[1..])
  }

  /** The traversal visits each app of a space once, in order, with the org's and space's names. */
  lemma {:induction false} AppsContextsAt(orgName: string, spaceName: string, apps: seq<CfApp>)
    ensures |AppsContexts(orgName, spaceName, apps)| == |apps|
    ensures forall k :: 0 <= k < |apps| ==>
      AppsContexts(orgName, spaceName, apps)[k] == AppContext(orgName, spaceName, apps[k])
  {
    if apps != [] {
      AppsContextsAt(orgName, spaceName, apps[1..]);
    }
  }

  lemma {:induction false} SpaceContextsLength(orgName: string, spaces: seq<CfSpace>)
    ensures |SpaceContexts(orgName, spaces)| == SpaceAppCount(spaces)
  {
    if spaces != [] {
      AppsContextsAt(orgName, spaces[0].name, spaces[0].apps);
      SpaceContextsLength(orgName, spaces[1..]);
    }
  }

  /** One visit per app of every space of every org. */
  lemma {:induction false} AppContextsLength(orgs: seq<CfOrg>)
    ensures |AppContexts(orgs)| == AppCount(orgs)
  {
    if orgs != [] {
      SpaceContextsLength(orgs[0].name, orgs[0].spaces);
      AppContextsLength(orgs[1..]);
    }
  }

  /** Traversal order: the visits of a list of orgs are those of its first part
      followed by those of the rest. */
  lemma {:induction false} AppContextsAppend(a: seq<CfOrg>, b: seq<CfOrg>)
    ensures AppContexts(a + b) == AppContexts(a) + AppContexts(b)
  {
    if a == [] {
      assert a + b == b;
    } else {
      assert (a + b)[0] == a[0];
      assert (a + b)[1..] == a[1..] + b;
      AppContextsAppend(a[1..], b);
    }
  }

  /** Prefix a successful result with `done`; a failure passes through. */
  function After<R>(done: seq<R>, rest: Result<seq<R>, string>): Result<seq<R>, string>
  {
    match rest
    case Success(rs) => Success(done + rs)
    case Failure(e) => Failure(e)
  }

  /** `xs.each { |x| out << f(x) }` where f may raise: all results in order, or the
      first exception, which ends the loop. */
  function MapUntilFailure<A, R>(xs: seq<A>, f: A -> Result<R, string>): Result<seq<R>, string>
  {
    if xs == [] then Success([])
    else if f(xs[0]).Failure? then Failure(f(xs[0]).error)
    else After([f(xs[0]).value], MapUntilFailure(xs[1..], f))
  }

  /** Success exactly when every element succeeds; then one result per element, in order. */
  lemma {:induction false} MapUntilFailureSucceeds<A, R>(xs: seq<A>, f: A -> Result<R, string>)
    ensures MapUntilFailure(xs, f).Success? <==> forall i :: 0 <= i < |xs| ==> f(xs[i]).Success?
    ensures MapUntilFailure(xs, f).Success? ==>
      |MapUntilFailure(xs, f).value| == |xs| &&
      forall i :: 0 <= i < |xs| ==> MapUntilFailure(xs, f).value[i] == f(xs[i]).value
  {
    if xs != [] {
      MapUntilFailureSucceeds(xs[1..], f);
      assert forall i :: 1 <= i < |xs| ==> xs[i] == xs[1..][i - 1];
    }
  }

  /** A failure is the exception of the first element that raises. */
  lemma {:induction false} MapUntilFailureFirstError<A, R>(xs: seq<A>, f: A -> Result<R, string>)
    ensures MapUntilFailure(xs, f).Failure? ==>
      exists i :: 0 <= i < |xs| && f(xs[i]) == Failure(MapUntilFailure(xs, f).error) &&
        forall j :: 0 <= j < i ==> f(xs[j]).Success?
  {
    if xs != [] && f(xs[0]).Success? && MapUntilFailure(xs, f).Failure? {
      MapUntilFailureFirstError(xs[1..], f);
      var i :| 0 <= i < |xs[1..]| && f(xs[1..][i]) == Failure(MapUntilFailure(xs[1..], f).error) &&
        forall j :: 0 <= j < i ==> f(xs[1..][j]).Success?;
      assert f(xs[i + 1]) == Failure(MapUntilFailure(xs, f).error);
      assert forall j :: 1 <= j < i + 1 ==> xs[j] == xs[1..][j - 1];
    }
  }

  /** Unfolding one element off the front, as a loop step does. */
  lemma MapUntilFailureCons<A, R>(x: A, rest: seq<A>, f: A -> Result<R, string>)
    ensures f(x).Failure? ==> MapUntilFailure([x] + rest, f) == Failure(f(x).error)
    ensures f(x).Success? ==> MapUntilFailure([x] + rest, f) == After([f(x).value], MapUntilFailure(rest, f))
  {
    assert ([x] + rest)[0] == x;
    assert ([x] + rest)[1..] == rest;
  }

  lemma AfterAssoc<R>(a: seq<R>, b: seq<R>, rest: Result<seq<R>, string>)
    ensures After(a, After(b, rest)) == After(a + b, rest)
  {
    if rest.Success? {
      assert a + (b + rest.value) == (a + b) + rest.value;
    }
  }

  /** The first exception in `a + b` is the first in `a`, or else the first
      in `b`; without one, the results of `a` followed by those of `b`. */
  lemma {:induction false} MapUntilFailureAppend<A, R>(a: seq<A>, b: seq<A>, f: A -> Result<R, string>)
    ensures MapUntilFailure(a + b, f) ==
      if MapUntilFailure(a, f).Failure? then MapUntilFailure(a, f)
      else After(MapUntilFailure(a, f).value, MapUntilFailure(b, f))
  {
    if a == [] {
      assert a + b == b;
      if MapUntilFailure(b, f).Success? {
        assert [] + MapUntilFailure(b, f).value == MapUntilFailure(b, f).value;
      }
    } else {
      assert (a + b)[0] == a[0];
      assert (a + b)[1..] == a[1..] + b;
      MapUntilFailureAppend(a[1..], b, f);
      if f(a[0]).Success? && MapUntilFailure(a[1..], f).Success? {
        AfterAssoc([f(a[0]).value], MapUntilFailure(a[1..], f).value, MapUntilFailure(b, f));
      }
    }
  }

  // The nested `each` loops, one method per level. Each loop keeps the
  // invariant that the result of its whole traversal (`goal`) is what has been
  // appended so far (`acc`) followed by the map over what is left to visit.

  /** Visiting app `k`: its exception, if it raises, is the traversal's;
      otherwise its result is appended. */
  lemma VisitApp<R>(goal: Result<seq<R>, string>, acc: seq<R>, orgName: string, spaceName: string,
                    apps: seq<CfApp>, k: nat, f: AppContext -> Result<R, string>)
    requires k < |apps|
    requires goal == After(acc, MapUntilFailure(AppsContexts(orgName, spaceName, apps[k..]), f))
    ensures f(AppContext(orgName, spaceName, apps[k])).Failure? ==>
      goal == Failure(f(AppContext(orgName, spaceName, apps[k])).error)
    ensures f(AppContext(orgName, spaceName, apps[k])).Success? ==>
      goal == After(acc + [f(AppContext(orgName, spaceName, apps[k])).value],
                    MapUntilFailure(AppsContexts(orgName, spaceName, apps[k + 1..]), f))
  {
    assert apps[k..][0] == apps[k] && apps[k..][1..] == apps[k + 1..];
    var x := AppContext(orgName, spaceName, apps[k]);
    var tail := AppsContexts(orgName, spaceName, apps[k + 1..]);
    assert AppsContexts(orgName, spaceName, apps[k..]) == [x] + tail;
    MapUntilFailureCons(x, tail, f);
    if f(x).Success? {
      AfterAssoc(acc, [f(x).value], MapUntilFailure(tail, f));
    }
  }

  /** `space.apps.each do |app| out << f(app) end`, appending to `done`. */
  method CollectApps<R>(orgName: string, spaceName: string, apps: seq<CfApp>,
                        f: AppContext -> Result<R, string>, done: seq<R>)
    returns (r: Result<seq<R>, string>)
    ensures r == After(done, MapUntilFailure(AppsContexts(orgName, spaceName, apps), f))
  {
    ghost var goal := After(done, MapUntilFailure(AppsContexts(orgName, spaceName, apps), f));
    assert apps[0..] == apps;
    var acc := done;
    var k := 0;
    while k < |apps|
      invariant 0 <= k <= |apps|
      invariant goal == After(acc, MapUntilFailure(AppsContexts(orgName, spaceName, apps[k..]), f))
    {
      var x := f(AppContext(orgName, spaceName, apps[k]));
      VisitApp(goal, acc, orgName, spaceName, apps, k, f);
      if x.Failure? {
        return Failure(x.error);
      }
      acc := acc + [x.value];
      k := k + 1;
    }
    assert apps[k..] == [];
    assert acc + [] == acc;
    r := Success(acc);
  }

  /** Visiting space `j`: the visit of its apps either raises, and that is the
      traversal's exception, or its results are followed by those of the
      remaining spaces. */
  lemma VisitSpace<R>(goal: Result<seq<R>, string>, acc: seq<R>, visited: Result<seq<R>, string>,
                      orgName: string, spaces: seq<CfSpace>, j: nat, f: AppContext -> Result<R, string>)
    requires j < |spaces|
    requires goal == After(acc, MapUntilFailure(SpaceContexts(orgName, spaces[j..]), f))
    requires visited == After(acc, MapUntilFailure(AppsContexts(orgName, spaces[j].name, spaces[j].apps), f))
    ensures visited.Failure? ==> goal == visited
    ensures visited.Success? ==> goal == After(visited.value, MapUntilFailure(SpaceContexts(orgName, spaces[j + 1..]), f))
  {
    assert spaces[j..][0] == spaces[j] && spaces[j..][1..] == spaces[j + 1..];
    var here := AppsContexts(orgName, spaces[j].name, spaces[j].apps);
    var later := SpaceContexts(orgName, spaces[j + 1..]);
    assert SpaceContexts(orgName, spaces[j..]) == here + later;
    MapUntilFailureAppend(here, later, f);
    if MapUntilFailure(here, f).Success? {
      AfterAssoc(acc, MapUntilFailure(here, f).value, MapUntilFailure(later, f));
    }
  }

  /** `org.spaces.each do |space| ... end`, appending to `done`. */
  method CollectSpaces<R>(orgName: string, spaces: seq<CfSpace>,
                          f: AppContext -> Result<R, string>, done: seq<R>)
    returns (r: Result<seq<R>, string>)
    ensures r == After(done, MapUntilFailure(SpaceContexts(orgName, spaces), f))
  {
    ghost var goal := After(done, MapUntilFailure(SpaceContexts(orgName, spaces), f));
    assert spaces[0..] == spaces;
    var acc := done;
    var j := 0;
    while j < |spaces|
      invariant 0 <= j <= |spaces|
      invariant goal == After(acc, MapUntilFailure(SpaceContexts(orgName, spaces[j..]), f))
    {
      var visited := CollectApps(orgName, spaces[j].name, spaces[j].apps, f, acc);
      VisitSpace(goal, acc, visited, orgName, spaces, j, f);
      if visited.Failure? {
        return visited;
      }
      acc := visited.value;
      j := j + 1;
    }
    assert spaces[j..] == [];
    assert acc + [] == acc;
    r := Success(acc);
  }

  /** Visiting org `i`: as for a space, one level up. */
  lemma VisitOrg<R>(goal: Result<seq<R>, string>, acc: seq<R>, visited: Result<seq<R>, string>,
                    orgs: seq<CfOrg>, i: nat, f: AppContext -> Result<R, string>)
    requires i < |orgs|
    requires goal == After(acc, MapUntilFailure(AppContexts(orgs[i..]), f))
    requires visited == After(acc, MapUntilFailure(SpaceContexts(orgs[i].name, orgs[i].spaces), f))
    ensures visited.Failure? ==> goal == visited
    ensures visited.Success? ==> goal == After(visited.value, MapUntilFailure(AppContexts(orgs[i + 1..]), f))
  {
    assert orgs[i..][0] == orgs[i] && orgs[i..][1..] == orgs[i + 1..];
    var here := SpaceContexts(orgs[i].name, orgs[i].spaces);
    var later := AppContexts(orgs[i + 1..]);
    assert AppContexts(orgs[i..]) == here + later;
    MapUntilFailureAppend(here, later, f);
    if MapUntilFailure(here, f).Success? {
      AfterAssoc(acc, MapUntilFailure(here, f).value, MapUntilFailure(later, f));
    }
  }

  /** Before the first org nothing has been appended; after the last, all is. */
  lemma TraversalBounds<R>(goal: Result<seq<R>, string>, acc: seq<R>, orgs: seq<CfOrg>, f: AppContext -> Result<R, string>)
    ensures MapUntilFailure(AppContexts(orgs), f) == After([], MapUntilFailure(AppContexts(orgs[0..]), f))
    ensures goal == After(acc, MapUntilFailure(AppContexts(orgs[|orgs|..]), f)) ==> goal == Success(acc)
  {
    assert orgs[0..] == orgs;
    var all := MapUntilFailure(AppContexts(orgs), f);
    if all.Success? {
      assert [] + all.value == all.value;
    }
    assert orgs[|orgs|..] == [];
    assert acc + [] == acc;
  }
}
