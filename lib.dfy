/** lib/cf_light_api/lib.rb: the recursive paginated `cf_rest`, the helpers built on
    it (instance stats, route names), the Graphite metric export and
    `format_duration`.

    The remote API is given as `responses`: the parsed bodies the server answers,
    in the order the requests are made. A request made after the last of them
    gets no answer and raises (a transport or parse failure). */
module Lib {
  import opened Wrappers
  import opened CfModel

  /** What a call can raise. */
  datatype Error =
    | RequestFailed(path: string)   // the request for `path` got no parsable answer
    | Raised(message: string)       // a Ruby exception with this message

  /** The message Ruby gives when `[]` is sent to nil. */
  const NilIndexMessage := "undefined method `[]' for nil:NilClass"

  // ---------------------------------------------------------------- pagination

  /** A parsed body either carries a 'resources' array or is a flat document. */
  datatype Body<T> = Collection(resources: seq<T>) | Flat(document: T)

  /** One parsed response; `next_url` is nil on the last page of a chain. */
  datatype Page<T> = Page(next_url: Option<string>, body: Body<T>)

  /** What one page adds to the result, by `if response['resources']`: the
      elements of its 'resources', or else the whole document as one element. */
  function Contribution<T>(page: Page<T>): seq<T>
  {
    match page.body
    case Collection(resources) => resources
    case Flat(document) => [document]
  }

  /** The contributions of the given pages, concatenated in page order. */
  function Flatten<T>(pages: seq<Page<T>>): seq<T>
  {
    if pages == [] then [] else Contribution(pages[0]) + Flatten(pages[1..])
  }

  /** The total number of elements the pages contribute. */
  function ContributionCount<T>(pages: seq<Page<T>>): nat
  {
    if pages == [] then 0 else |Contribution(pages[0])| + ContributionCount(pages[1..])
  }

  /** The index of the first page without a `next_url`, if any. */
  function ChainEnd<T>(pages: seq<Page<T>>): (k: Option<nat>)
    ensures k.Some? ==> (k.value < |pages| && pages[k.value].next_url.None? &&
                         forall i :: 0 <= i < k.value ==> pages[i].next_url.Some?)
    ensures k.None? ==> forall i :: 0 <= i < |pages| ==> pages[i].next_url.Some?
  {
    if pages == [] then None
    else if pages[0].next_url.None? then Some(0)
    else
      var rest := ChainEnd(pages[1..]);
      if rest.None? then None else Some(rest.value + 1)
  }

  /** The paths requested along a chain of pages that all have a `next_url`:
      `path` first, then each page's `next_url` in turn. */
  function RequestLog<T>(path: string, pages: seq<Page<T>>): (log: seq<string>)
    requires forall i :: 0 <= i < |pages| ==> pages[i].next_url.Some?
    ensures |log| == |pages| + 1 && log[0] == path
    ensures forall i :: 0 <= i < |pages| ==> log[i + 1] == pages[i].next_url.value
    decreases |pages|
  {
    if pages == [] then [path] else [path] + RequestLog(pages[0].next_url.value, pages[1..])
  }

  /** Every request `cf_rest(path)` makes, in order: one per answered page, plus
      the unanswered one when the server stops first. */
  function Requests<T>(path: string, pages: seq<Page<T>>): (log: seq<string>)
    ensures |log| >= 1 && log[0] == path
  {
    if ChainEnd(pages).Some? then RequestLog(path, pages[..ChainEnd(pages).value])
    else RequestLog(path, pages)
  }

  /** What `cf_rest(path)` returns: the flattened contributions of the
      pages up to and including the first one without a `next_url`; if the server
      stops answering first, the unanswered request raises. */
  function Fetch<T>(path: string, pages: seq<Page<T>>): Result<seq<T>, Error>
  {
    if ChainEnd(pages).Some? then Success(Flatten(pages[..ChainEnd(pages).value + 1]))
    else Failure(RequestFailed(Requests(path, pages)[|pages|]))
  }

  /** `cf_rest(path)`: request a page, keep its contribution, and recurse on its
      `next_url` until a page has none. */
  method CfRest<T>(path: string, responses: seq<Page<T>>) returns (result: Result<seq<T>, Error>, requested: seq<string>)
    ensures result == Fetch(path, responses)
    ensures requested == Requests(path, responses)
    decreases |responses|
  {
    requested := [path];
    if |responses| == 0 {
      assert Requests(path, responses) == [path];
      result := Failure(RequestFailed(path));
      return;
    }
    var response := responses[0];
    var resources: seq<T> := [];
    resources := resources + Contribution(response);
    if response.next_url.Some? {
      var next := response.next_url.value;
      var more, moreRequested := CfRest(next, responses[1..]);
      requested := requested + moreRequested;
      ChainEndStep(responses);
      if more.Failure? {
        assert Requests(path, responses) == [path] + Requests(next, responses[1..]);
        result := Failure(more.error);
        return;
      }
      var k := ChainEnd(responses[1..]).value;
      assert responses[..k + 2][0] == response;
      assert responses[..k + 2][1..] == responses[1..][..k + 1];
      assert responses[..k + 1][0] == response;
      assert responses[..k + 1][1..] == responses[1..][..k];
      assert Flatten(responses[..k + 2]) == Contribution(response) + Flatten(responses[1..][..k + 1]);
      resources := resources + more.value;
      assert resources == Flatten(responses[..k + 2]);
    } else {
      assert responses[..1][0] == response && responses[..1][1..] == [];
      assert Flatten(responses[..1]) == Contribution(response) + Flatten<T>([]);
      assert responses[..0] == [];
      assert resources == Flatten(responses[..1]);
    }
    result := Success(resources);
  }

  /** With no page left to answer, the one request made raises. */
  lemma FetchEmpty<T>(path: string)
    ensures Fetch<T>(path, []) == Failure(RequestFailed(path))
    ensures Requests<T>(path, []) == [path]
  {
  }

  /** `cf_rest` unrolled once, as the source recurses: the first page's
      contribution, followed, when it has a `next_url`, by what the request for
      that URL returns; an exception from the recursive call propagates. */
  lemma FetchStep<T>(path: string, pages: seq<Page<T>>)
    requires pages != []
    ensures pages[0].next_url.None? ==>
      Fetch(path, pages) == Success(Contribution(pages[0])) && Requests(path, pages) == [path]
    ensures pages[0].next_url.Some? ==>
      Requests(path, pages) == [path] + Requests(pages[0].next_url.value, pages[1..])
    ensures pages[0].next_url.Some? && Fetch(pages[0].next_url.value, pages[1..]).Failure? ==>
      Fetch(path, pages) == Fetch(pages[0].next_url.value, pages[1..])
    ensures pages[0].next_url.Some? && Fetch(pages[0].next_url.value, pages[1..]).Success? ==>
      Fetch(path, pages) == Success(Contribution(pages[0]) + Fetch(pages[0].next_url.value, pages[1..]).value)
  {
    if pages[0].next_url.Some? {
      var next := pages[0].next_url.value;
      ChainEndStep(pages);
      if ChainEnd(pages).Some? {
        var k := ChainEnd(pages[1..]).value;
        assert pages[..k + 2][0] == pages[0];
        assert pages[..k + 2][1..] == pages[1..][..k + 1];
        assert pages[..k + 1][0] == pages[0];
        assert pages[..k + 1][1..] == pages[1..][..k];
        assert Flatten(pages[..k + 2]) == Contribution(pages[0]) + Flatten(pages[1..][..k + 1]);
      } else {
        assert Requests(path, pages) == [path] + Requests(next, pages[1..]);
      }
    } else {
      assert pages[..1][0] == pages[0] && pages[..1][1..] == [];
      assert Flatten(pages[..1]) == Contribution(pages[0]) + Flatten<T>([]);
      assert Contribution(pages[0]) + [] == Contribution(pages[0]);
      assert ChainEnd(pages) == Some(0);
      assert pages[..0] == [];
    }
  }

  /** How the chain end of a page list relates to that of its tail. */
  lemma ChainEndStep<T>(pages: seq<Page<T>>)
    requires pages != [] && pages[0].next_url.Some?
    ensures ChainEnd(pages).None? <==> ChainEnd(pages[1..]).None?
    ensures ChainEnd(pages).Some? ==> ChainEnd(pages).value == ChainEnd(pages[1..]).value + 1
  {
  }

  /** Concatenation in page order: the pages of a longer list contribute in turn. */
  lemma {:induction false} FlattenAppend<T>(a: seq<Page<T>>, b: seq<Page<T>>)
    ensures Flatten(a + b) == Flatten(a) + Flatten(b)
  {
    if a == [] {
      assert a + b == b;
    } else {
      assert (a + b)[0] == a[0];
      assert (a + b)[1..] == a[1..] + b;
      FlattenAppend(a[1..], b);
    }
  }

  /** The flattened result has one element per contributed element. */
  lemma {:induction false} FlattenLength<T>(pages: seq<Page<T>>)
    ensures |Flatten(pages)| == ContributionCount(pages)
  {
    if pages != [] {
      FlattenLength(pages[1..]);
    }
  }

  /** A flat document comes back as a one-element result; a collection page comes
      back as its resources. */
  lemma SinglePage<T>(path: string, document: T, resources: seq<T>)
    ensures Fetch(path, [Page(None, Flat(document))]) == Success([document])
    ensures Fetch(path, [Page(None, Collection(resources))]) == Success(resources)
    ensures Requests(path, [Page(None, Flat(document))]) == [path]
  {
    var flat := [Page(None, Flat(document))];
    var collection := [Page(None, Collection(resources))];
    assert flat[..1] == flat && flat[1..] == [] && flat[..0] == [];
    assert collection[..1] == collection && collection[1..] == [];
    assert Flatten(flat) == [document] + Flatten<T>([]);
    assert Flatten(flat[..1]) == [document];
    assert Flatten(collection) == resources + Flatten<T>([]);
    assert Flatten(collection[..1]) == resources;
  }

  /** One request per page answered, and the walk stops at the first page without
      a `next_url`: whatever the server would answer afterwards is never requested
      and changes nothing. */
  lemma {:induction false} StopsAtFirstNil<T>(path: string, pages: seq<Page<T>>, later: seq<Page<T>>)
    requires ChainEnd(pages).Some?
    ensures |Requests(path, pages)| == ChainEnd(pages).value + 1
    ensures Fetch(path, pages + later) == Fetch(path, pages)
    ensures Requests(path, pages + later) == Requests(path, pages)
    ensures Fetch(path, pages).Success? &&
      |Fetch(path, pages).value| == ContributionCount(pages[..ChainEnd(pages).value + 1])
  {
    var k := ChainEnd(pages).value;
    ChainEndPrefix(pages, later);
    assert (pages + later)[..k + 1] == pages[..k + 1];
    assert (pages + later)[..k] == pages[..k];
    FlattenLength(pages[..k + 1]);
  }

  /** The chain end found in a list is the chain end of any extension of it. */
  lemma {:induction false} ChainEndPrefix<T>(pages: seq<Page<T>>, later: seq<Page<T>>)
    requires ChainEnd(pages).Some?
    ensures ChainEnd(pages + later) == ChainEnd(pages)
  {
    assert (pages + later)[0] == pages[0];
    if pages[0].next_url.Some? {
      assert (pages + later)[1..] == pages[1..] + later;
      ChainEndPrefix(pages[1..], later);
    }
  }

  // ------------------------------------------------------ instance statistics

  /** The app document as the API returns it: `app['metadata']['guid']` and
      `app['entity']['routes_url']`. */
  datatype AppDocument = AppDocument(guid: string, routes_url: string)

  /** The parsed stats document: an 'error_code' if the API reports one, and the
      instance index → instance data pairs in document order. */
  datatype StatsDocument = StatsDocument(error_code: Option<string>, instances: OrderedHash<InstanceData>)

  function StatsPath(app: AppDocument): string
  {
    "/v2/apps/" + app.guid + "/stats"
  }

  function StatsErrorMessage(code: string): string
  {
    "Unable to retrieve app instance stats: '" + code + "'"
  }

  /** `formatted_instance_stats_for_app` after the request: the first element
      of what `cf_rest` returned, rejected if it carries an 'error_code',
      otherwise its values in key order. */
  function InstanceValues(documents: seq<StatsDocument>): (r: Result<seq<InstanceData>, Error>)
    ensures documents == [] ==> r == Failure(Raised(NilIndexMessage))
    ensures documents != [] && documents[0].error_code.Some? ==>
      r == Failure(Raised(StatsErrorMessage(documents[0].error_code.value)))
    ensures documents != [] && documents[0].error_code.None? ==>
      r.Success? && |r.value| == |documents[0].instances| &&
      forall i :: 0 <= i < |r.value| ==> r.value[i] == documents[0].instances[i].1
  {
    if documents == [] then Failure(Raised(NilIndexMessage))
    else if documents[0].error_code.Some? then Failure(Raised(StatsErrorMessage(documents[0].error_code.value)))
    else Success(Values(documents[0].instances))
  }

  /** `formatted_instance_stats_for_app`: one request chain for the app's stats. */
  method FormattedInstanceStatsForApp(app: AppDocument, responses: seq<Page<StatsDocument>>)
    returns (r: Result<seq<InstanceData>, Error>, requested: seq<string>)
    ensures requested == Requests(StatsPath(app), responses)
    ensures Fetch(StatsPath(app), responses).Failure? ==> r == Failure(Fetch(StatsPath(app), responses).error)
    ensures Fetch(StatsPath(app), responses).Success? ==> r == InstanceValues(Fetch(StatsPath(app), responses).value)
  {
    var instances;
    instances, requested := CfRest(StatsPath(app), responses);
    if instances.Failure? {
      r := Failure(instances.error);
    } else {
      r := InstanceValues(instances.value);
    }
  }

  /** A stats document whose key order is kept: successful extraction hands back
      every instance in that order, and never when an 'error_code' is present. */
  lemma StatsOfOneDocument(path: string, doc: StatsDocument)
    ensures Fetch(path, [Page(None, Flat(doc))]) == Success([doc])
    ensures InstanceValues([doc]).Success? <==> doc.error_code.None?
    ensures doc.error_code.None? ==> InstanceValues([doc]).value == Values(doc.instances)
  {
    SinglePage(path, doc, []);
  }

  // -------------------------------------------------------------------- routes

  /** A route document: `route['entity']` 'host', 'path' (nil renders as "") and
      'domain_guid'. */
  datatype RouteDocument = RouteDocument(host: string, path: Option<string>, domain_guid: string)

  /** A domain document: `domain['metadata']['guid']` and `domain['entity']['name']`. */
  datatype DomainDocument = DomainDocument(guid: string, name: string)

  /** `@domains.find { ... }`: the index of the first domain with this guid. */
  function FindDomain(domains: seq<DomainDocument>, guid: string): (i: Option<nat>)
    ensures i.Some? ==> (i.value < |domains| && domains[i.value].guid == guid &&
                         forall j :: 0 <= j < i.value ==> domains[j].guid != guid)
    ensures i.None? ==> forall j :: 0 <= j < |domains| ==> domains[j].guid != guid
  {
    if domains == [] then None
    else if domains[0].guid == guid then Some(0)
    else
      var rest := FindDomain(domains[1..], guid);
      if rest.None? then None else Some(rest.value + 1)
  }

  /** String interpolation of a possibly nil value. */
  function Interpolated(s: Option<string>): string
  {
    if s.Some? then s.value else ""
  }

  /** `"#{host}.#{domain}#{path}"`. */
  function RouteName(route: RouteDocument, domainName: string): string
  {
    route.host + "." + domainName + Interpolated(route.path)
  }

  /** Whether every route's domain guid is among the domains. */
  predicate DomainsResolve(routes: seq<RouteDocument>, domains: seq<DomainDocument>)
  {
    forall i :: 0 <= i < |routes| ==> FindDomain(domains, routes[i].domain_guid).Some?
  }

  /** `routes.collect` in `format_routes_for_app`: one name per route, in route
      order, each against the first domain with the route's guid; a route with
      no such domain raises. */
  function RouteNames(routes: seq<RouteDocument>, domains: seq<DomainDocument>): (r: Result<seq<string>, Error>)
    ensures r.Success? <==> DomainsResolve(routes, domains)
    ensures r.Failure? ==> r.error == Raised(NilIndexMessage)
    ensures r.Success? ==> (|r.value| == |routes| &&
      forall i :: 0 <= i < |routes| ==>
        r.value[i] == RouteName(routes[i], domains[FindDomain(domains, routes[i].domain_guid).value].name))
  {
    if routes == [] then Success([])
    else
      var found := FindDomain(domains, routes[0].domain_guid);
      if found.None? then Failure(Raised(NilIndexMessage))
      else
        var rest := RouteNames(routes[1..], domains);
        assert forall i :: 1 <= i < |routes| ==> routes[i] == routes[1..][i - 1];
        if rest.Failure? then rest
        else Success([RouteName(routes[0], domains[found.value].name)] + rest.value)
  }

  /** `format_routes_for_app`: fetch the app's routes, then name each. */
  method FormatRoutesForApp(app: AppDocument, responses: seq<Page<RouteDocument>>, domains: seq<DomainDocument>)
    returns (r: Result<seq<string>, Error>, requested: seq<string>)
    ensures requested == Requests(app.routes_url, responses)
    ensures Fetch(app.routes_url, responses).Failure? ==> r == Failure(Fetch(app.routes_url, responses).error)
    ensures Fetch(app.routes_url, responses).Success? ==> r == RouteNames(Fetch(app.routes_url, responses).value, domains)
  {
    var routes;
    routes, requested := CfRest(app.routes_url, responses);
    if routes.Failure? {
      r := Failure(routes.error);
    } else {
      r := RouteNames(routes.value, domains);
    }
  }

  // ------------------------------------------------------------------ graphite

  /** The Graphite client: every metric sent, in order. Delivery is not modelled. */
  class Graphite {
    var sent: seq<(string, real)>

    constructor ()
      ensures sent == []
    {
      sent := [];
    }

    /** `@graphite.metrics key => value`. */
    method Metrics(key: string, value: real)
      modifies this
      ensures sent == old(sent) + [(key, value)]
    {
      sent := sent + [(key, value)];
    }
  }

  /** A Ruby String object, which `gsub!` changes in place for every holder. */
  class MutableString {
    var value: string

    constructor (s: string)
      ensures value == s
    {
      value := s;
    }
  }

  /** `gsub(".", "_")`. */
  function Underscored(s: string): (r: string)
    ensures |r| == |s|
    ensures forall i :: 0 <= i < |s| ==> r[i] == (if s[i] == '.' then '_' else s[i])
  {
    if s == [] then [] else [if s[0] == '.' then '_' else s[0]] + Underscored(s[1..])
  }

  /** After the replacement no dot is left, and replacing again changes nothing. */
  lemma UnderscoredHasNoDots(s: string)
    ensures forall i :: 0 <= i < |Underscored(s)| ==> Underscored(s)[i] != '.'
    ensures Underscored(Underscored(s)) == Underscored(s)
  {
  }

  const QuotaKeys: seq<string> := ["mem_quota", "disk_quota"]
  const UsageKeys: seq<string> := ["mem", "disk", "cpu"]

  /** `instance_data['stats'][key]` for a quota key. */
  function QuotaFigure(stats: InstanceStats, key: string): real
    requires key in QuotaKeys
  {
    if key == "mem_quota" then stats.mem_quota else stats.disk_quota
  }

  /** `instance_data['stats']['usage'][key]` for a usage key. */
  function UsageFigure(usage: Usage, key: string): real
    requires key in UsageKeys
  {
    if key == "mem" then usage.mem else if key == "disk" then usage.disk else usage.cpu
  }

  /** `"cf_apps.#{org}.#{space}.#{app_name}.#{index}"`. */
  function BaseKey(org: string, space: string, appName: string, index: nat): string
  {
    "cf_apps." + org + "." + space + "." + appName + "." + Digits(index)
  }

  /** The five metrics of one instance, quotas first, then usage. */
  function InstanceMetrics(base: string, data: InstanceData): seq<(string, real)>
  {
    seq(5, j requires 0 <= j < 5 => (base + "." + MetricNames[j], MetricFigure(data, j)))
  }

  /** The metrics of instances 0 .. |stats|-1, in index order. */
  function UsageMetrics(org: string, space: string, appName: string, stats: seq<InstanceData>): seq<(string, real)>
  {
    if stats == [] then []
    else
      var last := |stats| - 1;
      UsageMetrics(org, space, appName, stats[..last]) + InstanceMetrics(BaseKey(org, space, appName, last), stats[last])
  }

  /** The metric names in emission order, and the figure each reads. */
  const MetricNames: seq<string> := QuotaKeys + UsageKeys

  function MetricFigure(data: InstanceData, j: nat): real
    requires j < 5
  {
    if j < 2 then QuotaFigure(data.stats, QuotaKeys[j]) else UsageFigure(data.stats.usage, UsageKeys[j - 2])
  }

  /** Exactly five metrics per instance: metric j of instance i sits at 5*i + j,
      keyed `cf_apps.<org>.<space>.<app>.<i>.<name>`. */
  lemma {:induction false} UsageMetricsAt(org: string, space: string, appName: string, stats: seq<InstanceData>)
    ensures |UsageMetrics(org, space, appName, stats)| == 5 * |stats|
    ensures forall i, j :: 0 <= i < |stats| && 0 <= j < 5 ==>
      UsageMetrics(org, space, appName, stats)[5 * i + j] ==
        (BaseKey(org, space, appName, i) + "." + MetricNames[j], MetricFigure(stats[i], j))
  {
    if stats != [] {
      var n := |stats| - 1;
      var prefix := stats[..n];
      UsageMetricsAt(org, space, appName, prefix);
      var all := UsageMetrics(org, space, appName, stats);
      forall i, j | 0 <= i < |stats| && 0 <= j < 5
        ensures all[5 * i + j] == (BaseKey(org, space, appName, i) + "." + MetricNames[j], MetricFigure(stats[i], j))
      {
        if i < n {
          assert 5 * i + j < 5 * n;
          assert stats[i] == prefix[i];
        } else {
          assert 5 * i + j == 5 * n + j;
        }
      }
    }
  }

  /** The body of the `each_with_index` block for one instance: the two quota
      metrics, then the three usage metrics, under `base`. */
  method SendInstanceMetrics(graphite: Graphite, base: string, instanceData: InstanceData)
    modifies graphite
    ensures graphite.sent == old(graphite.sent) + InstanceMetrics(base, instanceData)
  {
    ghost var metrics := InstanceMetrics(base, instanceData);
    for j := 0 to |QuotaKeys|
      invariant graphite.sent == old(graphite.sent) + metrics[..j]
    {
      graphite.Metrics(base + "." + QuotaKeys[j], QuotaFigure(instanceData.stats, QuotaKeys[j]));
      assert metrics[..j + 1] == metrics[..j] + [metrics[j]];
    }
    for j := 0 to |UsageKeys|
      invariant graphite.sent == old(graphite.sent) + metrics[..2 + j]
    {
      graphite.Metrics(base + "." + UsageKeys[j], UsageFigure(instanceData.stats.usage, UsageKeys[j]));
      assert metrics[..2 + j + 1] == metrics[..2 + j] + [metrics[2 + j]];
    }
    assert metrics[..5] == metrics;
  }

  /** `send_instance_usage_data_to_graphite`: replace every '.' of the caller's
      app name in place, then send five metrics per instance in index order. */
  method SendInstanceUsageDataToGraphite(graphite: Graphite, instanceStats: seq<InstanceData>,
                                         org: string, space: string, appName: MutableString)
    modifies graphite, appName
    ensures appName.value == Underscored(old(appName.value))
    ensures graphite.sent == old(graphite.sent) + UsageMetrics(org, space, appName.value, instanceStats)
  {
    appName.value := Underscored(appName.value);
    var index := 0;
    while index < |instanceStats|
      invariant 0 <= index <= |instanceStats|
      invariant appName.value == Underscored(old(appName.value))
      invariant graphite.sent == old(graphite.sent) + UsageMetrics(org, space, appName.value, instanceStats[..index])
    {
      var base := BaseKey(org, space, appName.value, index);
      SendInstanceMetrics(graphite, base, instanceStats[index]);
      assert instanceStats[..index + 1][..index] == instanceStats[..index];
      index := index + 1;
    }
    assert instanceStats[..index] == instanceStats;
  }

  // ------------------------------------------------------------------ numbers

  predicate IsDigit(c: char)
  {
    '0' <= c <= '9'
  }

  predicate AllDigits(s: string)
  {
    forall i :: 0 <= i < |s| ==> IsDigit(s[i])
  }

  function DigitChar(d: nat): (c: char)
    requires d < 10
    ensures IsDigit(c)
  {
    ('0' as int + d) as char
  }

  function DigitValue(c: char): (d: nat)
    requires IsDigit(c)
    ensures d < 10
  {
    c as int - '0' as int
  }

  /** `Integer#to_s` for a non-negative integer. */
  function Digits(n: nat): (s: string)
    ensures |s| >= 1 && AllDigits(s)
  {
    if n < 10 then [DigitChar(n)] else Digits(n / 10) + [DigitChar(n % 10)]
  }

  /** Reading a string of decimal digits back as a number. */
  function DecimalValue(s: string): nat
    requires AllDigits(s)
  {
    if s == [] then 0 else DecimalValue(s[..|s| - 1]) * 10 + DigitValue(s[|s| - 1])
  }

  /** The decimal rendering reads back as the number it renders. */
  lemma {:induction false} DigitsRoundTrip(n: nat)
    ensures DecimalValue(Digits(n)) == n
  {
    if n >= 10 {
      DigitsRoundTrip(n / 10);
      var s := Digits(n);
      assert s[..|s| - 1] == Digits(n / 10);
    }
  }

  /** `format("%02d", n)`: at least two characters, zero-padded; a negative number
      is its sign and digits. */
  function Pad2(n: int): string
  {
    if n < 0 then "-" + Digits(-n)
    else if n < 10 then "0" + Digits(n)
    else Digits(n)
  }

  /** A non-negative field renders as at least two digits that read back as it,
      and as exactly two when it is below 100. */
  lemma Pad2RoundTrip(n: nat)
    ensures |Pad2(n)| >= 2 && AllDigits(Pad2(n))
    ensures DecimalValue(Pad2(n)) == n
    ensures n < 100 ==> |Pad2(n)| == 2
  {
    if n < 10 {
      var c := DigitChar(n);
      assert Pad2(n) == ['0', c];
      assert ['0', c][..1] == ['0'] && ['0'][..0] == [];
      assert DecimalValue(['0']) == 0;
    } else {
      DigitsRoundTrip(n);
      if n < 100 {
        assert Digits(n) == Digits(n / 10) + [DigitChar(n % 10)];
      }
    }
  }

  // ----------------------------------------------------------------- duration

  /** Ruby's Integer `/` and `%` floor; with the positive divisors used here they
      agree with Dafny's. */
  function Seconds(elapsed: int): int { elapsed % 60 }
  function Minutes(elapsed: int): int { (elapsed / 60) % 60 }
  function Hours(elapsed: int): int { elapsed / (60 * 60) }

  /** `format_duration`. */
  function FormatDuration(elapsed: int): string
  {
    Pad2(Hours(elapsed)) + (" hrs, " + Pad2(Minutes(elapsed)) + " mins, " + Pad2(Seconds(elapsed)) + " secs")
  }

  /** The three fields recompose the elapsed time; minutes and seconds lie in
      0..59, and hours are non-negative for a non-negative input. */
  lemma DurationFields(elapsed: int)
    ensures Hours(elapsed) * 3600 + Minutes(elapsed) * 60 + Seconds(elapsed) == elapsed
    ensures 0 <= Seconds(elapsed) < 60 && 0 <= Minutes(elapsed) < 60
    ensures elapsed >= 0 ==> Hours(elapsed) >= 0
  {
    var q := elapsed / 60;
    var h := q / 60;
    var m := q % 60;
    var s := elapsed % 60;
    assert elapsed == 60 * q + s;
    assert q == 60 * h + m;
    assert elapsed == 3600 * h + (60 * m + s);
    assert 0 <= 60 * m + s < 3600;
  }

  /** Reads the fixed-width part of a rendered duration, " hrs, MM mins, SS secs",
      back as its minutes and seconds. */
  function ParseFields(tail: string): Option<(int, int)>
  {
    if |tail| == 22 && tail[..6] == " hrs, " && tail[8..15] == " mins, " && tail[17..] == " secs" &&
       AllDigits(tail[6..8]) && AllDigits(tail[15..17])
    then Some((DecimalValue(tail[6..8]), DecimalValue(tail[15..17])))
    else None
  }

  /** Reads a rendered duration back: the hours before the fixed-width part, then
      the minutes and seconds within it. */
  function ParseDuration(s: string): Option<int>
  {
    if |s| < 22 then None else ParseSplit(s[..|s| - 22], s[|s| - 22..])
  }

  function ParseSplit(hours: string, tail: string): Option<int>
  {
    if !AllDigits(hours) then None
    else
      var fields := ParseFields(tail);
      if fields.None? then None
      else Some(DecimalValue(hours) * 3600 + fields.value.0 * 60 + fields.value.1)
  }

  lemma SplitAt<T>(a: seq<T>, b: seq<T>)
    ensures (a + b)[..|a|] == a && (a + b)[|a|..] == b
  {
  }

  /** Two-digit minutes and seconds are found between the separators. */
  lemma FieldsLayout(tail: string, m: string, sec: string)
    requires AllDigits(m) && AllDigits(sec) && |m| == 2 && |sec| == 2
    requires tail == " hrs, " + m + " mins, " + sec + " secs"
    ensures ParseFields(tail) == Some((DecimalValue(m), DecimalValue(sec)))
  {
    assert tail[..6] == " hrs, ";
    assert tail[6..8] == m;
    assert tail[8..15] == " mins, ";
    assert tail[15..17] == sec;
    assert tail[17..] == " secs";
  }

  /** The hours are everything before the fixed-width part. */
  lemma ParseLayout(h: string, tail: string)
    requires |tail| == 22
    ensures ParseDuration(h + tail) == ParseSplit(h, tail)
  {
    SplitAt(h, tail);
  }

  /** "HH hrs, MM mins, SS secs" with each field padded to two digits: for a
      non-negative input the rendering reads back as the elapsed time. */
  lemma FormatDurationRoundTrip(elapsed: nat)
    ensures ParseDuration(FormatDuration(elapsed)) == Some(elapsed)
  {
    DurationFields(elapsed);
    Pad2RoundTrip(Hours(elapsed));
    Pad2RoundTrip(Minutes(elapsed));
    Pad2RoundTrip(Seconds(elapsed));
    var h, m, sec := Pad2(Hours(elapsed)), Pad2(Minutes(elapsed)), Pad2(Seconds(elapsed));
    var tail := " hrs, " + m + " mins, " + sec + " secs";
    assert FormatDuration(elapsed) == h + tail;
    ParseLayout(h, tail);
    FieldsLayout(tail, m, sec);
  }
}
