/** lib/cf_light_api/client/cf_client.rb: `CfClient#orgs`, which enumerates the
    organizations page by page with a loop, over the shapes of
    lib/cf_light_api/model/orgs.rb and org.rb.

    As in `Lib`, the server is given as the parsed pages it answers, in request
    order; a request made after the last of them raises. */
module CfClient {
  import opened Wrappers
  import Lib

  /** `OrgEntity`: the `name` attribute. */
  datatype OrgEntity = OrgEntity(name: string)

  /** `Org`: the `entity` attribute (the document's 'metadata' is not kept). */
  datatype Org = Org(entity: OrgEntity)

  /** `Orgs`: one page of the organization list. A body without 'resources'
      gives the empty list. */
  datatype OrgsPage = OrgsPage(
    total_results: Option<int>,
    total_pages: Option<int>,
    prev_url: Option<string>,
    next_url: Option<string>,
    resources: seq<Org>)

  const OrganizationsPath: string := "/v2/organizations"

  /** The index of the first page whose `next_url` is nil, if any: the loop's
      own end test. It duplicates `Lib.ChainEnd` on purpose, so that this
      module's loop is specified on its own `OrgsPage` shape; `SameEnd` shows
      the two agree on the same pages. */
  function LastPage(pages: seq<OrgsPage>): (k: Option<nat>)
    ensures k.Some? ==> (k.value < |pages| && pages[k.value].next_url.None? &&
                         forall i :: 0 <= i < k.value ==> pages[i].next_url.Some?)
    ensures k.None? ==> forall i :: 0 <= i < |pages| ==> pages[i].next_url.Some?
  {
    if pages == [] then None
    else if pages[0].next_url.None? then Some(0)
    else
      var rest := LastPage(pages[1..]);
      if rest.None? then None else Some(rest.value + 1)
  }

  /** The resources of the first `m` pages, page after page. */
  function Taken(pages: seq<OrgsPage>, m: nat): seq<Org>
    requires m <= |pages|
  {
    if m == 0 then [] else Taken(pages, m - 1) + pages[m - 1].resources
  }

  /** The paths requested to fetch the first `m + 1` pages: GET
      /v2/organizations, then the `next_url` of each of the first `m` pages. */
  function Requested(pages: seq<OrgsPage>, m: nat): (r: seq<string>)
    requires m <= |pages| && forall i :: 0 <= i < m ==> pages[i].next_url.Some?
    ensures |r| == m + 1 && r[0] == OrganizationsPath
    ensures forall i :: 1 <= i <= m ==> r[i] == pages[i - 1].next_url.value
  {
    if m == 0 then [OrganizationsPath] else Requested(pages, m - 1) + [pages[m - 1].next_url.value]
  }

  /** What enumerating `orgs` to the end does with the server's pages: the
      organizations yielded, the paths requested, and what it raised. */
  datatype Enumeration = Enumeration(yielded: seq<Org>, requested: seq<string>, raised: Option<Lib.Error>)

  /** Every page is requested, its resources yielded, and its `next_url`
      followed, up to the first page whose `next_url` is nil, which ends the
      enumeration; when the server stops answering before such a page, the
      request after the last page raises. */
  function Enumerated(pages: seq<OrgsPage>): Enumeration
  {
    match LastPage(pages)
    case Some(k) => Enumeration(Taken(pages, k + 1), Requested(pages, k), None)
    case None =>
      Enumeration(Taken(pages, |pages|), Requested(pages, |pages|),
                  Some(Lib.RequestFailed(Requested(pages, |pages|)[|pages|])))
  }

  /** The private `cf_rest`: the enumerator's `while true` loop. */
  method CfRest(responses: seq<OrgsPage>) returns (yielded: seq<Org>, requested: seq<string>, raised: Option<Lib.Error>)
    ensures Enumeration(yielded, requested, raised) == Enumerated(responses)
  {
    yielded := [];
    requested := [OrganizationsPath];
    if |responses| == 0 {
      raised := Some(Lib.RequestFailed(OrganizationsPath));
      return;
    }
    var data := responses[0];
    var n := 1;
    while true
      invariant 1 <= n <= |responses|
      invariant data == responses[n - 1]
      invariant forall i :: 0 <= i < n - 1 ==> responses[i].next_url.Some?
      invariant yielded == Taken(responses, n - 1)
      invariant requested == Requested(responses, n - 1)
      decreases |responses| - n
    {
      var j := 0;
      while j < |data.resources|
        invariant 0 <= j <= |data.resources|
        invariant yielded == Taken(responses, n - 1) + data.resources[..j]
      {
        yielded := yielded + [data.resources[j]];
        j := j + 1;
        assert data.resources[..j] == data.resources[..j - 1] + [data.resources[j - 1]];
      }
      assert data.resources[..j] == data.resources;
      if data.next_url.None? {
        assert LastPage(responses) == Some(n - 1);
        break;
      }
      requested := requested + [data.next_url.value];
      if n == |responses| {
        assert LastPage(responses).None?;
        raised := Some(Lib.RequestFailed(data.next_url.value));
        return;
      }
      data := responses[n];
      n := n + 1;
    }
    raised := None;
  }

  /** `CfClient#orgs`. */
  method Orgs(responses: seq<OrgsPage>) returns (yielded: seq<Org>, requested: seq<string>, raised: Option<Lib.Error>)
    ensures Enumeration(yielded, requested, raised) == Enumerated(responses)
  {
    yielded, requested, raised := CfRest(responses);
  }

  // ------------------------------------------------- properties of the enumeration

  lemma {:induction false} LastPageExtended(pages: seq<OrgsPage>, later: seq<OrgsPage>)
    requires LastPage(pages).Some?
    ensures LastPage(pages + later) == LastPage(pages)
  {
    assert (pages + later)[0] == pages[0];
    if pages[0].next_url.Some? {
      assert (pages + later)[1..] == pages[1..] + later;
      LastPageExtended(pages[1..], later);
    }
  }

  lemma {:induction false} TakenExtended(pages: seq<OrgsPage>, later: seq<OrgsPage>, m: nat)
    requires m <= |pages|
    ensures Taken(pages + later, m) == Taken(pages, m)
  {
    if m > 0 {
      TakenExtended(pages, later, m - 1);
      assert (pages + later)[m - 1] == pages[m - 1];
    }
  }

  /** The enumeration ends with the first page whose `next_url` is nil: it makes
      one request per page up to that one, and whatever the server would answer
      afterwards is never requested and changes nothing. */
  lemma StopsAfterNilPage(pages: seq<OrgsPage>, later: seq<OrgsPage>)
    requires LastPage(pages).Some?
    ensures |Enumerated(pages).requested| == LastPage(pages).value + 1
    ensures Enumerated(pages + later) == Enumerated(pages)
  {
    var k := LastPage(pages).value;
    LastPageExtended(pages, later);
    TakenExtended(pages, later, k + 1);
    SameRequests(pages + later, pages, k);
  }

  /** The requests depend only on the pages' `next_url`s. */
  lemma {:induction false} SameRequests(a: seq<OrgsPage>, b: seq<OrgsPage>, m: nat)
    requires m <= |a| && m <= |b|
    requires forall i :: 0 <= i < m ==> a[i].next_url.Some? && a[i].next_url == b[i].next_url
    ensures Requested(a, m) == Requested(b, m)
  {
    if m > 0 {
      SameRequests(a, b, m - 1);
    }
  }

  /** A page whose resources are empty still has its `next_url` followed: the
      enumeration makes the same requests and ends the same way whatever one
      page's resources. */
  lemma EmptyPageIsFollowed(pages: seq<OrgsPage>, i: nat)
    requires i < |pages|
    ensures LastPage(pages[i := pages[i].(resources := [])]) == LastPage(pages)
    ensures Enumerated(pages[i := pages[i].(resources := [])]).requested == Enumerated(pages).requested
    ensures Enumerated(pages[i := pages[i].(resources := [])]).raised == Enumerated(pages).raised
  {
    var emptied := pages[i := pages[i].(resources := [])];
    SameEndWithoutResources(pages, i);
    var m := if LastPage(pages).Some? then LastPage(pages).value else |pages|;
    SameRequests(emptied, pages, m);
  }

  lemma {:induction false} SameEndWithoutResources(pages: seq<OrgsPage>, i: nat)
    requires i < |pages|
    ensures LastPage(pages[i := pages[i].(resources := [])]) == LastPage(pages)
  {
    var emptied := pages[i := pages[i].(resources := [])];
    if i > 0 {
      assert emptied[1..] == pages[1..][i - 1 := pages[1..][i - 1].(resources := [])];
      SameEndWithoutResources(pages[1..], i - 1);
    } else {
      assert emptied[1..] == pages[1..];
    }
  }

  // ----------------------------------------- agreement with the recursive cf_rest

  /** An `Orgs` page as `Lib.CfRest` sees it: it carries 'resources'. */
  function AsPage(page: OrgsPage): Lib.Page<Org>
  {
    Lib.Page(page.next_url, Lib.Collection(page.resources))
  }

  function AsPages(pages: seq<OrgsPage>): (r: seq<Lib.Page<Org>>)
    ensures |r| == |pages|
    ensures forall i :: 0 <= i < |pages| ==> r[i] == AsPage(pages[i])
  {
    if pages == [] then [] else [AsPage(pages[0])] + AsPages(pages[1..])
  }

  /** The resources of the first `m` pages are what `cf_rest` concatenates
      from them. */
  lemma {:induction false} TakenIsFlatten(pages: seq<OrgsPage>, m: nat)
    requires m <= |pages|
    ensures Taken(pages, m) == Lib.Flatten(AsPages(pages)[..m])
  {
    if m > 0 {
      TakenIsFlatten(pages, m - 1);
      var ps := AsPages(pages);
      assert ps[..m] == ps[..m - 1] + [ps[m - 1]];
      Lib.FlattenAppend(ps[..m - 1], [ps[m - 1]]);
      assert Lib.Flatten([ps[m - 1]]) == pages[m - 1].resources + Lib.Flatten<Org>([]);
    }
  }

  /** On pages that carry 'resources', enumerating `orgs` and the recursive
      `cf_rest("/v2/organizations")` stop at the same page, request the same
      paths, and deliver the same organizations in the same order; both raise
      on the same unanswered request. */
  lemma OrgsAgreesWithCfRest(pages: seq<OrgsPage>)
    ensures LastPage(pages) == Lib.ChainEnd(AsPages(pages))
    ensures Enumerated(pages).requested == Lib.Requests(OrganizationsPath, AsPages(pages))
    ensures Enumerated(pages).raised.None? ==>
      Lib.Fetch(OrganizationsPath, AsPages(pages)) == Success(Enumerated(pages).yielded)
    ensures Enumerated(pages).raised.Some? ==>
      Lib.Fetch(OrganizationsPath, AsPages(pages)) == Failure(Enumerated(pages).raised.value)
  {
    SameEnd(pages);
    if LastPage(pages).Some? {
      AgreeWhenEnded(pages, LastPage(pages).value);
    } else {
      AgreeWhenUnanswered(pages);
    }
  }

  lemma AgreeWhenEnded(pages: seq<OrgsPage>, k: nat)
    requires LastPage(pages) == Some(k) == Lib.ChainEnd(AsPages(pages))
    ensures Lib.Requests(OrganizationsPath, AsPages(pages)) == Requested(pages, k)
    ensures Lib.Fetch(OrganizationsPath, AsPages(pages)) == Success(Taken(pages, k + 1))
  {
    TakenIsFlatten(pages, k + 1);
    RequestedIsLog(pages, k);
  }

  lemma AgreeWhenUnanswered(pages: seq<OrgsPage>)
    requires LastPage(pages).None? && Lib.ChainEnd(AsPages(pages)).None?
    ensures Lib.Requests(OrganizationsPath, AsPages(pages)) == Requested(pages, |pages|)
    ensures Lib.Fetch(OrganizationsPath, AsPages(pages)) ==
      Failure(Lib.RequestFailed(Requested(pages, |pages|)[|pages|]))
  {
    RequestedIsLog(pages, |pages|);
    assert AsPages(pages)[..|pages|] == AsPages(pages);
  }

  /** The paths requested for the first `m + 1` pages are the request log of
      `cf_rest("/v2/organizations")` over them. */
  lemma RequestedIsLog(pages: seq<OrgsPage>, m: nat)
    requires m <= |pages| && forall i :: 0 <= i < m ==> pages[i].next_url.Some?
    ensures Requested(pages, m) == Lib.RequestLog(OrganizationsPath, AsPages(pages)[..m])
  {
    var r := Requested(pages, m);
    var log := Lib.RequestLog(OrganizationsPath, AsPages(pages)[..m]);
    forall i | 1 <= i <= m
      ensures r[i] == log[i]
    {
      assert log[(i - 1) + 1] == AsPages(pages)[..m][i - 1].next_url.value;
    }
  }

  lemma {:induction false} SameEnd(pages: seq<OrgsPage>)
    ensures LastPage(pages) == Lib.ChainEnd(AsPages(pages))
  {
    if pages != [] {
      SameEnd(pages[1..]);
      assert AsPages(pages)[1..] == AsPages(pages[1..]);
    }
  }

  // ------------------------------------------- the client's scenarios, as callers

  /** One page with one org: the first org yielded is that org. */
  method OnePageOneOrg() returns (first: string)
    ensures first == "casper"
  {
    var page := OrgsPage(Some(1), Some(1), None, None, [Org(OrgEntity("casper"))]);
    var orgs, _, _ := Orgs([page]);
    assert LastPage([page]) == Some(0);
    assert Taken([page], 1) == [] + page.resources;
    first := orgs[0].entity.name;
  }

  /** One page with two orgs: they are yielded in page order. */
  method OnePageTwoOrgs() returns (names: seq<string>)
    ensures names == ["casper", "oscar"]
  {
    var page := OrgsPage(Some(2), Some(1), None, None, [Org(OrgEntity("casper")), Org(OrgEntity("oscar"))]);
    var orgs, _, _ := Orgs([page]);
    assert LastPage([page]) == Some(0);
    assert Taken([page], 1) == [] + page.resources;
    names := [orgs[0].entity.name, orgs[1].entity.name];
  }

  /** Two pages: page 1's org, then page 2's, after following `next_url`. */
  method TwoPages() returns (names: seq<string>, requested: seq<string>)
    ensures names == ["casper", "oscar"]
    ensures requested == ["/v2/organizations", "/v2/organizations?order-direction=asc&page=2&results-per-page=50"]
  {
    var next := "/v2/organizations?order-direction=asc&page=2&results-per-page=50";
    var first := OrgsPage(Some(2), Some(2), None, Some(next), [Org(OrgEntity("casper"))]);
    var second := OrgsPage(Some(2), Some(2), Some("/v2/organizations?order-direction=asc&page=1&results-per-page=50"),
                           None, [Org(OrgEntity("oscar"))]);
    var pages := [first, second];
    var orgs, raised;
    orgs, requested, raised := Orgs(pages);
    assert LastPage(pages) == Some(1);
    assert Taken(pages, 1) == [] + first.resources;
    assert Taken(pages, 2) == first.resources + second.resources;
    names := [orgs[0].entity.name, orgs[1].entity.name];
  }
}
