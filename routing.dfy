/** Route registrations on the Echo engine and the diagnostic route listing
    `NewServer` prints at startup (echo-rest/rest_server.go). */
module Routing {
  import opened Text
  import opened EchoOption

  /** The method a route is registered for; `AnyMethod` is Echo's `Any`. */
  datatype RouteMethod = Method(name: string) | AnyMethod

  datatype GraphQLEndpoint = ServeGraphQL | ServePlayground | ServeVoyager

  /** What a registered route dispatches to. GraphQL handlers remember the
      sub-options they were constructed with. */
  datatype Endpoint =
    | Root(handler: Handler)
    | Memstats
    | ModuleHandler(id: nat)
    | GraphQL(kind: GraphQLEndpoint, options: seq<GraphQLOptionFunc>)

  /** One registration: what `Routes()` reports (method, path, name) plus the
      handler and the route-level middlewares it was registered with. */
  datatype Route = Route(verb: RouteMethod, path: string, name: string,
                         endpoint: Endpoint, middlewares: seq<Middleware>)

  const ExcludedPaths: seq<string> := ["/", "/memstats"]

  /** Echo names the catch-all routes a `Group` adds after this marker. */
  const GroupMarker: string := "(*Group)"

  /** A route the diagnostic listing prints. */
  predicate Listed(r: Route)
  {
    r.path !in ExcludedPaths && !Contains(r.name, GroupMarker)
  }

  /** The routes of `rs` that the listing prints, in their order. */
  function ListedRoutes(rs: seq<Route>): seq<Route>
    decreases |rs|
  {
    if rs == [] then []
    else ListedRoutes(rs[..|rs| - 1]) + (if Listed(rs[|rs| - 1]) then [rs[|rs| - 1]] else [])
  }

  /** Each route appears in `ListedRoutes(rs)` as often as in `rs` when it
      is listed, and not at all otherwise. */
  lemma {:induction false} ListedRoutesCount(rs: seq<Route>, r: Route)
    ensures multiset(ListedRoutes(rs))[r] == if Listed(r) then multiset(rs)[r] else 0
    decreases |rs|
  {
    if rs != [] {
      var init := rs[..|rs| - 1];
      assert rs == init + [rs[|rs| - 1]];
      ListedRoutesCount(init, r);
    }
  }

  lemma ListedRoutesPermutation(rs: seq<Route>, ts: seq<Route>)
    requires multiset(rs) == multiset(ts)
    ensures multiset(ListedRoutes(rs)) == multiset(ListedRoutes(ts))
  {
    forall r ensures multiset(ListedRoutes(rs))[r] == multiset(ListedRoutes(ts))[r] {
      ListedRoutesCount(rs, r);
      ListedRoutesCount(ts, r);
    }
  }

  /** A listing holding the listed routes of `routes`, each as often as it
      was registered, contains exactly the listed routes of `routes`. */
  lemma ListingMembership(listing: seq<Route>, routes: seq<Route>)
    requires multiset(listing) == multiset(ListedRoutes(routes))
    ensures forall r :: r in listing <==> r in routes && Listed(r)
  {
    forall r ensures r in listing <==> r in routes && Listed(r) {
      ListedRoutesCount(routes, r);
      assert r in listing <==> multiset(listing)[r] > 0;
    }
  }

  /** Sorted ascending by path, in Go's string order. */
  predicate SortedByPath(rs: seq<Route>)
  {
    forall i, j :: 0 <= i < j < |rs| ==> StrLe(rs[i].path, rs[j].path)
  }

  /** Each route's path is at most its successor's. */
  predicate AdjacentSortedByPath(rs: seq<Route>)
  {
    forall k :: 0 < k < |rs| ==> StrLe(rs[k - 1].path, rs[k].path)
  }

  lemma {:induction false} AdjacentSortedIsSorted(rs: seq<Route>)
    requires AdjacentSortedByPath(rs)
    ensures SortedByPath(rs)
    decreases |rs|
  {
    if |rs| > 1 {
      var init := rs[..|rs| - 1];
      assert AdjacentSortedByPath(init);
      AdjacentSortedIsSorted(init);
      var n := |rs| - 1;
      forall i | 0 <= i < n ensures StrLe(rs[i].path, rs[n].path) {
        if i < n - 1 {
          assert StrLe(rs[i].path, rs[n - 1].path) by { assert init[i] == rs[i] && init[n - 1] == rs[n - 1]; }
          StrLeTransitive(rs[i].path, rs[n - 1].path, rs[n].path);
        }
      }
    }
  }

  method Swap(a: array<Route>, i: nat, j: nat)
    requires i < a.Length && j < a.Length
    modifies a
    ensures a[i] == old(a[j]) && a[j] == old(a[i])
    ensures forall k :: 0 <= k < a.Length && k != i && k != j ==> a[k] == old(a[k])
    ensures multiset(a[..]) == old(multiset(a[..]))
  {
    a[i], a[j] := a[j], a[i];
  }

  /** `sort.Slice(httpRoutes, less)` with `less` comparing paths: an insertion
      sort by adjacent swaps. Like `sort.Slice` it is not stable; the
      contract says only "sorted and a permutation". */
  method SortByPath(a: array<Route>)
    modifies a
    ensures AdjacentSortedByPath(a[..])
    ensures multiset(a[..]) == old(multiset(a[..]))
  {
    var i := 0;
    while i < a.Length
      invariant 0 <= i <= a.Length
      invariant forall k :: 0 < k < i ==> StrLe(a[k - 1].path, a[k].path)
      invariant multiset(a[..]) == old(multiset(a[..]))
    {
      var j := i;
      while j > 0 && StrLess(a[j].path, a[j - 1].path)
        invariant 0 <= j <= i
        invariant forall k :: 0 < k <= i && k != j ==> StrLe(a[k - 1].path, a[k].path)
        invariant 0 < j < i ==> StrLe(a[j - 1].path, a[j + 1].path)
        invariant multiset(a[..]) == old(multiset(a[..]))
      {
        StrLessAsymmetric(a[j].path, a[j - 1].path);
        Swap(a, j - 1, j);
        j := j - 1;
      }
      i := i + 1;
    }
  }

  /** The routes `NewServer` prints: `routes` sorted by path, without `/`,
      `/memstats` and the routes Echo's groups add. */
  method DiagnosticListing(routes: seq<Route>) returns (listing: seq<Route>)
    ensures SortedByPath(listing)
    ensures multiset(listing) == multiset(ListedRoutes(routes))
  {
    var a := new Route[|routes|](k requires 0 <= k < |routes| => routes[k]);
    assert a[..] == routes;
    SortByPath(a);
    AdjacentSortedIsSorted(a[..]);
    listing := [];
    var i := 0;
    while i < a.Length
      invariant 0 <= i <= a.Length
      invariant listing == ListedRoutes(a[..i])
      invariant SortedByPath(listing)
      invariant forall k, m :: 0 <= k < |listing| && i <= m < a.Length ==> StrLe(listing[k].path, a[m].path)
    {
      assert a[..i + 1][..i] == a[..i];
      if Listed(a[i]) {
        listing := listing + [a[i]];
      }
      i := i + 1;
    }
    assert a[..i] == a[..];
    ListedRoutesPermutation(a[..], routes);
  }
}
