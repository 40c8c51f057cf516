/**
 * The breadcrumbs in the header (src/components/Header/NavbarBreadcrumbs.tsx): a dictionary from
 * path to page text built over the route table, and the label of the current page, which falls
 * back to the raw path name when no route has that path.
 */
module Breadcrumbs {
  import opened Wrappers
  import Routes

  /** The text of the last route with path `path`: later entries overwrite earlier ones. */
  function LastTextFor(routes: seq<Routes.RouteItem>, path: string): (r: Option<string>)
    ensures r.None? <==> forall i :: 0 <= i < |routes| ==> routes[i].path != path
    ensures r.Some? ==> exists i :: 0 <= i < |routes| && routes[i].path == path && routes[i].text == r.value &&
                          forall j :: i < j < |routes| ==> routes[j].path != path
  {
    if routes == [] then None
    else
      var last := routes[|routes| - 1];
      if last.path == path then Some(last.text)
      else
        var r := LastTextFor(routes[..|routes| - 1], path);
        assert forall i :: 0 <= i < |routes| - 1 ==> routes[..|routes| - 1][i] == routes[i];
        r
  }

  /** `allRoutes.reduce(...)`: one entry per path, holding the text of the last route with it. */
  method PathToTextMap(routes: seq<Routes.RouteItem>) returns (acc: map<string, string>)
    ensures acc.Keys == set i | 0 <= i < |routes| :: routes[i].path
    ensures forall path :: Get(acc, path) == LastTextFor(routes, path)
  {
    acc := map[];
    for k := 0 to |routes|
      invariant acc.Keys == set i | 0 <= i < k :: routes[i].path
      invariant forall path :: Get(acc, path) == LastTextFor(routes[..k], path)
    {
      var item := routes[k];
      assert routes[..k + 1][..k] == routes[..k];
      acc := acc[item.path := item.text];
      assert (set i | 0 <= i < k + 1 :: routes[i].path) == (set i | 0 <= i < k :: routes[i].path) + {item.path};
    }
    assert routes[..|routes|] == routes;
  }

  /** `pathToTextMap[location.pathname] ?? location.pathname` over the route table. */
  function CurrentLabel(routes: seq<Routes.RouteItem>, pathname: string): string
  {
    match LastTextFor(routes, pathname)
    case Some(text) => text
    case None => pathname
  }

  /** The two crumbs: "Home", then the current page's label. */
  method Breadcrumb(pathname: string) returns (crumbs: seq<string>)
    ensures crumbs == ["Home", CurrentLabel(Routes.AllRoutes, pathname)]
  {
    var pathToText := PathToTextMap(Routes.AllRoutes);
    var currentLabel := if pathname in pathToText then pathToText[pathname] else pathname;
    assert Get(pathToText, pathname) == LastTextFor(Routes.AllRoutes, pathname);
    crumbs := ["Home", currentLabel];
  }

  /** With pairwise distinct paths, every route's path is labelled with its own text. */
  lemma {:induction false} DistinctPathsLabelTheirRoute(routes: seq<Routes.RouteItem>, i: nat)
    requires i < |routes|
    requires forall a, b :: 0 <= a < b < |routes| ==> routes[a].path != routes[b].path
    ensures CurrentLabel(routes, routes[i].path) == routes[i].text
  {
    var r := LastTextFor(routes, routes[i].path);
    var k :| 0 <= k < |routes| && routes[k].path == routes[i].path && routes[k].text == r.value &&
             forall j :: k < j < |routes| ==> routes[j].path != routes[i].path;
    assert k == i;
  }

  /** On each page of the route table the breadcrumb shows that page's text. */
  lemma KnownPagesShowTheirText(i: nat)
    requires i < |Routes.AllRoutes|
    ensures CurrentLabel(Routes.AllRoutes, Routes.AllRoutes[i].path) == Routes.AllRoutes[i].text
  {
    Routes.RouteTableShape();
    DistinctPathsLabelTheirRoute(Routes.AllRoutes, i);
  }

  /** A path no route declares is shown as it is. */
  lemma UnknownPathShowsPathname(routes: seq<Routes.RouteItem>, pathname: string)
    requires forall i :: 0 <= i < |routes| ==> routes[i].path != pathname
    ensures CurrentLabel(routes, pathname) == pathname
  {
  }

  /** When two routes share a path, the later one's text wins. */
  lemma LaterRouteWins(routes: seq<Routes.RouteItem>, item: Routes.RouteItem)
    ensures CurrentLabel(routes + [item], item.path) == item.text
  {
  }
}
