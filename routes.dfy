/** The route table (src/routes.tsx): the menu's main and secondary pages and their paths. */
module Routes {

  datatype RouteItem = RouteItem(text: string, path: string)

  const MainRoutes: seq<RouteItem> := [
    RouteItem("Dashboard", "/dashboard"),
    RouteItem("New Payment", "/newpayment"),
    RouteItem("Add Card", "/addcard")
  ]

  const SecondaryRoutes: seq<RouteItem> := [
    RouteItem("Settings", "/settings"),
    RouteItem("Feedback", "/feedback")
  ]

  /** `[...mainRoutes, ...secondaryRoutes]`. */
  const AllRoutes: seq<RouteItem> := MainRoutes + SecondaryRoutes

  /** The five routes, in order, have pairwise distinct paths, each starting with "/". */
  lemma RouteTableShape()
    ensures |AllRoutes| == 5
    ensures AllRoutes[..3] == MainRoutes && AllRoutes[3..] == SecondaryRoutes
    ensures forall i, j :: 0 <= i < j < |AllRoutes| ==> AllRoutes[i].path != AllRoutes[j].path
    ensures forall i :: 0 <= i < |AllRoutes| ==> |AllRoutes[i].path| > 0 && AllRoutes[i].path[0] == '/'
  {
  }
}
