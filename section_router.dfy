/**
 The route-to-view dispatch of the page body (`SectionRouter`): an exact-match
 switch from the current route string to one of the views, with the home
 features as the fallback, and the navigation targets each view's buttons emit.
 */
module SectionRouter {

  /** The views the page body can show; `Legal` carries the title it is rendered with. */
  datatype View =
    | HomeFeatures
    | Research
    | Feed
    | Portfolio
    | Trading
    | Legal(title: string)
    | Disclaimer
    | NotFound

  /** The eight routes the switch names, in the order of its cases. */
  const SwitchedRoutes: seq<string> :=
    ["/research", "/feed", "/portfolio", "/trading",
     "/legal/terms", "/legal/privacy", "/disclaimer", "/404"]

  /** The same switch written as a table, route to view for every named case:
      another form of `ResolveView` (see `ResolveMatchesTable`), not an
      independent reference for it. */
  const RouteTable: map<string, View> :=
    map[
      "/research" := Research,
      "/feed" := Feed,
      "/portfolio" := Portfolio,
      "/trading" := Trading,
      "/legal/terms" := Legal("Terms"),
      "/legal/privacy" := Legal("Privacy"),
      "/disclaimer" := Disclaimer,
      "/404" := NotFound
    ]

  /** `SectionRouter({route})`: the view for `route`, compared with `===` case by case. */
  function ResolveView(route: string): View {
    if route == "/research" then Research
    else if route == "/feed" then Feed
    else if route == "/portfolio" then Portfolio
    else if route == "/trading" then Trading
    else if route == "/legal/terms" then Legal("Terms")
    else if route == "/legal/privacy" then Legal("Privacy")
    else if route == "/disclaimer" then Disclaimer
    else if route == "/404" then NotFound
    else HomeFeatures
  }

  /** The switch agrees with the table on every string: a listed route gets its
      entry, anything else gets the home features. */
  lemma ResolveMatchesTable(route: string)
    ensures route in RouteTable <==> route in SwitchedRoutes
    ensures ResolveView(route) == if route in RouteTable then RouteTable[route] else HomeFeatures
  {
  }

  /** Every route outside the eight named ones (`/` and the empty string among
      them) falls back to the home features; resolution never fails. */
  lemma UnknownRouteIsHome(route: string)
    requires route !in SwitchedRoutes
    ensures ResolveView(route) == HomeFeatures
  {
  }

  /** The home features are shown exactly for the routes the switch does not name. */
  lemma HomeIffUnswitched(route: string)
    ensures ResolveView(route) == HomeFeatures <==> route !in SwitchedRoutes
  {
  }

  /** Only the exact string `/404` yields `NotFound`: no prefix, suffix or partial match. */
  lemma NotFoundOnlyFor404(route: string)
    ensures ResolveView(route) == NotFound <==> route == "/404"
  {
  }

  /** The eight named routes resolve to eight different views, none the fallback. */
  lemma SwitchedRoutesDistinct(i: nat, j: nat)
    requires i < |SwitchedRoutes| && j < |SwitchedRoutes|
    ensures ResolveView(SwitchedRoutes[i]) != HomeFeatures
    ensures ResolveView(SwitchedRoutes[i]) == ResolveView(SwitchedRoutes[j]) <==> i == j
  {
  }

  /** Both legal routes show the `Legal` view, titled "Terms" and "Privacy". */
  lemma LegalRoutes()
    ensures ResolveView("/legal/terms") == Legal("Terms")
    ensures ResolveView("/legal/privacy") == Legal("Privacy")
    ensures ResolveView("/legal/terms") != ResolveView("/legal/privacy")
  {
  }

  /** The literal targets of each view's `onNavigate` calls, one per call site,
      in source order; a button rendered once per item of a list is listed once. */
  function ViewTargets(v: View): seq<string> {
    match v
    case HomeFeatures => ["/research", "/feed", "/portfolio", "/trading", "/trading", "/feed"]
    case Research => ["/trading"]
    case Feed => ["/research"]
    case NotFound => ["/"]
    case _ => []
  }

  /** A route some view's button can emit: the root or a named route. */
  predicate Routable(route: string) {
    route == "/" || route in SwitchedRoutes
  }

  /** No in-view button leads to `/404` or to the `NotFound` view: each target is
      the root or a named route whose view is not the fallback. */
  lemma ViewTargetsAreKnownRoutes(v: View, k: nat)
    requires k < |ViewTargets(v)|
    ensures Routable(ViewTargets(v)[k])
    ensures ViewTargets(v)[k] != "/404"
    ensures ResolveView(ViewTargets(v)[k]) != NotFound
    ensures ViewTargets(v)[k] == "/" || ResolveView(ViewTargets(v)[k]) != HomeFeatures
  {
  }
}
