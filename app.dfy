/**
 The top-level `App` component: the document title derived from the route, the
 hero shown on the root route, the search shortcut, and the session state
 (current route, search overlay, browser history pushes, scrolls to top) that
 `navigate`, the `popstate` sync and the key and overlay handlers update.
 */
module App {
  import opened Text
  import opened SectionRouter
  import Search

  /** The tagline used as the title of every route without a title of its own. */
  const GenericTitle: string := "Polyfacts — AI-powered market intelligence for prediction markets"

  /** `pageTitle`: the document title for `route`, an exact-match switch over seven routes. */
  function PageTitle(route: string): string {
    if route == "/research" then "Research — Polyfacts"
    else if route == "/feed" then "Live Feed — Polyfacts"
    else if route == "/portfolio" then "Portfolio — Polyfacts"
    else if route == "/trading" then "Trading — Polyfacts"
    else if route == "/legal/terms" then "Terms — Polyfacts"
    else if route == "/legal/privacy" then "Privacy — Polyfacts"
    else if route == "/disclaimer" then "Disclaimer — Polyfacts"
    else GenericTitle
  }

  /** The seven routes with a title of their own. */
  const TitledRoutes: seq<string> :=
    ["/research", "/feed", "/portfolio", "/trading", "/legal/terms", "/legal/privacy", "/disclaimer"]

  /** The suffix every titled route appends to its page name. */
  const BrandSuffix: string := " — Polyfacts"

  /** The title a view's section heading suggests: the heading ("Research",
      "Live Feed", "Portfolio", "Trading", the legal page's title, "Disclaimer")
      followed by the product name; the home features carry the tagline.
      `NotFound` ("Page not found") has no title of its own. */
  function ViewTitle(v: View): string
    requires v != NotFound
  {
    match v
    case HomeFeatures => GenericTitle
    case Research => "Research" + BrandSuffix
    case Feed => "Live Feed" + BrandSuffix
    case Portfolio => "Portfolio" + BrandSuffix
    case Trading => "Trading" + BrandSuffix
    case Legal(t) => t + BrandSuffix
    case Disclaimer => "Disclaimer" + BrandSuffix
  }

  /** Every route other than the seven titled ones, `/` and `/404` included, has the tagline. */
  lemma TitleIffTitled(route: string)
    ensures PageTitle(route) != GenericTitle <==> route in TitledRoutes
  {
  }

  /** A helper for `TitleFollowsView`: the title each titled view carries,
      with the concatenations written out as the literals `pageTitle` uses. */
  lemma ViewTitles()
    ensures ViewTitle(Research) == "Research — Polyfacts"
    ensures ViewTitle(Feed) == "Live Feed — Polyfacts"
    ensures ViewTitle(Portfolio) == "Portfolio — Polyfacts"
    ensures ViewTitle(Trading) == "Trading — Polyfacts"
    ensures ViewTitle(Legal("Terms")) == "Terms — Polyfacts"
    ensures ViewTitle(Legal("Privacy")) == "Privacy — Polyfacts"
    ensures ViewTitle(Disclaimer) == "Disclaimer — Polyfacts"
  {
  }

  /** Wherever the view is not `NotFound`, the title switch and the view switch
      agree: the title is the one the resolved view carries. */
  lemma TitleFollowsView(route: string)
    requires ResolveView(route) != NotFound
    ensures PageTitle(route) == ViewTitle(ResolveView(route))
  {
    ViewTitles();
    if route !in TitledRoutes {
      assert ResolveView(route) == HomeFeatures;
    }
  }

  /** The two switches disagree on `/404`: it shows `NotFound` but keeps the
      home tagline, and that is the only route where the view is not the one
      the title names. */
  lemma NotFoundKeepsGenericTitle(route: string)
    ensures route == "/404" ==> ResolveView(route) == NotFound && PageTitle(route) == GenericTitle
    ensures PageTitle(route) == GenericTitle <==> ResolveView(route) == HomeFeatures || ResolveView(route) == NotFound
  {
  }

  /** What the page shows below the header: the hero (or not), then the routed view. */
  datatype Screen = Screen(hero: bool, body: View)

  function Render(route: string): Screen {
    Screen(route == "/", ResolveView(route))
  }

  /** The hero is shown exactly on the root route, above the home features; an
      unknown route shows the home features without the hero. */
  lemma HeroOnlyAtRoot(route: string)
    ensures Render(route).hero <==> route == "/"
    ensures route == "/" ==> Render(route).body == HomeFeatures
    ensures route != "/" && route !in SwitchedRoutes ==> Render(route) == Screen(false, HomeFeatures)
  {
  }

  /** The routes the hero's two buttons pass to `navigate`. */
  const HeroTargets: seq<string> := ["/trading", "/research"]

  /** A route some button of the page passes to `navigate`: the hero's, a view's
      or a search result's. */
  ghost predicate EmittedByPage(path: string) {
    path in HeroTargets
    || (exists v: View, k :: 0 <= k < |ViewTargets(v)| && ViewTargets(v)[k] == path)
    || (exists e :: e in Search.Catalogue && e.path == path)
  }

  /** No hero button, in-view button or search result leads to `/404`:
      `NotFound` is shown only when the browser itself reports that path to
      `syncRoute`. The header's and footer's links are not part of this model. */
  lemma PageNeverNavigatesTo404(path: string)
    requires EmittedByPage(path)
    ensures path != "/404" && ResolveView(path) != NotFound
  {
    if exists v: View, k :: 0 <= k < |ViewTargets(v)| && ViewTargets(v)[k] == path {
      var v: View, k :| 0 <= k < |ViewTargets(v)| && ViewTargets(v)[k] == path;
      ViewTargetsAreKnownRoutes(v, k);
    } else if path !in HeroTargets {
      Search.CataloguePathsAreKnownRoutes();
    }
  }

  /** A keyboard event as the `keydown` handler sees it. */
  datatype KeyEvent = KeyEvent(key: string, metaKey: bool, ctrlKey: bool)

  /** Cmd or Ctrl together with a key whose lower-cased name is "k". */
  predicate IsSearchShortcut(e: KeyEvent) {
    (e.metaKey || e.ctrlKey) && Lower(e.key) == "k"
  }

  /** The shortcut is Cmd/Ctrl with exactly "k" or "K"; Escape is never the shortcut. */
  lemma ShortcutKeys(e: KeyEvent)
    ensures IsSearchShortcut(e) <==> (e.metaKey || e.ctrlKey) && (e.key == "k" || e.key == "K")
    ensures e.key == "Escape" ==> !IsSearchShortcut(e)
  {
    LowerIsSingleLetter(e.key, 'k');
  }

  /** The search-open flag after `onKey` handles `e` with the flag at `open`:
      the shortcut toggles it, then Escape clears it. */
  function SearchOpenAfterKey(open: bool, e: KeyEvent): bool {
    var toggled := if IsSearchShortcut(e) then !open else open;
    if e.key == "Escape" then false else toggled
  }

  /** The shortcut toggles the overlay, Escape closes it, and any other key leaves it. */
  lemma KeyEffects(open: bool, e: KeyEvent)
    ensures IsSearchShortcut(e) ==> SearchOpenAfterKey(open, e) == !open
    ensures e.key == "Escape" ==> !SearchOpenAfterKey(open, e)
    ensures !IsSearchShortcut(e) && e.key != "Escape" ==> SearchOpenAfterKey(open, e) == open
    ensures SearchOpenAfterKey(open, e) ==> open || ((e.metaKey || e.ctrlKey) && (e.key == "k" || e.key == "K"))
  {
    ShortcutKeys(e);
  }

  /** The session state of a mounted `App`. `history` lists the paths pushed
      with `pushState`, `scrolls` counts the scrolls to the top, `title` is
      `document.title`, and `query` is the text typed in the open overlay. */
  class AppState {
    var route: string
    var searchOpen: bool
    var query: string
    var history: seq<string>
    var scrolls: nat
    var title: string

    /** The title effect has followed the route, and a closed overlay keeps no query. */
    ghost predicate Valid()
      reads this
    {
      title == PageTitle(route) && (!searchOpen ==> query == "")
    }

    /** The first render: route `/`, overlay closed, nothing pushed or scrolled. */
    constructor ()
      ensures Valid()
      ensures route == "/" && !searchOpen && query == ""
      ensures history == [] && scrolls == 0 && title == GenericTitle
    {
      route := "/";
      searchOpen := false;
      query := "";
      history := [];
      scrolls := 0;
      title := GenericTitle;
    }

    /** `syncRoute`, run once on mount and on every `popstate`: the route becomes
        the browser's pathname, whatever it is; nothing is pushed or scrolled. */
    method SyncRoute(pathname: string)
      requires Valid()
      modifies this
      ensures Valid()
      ensures route == pathname && title == PageTitle(pathname)
      ensures history == old(history) && scrolls == old(scrolls)
      ensures searchOpen == old(searchOpen) && query == old(query)
    {
      route := pathname;
      title := PageTitle(route);
    }

    /** `navigate(path)`: to a new route, push it, switch to it and scroll to the
        top once; to the current route, do nothing at all. */
    method Navigate(path: string)
      requires Valid()
      modifies this
      ensures Valid()
      ensures path == old(route) ==> unchanged(this)
      ensures path != old(route) ==>
        route == path && history == old(history) + [path] && scrolls == old(scrolls) + 1
      ensures title == PageTitle(route)
      ensures searchOpen == old(searchOpen) && query == old(query)
    {
      if path != route {
        history := history + [path];
        route := path;
        scrolls := scrolls + 1;
        title := PageTitle(route);
      }
    }

    /** The window's `keydown` handler (and, while the overlay is open, the
        overlay's own Escape handler). Returns whether the browser's default
        action was prevented. Closing the overlay discards its query. */
    method OnKey(e: KeyEvent) returns (prevented: bool)
      requires Valid()
      modifies this
      ensures Valid()
      ensures prevented == IsSearchShortcut(e)
      ensures searchOpen == SearchOpenAfterKey(old(searchOpen), e)
      ensures query == if searchOpen then old(query) else ""
      ensures route == old(route) && history == old(history) && scrolls == old(scrolls) && title == old(title)
    {
      prevented := false;
      if IsSearchShortcut(e) {
        prevented := true;
        searchOpen := !searchOpen;
      }
      if e.key == "Escape" {
        searchOpen := false;
      }
      if !searchOpen {
        query := "";
      }
    }

    /** The header's search button: open the overlay, keeping its query if it is already open. */
    method OpenSearch()
      requires Valid()
      modifies this
      ensures Valid()
      ensures searchOpen && query == old(query)
      ensures route == old(route) && history == old(history) && scrolls == old(scrolls) && title == old(title)
    {
      searchOpen := true;
    }

    /** The overlay's `onClose` (backdrop click): close it and discard the query. */
    method CloseSearch()
      requires Valid()
      modifies this
      ensures Valid()
      ensures !searchOpen && query == ""
      ensures route == old(route) && history == old(history) && scrolls == old(scrolls) && title == old(title)
    {
      searchOpen := false;
      query := "";
    }

    /** Typing in the overlay's input, which exists only while the overlay is open. */
    method SetQuery(q: string)
      requires Valid() && searchOpen
      modifies this
      ensures Valid()
      ensures searchOpen && query == q
      ensures route == old(route) && history == old(history) && scrolls == old(scrolls) && title == old(title)
    {
      query := q;
    }

    /** The overlay's `onNavigate(p)`, which a result's button calls with its
        entry's route: close the overlay (discarding the query), then `navigate(p)`. */
    method SelectResult(p: string)
      requires Valid()
      modifies this
      ensures Valid()
      ensures !searchOpen && query == ""
      ensures route == p && title == PageTitle(p)
      ensures p == old(route) ==> history == old(history) && scrolls == old(scrolls)
      ensures p != old(route) ==> history == old(history) + [p] && scrolls == old(scrolls) + 1
    {
      searchOpen := false;
      query := "";
      Navigate(p);
    }
  }

  /** Loading `/` and navigating to `/trading` shows the trading view under its title. */
  method NavigateToTradingScenario() returns (s: AppState)
    ensures s.route == "/trading" && s.history == ["/trading"] && s.scrolls == 1
    ensures ResolveView(s.route) == Trading && s.title == "Trading — Polyfacts"
  {
    s := new AppState();
    s.SyncRoute("/");
    s.Navigate("/trading");
    s.Navigate("/trading");
  }

  /** Loading an unknown path shows the home features without the hero, under the tagline. */
  method UnknownPathScenario() returns (s: AppState)
    ensures s.route == "/unknown-xyz" && s.history == []
    ensures Render(s.route) == Screen(false, HomeFeatures) && s.title == GenericTitle
  {
    s := new AppState();
    s.SyncRoute("/unknown-xyz");
  }
}
