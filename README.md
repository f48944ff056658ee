# Polyfacts landing page: route, title and quick-search logic

The Polyfacts landing page is a React single-page application. Almost every
component is static markup; the behaviour lives in two files:

- `src/App.jsx` keeps the session state: the current `route`, which the
  `popstate` handler (`syncRoute`) copies from the browser's pathname and
  `navigate` changes (pushing a history entry and scrolling to the top, but only
  for a path different from the current one); the `searchOpen` flag, toggled by
  Cmd/Ctrl+K and cleared by Escape; the document title (`pageTitle`, a switch
  over seven routes); and the search overlay (`SearchModal`), whose result list
  is a case-insensitive substring filter over a fixed five-entry catalogue and
  whose results close the overlay and navigate.
- `src/components/SectionRouter.jsx` chooses the page body: an exact-match
  switch from the route to one of eight views, with the home features as the
  fallback; some views carry buttons that navigate to fixed routes.

The Dafny model has four modules:

- `Text` (`text.dfy`): ASCII lower-casing and substring containment, with
  containment proved equal to "occurs at some position".
- `SectionRouter` (`section_router.dfy`): the `View` datatype, `ResolveView`,
  the same switch written as a `map`, and the buttons' targets per view.
- `Search` (`search.dfy`): the catalogue, the filter (proved to be an
  order-preserving subsequence holding exactly the matching entries with their
  multiplicities), the empty-query and case-insensitivity properties, and the
  result list for the query "live" worked out on the literal catalogue.
- `App` (`app.dfy`): `PageTitle`, its agreement with the view switch everywhere
  but on `/404`, the hero, the keyboard shortcut, and the class `AppState`
  whose methods are the handlers that change the session state.

Browser effects are recorded in fields of `AppState`: `history` lists the
paths given to `history.pushState`; `scrolls` counts calls to `scrollTo`;
`title` is `document.title`; `query` is the overlay's input text. The
browser's pathname is the parameter of `SyncRoute`. A key press is a
`KeyEvent` value.

## Model

| member | source | states |
|---|---|---|
| `Text.LowerChar` | src/App.jsx:98 | the result of lower-casing a character is never an upper-case ASCII letter, it is a lower-case letter exactly when the input was a letter of either case, and every character outside `A`–`Z` is returned unchanged |
| `Text.Lower` | src/App.jsx:98 | `toLowerCase` keeps the length and lower-cases every character in place |
| `Text.LowerIdempotent` | src/App.jsx:98 | lower-casing an already lower-cased string changes nothing |
| `Text.LowerIsSingleLetter` | src/App.jsx:34 | the only strings that lower-case to a one-letter lower-case string are that letter and its capital |
| `Text.LowerCharHits` | src/App.jsx:98 | a character lower-cases to the letter `c` exactly when it is `c` or its capital (both directions) |
| `Text.LowerLacks` | src/App.jsx:98 | a string holding neither case of a letter lower-cases to a string without that letter |
| `Text.Contains` | src/App.jsx:98 | `includes`, defined as "some suffix starts with `t`"; its contract is stated by `Text.ContainsIff`, `Text.ContainsEmpty` and `Text.MissingCharExcludes` |
| `Text.ContainsIff` | src/App.jsx:98 | `includes(t)` holds exactly when `t` occurs in the string at some position (both directions) |
| `Text.ContainsEmpty` | src/App.jsx:89-98 | every string includes the empty string, so the empty query matches every title |
| `Text.MissingCharExcludes` | src/App.jsx:98 | a string lacking any one character of `t` does not include `t` |
| `SectionRouter.ResolveView` | src/components/SectionRouter.jsx:10-31 | the exact-match switch over the route; its contract is stated by `ResolveMatchesTable`, `UnknownRouteIsHome`, `HomeIffUnswitched`, `NotFoundOnlyFor404`, `SwitchedRoutesDistinct` and `LegalRoutes` below |
| `SectionRouter.ResolveMatchesTable` | src/components/SectionRouter.jsx:10-31 | the switch agrees with the route table on every string: the eight listed routes get their entry and every other string the home features |
| `SectionRouter.UnknownRouteIsHome` | src/components/SectionRouter.jsx:28-29 | any string outside the eight named routes, `/` and the empty string included, resolves to `HomeFeatures`; resolution is total |
| `SectionRouter.HomeIffUnswitched` | src/components/SectionRouter.jsx:11-29 | the home features are shown exactly for the routes the switch does not name (both directions) |
| `SectionRouter.NotFoundOnlyFor404` | src/components/SectionRouter.jsx:26-27 | `NotFound` is produced by the exact string `/404` and by no other string; there is no prefix or partial match |
| `SectionRouter.SwitchedRoutesDistinct` | src/components/SectionRouter.jsx:11-27 | the eight named routes resolve to eight pairwise different views, none of them the fallback |
| `SectionRouter.LegalRoutes` | src/components/SectionRouter.jsx:20-23 | `/legal/terms` and `/legal/privacy` both show `Legal`, titled "Terms" and "Privacy" |
| `SectionRouter.ViewTargets` | src/components/SectionRouter.jsx:74-294 | the literal targets of each view's `onNavigate` calls, one per call site in source order (a button rendered once per list item is listed once); its contract is stated by `ViewTargetsAreKnownRoutes` |
| `SectionRouter.ViewTargetsAreKnownRoutes` | src/components/SectionRouter.jsx:74-294 | every route a view's button emits (home features: research, feed, portfolio, trading; research: trading; feed: research; not-found: `/`) is the root or a named route, never `/404`, never shows `NotFound`, and a non-root target never falls back to the home features |
| `Search.Filter` | src/App.jsx:98 | `filter` returns an order-preserving subsequence of its input that holds every matching entry as often as the input does and no other entry |
| `Search.Matches` | src/App.jsx:98 | the filter's test: the lower-cased title includes the lower-cased query; what it admits is stated by `Search.Filter`, `Search.ResultsAreMatchingEntries` and the per-entry lemmas below |
| `Search.Results` | src/App.jsx:90-99 | the filter over the five-entry catalogue (`Search.Catalogue`, lines 91-97); its contract is stated by `EmptyQueryShowsAll`, `ResultsCaseInsensitive`, `ResultsAreMatchingEntries`, `ResultPathsAreKnownRoutes` and `LiveQueryExample` |
| `Search.FilterSkipsHead` | src/App.jsx:98 | an entry that does not match contributes nothing: the filter of the list it heads is the filter of the rest |
| `Search.FilterKeepsHead` | src/App.jsx:98 | an entry that matches stays at the head of the filtered list |
| `Search.FilterCaseInsensitive` | src/App.jsx:98 | filtering with two queries that lower-case alike gives the same list |
| `Search.FilterKeepsAll` | src/App.jsx:98 | when every entry matches, the filter returns its input unchanged |
| `Search.FilterDropsAll` | src/App.jsx:122-123 | when no entry matches, the list is empty (the "No results." case) |
| `Search.EmptyQueryShowsAll` | src/App.jsx:89-98 | the initial empty query shows all five catalogue entries in catalogue order |
| `Search.ResultsCaseInsensitive` | src/App.jsx:98 | queries that lower-case alike show the same results, and a query shows the same results as its lower-cased form |
| `Search.ResultsAreMatchingEntries` | src/App.jsx:90-98 | the results are a subsequence of the catalogue, no longer than it, holding exactly the entries whose lower-cased title includes the lower-cased query |
| `Search.CataloguePathsAreKnownRoutes` | src/App.jsx:91-97 | every catalogue entry opens one of the router's named routes other than `/404` |
| `Search.ResultPathsAreKnownRoutes` | src/App.jsx:125-128 | every listed result's button navigates to a named route whose view is not `NotFound` |
| `Search.NoLiveMatchWithoutV` | src/App.jsx:98 | an entry whose title has no `v` in either case is not listed for a query that lower-cases to "live" |
| `Search.LivePrefixMatches` | src/App.jsx:98 | an entry whose title starts with "Live" is listed for a query that lower-cases to "live" |
| `Search.BtcMarketMissesLive` | src/App.jsx:92 | "BTC > $80k by Dec 31" does not match a query that lower-cases to "live" |
| `Search.ElectionMarketMissesLive` | src/App.jsx:93 | "US Election Winner 2024" does not match a query that lower-cases to "live" |
| `Search.TradingPageMissesLive` | src/App.jsx:94 | "Trading Terminal" does not match a query that lower-cases to "live" |
| `Search.FeedPageMatchesLive` | src/App.jsx:95 | "Live Feed" matches a query that lower-cases to "live" |
| `Search.PortfolioPageMissesLive` | src/App.jsx:96 | "Portfolio" does not match a query that lower-cases to "live" |
| `Search.FilterOnlyFourth` | src/App.jsx:98 | filtering a five-entry list in which only the fourth entry matches leaves exactly that entry |
| `Search.CatalogueAsChain` | src/App.jsx:91-97 | the catalogue is its five entries in display order, one after another |
| `Search.OnlyFeedMatchesShowsFeed` | src/App.jsx:90-99 | when the Live Feed page is the only matching entry, it is the only result |
| `Search.LiveQueryShowsFeed` | src/App.jsx:90-99 | typing "live" in any mix of cases (`live`, `Live`, `LIVE`, ...) lists the Live Feed page and nothing else |
| `Search.LiveQueryExample` | src/App.jsx:90-99 | the query `live` shows exactly the entry titled "Live Feed" in group "Pages" opening `/feed` |
| `App.TitleIffTitled` | src/App.jsx:44-63 | the title differs from the generic tagline exactly for the seven titled routes; `/`, `/404` and every other string get the tagline |
| `App.ViewTitles` | src/App.jsx:46-59 | the seven titled views carry exactly the seven fixed titles `pageTitle` uses, each the view's section heading followed by " — Polyfacts" |
| `App.TitleFollowsView` | src/App.jsx:44-63 | wherever the view is not `NotFound`, the title is the one the resolved view carries (its name and " — Polyfacts", the tagline for the home features, "Terms"/"Privacy" for the two legal routes) |
| `App.NotFoundKeepsGenericTitle` | src/App.jsx:60-61 | `/404` shows `NotFound` under the generic tagline: the two switches disagree there, and the tagline appears exactly when the view is the home features or `NotFound` |
| `App.PageTitle` | src/App.jsx:44-63 | the title switch over seven routes with the tagline as default; its contract is stated by `TitleIffTitled`, `ViewTitles`, `TitleFollowsView` and `NotFoundKeepsGenericTitle` |
| `App.Render` | src/App.jsx:74-79 | the hero flag and the body view for a route; its contract is stated by `HeroOnlyAtRoot` |
| `App.HeroOnlyAtRoot` | src/App.jsx:74-79 | the hero is shown exactly on `/`, above the home features; an unknown path shows the home features without the hero |
| `App.PageNeverNavigatesTo404` | src/App.jsx:75-83 | no hero button (`HeroTargets`), in-view button or search result navigates to `/404` or to a route showing `NotFound` |
| `App.IsSearchShortcut` | src/App.jsx:34 | the shortcut test; its contract is stated by `ShortcutKeys` |
| `App.SearchOpenAfterKey` | src/App.jsx:33-39 | the overlay flag after one key press; its contract is stated by `KeyEffects` and used by `AppState.OnKey` |
| `App.ShortcutKeys` | src/App.jsx:34 | the shortcut is Cmd or Ctrl with the key `k` or `K` and nothing else; Escape is never the shortcut |
| `App.KeyEffects` | src/App.jsx:33-39 | the shortcut toggles the overlay flag, Escape clears it, any other key leaves it, and the flag is only ever set by the shortcut |
| `App.AppState.constructor` | src/App.jsx:8-9 | the first render has route `/`, the overlay closed, nothing pushed or scrolled, and the tagline as title |
| `App.AppState.SyncRoute` | src/App.jsx:13-19 | after a `popstate` sync the route is the browser's pathname exactly, unknown paths included, the title follows it, and nothing is pushed or scrolled |
| `App.AppState.Navigate` | src/App.jsx:23-29 | navigating to the current route changes nothing; to another route it appends exactly that path to the history, sets the route, scrolls to the top once and updates the title, nothing else changing |
| `App.AppState.OnKey` | src/App.jsx:33-39 | the key handler sets the overlay flag as `SearchOpenAfterKey` says, prevents the default action exactly for the shortcut, discards the query when the overlay closes, and leaves route, history, scrolls and title alone |
| `App.AppState.OpenSearch` | src/App.jsx:71 | the header's search button opens the overlay and changes nothing else |
| `App.AppState.CloseSearch` | src/App.jsx:83 | closing the overlay clears the flag and discards the query, changing nothing else |
| `App.AppState.SetQuery` | src/App.jsx:114-115 | typing in the open overlay sets the query and changes nothing else |
| `App.AppState.SelectResult` | src/App.jsx:83 | selecting a result closes the overlay and discards the query, then navigates to the result's path with `Navigate`'s effect on route, history and scrolls |
| `App.NavigateToTradingScenario` | src/App.jsx:23-29 | loading `/` and navigating to `/trading` twice pushes one entry, scrolls once and shows the trading view under "Trading — Polyfacts" |
| `App.UnknownPathScenario` | src/App.jsx:13-18 | loading an unknown path keeps that path as the route and shows the home features without the hero, under the tagline |

## Left out

- JSX markup, Tailwind classes and framer-motion animation variants: presentation only.
- `Header.jsx`, `Footer.jsx` and `HeroSpline.jsx`: the header's scroll styling and mobile drawer, the footer's links, email input and current year, and the external 3D scene are not part of this model; of them only the hero's two button targets (`/trading`, `/research`, passed in `src/App.jsx`) are modelled, so `App.PageNeverNavigatesTo404` does not cover the header's and footer's navigation links.
- Browser semantics: `pushState`, `scrollTo` with smooth behaviour and `document.title` are recorded as fields, not simulated; the browser's own back/forward stack is not modelled, only the pathname it reports to `syncRoute`.
- React mechanics (`useCallback` closures over `route`, `useMemo` caching, effect ordering and cleanup, batching of state updates): each handler is one atomic update, and the title effect is folded into every update of the route.
- `Text.Lower`: lower-cases ASCII letters only, because JavaScript's full Unicode `toLowerCase` table is out of scope; in particular the Kelvin sign (U+212A), which JavaScript lower-cases to `k` and so also triggers the shortcut, is not treated as `k` here.
- `App.AppState.SetQuery`: requires the overlay to be open, since its input exists only then.
