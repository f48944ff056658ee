/**
 The quick-search overlay's result list (`SearchModal`): a fixed catalogue of
 five entries filtered by case-insensitive substring match of the query
 against each entry's title, keeping catalogue order.
 */
module Search {
  import opened Text
  import SectionRouter

  /** One catalogue entry: its title, its group label and the route it opens. */
  datatype Entry = Entry(title: string, group: string, path: string)

  /** The catalogue's entries: two open markets and three pages. */
  const BtcMarket: Entry := Entry("BTC > $80k by Dec 31", "Markets", "/research")
  const ElectionMarket: Entry := Entry("US Election Winner 2024", "Markets", "/research")
  const TradingPage: Entry := Entry("Trading Terminal", "Pages", "/trading")
  const FeedPage: Entry := Entry("Live Feed", "Pages", "/feed")
  const PortfolioPage: Entry := Entry("Portfolio", "Pages", "/portfolio")

  /** The five entries of the overlay, in display order. */
  const Catalogue: seq<Entry> := [BtcMarket, ElectionMarket, TradingPage, FeedPage, PortfolioPage]

  /** `x.t.toLowerCase().includes(q.toLowerCase())`. */
  predicate Matches(e: Entry, q: string) {
    Contains(Lower(e.title), Lower(q))
  }

  /** `a` is `b` with some elements dropped and the rest kept in order. */
  predicate IsSubsequence<T(==)>(a: seq<T>, b: seq<T>)
    decreases |b|
  {
    if a == [] then true
    else if b == [] then false
    else (a[0] == b[0] && IsSubsequence(a[1..], b[1..])) || IsSubsequence(a, b[1..])
  }

  /** `xs.filter(x => Matches(x, q))`: the matching entries, in order, each as
      often as it occurs in `xs`, and no other. */
  function Filter(xs: seq<Entry>, q: string): (r: seq<Entry>)
    ensures IsSubsequence(r, xs)
    ensures forall e :: multiset(r)[e] == if Matches(e, q) then multiset(xs)[e] else 0
    ensures forall e :: e in r <==> e in xs && Matches(e, q)
  {
    if xs == [] then []
    else
      var rest := Filter(xs[1..], q);
      assert xs == [xs[0]] + xs[1..];
      if Matches(xs[0], q) then [xs[0]] + rest else rest
  }

  /** The list the overlay shows for query `q`. */
  function Results(q: string): seq<Entry> {
    Filter(Catalogue, q)
  }

  /** The filter only looks at the lower-cased query. */
  lemma {:induction false} FilterCaseInsensitive(xs: seq<Entry>, q1: string, q2: string)
    requires Lower(q1) == Lower(q2)
    ensures Filter(xs, q1) == Filter(xs, q2)
  {
    if xs != [] {
      FilterCaseInsensitive(xs[1..], q1, q2);
    }
  }

  /** When every entry matches, the filter hands back its input unchanged. */
  lemma {:induction false} FilterKeepsAll(xs: seq<Entry>, q: string)
    requires forall e :: e in xs ==> Matches(e, q)
    ensures Filter(xs, q) == xs
  {
    if xs != [] {
      assert Matches(xs[0], q);
      FilterKeepsAll(xs[1..], q);
      assert xs == [xs[0]] + xs[1..];
    }
  }

  /** When no entry matches, the filter is empty. */
  lemma FilterDropsAll(xs: seq<Entry>, q: string)
    requires forall e :: e in xs ==> !Matches(e, q)
    ensures Filter(xs, q) == []
  {
  }

  /** The empty query shows all five entries in catalogue order. */
  lemma EmptyQueryShowsAll()
    ensures Results("") == Catalogue
  {
    forall e | e in Catalogue ensures Matches(e, "") {
      ContainsEmpty(Lower(e.title));
    }
    FilterKeepsAll(Catalogue, "");
  }

  /** Queries that lower-case alike give the same results; in particular a
      query and its lower-cased form. */
  lemma ResultsCaseInsensitive(q1: string, q2: string)
    requires Lower(q1) == Lower(q2)
    ensures Results(q1) == Results(q2)
    ensures Results(q1) == Results(Lower(q1))
  {
    FilterCaseInsensitive(Catalogue, q1, q2);
    LowerIdempotent(q1);
    FilterCaseInsensitive(Catalogue, q1, Lower(q1));
  }

  /** The results are the catalogue entries, in catalogue order, whose lower-cased
      title contains the lower-cased query, and only those. */
  lemma ResultsAreMatchingEntries(q: string)
    ensures IsSubsequence(Results(q), Catalogue)
    ensures |Results(q)| <= |Catalogue|
    ensures forall e :: e in Results(q) <==> e in Catalogue && Matches(e, q)
  {
    var r := Filter(Catalogue, q);
    SubsequenceNoLonger(r, Catalogue);
  }

  lemma {:induction false} SubsequenceNoLonger<T>(a: seq<T>, b: seq<T>)
    requires IsSubsequence(a, b)
    ensures |a| <= |b|
    decreases |b|
  {
    if a != [] {
      if a[0] == b[0] && IsSubsequence(a[1..], b[1..]) {
        SubsequenceNoLonger(a[1..], b[1..]);
      } else {
        SubsequenceNoLonger(a, b[1..]);
      }
    }
  }

  /** Every catalogue entry opens a route of the router other than `/404`. */
  lemma CataloguePathsAreKnownRoutes()
    ensures forall e :: e in Catalogue ==> KnownTarget(e.path)
  {
  }

  /** A route the router names and that does not show the `NotFound` view. */
  predicate KnownTarget(path: string) {
    path in SectionRouter.SwitchedRoutes && SectionRouter.ResolveView(path) != SectionRouter.NotFound
  }

  /** Every result opens a route of the router other than `/404`. */
  lemma ResultPathsAreKnownRoutes(q: string, k: nat)
    requires k < |Results(q)|
    ensures KnownTarget(Results(q)[k].path)
  {
    CataloguePathsAreKnownRoutes();
    FilterElementsFromInput(Catalogue, q, k);
  }

  lemma FilterElementsFromInput(xs: seq<Entry>, q: string, k: nat)
    requires k < |Filter(xs, q)|
    ensures Filter(xs, q)[k] in xs
  {
    assert Filter(xs, q)[k] in Filter(xs, q);
  }

  /** An entry that does not match is skipped by the filter. */
  lemma FilterSkipsHead(x: Entry, ys: seq<Entry>, q: string)
    requires !Matches(x, q)
    ensures Filter([x] + ys, q) == Filter(ys, q)
  {
    assert ([x] + ys)[1..] == ys;
  }

  /** An entry that matches heads the filtered list. */
  lemma FilterKeepsHead(x: Entry, ys: seq<Entry>, q: string)
    requires Matches(x, q)
    ensures Filter([x] + ys, q) == [x] + Filter(ys, q)
  {
    assert ([x] + ys)[1..] == ys;
  }

  /** A title without a `v` in either case does not match a query that
      lower-cases to "live". */
  lemma NoLiveMatchWithoutV(e: Entry, q: string)
    requires Lower(q) == "live"
    requires forall i :: 0 <= i < |e.title| ==> e.title[i] != 'v' && e.title[i] != 'V'
    ensures !Matches(e, q)
  {
    LowerLacks(e.title, 'v');
    MissingCharExcludes(Lower(e.title), Lower(q), 2);
  }

  /** A title starting with "Live" matches a query that lower-cases to "live". */
  lemma LivePrefixMatches(e: Entry, q: string)
    requires Lower(q) == "live"
    requires |e.title| >= 4 && e.title[0] == 'L' && e.title[1] == 'i' && e.title[2] == 'v' && e.title[3] == 'e'
    ensures Matches(e, q)
  {
    assert Lower(e.title)[..4] == "live";
  }

  /* The four titles other than "Live Feed" have no `v`. Each is checked in a
     lemma of its own: together in one proof, the literal titles cost the
     solver far more than one at a time. */

  lemma BtcMarketMissesLive(q: string)
    requires Lower(q) == "live"
    ensures !Matches(BtcMarket, q)
  {
    var t := BtcMarket.title;
    forall i | 0 <= i < |t| ensures t[i] != 'v' && t[i] != 'V' { }
    NoLiveMatchWithoutV(BtcMarket, q);
  }

  lemma ElectionMarketMissesLive(q: string)
    requires Lower(q) == "live"
    ensures !Matches(ElectionMarket, q)
  {
    var t := ElectionMarket.title;
    forall i | 0 <= i < |t| ensures t[i] != 'v' && t[i] != 'V' { }
    NoLiveMatchWithoutV(ElectionMarket, q);
  }

  lemma TradingPageMissesLive(q: string)
    requires Lower(q) == "live"
    ensures !Matches(TradingPage, q)
  {
    var t := TradingPage.title;
    forall i | 0 <= i < |t| ensures t[i] != 'v' && t[i] != 'V' { }
    NoLiveMatchWithoutV(TradingPage, q);
  }

  lemma FeedPageMatchesLive(q: string)
    requires Lower(q) == "live"
    ensures Matches(FeedPage, q)
  {
    LivePrefixMatches(FeedPage, q);
  }

  lemma PortfolioPageMissesLive(q: string)
    requires Lower(q) == "live"
    ensures !Matches(PortfolioPage, q)
  {
    var t := PortfolioPage.title;
    forall i | 0 <= i < |t| ensures t[i] != 'v' && t[i] != 'V' { }
    NoLiveMatchWithoutV(PortfolioPage, q);
  }

  /** Filtering five entries of which only the fourth matches leaves the fourth. */
  lemma FilterOnlyFourth(e0: Entry, e1: Entry, e2: Entry, e3: Entry, e4: Entry, q: string)
    requires !Matches(e0, q) && !Matches(e1, q) && !Matches(e2, q)
    requires Matches(e3, q) && !Matches(e4, q)
    ensures Filter([e0] + ([e1] + ([e2] + ([e3] + ([e4] + [])))), q) == [e3]
  {
    FilterSkipsHead(e4, [], q);
    FilterKeepsHead(e3, [e4] + [], q);
    FilterSkipsHead(e2, [e3] + ([e4] + []), q);
    FilterSkipsHead(e1, [e2] + ([e3] + ([e4] + [])), q);
    FilterSkipsHead(e0, [e1] + ([e2] + ([e3] + ([e4] + []))), q);
  }

  /** The catalogue as a chain of one-entry concatenations, the form `FilterOnlyFourth` takes. */
  lemma CatalogueAsChain()
    ensures Catalogue == [BtcMarket] + ([ElectionMarket] + ([TradingPage] + ([FeedPage] + ([PortfolioPage] + []))))
  {
  }

  /** When the Live Feed page is the only matching entry, it is the only result. */
  lemma OnlyFeedMatchesShowsFeed(q: string)
    requires !Matches(BtcMarket, q) && !Matches(ElectionMarket, q) && !Matches(TradingPage, q)
    requires Matches(FeedPage, q) && !Matches(PortfolioPage, q)
    ensures Results(q) == [FeedPage]
  {
    CatalogueAsChain();
    FilterOnlyFourth(BtcMarket, ElectionMarket, TradingPage, FeedPage, PortfolioPage, q);
  }

  /** Typing "live" in any mix of cases lists the Live Feed page and nothing else. */
  lemma LiveQueryShowsFeed(q: string)
    requires Lower(q) == "live"
    ensures Results(q) == [FeedPage]
  {
    BtcMarketMissesLive(q);
    ElectionMarketMissesLive(q);
    TradingPageMissesLive(q);
    FeedPageMatchesLive(q);
    PortfolioPageMissesLive(q);
    OnlyFeedMatchesShowsFeed(q);
  }

  /** The query "live" shows exactly the entry for `/feed`. */
  lemma LiveQueryExample()
    ensures Results("live") == [Entry("Live Feed", "Pages", "/feed")]
  {
    assert Lower("live") == "live" by {
      assert LowerChar('l') == 'l' && LowerChar('i') == 'i';
      assert LowerChar('v') == 'v' && LowerChar('e') == 'e';
    }
    LiveQueryShowsFeed("live");
  }
}
