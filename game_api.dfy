/**
 * `GameMonetizeAPI` (JS/script.js:556-923): the object that fetches a category's games,
 * keeps the last list in `currentGames`, flags `isLoading` while remote feeds are read and
 * drives the games grid, plus the global `filterGames` and the first search handler that
 * call it. The grid is an abstract `Display` value; the network is a function from feed URL
 * to the outcome of its request; the random draws are numbered by the item's position in
 * the call.
 */
module GameApi {
  import opened Wrappers
  import opened Text
  import opened Catalog
  import opened Search

  /** What the games grid shows. */
  datatype Display =
    | Blank                      // nothing rendered yet
    | LoadingView                // `showLoadingState`
    | GamesView(games: seq<Game>) // `renderGames(games)`, possibly with no card
    | EmptyView(category: string) // `showEmptyState(category)`
    | ErrorView                  // `showErrorState`

  /** A request the object issues: a feed through the relay, or a file of the site. */
  datatype Request = Proxied(feedUrl: string) | Local(path: string)

  /** What the local custom resource yields: a rejected load, or its parsed JSON records. */
  datatype CustomResult = CustomFail | CustomJson(records: seq<Game>)

  datatype FetchError = CategoryNotFound | CustomLoadFailed

  /** The settled promise of `fetchGamesByCategory`: a returned list or a thrown error. */
  datatype FetchResult = Returned(games: seq<Game>) | Thrown(error: FetchError)

  /** The object's observable state: its two fields, the grid and the requests sent so far. */
  datatype ApiState = ApiState(currentGames: seq<Game>, isLoading: bool, display: Display, requests: seq<Request>)

  const PROXY_URL: string := "https://api.allorigins.win/raw?url="

  /** One relay request per feed URL, in order. */
  function ProxiedAll(urls: seq<string>): (rs: seq<Request>)
    ensures |rs| == |urls|
    ensures forall j :: 0 <= j < |urls| ==> rs[j] == Proxied(urls[j])
  {
    seq(|urls|, j requires 0 <= j < |urls| => Proxied(urls[j]))
  }

  /** The feeds requested before the loop stops: up to and including the first rejected one. */
  function RequestedFeeds(urls: seq<string>, net: string -> FeedResult): (sent: seq<string>)
    ensures |sent| <= |urls| && sent == urls[..|sent|]
    ensures sent == urls || (|sent| > 0 && net(sent[|sent| - 1]).NetFail?)
    ensures forall j :: 0 <= j < |sent| - 1 ==> net(sent[j]).Feed?
    ensures (forall j :: 0 <= j < |urls| ==> net(urls[j]).Feed?) ==> sent == urls
  {
    var k := FailIndex(urls, net);
    if k < |urls| then urls[..k + 1] else urls
  }

  /** The relay requests for one more feed are those for the feeds before it plus its own. */
  lemma ProxiedPrefixStep(sent: seq<Request>, urls: seq<string>, i: nat)
    requires i < |urls|
    ensures sent + ProxiedAll(urls[..i + 1]) == sent + ProxiedAll(urls[..i]) + [Proxied(urls[i])]
  {
    assert ProxiedAll(urls[..i + 1]) == ProxiedAll(urls[..i]) + [Proxied(urls[i])];
  }

  /** When no request is rejected, every feed of the list is requested. */
  lemma AllFeedsRequested(urls: seq<string>, net: string -> FeedResult)
    requires FailIndex(urls, net) == |urls|
    ensures RequestedFeeds(urls, net) == urls
  {
  }

  /** Aggregating one more feed is one more round of the loop. */
  lemma AggregatePrefixStep(urls: seq<string>, net: string -> FeedResult, category: string, rng: nat -> Draw, i: nat)
    requires i < |urls|
    ensures Aggregate(urls[..i + 1], net, category, rng) == AddFeed(Aggregate(urls[..i], net, category, rng), net(urls[i]), category, rng)
  {
    assert urls[..i + 1][..i] == urls[..i];
  }

  /** A delivered feed extends the aggregation by its games, and the first rejection lies further on. */
  lemma DeliveredFeedStep(urls: seq<string>, net: string -> FeedResult, category: string, rng: nat -> Draw, i: nat, prev: seq<Game>, items: seq<RawItem>)
    requires i < |urls| && net(urls[i]) == Feed(items)
    requires i <= FailIndex(urls, net)
    requires Aggregate(urls[..i], net, category, rng) == Some(prev)
    ensures Aggregate(urls[..i + 1], net, category, rng)
      == Some(if |items| > 0 then prev + NormalizeFeed(items, category, rng, |prev|) else prev)
    ensures i + 1 <= FailIndex(urls, net)
  {
    AggregatePrefixStep(urls, net, category, rng, i);
  }

  /** The first rejected feed ends the loop: the call fails, and the feeds up to it were requested. */
  lemma FailedFeedEndsLoop(urls: seq<string>, net: string -> FeedResult, category: string, rng: nat -> Draw, i: nat)
    requires i < |urls| && net(urls[i]).NetFail?
    requires i <= FailIndex(urls, net)
    ensures Aggregate(urls, net, category, rng).None?
    ensures RequestedFeeds(urls, net) == urls[..i + 1]
  {
    assert FailIndex(urls, net) == i;
    AggregateSomeIff(urls, net, category, rng);
  }

  /** `fetchGamesByCategory(category)` as a transition of the object's state (JS/script.js:564-644). */
  function FetchTransition(s: ApiState, category: string, net: string -> FeedResult, custom: CustomResult, rng: nat -> Draw): (ApiState, FetchResult)
  {
    if category !in GAME_FEEDS then (s, Thrown(CategoryNotFound))
    else
      var urls := GAME_FEEDS[category];
      if IsCustom(urls) then
        if urls[0] == FLIPLINE_SOURCE then
          var loaded := s.(requests := s.requests + [Local(FLIPLINE_RESOURCE)]);
          match custom
          case CustomFail => (loaded, Thrown(CustomLoadFailed))
          case CustomJson(records) => (loaded.(currentGames := records, display := GamesView(records)), Returned(records))
        else
          (s.(currentGames := [], display := GamesView([])), Returned([]))
      else
        RemoteTransition(s, urls, category, net, rng)
  }

  /** The `try`/`catch`/`finally` block over the feeds of a non-custom category (JS/script.js:593-643). */
  function RemoteTransition(s: ApiState, urls: seq<string>, category: string, net: string -> FeedResult, rng: nat -> Draw): (ApiState, FetchResult)
  {
    var sent := s.requests + ProxiedAll(RequestedFeeds(urls, net));
    match Aggregate(urls, net, category, rng)
    case None => (s.(isLoading := false, display := ErrorView, requests := sent), Returned([]))
    case Some(games) =>
      var view := if games == [] then EmptyView(category) else GamesView(games);
      (s.(currentGames := games, isLoading := false, display := view, requests := sent), Returned(games))
  }

  /** `searchGames(query)`: fetch 'all', filter it and render the filtered list (JS/script.js:913-922). */
  function SearchTransition(s: ApiState, query: string, net: string -> FeedResult, custom: CustomResult, rng: nat -> Draw): (ApiState, FetchResult)
  {
    var (fetched, r) := FetchTransition(s, "all", net, custom, rng);
    match r
    case Thrown(_) => (fetched, r)
    case Returned(games) =>
      var found := SearchFilter(games, query);
      (fetched.(display := GamesView(found)), Returned(found))
  }

  /** `filterGames(category)`: a thrown fetch is caught and shown as the error view (JS/script.js:933-958). */
  function FilterTransition(s: ApiState, category: string, net: string -> FeedResult, custom: CustomResult, rng: nat -> Draw): ApiState
  {
    var (fetched, r) := FetchTransition(s, category, net, custom, rng);
    if r.Thrown? then fetched.(display := ErrorView) else fetched
  }

  /** An unknown category throws before anything is requested or changed. */
  lemma UnknownCategoryChangesNothing(s: ApiState, category: string, net: string -> FeedResult, custom: CustomResult, rng: nat -> Draw)
    requires category !in GAME_FEEDS
    ensures FetchTransition(s, category, net, custom, rng) == (s, Thrown(CategoryNotFound))
    ensures FilterTransition(s, category, net, custom, rng) == s.(display := ErrorView)
  {
  }

  /**
   * The remote path: `isLoading` ends false and only relay requests are sent. Either every
   * feed request succeeds, and the aggregation is both returned and stored, the grid showing
   * it or the empty state; or one is rejected, and the call returns [], shows the error view
   * and leaves `currentGames` as it was, whatever the other feeds held.
   */
  lemma RemoteFetchOutcome(s: ApiState, category: string, net: string -> FeedResult, custom: CustomResult, rng: nat -> Draw)
    requires category in GAME_FEEDS && !IsCustom(GAME_FEEDS[category])
    ensures var urls := GAME_FEEDS[category];
      var (s', r) := FetchTransition(s, category, net, custom, rng);
      && !s'.isLoading
      && r.Returned?
      && (forall j :: |s.requests| <= j < |s'.requests| ==> s'.requests[j].Proxied?)
      && ((forall k :: 0 <= k < |urls| ==> net(urls[k]).Feed?) ==>
            && s'.currentGames == r.games
            && |r.games| == ItemCount(urls, net)
            && s'.requests == s.requests + ProxiedAll(urls)
            && s'.display == (if r.games == [] then EmptyView(category) else GamesView(r.games)))
      && ((exists k :: 0 <= k < |urls| && net(urls[k]).NetFail?) ==>
            && r.games == []
            && s'.currentGames == s.currentGames
            && s'.display == ErrorView)
  {
    var urls := GAME_FEEDS[category];
    AggregateSomeIff(urls, net, category, rng);
    if Aggregate(urls, net, category, rng).Some? {
      AggregateLength(urls, net, category, rng);
    }
  }

  /** Every game a remote fetch returns is well formed and carries the requested category. */
  lemma RemoteGamesWellFormed(s: ApiState, category: string, net: string -> FeedResult, custom: CustomResult, rng: nat -> Draw)
    requires category in GAME_FEEDS && !IsCustom(GAME_FEEDS[category])
    ensures forall g :: g in FetchTransition(s, category, net, custom, rng).1.games ==> WellFormedRemote(g, category)
  {
    if Aggregate(GAME_FEEDS[category], net, category, rng).Some? {
      AggregateWellFormed(GAME_FEEDS[category], net, category, rng);
    }
  }

  /**
   * The custom category reads one local file and no relay feed, leaves `isLoading` alone,
   * and returns and stores the file's records unchanged: no defaulting, no rating or player
   * synthesis. A failed load throws and changes nothing but the request log.
   */
  lemma CustomFetchPassesThrough(s: ApiState, net: string -> FeedResult, custom: CustomResult, rng: nat -> Draw)
    ensures var (s', r) := FetchTransition(s, "flipline", net, custom, rng);
      && s'.requests == s.requests + [Local(FLIPLINE_RESOURCE)]
      && s'.isLoading == s.isLoading
      && (custom.CustomJson? ==> r == Returned(custom.records) && s'.currentGames == custom.records && s'.display == GamesView(custom.records))
      && (custom.CustomFail? ==> r == Thrown(CustomLoadFailed) && s'.currentGames == s.currentGames && s'.display == s.display)
  {
    FeedTableShape();
  }

  /**
   * `searchGames` never throws; it returns exactly the games of the 'all' feed that match, in
   * feed order, and renders them. When the 'all' request fails it returns [] and renders an
   * empty grid over the error view.
   */
  lemma SearchOutcome(s: ApiState, query: string, net: string -> FeedResult, custom: CustomResult, rng: nat -> Draw)
    ensures var (s', r) := SearchTransition(s, query, net, custom, rng);
      var all := Aggregate(GAME_FEEDS["all"], net, "all", rng);
      && r.Returned?
      && s'.display == GamesView(r.games)
      && !s'.isLoading
      && (all.Some? ==> r.games == SearchFilter(all.value, query) && s'.currentGames == all.value)
      && (all.None? ==> r.games == [] && s'.currentGames == s.currentGames)
      && (forall g :: g in r.games ==> g.category == "all")
  {
    FeedTableShape();
    RemoteGamesWellFormed(s, "all", net, custom, rng);
    var all := Aggregate(GAME_FEEDS["all"], net, "all", rng);
    if all.None? {
      assert SearchFilter([], query) == [];
    }
  }

  class GameMonetizeAPI {
    const proxyUrl: string
    var currentGames: seq<Game>
    var isLoading: bool
    var display: Display
    var requests: seq<Request>

    function State(): ApiState
      reads this
    {
      ApiState(currentGames, isLoading, display, requests)
    }

    constructor ()
      ensures proxyUrl == PROXY_URL
      ensures State() == ApiState([], false, Blank, [])
    {
      proxyUrl := PROXY_URL;
      currentGames := [];
      isLoading := false;
      display := Blank;
      requests := [];
    }

    /** `fetchGamesByCategory`: the loop reads the feeds in order and concatenates their games. */
    method FetchGamesByCategory(category: string, net: string -> FeedResult, custom: CustomResult, rng: nat -> Draw)
      returns (r: FetchResult)
      modifies this
      ensures (State(), r) == FetchTransition(old(State()), category, net, custom, rng)
    {
      if category !in GAME_FEEDS {
        return Thrown(CategoryNotFound);
      }
      var feedUrls := GAME_FEEDS[category];
      if |feedUrls| > 0 && StartsWith(feedUrls[0], CUSTOM_PREFIX) {
        if feedUrls[0] == FLIPLINE_SOURCE {
          requests := requests + [Local(FLIPLINE_RESOURCE)];
          match custom
          case CustomFail =>
            return Thrown(CustomLoadFailed);
          case CustomJson(records) =>
            currentGames := records;
            display := GamesView(records);
            return Returned(records);
        }
        currentGames := [];
        display := GamesView([]);
        return Returned([]);
      }

      r := FetchRemote(feedUrls, category, net, rng);
    }

    /** The remote path: show the loading state, read the feeds, then show the outcome. */
    method FetchRemote(feedUrls: seq<string>, category: string, net: string -> FeedResult, rng: nat -> Draw)
      returns (r: FetchResult)
      modifies this
      ensures (State(), r) == RemoteTransition(old(State()), feedUrls, category, net, rng)
    {
      isLoading := true;
      display := LoadingView;
      var outcome := ReadFeeds(feedUrls, category, net, rng);
      match outcome
      case None =>
        display := ErrorView;
        isLoading := false;
        return Returned([]);
      case Some(allGames) =>
        currentGames := allGames;
        if |allGames| == 0 {
          display := EmptyView(category);
        } else {
          display := GamesView(allGames);
        }
        isLoading := false;
        return Returned(allGames);
    }

    /**
     * The `for` loop of the remote path: one relay request per feed, in order, each delivered
     * feed's games appended to the list; the first rejected request ends the loop.
     */
    method ReadFeeds(feedUrls: seq<string>, category: string, net: string -> FeedResult, rng: nat -> Draw)
      returns (outcome: Option<seq<Game>>)
      modifies this
      ensures outcome == Aggregate(feedUrls, net, category, rng)
      ensures requests == old(requests) + ProxiedAll(RequestedFeeds(feedUrls, net))
      ensures currentGames == old(currentGames) && isLoading == old(isLoading) && display == old(display)
    {
      var allGames: seq<Game> := [];
      var i := 0;
      while i < |feedUrls|
        invariant 0 <= i <= |feedUrls|
        invariant i <= FailIndex(feedUrls, net)
        invariant Aggregate(feedUrls[..i], net, category, rng) == Some(allGames)
        invariant requests == old(requests) + ProxiedAll(feedUrls[..i])
        invariant currentGames == old(currentGames) && isLoading == old(isLoading) && display == old(display)
      {
        ProxiedPrefixStep(old(requests), feedUrls, i);
        requests := requests + [Proxied(feedUrls[i])];
        match net(feedUrls[i])
        case NetFail =>
          FailedFeedEndsLoop(feedUrls, net, category, rng, i);
          return None;
        case Feed(items) =>
          DeliveredFeedStep(feedUrls, net, category, rng, i, allGames, items);
          if |items| > 0 {
            var games := NormalizeFeed(items, category, rng, |allGames|);
            allGames := allGames + games;
          }
          i := i + 1;
      }
      assert feedUrls[..i] == feedUrls;
      AllFeedsRequested(feedUrls, net);
      return Some(allGames);
    }

    /** `searchGames(query)`; a throw of the fetch would propagate unrendered. */
    method SearchGames(query: string, net: string -> FeedResult, custom: CustomResult, rng: nat -> Draw)
      returns (r: FetchResult)
      modifies this
      ensures (State(), r) == SearchTransition(old(State()), query, net, custom, rng)
    {
      var fetched := FetchGamesByCategory("all", net, custom, rng);
      r := if fetched.Returned? then Returned(SearchFilter(fetched.games, query)) else fetched;
      if r.Returned? {
        display := GamesView(r.games);
      }
    }
  }

  /** The global `filterGames(category)`, without the sidebar highlight. */
  method FilterGames(api: GameMonetizeAPI, category: string, net: string -> FeedResult, custom: CustomResult, rng: nat -> Draw)
    modifies api
    ensures api.State() == FilterTransition(old(api.State()), category, net, custom, rng)
  {
    var r := api.FetchGamesByCategory(category, net, custom, rng);
    if r.Thrown? {
      api.display := ErrorView;
    }
  }

  /** The input handler of the first `setupSearchListeners`, once the debounce has fired. */
  method FirstSearchHandler(api: GameMonetizeAPI, value: string, net: string -> FeedResult, custom: CustomResult, rng: nat -> Draw)
    modifies api
    ensures match FirstHandlerAction(value)
      case RunSearch(term) => api.State() == SearchTransition(old(api.State()), term, net, custom, rng).0
      case RestoreAll => api.State() == FilterTransition(old(api.State()), "all", net, custom, rng)
      case NoChange => api.State() == old(api.State())
  {
    var action := FirstHandlerAction(value);
    match action
    case RunSearch(term) =>
      var _ := api.SearchGames(term, net, custom, rng);
    case RestoreAll =>
      FilterGames(api, "all", net, custom, rng);
    case NoChange =>
  }
}
