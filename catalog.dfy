/**
 * The game catalog: the static category-to-feed table, the normalisation of one feed
 * `<item>` into a game record, and the aggregation of a category's feeds in table order
 * (JS/script.js, `GAME_FEEDS` and the body of `GameMonetizeAPI.fetchGamesByCategory`).
 */
module Catalog {
  import opened Wrappers
  import opened Text

  /** A width or height: the element's text, kept unparsed, or the numeric default. */
  datatype Dim = DimText(text: string) | DimNum(n: int) {
    /** JavaScript truthiness of the value: `""` and `0` are falsy. */
    predicate Truthy() {
      match this
      case DimText(t) => t != ""
      case DimNum(n) => n != 0
    }
  }

  /** The record the page keeps for each game and hands to the renderer. */
  datatype Game = Game(
    id: string,
    title: string,
    description: string,
    url: string,
    thumb: string,
    width: Dim,
    height: Dim,
    category: string,
    rating: string,
    players: int)

  /**
   * One `<item>` of a feed document: for each sub-element, its text content, or None when
   * the item has no such element.
   */
  datatype RawItem = RawItem(
    id: Option<string>,
    title: Option<string>,
    description: Option<string>,
    url: Option<string>,
    thumb: Option<string>,
    width: Option<string>,
    height: Option<string>)

  /**
   * What one proxied feed request yields: a rejected request, or the `<item>` elements of
   * the body. A body that does not parse as XML yields no items; it does not fail.
   */
  datatype FeedResult = NetFail | Feed(items: seq<RawItem>)

  /** `Math.floor(Math.random() * 4)` and `Math.floor(Math.random() * 200000)`. */
  type RatingIndex = i: int | 0 <= i < 4
  type PlayersDraw = i: int | 0 <= i < 200000

  /** The two random draws made for one normalised item (rating first, then players). */
  datatype Draw = Draw(ratingIndex: RatingIndex, playersDraw: PlayersDraw)

  const CUSTOM_PREFIX: string := "custom:"
  const FLIPLINE_SOURCE: string := "custom:flipline"
  const FLIPLINE_RESOURCE: string := "/data/flipline.json"

  /** The part every GameMonetize feed URL of the table starts with. */
  const FEED_BASE: string := "https://gamemonetize.com/feed.php?format=1"

  /** A GameMonetize feed URL: the common base followed by the query of one table entry. */
  function FeedUrl(query: string): (u: string)
    ensures |u| > 0 && u[0] == 'h'
  {
    FEED_BASE + query
  }

  /** Category key to its ordered list of feed URLs (JS/script.js:523-550). */
  const GAME_FEEDS: map<string, seq<string>> := map[
    "all" := [FeedUrl("&num=200&page=1")],
    "action" := [FeedUrl("&name=action&num=50&page=1")],
    "adventure" := [
      FeedUrl("&category=4&num=50&page=1"),
      FeedUrl("&name=watergirl&category=4&num=100&page=1")],
    "puzzle" := [FeedUrl("&name=puzzle&num=50&page=1")],
    "girls" := [
      FeedUrl("&name=dress&category=10&num=100&page=1"),
      FeedUrl("&name=date&category=10&num=100&page=1")],
    "racing" := [
      FeedUrl("&name=rac&category=14&num=100&page=1"),
      FeedUrl("&name=car&category=14&num=100&page=1")],
    "sports" := [FeedUrl("&category=17&num=50&page=1")],
    "arcade" := [
      FeedUrl("&name=Horror Eyes Escape&num=100&page=1"),
      FeedUrl("&name=Escape Your Birthday&num=50&page=1"),
      FeedUrl("&name=Escape The TEMPLE&page=1"),
      FeedUrl("&name=Grimace Birthday Escape&page=1"),
      FeedUrl("&name=Stickman Story&page=1"),
      FeedUrl("&name=Ghost Bunker Escape 2&page=1"),
      FeedUrl("&name=Ghost Town Escape&page=1"),
      FeedUrl("&name=Samurai Escape&page=1"),
      FeedUrl("&name=3 Minutes To Escape&page=1"),
      FeedUrl("&name=tower escape&page=1")],
    "simulation" := [FeedUrl("&name=restaurant&num=100&page=1")],
    "flipline" := [FLIPLINE_SOURCE]
  ]

  /** A category whose first feed URL carries the `custom:` prefix skips the remote path. */
  predicate IsCustom(urls: seq<string>) {
    |urls| > 0 && StartsWith(urls[0], CUSTOM_PREFIX)
  }

  /** Every table entry has a first URL, and only `flipline` takes the custom path. */
  lemma FeedTableShape()
    ensures forall k :: k in GAME_FEEDS ==> |GAME_FEEDS[k]| > 0
    ensures forall k :: k in GAME_FEEDS ==> (IsCustom(GAME_FEEDS[k]) <==> k == "flipline")
    ensures GAME_FEEDS["flipline"] == [FLIPLINE_SOURCE]
  {
    forall k | k in GAME_FEEDS && k != "flipline"
      ensures !IsCustom(GAME_FEEDS[k])
    {
      var u := GAME_FEEDS[k][0];
      assert u[..7][0] == u[0];
    }
    assert FLIPLINE_SOURCE[..7] == CUSTOM_PREFIX;
  }

  const FOUR_STARS: string := "★★★★☆"
  const FIVE_STARS: string := "★★★★★"
  const RATINGS: seq<string> := [FOUR_STARS, FIVE_STARS, FOUR_STARS, FIVE_STARS]

  /** `generateRating`: one entry of the fixed four-entry rating list. */
  function GenerateRating(d: RatingIndex): (r: string)
    ensures r == FOUR_STARS || r == FIVE_STARS
    ensures r == FIVE_STARS <==> d % 2 == 1
  {
    RATINGS[d]
  }

  /** `generatePlayerCount`: a fake player count in [10000, 210000). */
  function GeneratePlayerCount(d: PlayersDraw): (p: int)
    ensures 10000 <= p < 210000
    ensures p - 10000 == d
  {
    d + 10000
  }

  /** `element?.textContent || fallback` for a text field. */
  function TextOr(field: Option<string>, fallback: string): (r: string)
    ensures r == fallback || (field == Some(r) && r != "")
    ensures field.Some? && field.value != "" ==> r == field.value
  {
    if field.Some? && field.value != "" then field.value else fallback
  }

  /** `element?.textContent || fallback` for a width or height: the text stays unparsed. */
  function DimOr(field: Option<string>, fallback: int): (r: Dim)
    ensures r == DimNum(fallback) || (r.DimText? && field == Some(r.text) && r.text != "")
    ensures field.Some? && field.value != "" ==> r == DimText(field.value)
  {
    if field.Some? && field.value != "" then DimText(field.value) else DimNum(fallback)
  }

  const UNTITLED: string := "Jogo sem título"
  const NO_DESCRIPTION: string := "Descrição não disponível"
  const NO_URL: string := "#"
  const PLACEHOLDER_THUMB: string := "/placeholder.jpg"
  const DEFAULT_WIDTH: int := 800
  const DEFAULT_HEIGHT: int := 600

  /** The id given to an item without one: `game-<index within its feed>`. */
  function FallbackId(index: nat): (r: string)
    ensures StartsWith(r, "game-") && |r| > 5
    ensures r[5..] == NatToString(index)
  {
    "game-" + NatToString(index)
  }

  /** Different positions of one feed give different fallback ids. */
  lemma FallbackIdInjective(i: nat, j: nat)
    requires FallbackId(i) == FallbackId(j)
    ensures i == j
  {
    NatToStringInjective(i, j);
  }

  /** The record built for the item at position `index` of its feed (JS/script.js:611-622). */
  function NormalizeItem(item: RawItem, index: nat, category: string, d: Draw): (g: Game)
    ensures g.category == category
    ensures g.rating == FOUR_STARS || g.rating == FIVE_STARS
    ensures 10000 <= g.players < 210000
  {
    Game(
      TextOr(item.id, FallbackId(index)),
      TextOr(item.title, UNTITLED),
      TextOr(item.description, NO_DESCRIPTION),
      TextOr(item.url, NO_URL),
      TextOr(item.thumb, PLACEHOLDER_THUMB),
      DimOr(item.width, DEFAULT_WIDTH),
      DimOr(item.height, DEFAULT_HEIGHT),
      category,
      GenerateRating(d.ratingIndex),
      GeneratePlayerCount(d.playersDraw))
  }

  /**
   * What every remotely sourced game satisfies: no empty text field, a truthy width and
   * height, the requested category and synthesised rating and player count in range.
   */
  predicate WellFormedRemote(g: Game, category: string) {
    && g.id != "" && g.title != "" && g.description != "" && g.url != "" && g.thumb != ""
    && g.width.Truthy() && g.height.Truthy()
    && g.category == category
    && (g.rating == FOUR_STARS || g.rating == FIVE_STARS)
    && 10000 <= g.players < 210000
  }

  /**
   * Each field keeps the item's text when it is present and non-empty and otherwise takes
   * its default, so the result is well formed whatever the item holds.
   */
  lemma NormalizeItemDefaults(item: RawItem, index: nat, category: string, d: Draw)
    ensures var g := NormalizeItem(item, index, category, d);
      && (g.id == (if item.id.Some? && item.id.value != "" then item.id.value else FallbackId(index)))
      && (g.title == (if item.title.Some? && item.title.value != "" then item.title.value else UNTITLED))
      && (g.description == (if item.description.Some? && item.description.value != "" then item.description.value else NO_DESCRIPTION))
      && (g.url == (if item.url.Some? && item.url.value != "" then item.url.value else NO_URL))
      && (g.thumb == (if item.thumb.Some? && item.thumb.value != "" then item.thumb.value else PLACEHOLDER_THUMB))
      && (g.width == (if item.width.Some? && item.width.value != "" then DimText(item.width.value) else DimNum(800)))
      && (g.height == (if item.height.Some? && item.height.value != "" then DimText(item.height.value) else DimNum(600)))
      && WellFormedRemote(g, category)
  {
  }

  /** Whatever the item holds, its record is well formed. */
  lemma NormalizeItemWellFormed(item: RawItem, index: nat, category: string, d: Draw)
    ensures WellFormedRemote(NormalizeItem(item, index, category, d), category)
  {
    assert |FallbackId(index)| > 5;
  }

  /** `Array.from(items).map((item, index) => ...)` with the draws numbered from `base`. */
  function NormalizeFeed(items: seq<RawItem>, category: string, rng: nat -> Draw, base: nat): (gs: seq<Game>)
    ensures |gs| == |items|
  {
    seq(|items|, i requires 0 <= i < |items| => NormalizeItem(items[i], i, category, rng(base + i)))
  }

  /** Game `i` of a feed is built from item `i`, with `i` as its index and the draw numbered `base + i`. */
  lemma NormalizeFeedAt(items: seq<RawItem>, category: string, rng: nat -> Draw, base: nat, i: nat)
    requires i < |items|
    ensures NormalizeFeed(items, category, rng, base)[i] == NormalizeItem(items[i], i, category, rng(base + i))
  {
  }

  /** Within one feed, items without an id get pairwise different fallback ids. */
  lemma FeedFallbackIdsDistinct(items: seq<RawItem>, category: string, rng: nat -> Draw, base: nat, i: nat, j: nat)
    requires i < j < |items|
    requires items[i].id.None? && items[j].id.None?
    ensures NormalizeFeed(items, category, rng, base)[i].id != NormalizeFeed(items, category, rng, base)[j].id
  {
    var gs := NormalizeFeed(items, category, rng, base);
    if gs[i].id == gs[j].id {
      NormalizeFeedAt(items, category, rng, base, i);
      NormalizeFeedAt(items, category, rng, base, j);
      assert gs[i].id == FallbackId(i) && gs[j].id == FallbackId(j);
      FallbackIdInjective(i, j);
    }
  }

  /** The number of items the successful feeds among `urls` deliver. */
  function ItemCount(urls: seq<string>, net: string -> FeedResult): nat
    decreases |urls|
  {
    if urls == [] then 0
    else
      var n := ItemCount(urls[..|urls| - 1], net);
      match net(urls[|urls| - 1])
      case NetFail => n
      case Feed(items) => n + |items|
  }

  /**
   * The remote path of `fetchGamesByCategory`: the feeds are taken in table order and
   * their normalised lists concatenated; any rejected request makes the whole result None.
   */
  function Aggregate(urls: seq<string>, net: string -> FeedResult, category: string, rng: nat -> Draw): Option<seq<Game>>
    decreases |urls|
  {
    if urls == [] then Some([])
    else AddFeed(Aggregate(urls[..|urls| - 1], net, category, rng), net(urls[|urls| - 1]), category, rng)
  }

  /**
   * One round of the feed loop: a delivered feed appends its normalised items, numbered
   * after the games gathered so far; a rejected request ends the run.
   */
  function AddFeed(acc: Option<seq<Game>>, feed: FeedResult, category: string, rng: nat -> Draw): Option<seq<Game>>
  {
    match acc
    case None => None
    case Some(prev) =>
      match feed
      case NetFail => None
      case Feed(items) => Some(if |items| > 0 then prev + NormalizeFeed(items, category, rng, |prev|) else prev)
  }

  /** A delivered feed keeps the games gathered so far where they were. */
  lemma AddFeedKeeps(acc: Option<seq<Game>>, feed: FeedResult, category: string, rng: nat -> Draw, p: nat)
    requires AddFeed(acc, feed, category, rng).Some?
    requires acc.Some? && p < |acc.value|
    ensures var gs := AddFeed(acc, feed, category, rng).value;
      p < |gs| && gs[p] == acc.value[p]
  {
  }

  /** Item `i` of a delivered feed lands right after the games gathered so far. */
  lemma AddFeedAppends(acc: Option<seq<Game>>, feed: FeedResult, category: string, rng: nat -> Draw, i: nat)
    requires AddFeed(acc, feed, category, rng).Some?
    requires feed.Feed? && i < |feed.items|
    ensures acc.Some?
    ensures var gs := AddFeed(acc, feed, category, rng).value;
      && |acc.value| + i < |gs|
      && gs[|acc.value| + i] == NormalizeFeed(feed.items, category, rng, |acc.value|)[i]
  {
  }

  /** Position of the first rejected request, or |urls| when no feed fails. */
  function FailIndex(urls: seq<string>, net: string -> FeedResult): (k: nat)
    ensures k <= |urls|
    ensures forall j :: 0 <= j < k ==> net(urls[j]).Feed?
    ensures k < |urls| ==> net(urls[k]).NetFail?
  {
    if urls == [] then 0
    else if net(urls[0]).NetFail? then 0
    else 1 + FailIndex(urls[1..], net)
  }

  /** The aggregation succeeds exactly when no feed request is rejected. */
  lemma {:induction false} AggregateSomeIff(urls: seq<string>, net: string -> FeedResult, category: string, rng: nat -> Draw)
    ensures Aggregate(urls, net, category, rng).Some? <==> forall k :: 0 <= k < |urls| ==> net(urls[k]).Feed?
    decreases |urls|
  {
    if urls != [] {
      var init := urls[..|urls| - 1];
      AggregateSomeIff(init, net, category, rng);
      assert forall k :: 0 <= k < |init| ==> init[k] == urls[k];
    }
  }

  /** Equivalently: it fails exactly when the first rejected request lies inside the list. */
  lemma AggregateNoneIff(urls: seq<string>, net: string -> FeedResult, category: string, rng: nat -> Draw)
    ensures Aggregate(urls, net, category, rng).None? <==> FailIndex(urls, net) < |urls|
  {
    AggregateSomeIff(urls, net, category, rng);
  }

  /**
   * The successful result is laid out feed after feed: it has one game per item, and the
   * game for item `i` of feed `k` sits after all items of the earlier feeds, built from that
   * item with its index inside its own feed.
   */
  lemma AggregateLayout(urls: seq<string>, net: string -> FeedResult, category: string, rng: nat -> Draw, k: nat, i: nat)
    requires Aggregate(urls, net, category, rng).Some?
    requires k < |urls| && net(urls[k]).Feed? && i < |net(urls[k]).items|
    ensures var gs := Aggregate(urls, net, category, rng).value;
      var o := ItemCount(urls[..k], net);
      && o + i < |gs|
      && gs[o + i] == NormalizeItem(net(urls[k]).items[i], i, category, rng(o + i))
  {
    AggregateFeedAt(urls, net, category, rng, k, i);
    NormalizeFeedAt(net(urls[k]).items, category, rng, ItemCount(urls[..k], net), i);
  }

  /** The same layout, with feed `k` normalised as a whole from its offset. */
  lemma {:induction false} AggregateFeedAt(urls: seq<string>, net: string -> FeedResult, category: string, rng: nat -> Draw, k: nat, i: nat)
    requires Aggregate(urls, net, category, rng).Some?
    requires k < |urls| && net(urls[k]).Feed? && i < |net(urls[k]).items|
    ensures var gs := Aggregate(urls, net, category, rng).value;
      var o := ItemCount(urls[..k], net);
      && o + i < |gs|
      && gs[o + i] == NormalizeFeed(net(urls[k]).items, category, rng, o)[i]
    decreases |urls|
  {
    var init := urls[..|urls| - 1];
    if k == |urls| - 1 {
      AggregateLastFeed(urls, net, category, rng, i);
    } else {
      assert init[..k] == urls[..k];
      assert init[k] == urls[k];
      AggregateFeedAt(init, net, category, rng, k, i);
      AggregateLength(init, net, category, rng);
      AddFeedKeeps(Aggregate(init, net, category, rng), net(urls[|urls| - 1]), category, rng, ItemCount(urls[..k], net) + i);
    }
  }

  /** The games of the last feed follow those of all earlier feeds. */
  lemma AggregateLastFeed(urls: seq<string>, net: string -> FeedResult, category: string, rng: nat -> Draw, i: nat)
    requires urls != [] && Aggregate(urls, net, category, rng).Some?
    requires net(urls[|urls| - 1]).Feed? && i < |net(urls[|urls| - 1]).items|
    ensures var gs := Aggregate(urls, net, category, rng).value;
      var o := ItemCount(urls[..|urls| - 1], net);
      && o + i < |gs|
      && gs[o + i] == NormalizeFeed(net(urls[|urls| - 1]).items, category, rng, o)[i]
  {
    var init := urls[..|urls| - 1];
    AddFeedAppends(Aggregate(init, net, category, rng), net(urls[|urls| - 1]), category, rng, i);
    AggregateLength(init, net, category, rng);
  }

  /** The successful result holds exactly one game per delivered item: no item is dropped or merged. */
  lemma {:induction false} AggregateLength(urls: seq<string>, net: string -> FeedResult, category: string, rng: nat -> Draw)
    requires Aggregate(urls, net, category, rng).Some?
    ensures |Aggregate(urls, net, category, rng).value| == ItemCount(urls, net)
    decreases |urls|
  {
    if urls != [] {
      AggregateLength(urls[..|urls| - 1], net, category, rng);
    }
  }

  /** Every game of a successful aggregation is well formed and carries the requested category. */
  lemma {:induction false} AggregateWellFormed(urls: seq<string>, net: string -> FeedResult, category: string, rng: nat -> Draw)
    requires Aggregate(urls, net, category, rng).Some?
    ensures forall g :: g in Aggregate(urls, net, category, rng).value ==> WellFormedRemote(g, category)
    decreases |urls|
  {
    if urls != [] {
      var init := urls[..|urls| - 1];
      AggregateWellFormed(init, net, category, rng);
      match net(urls[|urls| - 1])
      case Feed(items) =>
        var prev := Aggregate(init, net, category, rng).value;
        var feed := NormalizeFeed(items, category, rng, |prev|);
        forall i | 0 <= i < |items|
          ensures WellFormedRemote(feed[i], category)
        {
          NormalizeFeedAt(items, category, rng, |prev|, i);
          NormalizeItemWellFormed(items[i], i, category, rng(|prev| + i));
        }
        assert Aggregate(urls, net, category, rng).value == if |items| > 0 then prev + feed else prev;
    }
  }

  /** A feed that delivers no items adds nothing to the aggregation. */
  lemma EmptyFeedAddsNothing(urls: seq<string>, u: string, net: string -> FeedResult, category: string, rng: nat -> Draw)
    requires net(u) == Feed([])
    ensures Aggregate(urls + [u], net, category, rng) == Aggregate(urls, net, category, rng)
  {
    assert (urls + [u])[..|urls + [u]| - 1] == urls;
  }

  /**
   * Ids are not unique across feeds: two feeds whose first items lack an id both produce
   * `game-0`, and both games are kept.
   */
  lemma IdsRepeatAcrossFeeds(net: string -> FeedResult, rng: nat -> Draw)
    requires net("a") == Feed([RawItem(None, None, None, None, None, None, None)])
    requires net("b") == Feed([RawItem(Some(""), None, None, None, None, None, None)])
    ensures Aggregate(["a", "b"], net, "adventure", rng).Some?
    ensures var gs := Aggregate(["a", "b"], net, "adventure", rng).value;
      |gs| == 2 && gs[0].id == "game-0" && gs[1].id == "game-0"
  {
    assert ["a", "b"][..1] == ["a"];
    assert ["a"][..0] == [];
  }

  /** A width element whose text is "0" or not a number is still kept as the game's width. */
  lemma WidthTextNotParsed(d: Draw)
    ensures NormalizeItem(RawItem(None, None, None, None, None, Some("0"), Some("abc")), 0, "all", d).width == DimText("0")
    ensures NormalizeItem(RawItem(None, None, None, None, None, Some("0"), Some("abc")), 0, "all", d).height == DimText("abc")
  {
  }
}
