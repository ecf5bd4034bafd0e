/**
 * The formatting helpers of `GameMonetizeAPI` used when a game card is built, and the
 * record the play button stores for the game page (JS/script.js:716-724, 778-806).
 */
module Presentation {
  import opened Text
  import opened Catalog

  const TITLE_LIMIT: nat := 25
  const ELLIPSIS: string := "..."

  /** `truncateTitle`: titles longer than 25 characters keep their first 25 and get "...". */
  function TruncateTitle(title: string): (r: string)
    ensures |title| <= TITLE_LIMIT ==> r == title
    ensures |title| > TITLE_LIMIT ==> |r| == TITLE_LIMIT + |ELLIPSIS| && r[..TITLE_LIMIT] == title[..TITLE_LIMIT]
    ensures |title| > TITLE_LIMIT ==> r[TITLE_LIMIT..] == ELLIPSIS
    ensures |r| <= TITLE_LIMIT + |ELLIPSIS|
  {
    if |title| > TITLE_LIMIT then title[..TITLE_LIMIT] + ELLIPSIS else title
  }

  /** Truncating an already truncated title changes nothing. */
  lemma TruncateTitleIdempotent(title: string)
    ensures TruncateTitle(TruncateTitle(title)) == TruncateTitle(title)
  {
    if |title| > TITLE_LIMIT {
      var r := TruncateTitle(title);
      assert r[..TITLE_LIMIT] + ELLIPSIS == r;
    }
  }

  /** Category key to the label shown on a card (JS/script.js:784-794). */
  const CATEGORY_NAMES: map<string, string> := map[
    "all" := "Todos",
    "action" := "Ação",
    "adventure" := "Aventura",
    "puzzle" := "Puzzle",
    "girls" := "Garotas",
    "racing" := "Corrida",
    "sports" := "Esportes",
    "arcade" := "Arcade",
    "simulation" := "Simulação"
  ]

  const FALLBACK_CATEGORY_NAME: string := "Jogo"

  /** `getCategoryDisplayName`: the table's label, or "Jogo" for a key it lacks. */
  function CategoryDisplayName(category: string): (r: string)
    ensures r != ""
    ensures category !in CATEGORY_NAMES <==> r == FALLBACK_CATEGORY_NAME
    ensures category in CATEGORY_NAMES ==> r == CATEGORY_NAMES[category]
  {
    if category in CATEGORY_NAMES then CATEGORY_NAMES[category] else FALLBACK_CATEGORY_NAME
  }

  /**
   * Every feed category except the custom one has its own label; the custom `flipline`
   * category is shown with the generic label.
   */
  lemma DisplayNamesCoverFeeds()
    ensures forall k :: k in GAME_FEEDS && k != "flipline" ==> k in CATEGORY_NAMES
    ensures CategoryDisplayName("flipline") == FALLBACK_CATEGORY_NAME
  {
  }

  /** `formatPlayerCount`: whole millions with "M", whole thousands with "k", else the number. */
  function FormatPlayerCount(count: int): (r: string)
    ensures |r| > 0
  {
    if count >= 1000000 then NatToString(count / 1000000) + "M"
    else if count >= 1000 then NatToString(count / 1000) + "k"
    else IntToString(count)
  }

  /**
   * Reading the digits of a formatted count back gives the count rounded down to its unit:
   * whole millions before "M", whole thousands before "k", below that the number itself with
   * a minus sign when negative. The digits are always canonical, so by `CanonicalIsNatToString`
   * they are the decimal printing of that value.
   */
  lemma FormatPlayerCountMeaning(count: int)
    ensures var r := FormatPlayerCount(count);
      && (count >= 1000000 ==>
            r[|r| - 1] == 'M' && CanonicalDigits(r[..|r| - 1]) && ParseDigits(r[..|r| - 1]) == count / 1000000)
      && (1000 <= count < 1000000 ==>
            && r[|r| - 1] == 'k' && CanonicalDigits(r[..|r| - 1])
            && ParseDigits(r[..|r| - 1]) * 1000 <= count < (ParseDigits(r[..|r| - 1]) + 1) * 1000)
      && (0 <= count < 1000 ==> CanonicalDigits(r) && ParseDigits(r) == count)
      && (count < 0 ==> r[0] == '-' && CanonicalDigits(r[1..]) && ParseDigits(r[1..]) == -count)
  {
    var r := FormatPlayerCount(count);
    if count >= 1000000 {
      assert r[..|r| - 1] == NatToString(count / 1000000);
      ParseNatToString(count / 1000000);
    } else if count >= 1000 {
      assert r[..|r| - 1] == NatToString(count / 1000);
      ParseNatToString(count / 1000);
    } else if count >= 0 {
      ParseNatToString(count);
    } else {
      ParseNatToString(-count);
    }
  }

  /** A synthesised player count is always shown as 10k to 209k. */
  lemma SynthesisedCountsShowInThousands(d: PlayersDraw)
    ensures var r := FormatPlayerCount(GeneratePlayerCount(d));
      r[|r| - 1] == 'k' && 10 <= ParseDigits(r[..|r| - 1]) <= 209
  {
    var p := GeneratePlayerCount(d);
    var r := FormatPlayerCount(p);
    assert r[..|r| - 1] == NatToString(p / 1000);
    ParseNatToString(p / 1000);
  }

  /** The record the play button stores under `jogoSelecionado`. */
  datatype PlayData = PlayData(
    id: string,
    title: string,
    description: string,
    url: string,
    thumb: string,
    width: Dim,
    height: Dim)

  /** `a || b` on strings. */
  function OrText(s: string, fallback: string): string {
    if s != "" then s else fallback
  }

  /** `a || b` on a width or height. */
  function OrDim(d: Dim, fallback: int): Dim {
    if d.Truthy() then d else DimNum(fallback)
  }

  /** `jogoData`: each empty field of the game takes the play page's default. */
  function SelectedGameData(g: Game): (d: PlayData)
    ensures d.title != "" && d.description != "" && d.url != ""
    ensures d.width.Truthy() && d.height.Truthy()
    ensures d.id == g.id && d.thumb == g.thumb
    ensures d.title == (if g.title != "" then g.title else "Sem título")
    ensures d.description == (if g.description != "" then g.description else "Sem descrição.")
    ensures d.url == (if g.url != "" then g.url else "#")
    ensures d.width == (if g.width.Truthy() then g.width else DimNum(800))
    ensures d.height == (if g.height.Truthy() then g.height else DimNum(600))
  {
    PlayData(
      OrText(g.id, ""),
      OrText(g.title, "Sem título"),
      OrText(g.description, "Sem descrição."),
      OrText(g.url, "#"),
      OrText(g.thumb, ""),
      OrDim(g.width, 800),
      OrDim(g.height, 600))
  }

  /** For a game normalised from a feed, the stored play record copies the game unchanged. */
  lemma SelectedGameDataKeepsRemoteGame(g: Game, category: string)
    requires WellFormedRemote(g, category)
    ensures SelectedGameData(g) == PlayData(g.id, g.title, g.description, g.url, g.thumb, g.width, g.height)
  {
  }
}
