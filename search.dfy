/**
 * The search rules: the catalog filter of `GameMonetizeAPI.searchGames`, the term dispatch of
 * the first `setupSearchListeners` (JS/script.js:1071-1095) and the per-card visibility rule of
 * the second declaration of the same name (JS/script.js:1133-1171), which replaces the first
 * because a later function declaration wins.
 */
module Search {
  import opened Text
  import opened Catalog
  import opened Presentation

  /** `searchGames`' test: lowered title or lowered description includes the lowered query. */
  predicate Matches(g: Game, query: string) {
    Contains(Lower(g.title), Lower(query)) || Contains(Lower(g.description), Lower(query))
  }

  /** `a` is `b` with some elements left out, order kept. */
  predicate IsSubsequence<T(==)>(a: seq<T>, b: seq<T>)
    decreases |b|
  {
    a == [] || (b != [] && ((a[0] == b[0] && IsSubsequence(a[1..], b[1..])) || IsSubsequence(a, b[1..])))
  }

  /** The `filter` of `searchGames`: the games that match, in catalog order. */
  function SearchFilter(games: seq<Game>, query: string): (r: seq<Game>)
    ensures IsSubsequence(r, games)
    ensures forall g :: g in r <==> g in games && Matches(g, query)
    ensures forall g :: multiset(r)[g] == if Matches(g, query) then multiset(games)[g] else 0
    decreases |games|
  {
    if games == [] then []
    else
      var rest := SearchFilter(games[1..], query);
      assert IsSubsequence(rest, games) by {
        if rest != [] {
          assert IsSubsequence(rest, games[1..]);
        }
      }
      assert games == [games[0]] + games[1..];
      if Matches(games[0], query) then
        assert ([games[0]] + rest)[1..] == rest;
        [games[0]] + rest
      else rest
  }

  /** Filtering never adds games: the result is never longer than the catalog. */
  lemma {:induction false} SubsequenceNoLonger<T>(a: seq<T>, b: seq<T>)
    requires IsSubsequence(a, b)
    ensures |a| <= |b|
    decreases |b|
  {
    if a != [] {
      if a[0] == b[0] && IsSubsequence(a[1..], b[1..]) {
        SubsequenceNoLonger(a[1..], b[1..]);
      } else {
        SubsequenceNoLonger(a, b[1..]);
      }
    }
  }

  /** The query's case does not matter. */
  lemma {:induction false} SearchIgnoresQueryCase(games: seq<Game>, query: string)
    ensures SearchFilter(games, query) == SearchFilter(games, Lower(query))
    decreases |games|
  {
    LowerIdempotent(query);
    if games != [] {
      SearchIgnoresQueryCase(games[1..], query);
    }
  }

  /** The empty query keeps the whole catalog. */
  lemma {:induction false} SearchEmptyQueryKeepsAll(games: seq<Game>)
    ensures SearchFilter(games, "") == games
    decreases |games|
  {
    if games != [] {
      ContainsEmpty(Lower(games[0].title));
      SearchEmptyQueryKeepsAll(games[1..]);
    }
  }

  /** A substring of a prefix of the term is still a substring. */
  lemma ContainsPrefixOfTerm(s: string, term: string, k: nat)
    requires Contains(s, term) && k <= |term|
    ensures Contains(s, term[..k])
  {
    ContainsOccurs(s, term);
    var i :| OccursAt(s, term, i);
    assert s[i..i + k] == s[i..i + |term|][..k];
    OccursAtContains(s, term[..k], i);
  }

  lemma LowerOfPrefix(s: string, k: nat)
    requires k <= |s|
    ensures Lower(s[..k]) == Lower(s)[..k]
  {
  }

  /** Typing more characters only narrows the search: each result for a longer query is also a result for its prefix. */
  lemma SearchNarrowsAsQueryGrows(games: seq<Game>, query: string, k: nat)
    requires k <= |query|
    ensures forall g :: g in SearchFilter(games, query) ==> g in SearchFilter(games, query[..k])
  {
    LowerOfPrefix(query, k);
    forall g | g in SearchFilter(games, query)
      ensures Matches(g, query[..k])
    {
      if Contains(Lower(g.title), Lower(query)) {
        ContainsPrefixOfTerm(Lower(g.title), Lower(query), k);
      } else {
        ContainsPrefixOfTerm(Lower(g.description), Lower(query), k);
      }
    }
  }

  // ---- the first `setupSearchListeners`: network search on the trimmed, lowered term ----

  datatype SearchAction =
    | RunSearch(term: string)  // `searchGames(term)`
    | RestoreAll               // `filterGames('all')`
    | NoChange                 // terms of one or two characters

  /** The term the first handler works with: `value.toLowerCase().trim()`. */
  function SearchTerm(value: string): (t: string)
    ensures NoUpper(t)
    ensures exists i :: TrimmedAt(Lower(value), t, i)
    ensures TightEnds(t)
  {
    var lowered := Lower(value);
    var t := Trim(lowered);
    LowerHasNoUpper(value);
    var i: nat :| TrimmedAt(lowered, t, i);
    SliceKeepsNoUpper(lowered, t, i);
    assert TrimmedAt(Lower(value), t, i);
    t
  }

  lemma SliceKeepsNoUpper(s: string, t: string, i: int)
    requires NoUpper(s) && OccursAt(s, t, i)
    ensures NoUpper(t)
  {
    assert forall j :: 0 <= j < |t| ==> t[j] == s[i..i + |t|][j] == s[i + j];
  }

  /** The dispatch of the first handler on the length of the term (JS/script.js:1076-1092). */
  function FirstHandlerAction(value: string): (a: SearchAction)
    ensures a.RunSearch? ==> |a.term| > 2 && a.term == SearchTerm(value)
    ensures a.RestoreAll? <==> SearchTerm(value) == ""
    ensures a.NoChange? <==> 1 <= |SearchTerm(value)| <= 2
  {
    var term := SearchTerm(value);
    if |term| > 2 then RunSearch(term)
    else if |term| == 0 then RestoreAll
    else NoChange
  }

  /** Input made only of whitespace restores the full catalog, like empty input. */
  lemma WhitespaceRestoresAll(value: string)
    requires forall i :: 0 <= i < |value| ==> IsJsWhitespace(value[i])
    ensures FirstHandlerAction(value) == RestoreAll
  {
    forall i | 0 <= i < |value|
      ensures IsJsWhitespace(Lower(value)[i])
    {
      LowerKeepsWhitespace(value[i]);
    }
    TrimAllWhitespace(Lower(value));
  }

  // ---- the second `setupSearchListeners`: the handler actually bound to the search box ----

  /** What the second handler does to the sidebar: clear every highlight, or highlight 'all'. */
  datatype SidebarEffect = ClearHighlights | HighlightAll

  /**
   * A card stays visible when its shown title (truncated) or its shown category label,
   * lowered, includes the lowered, untrimmed input.
   */
  predicate CardVisible(g: Game, value: string) {
    var term := Lower(value);
    Contains(Lower(TruncateTitle(g.title)), term) || Contains(Lower(CategoryDisplayName(g.category)), term)
  }

  /** The visibility of every rendered card, in card order. */
  function CardVisibility(cards: seq<Game>, value: string): (vis: seq<bool>)
    ensures |vis| == |cards|
    ensures forall i :: 0 <= i < |cards| ==> vis[i] == CardVisible(cards[i], value)
    ensures value == "" ==> forall i :: 0 <= i < |vis| ==> vis[i]
  {
    var vis := seq(|cards|, i requires 0 <= i < |cards| => CardVisible(cards[i], value));
    assert value == "" ==> forall i :: 0 <= i < |cards| ==> vis[i] by {
      if value == "" {
        forall i | 0 <= i < |cards| ensures vis[i] {
          ContainsEmpty(Lower(TruncateTitle(cards[i].title)));
        }
      }
    }
    vis
  }

  function SidebarAfterCardFilter(value: string): (e: SidebarEffect)
    ensures e == HighlightAll <==> value == ""
  {
    if |Lower(value)| > 0 then ClearHighlights else HighlightAll
  }

  /** Typing more characters never brings a hidden card back. */
  lemma CardVisibilityNarrows(g: Game, value: string, k: nat)
    requires k <= |value| && CardVisible(g, value)
    ensures CardVisible(g, value[..k])
  {
    LowerOfPrefix(value, k);
    if Contains(Lower(TruncateTitle(g.title)), Lower(value)) {
      ContainsPrefixOfTerm(Lower(TruncateTitle(g.title)), Lower(value), k);
    } else {
      ContainsPrefixOfTerm(Lower(CategoryDisplayName(g.category)), Lower(value), k);
    }
  }

  /** The game used by the two lemmas below: found by its description, not its title. */
  const SAMPLE: Game := Game("1", "Zombie", "a racing game", "#", "", DimNum(800), DimNum(600), "action", FOUR_STARS, 10000)

  lemma SampleLowered()
    ensures Lower(SAMPLE.title) == "zombie"
    ensures Lower(SAMPLE.description) == SAMPLE.description
    ensures Lower(CategoryDisplayName(SAMPLE.category)) == "ação"
  {
    assert CategoryDisplayName(SAMPLE.category) == "Ação";
  }

  /**
   * The two rules disagree on a description match: `searchGames` keeps the game, the bound
   * card rule hides it, since it looks at the shown title and category label only.
   */
  lemma DescriptionMatchHiddenByCards()
    ensures Matches(SAMPLE, "racing") && !CardVisible(SAMPLE, "racing")
  {
    SampleLowered();
    assert Lower("racing") == "racing";
    assert SAMPLE.description[2..8] == "racing";
    OccursAtContains(SAMPLE.description, "racing", 2);
    assert "zombie"[0] != "racing"[0];
    ContainsOnlyFitting("zombie"[1..], "racing");
    ContainsOnlyFitting("ação", "racing");
  }

  /** The spaced input of the lemma below lower-cases to itself. */
  lemma LowerSpacedInput()
    ensures Lower(" zombie") == " zombie"
  {
    var v := " zombie";
    forall i | 0 <= i < |v|
      ensures LowerChar(v[i]) == v[i]
    {
    }
  }

  lemma TrimStartSpacedInput()
    ensures TrimStart(" zombie") == "zombie"
  {
    var v := " zombie";
    var w := "zombie";
    assert v[1..] == w;
    assert !IsJsWhitespace(w[0]);
  }

  lemma TrimEndSampleTitle()
    ensures TrimEnd("zombie") == "zombie"
  {
    var w := "zombie";
    assert !IsJsWhitespace(w[|w| - 1]);
  }

  /**
   * The bound card rule does not trim: a leading space hides a card whose title the first
   * handler's trimmed term would have found.
   */
  lemma LeadingSpaceHidesCard()
    ensures FirstHandlerAction(" zombie") == RunSearch("zombie") && Matches(SAMPLE, "zombie")
    ensures !CardVisible(SAMPLE, " zombie")
  {
    SampleLowered();
    LowerSpacedInput();
    TrimStartSpacedInput();
    TrimEndSampleTitle();
    assert Lower(" zombie") == " zombie";
    assert Lower("zombie") == "zombie";
    assert StartsWith("zombie", "zombie");
    ContainsOnlyFitting("zombie", " zombie");
    ContainsOnlyFitting("ação", " zombie");
  }
}
