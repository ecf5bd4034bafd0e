# PixelHive game catalog: a Dafny model

This project models the logic of `JS/script.js`, the page script of the PixelHive game site. That logic is:

- the `GameMonetizeAPI` object, which looks a category up in the `GAME_FEEDS` table, reads its feeds in order, normalises every feed item into a game record, and keeps the last list in `currentGames`;
- the search over the "all" catalog, and the two `setupSearchListeners` bodies;
- the presentation helpers (`truncateTitle`, `getCategoryDisplayName`, `formatPlayerCount`) and the data the play button saves;
- the account store: `users`, `currentUser` and `isLoggedIn`, plus the `localStorage` keys `pixelhive_users`, `pixelhive_logged_in`, `pixelhive_current_user` and `pixelhive_remember_me`;
- the sign-up validators (password strength, username availability) and the avatar rotation of `changeAvatar`.

Modules follow the script's parts:

- `Wrappers`: `Option` and `Result`.
- `Text`: the JavaScript string operations the script relies on. These are `toLowerCase` (ASCII letters), `trim`, `includes`, `startsWith` and decimal printing of numbers.
- `Catalog`: the feed table, the synthesised rating and player count, per-item normalisation, and the aggregation of a category's feeds.
- `Presentation`: title truncation, category display names, player-count formatting and the play-button data.
- `Search`: `searchGames`' filter, the first handler's dispatch on the trimmed term, and the bound handler's card rule.
- `GameApi`: the class `GameMonetizeAPI` with its fields, plus `filterGames` and the first search handler. Each method is proved equal to a state-transition function, and the lemmas are stated about those functions.
- `Accounts`: the class `AccountStore` over the globals and storage, with the login, registration and profile logic.
- `Validators`: password strength, username availability and avatar rotation.

The browser's inputs become parameters:

- the network is a function from a feed URL to the outcome of its request (rejected, or the parsed `<item>` list);
- the custom JSON file is one more outcome;
- `Math.random` is a function from an item's position in the call to two integer draws;
- `Date.now()` and `new Date().toISOString()` are parameters of registration;
- storage is a map from key to a tagged value, which stands for the JSON text stored there.

Behaviours of the code worth noting:

- Width and height text from a feed is kept as text, not parsed to an integer.
- A failure reading the custom (flipline) JSON throws out of `fetchGamesByCategory`; only the remote path catches.
- When the "all" request fails during a search, `searchGames` renders an empty grid over the error view.
- Two functions are named `setupSearchListeners`; the later one is bound, through function hoisting. It filters the cards already on the page by their truncated title or category display name, lower-cased and not trimmed. The earlier one is modelled as well.
- Overlapping fetches have no generation guard.

## Model

| member | source | states |
|---|---|---|
| Text.Lower | JS/script.js:915-918 | one character out per character in, each folded to lower case |
| Text.Contains | JS/script.js:915-918 | `includes`: the string starts with the part, or its tail includes it |
| Text.ContainsIff | JS/script.js:915-918 | `includes` holds exactly when the part occurs at some position |
| Text.Trim | JS/script.js:1076 | `trim`: a slice of the input with only whitespace before and after it and no whitespace at either end |
| Text.TrimUnique | JS/script.js:1076 | at most one slice leaves only whitespace around it and has no whitespace at its ends |
| Text.TrimCharacterised | JS/script.js:1076 | any slice with those properties is the trimmed string |
| Catalog.FeedUrl | JS/script.js:523-549 | every GameMonetize URL of the table is the common base followed by its query, so it begins with `h` |
| Catalog.FeedTableShape | JS/script.js:523-550 | every category lists at least one source; exactly "flipline" is a `custom:` entry, and it lists only `custom:flipline` |
| Catalog.GenerateRating | JS/script.js:648-651 | the rating is always four or five stars; five exactly for the odd draws of the four-element table |
| Catalog.GeneratePlayerCount | JS/script.js:654-656 | the count lies in [10000, 210000) and is 10000 plus the draw |
| Catalog.TextOr | JS/script.js:612-616 | `text \|\| default`: the element's text when present and non-empty, otherwise the default |
| Catalog.DimOr | JS/script.js:617-618 | width and height keep non-empty text unparsed, otherwise the numeric default |
| Catalog.FallbackId | JS/script.js:612 | the fallback id is `game-` followed by the item's decimal index |
| Catalog.FallbackIdInjective | JS/script.js:612 | different indices give different fallback ids |
| Catalog.NormalizeItem | JS/script.js:611-622 | a normalised item carries the requested category, a synthesised rating and an in-range player count |
| Catalog.NormalizeItemDefaults | JS/script.js:611-622 | each field keeps the item's text when present and non-empty, otherwise its default ("Jogo sem título", "Descrição não disponível", "#", "/placeholder.jpg", 800, 600, `game-<index>`) |
| Catalog.NormalizeItemWellFormed | JS/script.js:611-622 | whatever the item holds, its record has no empty text field, a truthy width and height, the requested category and an in-range rating and player count |
| Catalog.NormalizeFeed | JS/script.js:611-622 | one game per item |
| Catalog.NormalizeFeedAt | JS/script.js:611-622 | game `i` is item `i` normalised with index `i` and the draw numbered `base + i`, so the feed keeps item order |
| Catalog.FeedFallbackIdsDistinct | JS/script.js:611-612 | within one feed, two items without an id get different fallback ids |
| Catalog.Aggregate | JS/script.js:599-625 | the feed loop: feeds in table order, None as soon as a request is rejected, otherwise each feed's normalised items appended to those before |
| Catalog.AddFeed | JS/script.js:599-623 | one round of the loop: a rejected request ends the run, an empty feed adds nothing, a non-empty one appends its normalised items numbered after the games so far |
| Catalog.AddFeedKeeps | JS/script.js:622 | `concat` keeps the games gathered so far in their places |
| Catalog.AddFeedAppends | JS/script.js:610-622 | item `i` of a delivered feed lands right after the games gathered so far |
| Catalog.FailIndex | JS/script.js:600-625 | the position of the first rejected feed request: all feeds before it succeeded |
| Catalog.AggregateSomeIff | JS/script.js:600-625 | the loop completes exactly when every feed request in the list succeeds |
| Catalog.AggregateNoneIff | JS/script.js:600-640 | the call fails exactly when some feed request is rejected |
| Catalog.AggregateLayout | JS/script.js:600-625 | the result is the feeds' lists concatenated in feed order, with nothing removed, reordered or deduplicated; each game is the normalisation of its item, with its index counted from 0 within its own feed |
| Catalog.AggregateFeedAt | JS/script.js:599-625 | game `i` of feed `k` sits at the total item count of the earlier feeds plus `i`, as element `i` of feed `k` normalised from that offset |
| Catalog.AggregateLastFeed | JS/script.js:599-625 | the games of the last feed follow those of all earlier feeds |
| Catalog.AggregateLength | JS/script.js:600-625 | the result has exactly as many games as the feeds have items in total |
| Catalog.AggregateWellFormed | JS/script.js:611-622 | every aggregated game is well formed and carries the requested category |
| Catalog.EmptyFeedAddsNothing | JS/script.js:610-624 | a feed with no items adds nothing to the result |
| Catalog.IdsRepeatAcrossFeeds | JS/script.js:611-612 | two feeds whose first items have no id give two games with the same id `game-0` |
| Catalog.WidthTextNotParsed | JS/script.js:617-618 | non-numeric or zero width and height text is kept as given |
| Presentation.TruncateTitle | JS/script.js:778-780 | titles of at most 25 characters are unchanged; longer ones are exactly 28 characters, their first 25 characters followed by "..." |
| Presentation.TruncateTitleIdempotent | JS/script.js:778-780 | truncating a truncated title changes nothing |
| Presentation.CategoryDisplayName | JS/script.js:783-796 | a key of the table gets its label from the table; the name is never empty, and it is the fallback "Jogo" exactly for keys missing from the table |
| Presentation.DisplayNamesCoverFeeds | JS/script.js:523-550 | every category of the feed table except "flipline" has a display name; "flipline" shows as "Jogo" |
| Presentation.FormatPlayerCount | JS/script.js:799-806 | the formatted count is never empty |
| Presentation.FormatPlayerCountMeaning | JS/script.js:799-806 | from one million on, whole millions and "M"; from one thousand on, whole thousands and "k"; below that, the number itself, with a minus sign when negative; the digits never have a leading zero |
| Text.StartsWith | JS/script.js:574 | `startsWith`: the prefix fits in the text and agrees with it character by character |
| Text.NatToString | JS/script.js:612 | the decimal printing of a natural in `` `game-${index}` `` and before "M" or "k" (JS/script.js:801-804): at least one digit, only digits, no leading zero |
| Text.IntToString | JS/script.js:805 | `count.toString()`: the printing of the number, with a leading minus and the printing of its absolute value when negative |
| Text.ParseNatToString | JS/script.js:801-805 | reading the printed digits back gives the number |
| Text.CanonicalIsNatToString | JS/script.js:801-805 | digits with no leading zero are exactly the decimal printing of the number they denote, so the player-count text is determined by its value |
| Presentation.SynthesisedCountsShowInThousands | JS/script.js:654-656 | a synthesised player count always prints as 10k to 209k |
| Presentation.SelectedGameData | JS/script.js:716-724 | id and thumb are copied; title, description, URL, width and height are the game's when truthy and otherwise "Sem título", "Sem descrição.", "#", 800 and 600, so they are never falsy |
| Presentation.SelectedGameDataKeepsRemoteGame | JS/script.js:716-724 | for a game normalised from a feed, no play-button default ever applies |
| Search.Matches | JS/script.js:915-918 | the filter's test: the lowered title or the lowered description includes the lowered query |
| Search.SearchFilter | JS/script.js:913-922 | the result is a subsequence of the catalog, in its order, holding exactly the games whose lowered title or description contains the lowered query, each as many times as the catalog holds it |
| Search.SubsequenceNoLonger | JS/script.js:913-922 | the search never returns more games than the catalog holds |
| Search.SearchIgnoresQueryCase | JS/script.js:915-918 | the case of the query does not matter |
| Search.SearchEmptyQueryKeepsAll | JS/script.js:915-918 | the empty query keeps the whole catalog |
| Search.SearchNarrowsAsQueryGrows | JS/script.js:915-918 | every game found for a query is also found for each of its prefixes |
| Search.SearchTerm | JS/script.js:1076 | the first handler's term is the lowered input with exactly its leading and trailing whitespace removed: only whitespace around it, none at its ends, and no upper-case letter |
| Search.FirstHandlerAction | JS/script.js:1076-1092 | a trimmed term longer than 2 runs a search; the empty term restores 'all'; a term of length 1 or 2 does nothing |
| Search.WhitespaceRestoresAll | JS/script.js:1076-1092 | an input of whitespace only restores 'all' |
| Search.CardVisible | JS/script.js:1141-1145 | a card shows when its lowered truncated title or lowered category label includes the lowered, untrimmed input |
| Search.CardVisibility | JS/script.js:1137-1153 | one flag per card, flag `i` being the card rule applied to card `i`; the empty input shows every card |
| Search.SidebarAfterCardFilter | JS/script.js:1158-1167 | the 'all' item is highlighted exactly when the input is empty |
| Search.CardVisibilityNarrows | JS/script.js:1137-1153 | a card shown for an input is shown for each prefix of it |
| Search.DescriptionMatchHiddenByCards | JS/script.js:913-922 | the bound card rule disagrees with `searchGames`: a game found by its description alone hides its card |
| Search.LeadingSpaceHidesCard | JS/script.js:1076 | the card rule does not trim: " zombie" hides the card whose title the first handler's term "zombie" finds |
| GameApi.RequestedFeeds | JS/script.js:600-640 | the feeds requested are a prefix of the list, all of it or up to and including the first rejected one: every requested feed but the last was delivered, and when no request is rejected every feed is requested |
| GameApi.FetchTransition | JS/script.js:564-644 | `fetchGamesByCategory`: an unknown category throws with nothing changed; `custom:flipline` reads the local file, another `custom:` entry returns []; any other category goes through the feed loop (the `custom:` test on the first URL is the helper `IsCustom`, JS/script.js:574) |
| GameApi.RemoteTransition | JS/script.js:593-643 | the feed loop's effect: the requests it sends, then the error view and [] on a rejection, else the games stored in `currentGames` and shown or the empty state |
| GameApi.SearchTransition | JS/script.js:913-922 | `searchGames`: fetch 'all', filter it and render the filtered list; a thrown fetch propagates |
| GameApi.FilterTransition | JS/script.js:933-958 | `filterGames`: the state the fetch leaves, with the error view shown when the fetch throws |
| GameApi.UnknownCategoryChangesNothing | JS/script.js:565-568 | an unknown category throws with no request sent and nothing changed; `filterGames` then shows the error view |
| GameApi.RemoteFetchOutcome | JS/script.js:593-643 | `isLoading` ends false, and only relay requests are sent. If every feed succeeds, `currentGames` is the returned list, of the feeds' total length, and the grid shows it or the empty state. If one is rejected, the call returns [], shows the error view and leaves `currentGames` unchanged |
| GameApi.RemoteGamesWellFormed | JS/script.js:611-622 | every game a remote fetch returns is well formed and carries the requested category |
| GameApi.CustomFetchPassesThrough | JS/script.js:574-590 | the flipline category reads one local file and no relay feed, and returns and stores its records unchanged; a failed load throws |
| GameApi.SearchOutcome | JS/script.js:913-922 | `searchGames` returns and renders exactly the matching games of the 'all' feed, in order; a failed fetch gives [] over an unchanged `currentGames` |
| GameApi.GameMonetizeAPI.constructor | JS/script.js:557-561 | the relay URL is set, no games are held, nothing is loading, the grid is blank and no request has been sent |
| GameApi.GameMonetizeAPI.FetchGamesByCategory | JS/script.js:564-644 | the new state and the result are those of the fetch transition |
| GameApi.GameMonetizeAPI.FetchRemote | JS/script.js:593-643 | loading flag and view around the feed loop, then the list or the error view: the new state and the result are those of the remote transition |
| GameApi.GameMonetizeAPI.ReadFeeds | JS/script.js:597-623 | the feed loop: one relay request per feed, in order, up to and including the first rejected one; the outcome is the aggregation of the feeds; no other field changes |
| GameApi.GameMonetizeAPI.SearchGames | JS/script.js:913-922 | the new state and the result are those of the search transition |
| GameApi.FilterGames | JS/script.js:933-958 | the new state is that of the filter transition: a thrown fetch shows the error view |
| GameApi.FirstSearchHandler | JS/script.js:1075-1093 | the handler searches, restores 'all' or changes nothing, as the term's dispatch decides |
| Accounts.FindUser | JS/script.js:117-120 | the index of the first user whose email or username equals the identifier ignoring case, or -1 when there is none |
| Accounts.LoginResult | JS/script.js:116-128 | the first user named by the identifier decides: not found, wrong password, or that user's profile |
| Accounts.LoginResultMeaning | JS/script.js:116-143 | login succeeds exactly when the first user named holds the password, and yields that user; "wrong password" exactly when the first user named holds another password, even if a later user holds this one; "not found" exactly when nobody is named |
| Accounts.WrongPasswordShadowsLaterMatch | JS/script.js:117-128 | "wrong password" is reported even when a later user accepts the same identifier and password |
| Accounts.AnyClash | JS/script.js:148-151 | registration clashes exactly when some user has the same email or username, ignoring case |
| Accounts.NewUser | JS/script.js:158-174 | a new user has level 1, no games played, "0h", the single achievement `first_registration`, no favourites, no recent games, newsletter false unless given true, and the given username, email and password |
| Accounts.RegisterKeepsAccountsDistinct | JS/script.js:148-177 | registration keeps emails and usernames distinct across accounts |
| Accounts.LoginAfterRegister | JS/script.js:116-188 | a newly registered account logs in by its email and by its username with its password, unless an older account uses that text in its other field |
| Accounts.IndexOfId | JS/script.js:470 | the first index whose id equals the session's id, or -1 |
| Accounts.RenameFirstWithId | JS/script.js:470-474 | only the first user with the id changes, and only its username and email |
| Accounts.DemoUsersDistinct | JS/script.js:1296-1331 | the two demo accounts are distinct |
| Accounts.SaveProfileCanDuplicate | JS/script.js:457-481 | the profile save checks no clash: it can give two accounts the same username |
| Accounts.AccountStore.constructor | JS/script.js:2-4 | the globals start empty, logged out and without a session |
| Accounts.AccountStore.InitializeApp | JS/script.js:14-25 | users and the logged-in flag are read from storage, and the saved session is restored when logged in; memory then agrees with storage (the three reads are the helpers `StoredUsers`, `StoredLoggedIn` and `StoredCurrentUser`, JS/script.js:16-19) |
| Accounts.AccountStore.InitializeDemoUsers | JS/script.js:1294-1336 | with no users, the two demo accounts are seeded and stored; otherwise nothing changes |
| Accounts.AccountStore.PerformLogin | JS/script.js:116-143 | a failure changes nothing; a success logs the user in, stores the session and, when asked, the remember-me flag; memory and storage stay in agreement |
| Accounts.AccountStore.PerformRegister | JS/script.js:146-188 | a clash throws with nothing changed; otherwise exactly one user is appended and stored, and the new user is logged in. Distinct accounts stay distinct, and memory and storage stay in agreement |
| Accounts.AccountStore.Logout | JS/script.js:191-201 | the session and remember-me keys are removed, the flag is stored false, and the users are unchanged |
| Accounts.AccountStore.SaveProfile | JS/script.js:457-481 | without a session or with an empty field, nothing changes. Otherwise the session and the first user with its id get the new username and email, and the users list is stored only when that user exists |
| Accounts.PageLoad | JS/script.js:7-11 | after load the users are the stored ones, or the demo accounts when none are stored, and memory agrees with storage |
| Validators.Score | JS/script.js:339-346 | the score is at most 6 |
| Validators.Tier | JS/script.js:354-366 | the tier of a score: the prompt for the empty password, otherwise weak, fair, good or strong by the score's thresholds |
| Validators.CheckPasswordStrength | JS/script.js:333-366 | the score counts the six criteria met. The tier is the prompt exactly for the empty password; otherwise at most 2 is weak, 3 fair, 4 good and 5 or more strong |
| Validators.NonEmptyScores | JS/script.js:339-346 | every non-empty password scores at least 1 |
| Validators.ShortNeverStrong | JS/script.js:341-366 | a password under 8 characters scores at most 4 and is never strong |
| Validators.LongMixedIsStrong | JS/script.js:341-366 | 12 characters with lower case, upper case and a digit is strong |
| Validators.AppendNeverWeakens | JS/script.js:339-366 | typing more characters never lowers the score, nor the tier of a non-empty password |
| Validators.UsernameTaken | JS/script.js:386-388 | a username is taken exactly when a user has it, ignoring case |
| Validators.CheckUsernameAvailability | JS/script.js:374-398 | the checks run in order (length of at least 3, then `[A-Za-z0-9_]` only, then not taken ignoring case), and the first failure decides; available exactly when all three hold |
| Validators.AvailableUsernameRegisters | JS/script.js:148-151 | a username shown as available is refused at registration only for an email already in use |
| Validators.ListedUsernameTaken | JS/script.js:374-392 | a well-formed username that a listed user has, ignoring case, is reported as taken |
| Validators.JoaoTaken | JS/script.js:386-388 | "JOAO_GAMER" is taken by the demo account `joao_gamer` |
| Validators.MariaTaken | JS/script.js:386-388 | "Maria_Player" is taken by the demo account `maria_player` |
| Validators.HyphenRefused | JS/script.js:380-384 | a hyphen is refused before the users are consulted |
| Validators.Avatar | JS/script.js:484-488 | the avatar's letter sits at the same position in each data URI |
| Validators.IndexOf | JS/script.js:492 | the first position holding the image's source, or -1 |
| Validators.NextAvatar | JS/script.js:492-494 | the new source is always one of the three avatars |
| Validators.AvatarsDistinct | JS/script.js:484-488 | the three avatars are distinct |
| Validators.NextAvatarAdvances | JS/script.js:492-494 | each avatar is followed by the next one, and the last by the first |
| Validators.UnknownAvatarGoesToFirst | JS/script.js:492-494 | an image showing none of the three switches to the first |
| Validators.ThreeClicksCycle | JS/script.js:492-494 | three clicks bring back the avatar shown before them |

## Left out

- DOM rendering and UI work is not modelled. This covers the loading, empty and error HTML, the cards, modals, tabs, sidebar highlighting, scroll animations, alerts, fullscreen, sharing and the Escape key. The grid is an abstract display value.
- Network and parsing are not modelled: `fetch`, the allorigins relay, `encodeURIComponent`, `response.json()` and `DOMParser`. Each feed is an abstract outcome (rejected, or its list of items with optional fields), and the custom file is a rejected load or its records. A malformed body that still parses gives items with missing fields; only a rejected request fails.
- Timers are left out: `debounce`, the card hide delay and the avatar scale animation are time behaviour.
- Concurrency is left out: overlapping asynchronous fetches can interleave, and the code has no generation guard against it. The model runs each call to completion.
- `Math.random`, `Date.now()` and `toISOString()` are parameters; floating point is not modelled.
- Text.Lower: folds only ASCII letters. `toLowerCase` folds every Unicode letter, so every case-insensitive comparison is modelled only up to ASCII case: the game search and card filter, the login lookup (`Identifies`), the registration clash (`Clashes`) and username availability (`UsernameTaken`).
- Search.FirstHandlerAction: counts characters, where JavaScript's `length` counts UTF-16 code units; a term such as two emoji has length 4 in the script and runs a search, while the model sees length 2 and does nothing.
- Validators.CheckPasswordStrength: counts characters, where JavaScript's `length` counts UTF-16 code units. The two differ only for characters outside the Basic Multilingual Plane.
- Validators.CheckUsernameAvailability: counts characters where JavaScript counts UTF-16 code units; the length check differs only for characters outside the Basic Multilingual Plane.
- JSON encoding is not modelled. Storage holds tagged values in place of JSON text, which assumes `JSON.parse(JSON.stringify(v))` gives `v` back. `initializeApp` assumes the script's own keys hold values of the shape the script writes; foreign text under those keys would make `JSON.parse` throw.
- Custom JSON records are modelled as game records themselves. A field missing from the JSON is represented as an empty text or 0.
- The external `gameManager`, the social-login placeholders and the game page opened by the play button are foreign code with no visible logic.
- The sidebar highlight in `filterGames` and in both search handlers is UI only. The bound handler's choice of highlight is modelled; the DOM writes are not.
- `updateProfileData`, `openProfile` and the form handlers only copy values between the DOM and the functions modelled here.
- Presentation.TruncateTitle: counts characters, where JavaScript's `length` and `substring` count UTF-16 code units; a title with characters outside the Basic Multilingual Plane can be cut at a different place.
- Presentation.CategoryDisplayName: treats every key outside the nine labels as missing. In the script, inherited keys such as `constructor` or `toString` look up a function, which is truthy, so the card would show its text instead of "Jogo".
- Search.CardVisible: compares against the truncated title and the label as given. The page writes them with `innerHTML` and reads them back with `textContent`, so markup or entities in a title change what the browser compares.
- GameApi.FetchTransition: a custom record is modelled as a game whose missing text fields are empty. In the script, a JSON record without a title makes `truncateTitle` throw inside `renderGames`, after `currentGames` has been assigned (JS/script.js:580-581); the throw reaches `filterGames`, which shows the error view.
- Validators.NextAvatar: takes the image's `src` as the browser reports it. Any URL normalisation the browser applies to `src` is not modelled.
