# Yeonghwa front-end rules, modelled in Dafny

Yeonghwa is a React front end for a movie and series catalog. It has a home feed, search, detail
pages, a wishlist and a sign-in session. This project models the small rules behind its screens and
proves what they promise. Each rule takes plain values in and returns plain values, or updates a
small piece of state:

- **Genre preferences** (`Recommendations`): a click counter per genre, kept in the
  `user_preferences` storage entry. The genre bank is ranked by that counter, with a random jitter
  per comparison.
- **Home feed** (`Home`): a fixed four-row head, followed by genre sections. Each time the end of
  the feed is reached, two more sections are appended.
- **Search boxes** (`SearchHistory`, `Navbar`, `MobileSearch`): the recent-search history
  (move to front, at most five terms), when a search request is sent, which results are shown,
  and where a selection leads.
- **Catalog API targets** (`Urls`, `Tmdb`): the request paths and query strings, the discover
  filters, and the movie-then-series lookup.
- **Display rules** (`MovieDetails`, `MovieCard`, `HeroBanner`, `BottomNav`, `SearchResults`,
  `PersonDetails`, `CollectionDetails`):
  - which video plays as the trailer;
  - runtime shown as `Xh Ym`, the release year and the rating;
  - the wishlist toggle and its rollback;
  - card link paths;
  - the banner's slide rotation;
  - the active bottom-bar item;
  - the search page's dispatch and heading;
  - the credit and collection-part lists.
- **Session store** (`AuthStore`): the signed-in user, mirrored into the `user` storage entry,
  with the read guard and the sign-up, log-in, log-out and profile-update transitions.

Outside inputs become parameters:

- Each HTTP response is an input value, and `None` stands for a failed request.
- `Math.random()` draws become parameters: each comparison's jitter and the drawn indices.
- `Date.now()` is a parameter.
- `localStorage` entries become fields (`Option` values), one per key, owned by the class that
  uses the key. `None` means the key is absent.
- JSON serialisation is identity, except for the `user` entry. There, the raw texts that the guard
  distinguishes (`"undefined"`, `"null"`, corrupt text) are modelled.

Common vocabulary lives in `Common`: optional values, JavaScript `||` on optional strings,
`slice`, `filter`, `split(c)[0]` and decimal printing. `Catalog` holds the record shapes, `Routes`
the route paths, and `KeySort` the sort with a key comparator.

## Model

| member | source | states |
|---|---|---|
| Recommendations.LoadCounter | src/utils/recommendations.js:4 | A missing `user_preferences` entry reads as the empty counter. A stored counter is read as it is. |
| Recommendations.Bump | src/utils/recommendations.js:7 | One step bumps the id's count by one (a missing id counts from 0), adds only that key and keeps every other count. |
| Recommendations.RecordedCounts | src/utils/recommendations.js:6-8 | After recording, each id's count is its old count plus its number of occurrences in the call, duplicates included. |
| Recommendations.RecordedKeys | src/utils/recommendations.js:6-8 | The recorded counter has exactly the old keys plus the ids of the call. |
| Recommendations.RecordedFrame | src/utils/recommendations.js:6-10 | An id that the call does not mention keeps its presence and its count. |
| Recommendations.RecordedCompose | src/utils/recommendations.js:1-11 | Two calls in a row count the same as one call over the concatenated ids. |
| Recommendations.ReplayCounts | src/utils/recommendations.js:1-11 | From an empty counter, each id's count is its number of occurrences across all calls. |
| Recommendations.ReplayIsRecorded | src/utils/recommendations.js:1-11 | A sequence of calls records the flattened list of ids. |
| Recommendations.PreferenceStore.TrackInteraction | src/utils/recommendations.js:1-11 | An absent or empty list leaves the entry unchanged. Otherwise the loop stores the loaded counter (empty when missing) with every id counted once per occurrence. |
| Recommendations.Compare | src/utils/recommendations.js:17-22 | With jitter in [-0.5, 0.5), two genres with different counts compare by count: the higher count sorts first. |
| Recommendations.InsertRanked | src/utils/recommendations.js:16-23 | Inserting with the jittered comparator keeps the list in non-increasing count order and adds exactly the inserted genre. |
| Recommendations.RankFrom | src/utils/recommendations.js:16-23 | The jittered sort yields a permutation in non-increasing count order. |
| Recommendations.GetPersonalizedGenres | src/utils/recommendations.js:13-24 | The result is a permutation of the input, as long as the input, in non-increasing order of stored counts (missing entry: all 0). The input is a value and is not changed. |
| Recommendations.HigherScoreFirst | src/utils/recommendations.js:17-22 | A genre with a higher count comes before one with a lower count, for every jitter draw. |
| Recommendations.RankedPermutationsAgree | src/utils/recommendations.js:16-23 | Two count-ordered permutations of one list have the same count at every position. |
| Recommendations.OnlyTiesAreRandom | src/utils/recommendations.js:17-22 | Any two jitter draws give the same count at every position, so only genres with equal counts are ordered by chance. |
| Recommendations.DistinctScoresFixTheOrder | src/utils/recommendations.js:17-22 | When distinct genres have distinct counts, the ranking does not depend on the jitter. |
| KeySort.SortBy | src/pages/PersonDetails.jsx:19 | The stand-in for `sort` with a key comparator returns a permutation, ordered by the key. |
| Home.DrawIndex | src/pages/Home.jsx:55 | `Math.floor(random * length)` is a valid index of a non-empty bank. |
| Home.DrawSection | src/pages/Home.jsx:55-59 | A drawn section copies the id, name and type of a genre in the ranked bank. |
| Home.Batch | src/pages/Home.jsx:54-60 | One call computes one section per draw, each copied from a genre of the ranked bank. |
| Home.BatchFromBank | src/pages/Home.jsx:51-60 | Every scheduled section copies a genre of `GENRE_BANK`, because ranking only permutes the bank. |
| Home.Feed.LoadMoreContent | src/pages/Home.jsx:50-65 | Ranks the bank, runs the two-iteration loop, and schedules exactly that two-section batch. The shown sections are unchanged. |
| Home.Feed.TimerFires | src/pages/Home.jsx:62-64 | The timer appends the oldest scheduled batch after the existing sections. |
| Home.Feed.FireAll | src/pages/Home.jsx:62-64 | Every scheduled timer fires in the order the timers were set. Their batches are appended in that order, and nothing stays pending. |
| Home.EndReached | src/pages/Home.jsx:50-69 | Covers an end-reached call made while earlier loads (the mount's, say) are still waiting, once all timers have fired. The earlier batches come first, then this call's two sections, both from the bank. Earlier sections keep their places. |
| Home.DataList | src/pages/Home.jsx:71-85 | Nothing until all three lists have loaded. Then the banner, upcoming, trending series and trending rows, followed by the dynamic sections in order. The banner is a prefix of the trending results: five of them, or all when fewer than five. |
| Home.DataListGrows | src/pages/Home.jsx:79-85 | Appending sections only extends the list: earlier rows stay in place. |
| SearchHistory.AddToHistory | src/components/Navbar.jsx:67-68 | The term comes first and occurs exactly once. The rest is a prefix of the old history without the term, in the old order. At most five terms, older ones dropped first. |
| SearchHistory.AddToHistoryIdempotent | src/components/Navbar.jsx:68 | Adding the same term twice in a row equals adding it once. |
| SearchHistory.AddToHistoryKeepsNoDuplicates | src/components/Navbar.jsx:68 | A history without repeats stays without repeats. |
| SearchHistory.FilterNoDuplicates | src/components/Navbar.jsx:68 | Filtering keeps a list free of repeats. |
| SearchHistory.AddToHistoryKeepsAll | src/pages/MobileSearch.jsx:45-46 | Below the cap, no earlier term is lost. |
| SearchHistory.NavbarResults | src/components/Navbar.jsx:42 | At most six results, no persons, in the API's order. Exactly six when at least six non-persons arrived. |
| SearchHistory.MobileResults | src/pages/MobileSearch.jsx:23 | Exactly the non-person results, uncapped. |
| SearchHistory.NavbarIsMobileCapped | src/components/Navbar.jsx:42 | The top bar's list is the mobile list cut to its first six. |
| SearchHistory.SelectPath | src/components/Navbar.jsx:51-52 | A selection leads to `/tv/…` exactly when `media_type` is `tv`, and to `/movie/…` otherwise. |
| SearchHistory.SelectPathInjective | src/pages/MobileSearch.jsx:32-34 | Two selections share a path only if they have the same id and the same tv/movie kind. |
| Navbar.Hidden | src/components/Navbar.jsx:25 | The bar is hidden on exactly `/login`, `/register` and `/forgot-password`. |
| Navbar.SearchBox.Mount | src/components/Navbar.jsx:32-35 | A missing stored history reads as the empty list. |
| Navbar.SearchBox.SetQuery | src/components/Navbar.jsx:96-97 | Typing sets the query, and nothing else changes. |
| Navbar.SearchBox.Focus | src/components/Navbar.jsx:97 | Focusing opens the dropdown, and nothing else changes. |
| Common.Utf16Length | src/components/Navbar.jsx:39 | JavaScript's `length`, in UTF-16 code units: between one and two per character, and zero only for the empty text. |
| Common.Utf16LengthConcat | src/components/Navbar.jsx:39 | The code-unit length of two texts joined is the sum of their lengths. |
| Common.Utf16LengthBasic | src/components/Navbar.jsx:39 | A text without characters beyond U+FFFF has one code unit per character. |
| SearchHistory.ShouldSearchByCharacters | src/components/Navbar.jsx:39 | The `length > 2` test, in characters: three or more always search and one never does. Two search exactly when one lies beyond U+FFFF. |
| SearchHistory.TwoEmojiSearch | src/pages/MobileSearch.jsx:20 | Two emoji are four code units long, so they are searched for. |
| Navbar.SearchBox.SearchTimerFires | src/components/Navbar.jsx:37-48 | A request is sent exactly when the query is longer than two characters, and it is `searchMovies`' unescaped target. Its `query` value reads back as the typed query when the query holds none of `&`, `#`, `%` and `+`. A short query clears the results. An answer sets the capped non-person results. A failed request leaves the results unchanged. |
| Navbar.SearchBox.AddToHistory | src/components/Navbar.jsx:67-71 | The new history is shown and is also written to storage. |
| Navbar.SearchBox.HandleSelect | src/components/Navbar.jsx:50-56 | Opens the item's page, records its title (or else its name), clears the query and closes the dropdown. |
| Navbar.SearchBox.HandleSearchSubmit | src/components/Navbar.jsx:58-65 | An empty query changes nothing. Otherwise the query is recorded, its results page is opened and the dropdown closes. |
| Navbar.SearchBox.SelectRecent | src/components/Navbar.jsx:110-111 | A click on a recent term fills the query and opens its results page. The history is not reordered. |
| MobileSearch.SearchPage.Mount | src/pages/MobileSearch.jsx:13-16 | A missing stored history reads as the empty list. |
| MobileSearch.SearchPage.SetQuery | src/pages/MobileSearch.jsx:61 | Typing sets the query, and nothing else changes. |
| MobileSearch.SearchPage.SearchTimerFires | src/pages/MobileSearch.jsx:18-29 | A request is sent exactly when the query is longer than two characters, and it is `searchMovies`' unescaped target. Its `query` value reads back as the typed query when the query holds none of `&`, `#`, `%` and `+`. A short query clears the list. An answer sets all non-person results. A failure keeps the list. |
| MobileSearch.SearchPage.AddToHistory | src/pages/MobileSearch.jsx:45-49 | The new history is shown and is also written to storage. |
| MobileSearch.SearchPage.HandleSelect | src/pages/MobileSearch.jsx:31-35 | Records the title (or name) and opens the tv/movie page. The query stays. |
| MobileSearch.SearchPage.HandleSearchSubmit | src/pages/MobileSearch.jsx:37-43 | An empty query changes nothing. Otherwise the query is recorded and its results page is opened. |
| MobileSearch.SearchPage.SelectRecent | src/pages/MobileSearch.jsx:69-70 | A click on a recent term fills the query and opens its results page. |
| Routes.ItemPath | src/components/HeroBanner.jsx:31 | `/{type}/{id}` starts with the type between slashes. |
| Routes.DetailPath | src/components/MovieCard.jsx:9 | It is the `/tv/` page exactly for series, and the `/movie/` page otherwise. |
| Routes.SearchPagePath | src/components/Navbar.jsx:62 | It is `/search/` followed by the query, unchanged. |
| Routes.ItemPathInjective | src/components/HeroBanner.jsx:31 | Two items share a path only if they have the same kind and the same id. |
| Urls.SplitJoin | src/api/tmdb.js:31-40 | Splitting joined pieces returns the pieces when none of them holds the separator. |
| Urls.ParseRender | src/api/tmdb.js:31-40 | Reading back a rendered target returns the target when no piece holds its separator. |
| Urls.LookupFinds | src/api/tmdb.js:31-40 | A key's lookup finds the first pair with that key, and finds nothing exactly when there is none. |
| Urls.UnescapeEscape | src/api/tmdb.js:26 | An escaped query value decodes back to the original text. |
| Tmdb.CollectionPath | src/api/tmdb.js:16-17 | `/collection/{id}`, without a query string. |
| Tmdb.ByGenrePath | src/api/tmdb.js:19-20 | It reads back as `/discover/{type}` with `with_genres={id}`, then `sort_by=popularity.desc`. |
| Tmdb.DetailsPath | src/api/tmdb.js:22-23 | It reads back as `/{type}/{id}` with `append_to_response=videos,credits,similar`. |
| Tmdb.PersonPath | src/api/tmdb.js:45-46 | It reads back as `/person/{id}` with `append_to_response=combined_credits`. |
| Tmdb.SearchPath | src/api/tmdb.js:25-26 | As written: for a query without `&`, the target reads back as `query={q}` and `include_adult=false`, and looking up `query` finds the query when it also holds no `#`, `%` or `+`. |
| Tmdb.SearchPathSplitsAtAmpersand | src/api/tmdb.js:25-26 | As written, a query `a&b` reaches the API as the query `a` plus a stray pair `b`. |
| Tmdb.SearchPathEscaped | src/api/tmdb.js:25-26 | Corrected: with the query escaped, the API reads back exactly the typed query, whatever characters it holds. |
| Tmdb.DiscoverFilters | src/api/tmdb.js:31-40 | Each filter is sent exactly when it is truthy, with its value. The year goes under `primary_release_year` for movies and `first_air_date_year` otherwise. `include_adult=false` and `page=1` are always sent. |
| Tmdb.DiscoverShape | src/api/tmdb.js:31-40 | The two fixed pairs come first and a set year comes last. With every filter empty, only the fixed pairs remain. |
| Tmdb.DiscoverKeyOrder | src/api/tmdb.js:33-40 | The pairs are in the order: fixed pairs, genre, country, sort, year. No key is sent twice. |
| Tmdb.DiscoverContent | src/api/tmdb.js:28-43 | The string built step by step with `+=` is exactly the rendered discover target. With all filters empty, it is the base target. |
| Tmdb.DiscoverParses | src/api/tmdb.js:31-40 | With filter values free of `&`, the API reads back exactly the discover pairs. |
| Tmdb.Tag | src/api/tmdb.js:50-55 | The spread keeps every field of the response and sets `media_type`. |
| Tmdb.UniversalDetails | src/api/tmdb.js:48-59 | Returns the movie record tagged `movie` if `/movie/{id}` answers. Otherwise `/tv/{id}` is requested, and its record is tagged `tv`. It is null exactly when both fail. |
| Catalog.MediaKind | src/components/HeroBanner.jsx:30 | `media_type`, or `movie` when that is absent or empty. |
| Catalog.FindVideo | src/pages/MovieDetails.jsx:37 | `find` returns the first matching video, and nothing exactly when no video matches. |
| MovieDetails.ChooseTrailerIsFirstOfBest | src/pages/MovieDetails.jsx:37-39 | The `find` chain picks the first video of the best tier (YouTube trailer, then teaser, then any YouTube video). It picks none exactly when no video is on YouTube. |
| MovieDetails.Trailer | src/pages/MovieDetails.jsx:37-39 | For a details record, the same choice. Missing videos give none. |
| MovieDetails.RawRuntime | src/pages/MovieDetails.jsx:78 | The runtime when it is set and non-zero. Else the first episode length, if any. Else 0. |
| MovieDetails.FormatRuntime | src/pages/MovieDetails.jsx:79 | The text is `N/A` exactly when the raw runtime is not positive. |
| MovieDetails.ReadFormatRuntime | src/pages/MovieDetails.jsx:79 | The text `{h}h {m}m` reads back with h·60 + m = raw and m < 60. `N/A` reads back as nothing. |
| MovieDetails.FormatRuntimeInjective | src/pages/MovieDetails.jsx:79 | Different positive runtimes are shown differently. |
| MovieDetails.DetailsYear | src/pages/MovieDetails.jsx:77 | The text before the first `-`, or `N/A` when the date is absent or that text is empty. |
| MovieDetails.ReleaseYear | src/pages/MovieDetails.jsx:75-76 | The year of the release date when there is one (non-empty). Otherwise the year of the first air date. Any year shown is a dash-free prefix of that date, and a release date starting with a digit gives exactly its year. |
| MovieDetails.SeriesYear | src/pages/MovieDetails.jsx:75-76 | A series with no release date and the first air date `2010-07-25` shows `2010`. |
| MovieDetails.RatingOf | src/pages/MovieDetails.jsx:80 | The vote average when it is positive, and `NR` otherwise. |
| MovieDetails.ToggledWishlist | src/pages/MovieDetails.jsx:50-52 | A saved title loses every copy of its id. An unsaved title's id is appended. |
| MovieDetails.ToggleTwice | src/pages/MovieDetails.jsx:50-52 | Saving and then removing a title returns the original list. |
| MovieDetails.DetailsPage.SyncWishlist | src/pages/MovieDetails.jsx:32-35 | With a wishlist, the flag says exactly whether the title is on it. Without one, the flag is kept. |
| MovieDetails.DetailsPage.ToggleWishlist | src/pages/MovieDetails.jsx:41-62 | Without a user: "Login required" and no request. On success, the toggled list is stored and "Removed" or "Saved" is shown. On a failure, the flag rolls back and "Failed to update wishlist" is shown. |
| MovieDetails.ToggleAndSync | src/pages/MovieDetails.jsx:32-62 | After a successful toggle, the flag flips and agrees with the stored wishlist. |
| MovieCard.LinkPath | src/components/MovieCard.jsx:8-9 | A card links to `/tv/{id}` exactly when it is a series (tv `media_type`, tv `type`, or a name without a title), and to `/movie/{id}` otherwise. |
| MovieCard.CardYear | src/components/MovieCard.jsx:11-12 | The text before the first `-` of the date, falling back to the first air date. `N/A` when there is no date. |
| MovieCard.CardYearMatchesDetails | src/components/MovieCard.jsx:12 | A card and the detail page show the same year, unless the date starts with `-`. |
| MovieCard.HandleClick | src/components/MovieCard.jsx:14-18 | A click counts the card's genres only when it carries a non-empty genre list. |
| HeroBanner.Next | src/components/HeroBanner.jsx:19 | A tick stays in [0, length) for a non-empty list. An empty list gives `NaN`. |
| HeroBanner.NextStep | src/components/HeroBanner.jsx:19 | A tick moves to the next slide, or wraps from the last slide to the first. |
| HeroBanner.TicksCompose | src/components/HeroBanner.jsx:17-21 | Ticks compose: a + b ticks are a ticks followed by b ticks. |
| HeroBanner.TicksAdvance | src/components/HeroBanner.jsx:19 | Before the last slide, each tick moves one slide on. |
| HeroBanner.TicksCycle | src/components/HeroBanner.jsx:17-21 | After as many ticks as there are slides, the banner is back where it started. |
| HeroBanner.LinkPath | src/components/HeroBanner.jsx:30-31 | `/{type}/{id}`, with the type defaulting to `movie`. |
| HeroBanner.Indicators | src/components/HeroBanner.jsx:125-128 | One dot per slide, lit exactly at the index. |
| HeroBanner.SlideAt | src/components/HeroBanner.jsx:27-31 | The slide shows the item at the index. |
| HeroBanner.AbsentContentCrashes | src/components/HeroBanner.jsx:23-25 | As written, absent content throws before the guard runs. Empty content renders nothing. |
| HeroBanner.View | src/components/HeroBanner.jsx:25-31 | Corrected: absent or empty content renders nothing. At a valid index, the slide shows that item, its link and exactly one lit dot. |
| HeroBanner.BannerTrailer | src/components/HeroBanner.jsx:36-37 | The first YouTube trailer, else the first YouTube video (no teaser tier). None exactly when no video is on YouTube. |
| HeroBanner.BannerSkipsTeasers | src/components/HeroBanner.jsx:36-37 | With a clip listed before a teaser and no trailer, the banner plays the clip and the detail page plays the teaser. |
| HeroBanner.Banner.Tick | src/components/HeroBanner.jsx:16-23 | The index does not move while the modal is open. Otherwise it takes one step modulo the length of the shown `content`, and stays in range. |
| HeroBanner.Banner.WatchTrailer | src/components/HeroBanner.jsx:27-49 | Requests the details of the slide shown, `content[index]`, with its kind defaulting to `movie`. A trailer opens the modal. Otherwise "No trailer available", or "Failed to load trailer" on a failed request. |
| HeroBanner.Banner.CloseModal | src/components/HeroBanner.jsx:55 | Closing the modal changes nothing else. |
| BottomNav.Bar | src/components/BottomNav.jsx:6-20 | Hidden exactly on the three auth pages. Home and Saved are active only on an exact match. Search is active on any path starting with `/search`. |
| BottomNav.AtMostOneActive | src/components/BottomNav.jsx:10-20 | No path makes two items active. |
| BottomNav.EachPageHighlightsItsItem | src/components/BottomNav.jsx:10-20 | Each item is active on its own page. |
| SearchResults.FilterType | src/pages/SearchResults.jsx:16 | The `type` parameter, or `movie` when it is absent or empty. |
| SearchResults.Dispatch | src/pages/SearchResults.jsx:12-31 | Filter mode exactly for the `filter` route. The three keywords map to their lists. Any other query is a text search for itself. |
| SearchResults.RequestTarget | src/pages/SearchResults.jsx:14-31 | Discover uses the discover target and the keywords use their fixed paths. A text search sends `searchMovies`' unescaped target, whose `query` value reads back as the query when it holds none of `&`, `#`, `%` and `+`. |
| SearchResults.TitleInjective | src/pages/SearchResults.jsx:39-45 | The five heading forms never collide: equal headings mean equal routes. |
| SearchResults.CardsAreTheNonPersons | src/pages/SearchResults.jsx:55-56 | The cards are exactly the non-person results, in order. |
| SearchResults.CardsHaveTheirKind | src/pages/SearchResults.jsx:58-64 | A card's type is the filter type in filter mode. Otherwise it is the item's `media_type`, defaulting to `movie`. |
| SearchResults.BodyOf | src/pages/SearchResults.jsx:53-74 | "No results found." exactly when the list is missing or empty. Otherwise the card grid. |
| SearchResults.NoPersonCards | src/pages/SearchResults.jsx:56 | No person is ever rendered as a card. |
| SearchResults.FilterModeLinks | src/pages/SearchResults.jsx:58-64 | With `type=tv` in filter mode, every card links to a series page. |
| PersonDetails.PrefixOfSorted | src/pages/PersonDetails.jsx:17-20 | A prefix of the sorted kept credits is kept and comes from the cast, in non-increasing popularity. |
| PersonDetails.Credits | src/pages/PersonDetails.jsx:17-20 | Shows credits with a poster and more than 50 votes, from the cast, most popular first, at most 20. A missing cast gives none. |
| PersonDetails.LeftOutAreLessPopular | src/pages/PersonDetails.jsx:18-20 | A qualifying credit is left out only when 20 credits at least as popular are shown. |
| CollectionDetails.PageOf | src/pages/CollectionDetails.jsx:16-21 | "Collection not found" exactly without a collection. Otherwise the parts with a poster, a permutation of them, ordered by release. Missing parts give an empty list. |
| CollectionDetails.FoundKeepsEveryPosteredPart | src/pages/CollectionDetails.jsx:19-21 | A part is shown exactly when it is in the collection and has a poster. |
| AuthStore.ReadStored | src/store/authStore.js:4-14 | Absent, empty, `"undefined"` and `"null"` mean no user. A serialised user reads back. Any other text is corrupt: no user, and the key is removed. |
| AuthStore.ReadIsStable | src/store/authStore.js:4-14 | A second read finds the same user and removes nothing. |
| AuthStore.Merge | src/store/authStore.js:63 | `{...stored, ...updates}` holds every key of either, and the updates win. |
| AuthStore.MessageOr | src/store/authStore.js:36 | The server's message when it is truthy, and the fallback otherwise. |
| AuthStore.Store.constructor | src/store/authStore.js:17 | The initial user is what the guarded read returns, and storage is left as that read leaves it. |
| AuthStore.Store.SetUserData | src/store/authStore.js:20-23 | Sets the user in memory and its serialisation in storage. |
| AuthStore.Store.SignIn | src/store/authStore.js:26-37 | Succeeds only when the response carries a user, which is then stored in memory and storage. Otherwise it fails with the message and changes nothing. |
| AuthStore.Store.Signup | src/store/authStore.js:25-38 | The same, with "Signup failed" as the default message. |
| AuthStore.Store.Login | src/store/authStore.js:40-53 | The same, with "Login failed" as the default message. |
| AuthStore.Store.Logout | src/store/authStore.js:55-58 | The key is removed and the user is null. |
| AuthStore.Store.UpdateProfile | src/store/authStore.js:60-71 | Takes the returned user, or else the stored user merged with the updates. Memory and storage are both set. A failure returns "Update failed" and changes nothing. |

## Left out

- Rendering, styling, animations, scroll effects, skeletons, the video modal's player and the virtualised list are UI only. The model keeps only the values they display.
- HTTP transport and the catalog and auth backends are left out. Each response is an input, and `None` (or `Rejected`/`UpdateFailed`) stands for a failed request. The wishlist request's body and the auth requests' bodies are not modelled. The wishlist request's `_id` target is.
- Timers are left out: the 300 ms search debounce, the 500 ms append delay and the 8 s banner interval. Each is a method for the moment its timer fires. Cancelling a debounce (`clearTimeout`) is a plain state change, because only the last query's timer fires. There is no guard against an older request answering late.
- `Math.random()` and `Date.now()` are parameters. The `uniqueId` keys of feed sections are not claimed to be distinct: they are a float sum, and nothing guarantees it.
- `Array.prototype.sort`'s own algorithm is not modelled. `KeySort.SortBy` and `Recommendations.RankFrom` are insertion sorts that stand for it. Their results are specified as "a permutation ordered by the key", and that is all the front end relies on. The jittered comparator is not consistent, so an engine's sort could compare other pairs. The proved facts about the result hold for the stand-in.
- Floating point is modelled as exact reals: popularity, vote averages and `Math.random()`. The rating's `toFixed(1)` text is left out, and the model keeps the average itself.
- `new Date(release_date)` in `src/pages/CollectionDetails.jsx` is the `released` key parameter. Invalid dates, which give `NaN` and make the comparator inconsistent, are not modelled.
- `getDaysLeft` in `src/components/MovieCard.jsx` is left out, because it depends on the clock and on `Date` arithmetic.
- ColorThief colour extraction, `URLSearchParams` encoding in the filter dialog and react-router's route matching are library behaviour, and are left out.
- The login, register, password-reset and profile pages are thin form wrappers over the store, and are not modelled.
- JSON serialisation is identity. For the `user` entry, any text other than a serialised user stands for a text `JSON.parse` rejects.
- `localStorage` failures are not modelled: `src/utils/recommendations.js` has no handler for them.
- Urls.Parse: the reader splits at `?`, `&` and `=` only. It does not cut at `#`, where the HTTP client drops the rest of the URL, and it does not decode `%` escapes or `+`. Statements that a raw query reads back are therefore made only for queries without `&`, `#`, `%` and `+` (`Urls.QueryPlain`).
- Urls.Escape: only the characters that change how a query value is read are escaped: `%`, `&`, `#` and `+`. `encodeURIComponent` escapes more, but the other escapes do not change what the API reads back.
- Navbar.SearchBox.HandleSelect: an item with neither a title nor a name records nothing. The source would store `undefined` in the history.
- MobileSearch.SearchPage.HandleSelect: the same.
- MovieDetails.Wishlist: a `wishlist` field that is not a list of ids is treated as absent. With a missing wishlist, `filter` or the spread throws inside the `try`, so the toggle rolls back with "Failed to update wishlist".
- BottomNav.Bar: like the source, a path such as `/searchX` counts as under `/search`.
- SearchResults.BodyOf: when every result is a person, the page shows an empty grid rather than "No results found.". This is what the code does.
- HeroBanner.ViewAsWritten: an index outside a list that shrank between renders makes the slide undefined. This is modelled as a crash.

## Findings

The search boxes and the results page send the query as written (`Tmdb.SearchPath`). The corrected target of the first row is stated beside them and not used by them.

| source | as written | input that shows it | evidently intended | confidence | as-written member | corrected member |
|---|---|---|---|---|---|---|
| src/api/tmdb.js:25-26 | `searchMovies` pastes the query into the target without escaping it | the query `Fast & Furious` is sent as `query=Fast ` plus a stray pair ` Furious`. Likewise `C#` is cut at `#`, which also drops `include_adult=false`, and the server decodes `C++` as `C  ` and `50%25` as `50%` | the API receives the query the user typed | not executed | Tmdb.SearchPathSplitsAtAmpersand | Tmdb.SearchPathEscaped |
| src/components/HeroBanner.jsx:23-25 | the effect's dependency list reads `content.length` before the `!content` guard | `<HeroBanner />` with no `content` throws a `TypeError` on the first render (the home page always passes a list, so the defect is latent there) | absent content renders nothing, as the guard says | not executed | HeroBanner.AbsentContentCrashes | HeroBanner.View |
