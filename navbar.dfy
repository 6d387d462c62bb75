/** The top bar's search box (`src/components/Navbar.jsx`): its query, dropdown results, focus,
    recent-search history and the `recentSearches` storage entry it mirrors. */
module Navbar {
  import opened Common
  import opened Catalog
  import opened Routes
  import opened SearchHistory
  import opened Urls
  import opened Tmdb

  /** `isAuthPage`: the bar is hidden on exactly the three sign-in pages. */
  function Hidden(pathname: string): (h: bool)
    ensures h <==> pathname == "/login" || pathname == "/register" || pathname == "/forgot-password"
  {
    IsAuthPage(pathname)
  }

  class SearchBox {
    var query: string
    var results: seq<Media>
    var isFocused: bool
    var recentSearches: seq<string>
    /** The `recentSearches` storage entry; `None` while the key is absent. */
    var storedHistory: Option<seq<string>>
    /** The paths passed to `navigate`, oldest first. */
    var navigations: seq<string>

    /** The history shown is the one stored (an absent entry reads as empty). */
    predicate Synced()
      reads this
    {
      recentSearches == storedHistory.GetOr([])
    }

    constructor (stored: Option<seq<string>>)
      ensures query == "" && results == [] && !isFocused && recentSearches == []
      ensures storedHistory == stored && navigations == []
    {
      query := "";
      results := [];
      isFocused := false;
      recentSearches := [];
      storedHistory := stored;
      navigations := [];
    }

    /** The mount effect: `JSON.parse(localStorage.getItem('recentSearches')) || []`. */
    method Mount()
      modifies this
      ensures Synced()
      ensures recentSearches == old(storedHistory).GetOr([])
      ensures query == old(query) && results == old(results) && isFocused == old(isFocused)
      ensures storedHistory == old(storedHistory) && navigations == old(navigations)
    {
      recentSearches := storedHistory.GetOr([]);
    }

    /** The input's `onChange`. */
    method SetQuery(q: string)
      modifies this
      ensures query == q
      ensures results == old(results) && isFocused == old(isFocused) && recentSearches == old(recentSearches)
      ensures storedHistory == old(storedHistory) && navigations == old(navigations)
    {
      query := q;
    }

    /** The input's `onFocus`. */
    method Focus()
      modifies this
      ensures isFocused
      ensures query == old(query) && results == old(results) && recentSearches == old(recentSearches)
      ensures storedHistory == old(storedHistory) && navigations == old(navigations)
    {
      isFocused := true;
    }

    /** The debounced effect's timer fires with the current query. A query of at most two
        characters clears the results without a request; otherwise `searchMovies(query)` is sent with the raw query,
        and `response` is what it returned (`None` when it failed, which leaves the results). */
    method SearchTimerFires(response: Option<seq<Media>>) returns (request: Option<string>)
      modifies this
      ensures request.Some? <==> ShouldSearch(query)
      ensures request.Some? ==> request.value == SearchPath(query)
      ensures request.Some? && QueryPlain(query) ==> Lookup(Parse(request.value).params, "query") == Some(query)
      ensures request.None? ==> results == []
      ensures request.Some? && response.Some? ==> results == NavbarResults(response.value)
      ensures request.Some? && response.None? ==> results == old(results)
      ensures query == old(query) && isFocused == old(isFocused) && recentSearches == old(recentSearches)
      ensures storedHistory == old(storedHistory) && navigations == old(navigations)
    {
      if ShouldSearch(query) {
        request := Some(SearchPath(query));
        if response.Some? {
          results := NavbarResults(response.value);
        }
      } else {
        request := None;
        results := [];
      }
    }

    /** `addToHistory(term)`: the new history is shown and written to storage. */
    method AddToHistory(term: string)
      modifies this
      ensures recentSearches == SearchHistory.AddToHistory(old(recentSearches), term)
      ensures storedHistory == Some(recentSearches) && Synced()
      ensures query == old(query) && results == old(results) && isFocused == old(isFocused)
      ensures navigations == old(navigations)
    {
      recentSearches := SearchHistory.AddToHistory(recentSearches, term);
      storedHistory := Some(recentSearches);
    }

    /** `handleSelect(item)`: opens the item's page, records its title (or name), clears the
        query and closes the dropdown. */
    method HandleSelect(item: Media)
      modifies this
      ensures navigations == old(navigations) + [SelectPath(item)]
      ensures TitleOf(item).Some? ==>
                recentSearches == SearchHistory.AddToHistory(old(recentSearches), TitleOf(item).value) &&
                storedHistory == Some(recentSearches)
      ensures TitleOf(item).None? ==> recentSearches == old(recentSearches) && storedHistory == old(storedHistory)
      ensures query == "" && !isFocused && results == old(results)
    {
      navigations := navigations + [SelectPath(item)];
      var term := TitleOf(item);
      if term.Some? {
        AddToHistory(term.value);
      }
      query := "";
      isFocused := false;
    }

    /** `handleSearchSubmit`: an empty query does nothing; otherwise the query is recorded and
        its results page opened. */
    method HandleSearchSubmit()
      modifies this
      ensures old(query) == "" ==> recentSearches == old(recentSearches) && storedHistory == old(storedHistory) &&
                                   navigations == old(navigations) && isFocused == old(isFocused)
      ensures old(query) != "" ==> recentSearches == SearchHistory.AddToHistory(old(recentSearches), old(query)) &&
                                   storedHistory == Some(recentSearches) &&
                                   navigations == old(navigations) + [SearchPagePath(old(query))] && !isFocused
      ensures query == old(query) && results == old(results)
    {
      if query != "" {
        AddToHistory(query);
        navigations := navigations + [SearchPagePath(query)];
        isFocused := false;
      }
    }

    /** A click on the `i`-th recent search: fills the query and opens its results page; the
        history itself is not reordered. */
    method SelectRecent(i: nat)
      requires i < |recentSearches|
      modifies this
      ensures query == old(recentSearches)[i]
      ensures navigations == old(navigations) + [SearchPagePath(old(recentSearches)[i])]
      ensures !isFocused
      ensures recentSearches == old(recentSearches) && storedHistory == old(storedHistory) && results == old(results)
    {
      var term := recentSearches[i];
      query := term;
      navigations := navigations + [SearchPagePath(term)];
      isFocused := false;
    }
  }
}
