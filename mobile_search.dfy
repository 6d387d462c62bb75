/** The mobile search page (`src/pages/MobileSearch.jsx`): the same history rule as the top bar,
    with an uncapped result list and no dropdown focus. */
module MobileSearch {
  import opened Common
  import opened Catalog
  import opened Routes
  import opened SearchHistory
  import opened Urls
  import opened Tmdb

  class SearchPage {
    var query: string
    var results: seq<Media>
    var recentSearches: seq<string>
    /** The `recentSearches` storage entry; `None` while the key is absent. */
    var storedHistory: Option<seq<string>>
    /** The paths passed to `navigate`, oldest first. */
    var navigations: seq<string>

    /** The history shown is the one stored (an absent entry reads as empty). */
    predicate Synced()
      reads this
    {
      recentSearches == storedHistory.GetOr([])
    }

    constructor (stored: Option<seq<string>>)
      ensures query == "" && results == [] && recentSearches == []
      ensures storedHistory == stored && navigations == []
    {
      query := "";
      results := [];
      recentSearches := [];
      storedHistory := stored;
      navigations := [];
    }

    /** The mount effect: a missing stored history reads as the empty list. */
    method Mount()
      modifies this
      ensures Synced()
      ensures recentSearches == old(storedHistory).GetOr([])
      ensures query == old(query) && results == old(results)
      ensures storedHistory == old(storedHistory) && navigations == old(navigations)
    {
      recentSearches := storedHistory.GetOr([]);
    }

    /** The input's `onChange`. */
    method SetQuery(q: string)
      modifies this
      ensures query == q
      ensures results == old(results) && recentSearches == old(recentSearches)
      ensures storedHistory == old(storedHistory) && navigations == old(navigations)
    {
      query := q;
    }

    /** The debounced effect's timer fires with the current query: a short query clears the list;
        a longer one lists every result of `searchMovies(query)` (the raw query) that is not a person (`None`:
        the request failed and the list stays). */
    method SearchTimerFires(response: Option<seq<Media>>) returns (request: Option<string>)
      modifies this
      ensures request.Some? <==> ShouldSearch(query)
      ensures request.Some? ==> request.value == SearchPath(query)
      ensures request.Some? && QueryPlain(query) ==> Lookup(Parse(request.value).params, "query") == Some(query)
      ensures request.None? ==> results == []
      ensures request.Some? && response.Some? ==> results == MobileResults(response.value)
      ensures request.Some? && response.None? ==> results == old(results)
      ensures query == old(query) && recentSearches == old(recentSearches)
      ensures storedHistory == old(storedHistory) && navigations == old(navigations)
    {
      if ShouldSearch(query) {
        request := Some(SearchPath(query));
        if response.Some? {
          results := MobileResults(response.value);
        }
      } else {
        request := None;
        results := [];
      }
    }

    /** `addToHistory(term)`: the new history is shown and written to storage. */
    method AddToHistory(term: string)
      modifies this
      ensures recentSearches == SearchHistory.AddToHistory(old(recentSearches), term)
      ensures storedHistory == Some(recentSearches) && Synced()
      ensures query == old(query) && results == old(results) && navigations == old(navigations)
    {
      recentSearches := SearchHistory.AddToHistory(recentSearches, term);
      storedHistory := Some(recentSearches);
    }

    /** `handleSelect(item)`: records the title (or name) and opens the item's page; the query stays. */
    method HandleSelect(item: Media)
      modifies this
      ensures navigations == old(navigations) + [SelectPath(item)]
      ensures TitleOf(item).Some? ==>
                recentSearches == SearchHistory.AddToHistory(old(recentSearches), TitleOf(item).value) &&
                storedHistory == Some(recentSearches)
      ensures TitleOf(item).None? ==> recentSearches == old(recentSearches) && storedHistory == old(storedHistory)
      ensures query == old(query) && results == old(results)
    {
      var term := TitleOf(item);
      if term.Some? {
        AddToHistory(term.value);
      }
      navigations := navigations + [SelectPath(item)];
    }

    /** `handleSearchSubmit`: an empty query does nothing; otherwise it is recorded and searched. */
    method HandleSearchSubmit()
      modifies this
      ensures old(query) == "" ==> recentSearches == old(recentSearches) && storedHistory == old(storedHistory) &&
                                   navigations == old(navigations)
      ensures old(query) != "" ==> recentSearches == SearchHistory.AddToHistory(old(recentSearches), old(query)) &&
                                   storedHistory == Some(recentSearches) &&
                                   navigations == old(navigations) + [SearchPagePath(old(query))]
      ensures query == old(query) && results == old(results)
    {
      if query != "" {
        AddToHistory(query);
        navigations := navigations + [SearchPagePath(query)];
      }
    }

    /** A click on the `i`-th recent search: fills the query and opens its results page. */
    method SelectRecent(i: nat)
      requires i < |recentSearches|
      modifies this
      ensures query == old(recentSearches)[i]
      ensures navigations == old(navigations) + [SearchPagePath(old(recentSearches)[i])]
      ensures recentSearches == old(recentSearches) && storedHistory == old(storedHistory) && results == old(results)
    {
      var term := recentSearches[i];
      query := term;
      navigations := navigations + [SearchPagePath(term)];
    }
  }
}
