/** The results page (`src/pages/SearchResults.jsx`) for `/search/{query}`: which list it asks
    for, the heading it shows, and the cards it renders. */
module SearchResults {
  import opened Common
  import opened Catalog
  import opened Urls
  import opened Tmdb
  import MovieCard

  /** The route's search parameters, as `searchParams.get` reads them. */
  type Params = map<string, string>

  function Get(params: Params, key: string): Option<string> {
    if key in params then Some(params[key]) else None
  }

  /** `isFilterMode`: the route `/search/filter` shows the discover results of the filters. */
  predicate IsFilterMode(query: string) {
    query == "filter"
  }

  /** `searchParams.get('type') || 'movie'`. */
  function FilterType(params: Params): (k: string)
    ensures Truthy(Get(params, "type")) ==> k == params["type"]
    ensures !Truthy(Get(params, "type")) ==> k == "movie"
  {
    if Truthy(Get(params, "type")) then params["type"] else "movie"
  }

  function FiltersOf(params: Params): Filters {
    Filters(Get(params, "genre"), Get(params, "year"), Get(params, "country"), Get(params, "sort"))
  }

  /** The list `getResults` asks for. */
  datatype Source = Discover(kind: string, filters: Filters) | Upcoming | Trending | TopRated | TextSearch(text: string)

  /** `getResults`: the filters in filter mode, the three fixed lists by keyword, a text search otherwise. */
  function Dispatch(query: string, params: Params): (s: Source)
    ensures s.Discover? <==> IsFilterMode(query)
    ensures s.Discover? ==> s == Discover(FilterType(params), FiltersOf(params))
    ensures s == Upcoming <==> query == "upcoming"
    ensures s == Trending <==> query == "trending"
    ensures s == TopRated <==> query == "top_rated"
    ensures s.TextSearch? <==> query != "filter" && query != "upcoming" && query != "trending" && query != "top_rated"
    ensures s.TextSearch? ==> s.text == query
  {
    if IsFilterMode(query) then Discover(FilterType(params), FiltersOf(params))
    else if query == "upcoming" then Upcoming
    else if query == "trending" then Trending
    else if query == "top_rated" then TopRated
    else TextSearch(query)
  }

  /** The request target of each list; a text search sends its query unescaped. */
  function RequestTarget(s: Source): (t: string)
    ensures s.TextSearch? ==> t == SearchPath(s.text)
    ensures s.TextSearch? && QueryPlain(s.text) ==> Lookup(Parse(t).params, "query") == Some(s.text)
    ensures s.Discover? ==> t == Render(Url("/discover/" + s.kind, DiscoverParams(s.kind, s.filters)))
    ensures s == Upcoming ==> t == UpcomingPath
    ensures s == Trending ==> t == TrendingPath
    ensures s == TopRated ==> t == TopRatedPath
  {
    match s
    case Discover(kind, f) => Render(Url("/discover/" + kind, DiscoverParams(kind, f)))
    case Upcoming => UpcomingPath
    case Trending => TrendingPath
    case TopRated => TopRatedPath
    case TextSearch(q) => SearchPath(q)
  }

  /** `getTitle()`. */
  function Title(query: string): string {
    if IsFilterMode(query) then "Filtered Results"
    else if query == "upcoming" then "Coming Soon"
    else if query == "trending" then "Trending Now"
    else if query == "top_rated" then "Top Rated"
    else "Results for \"" + query + "\""
  }

  /** The heading names the page: two routes with the same heading are the same route. */
  lemma TitleInjective(a: string, b: string)
    requires Title(a) == Title(b)
    ensures a == b
  {
    var prefix := "Results for \"";
    var ka := a == "filter" || a == "upcoming" || a == "trending" || a == "top_rated";
    var kb := b == "filter" || b == "upcoming" || b == "trending" || b == "top_rated";
    assert Title(a)[0] == 'R' <==> !ka;
    assert Title(b)[0] == 'R' <==> !kb;
    if !ka && !kb {
      assert Title(a)[|prefix|..|Title(a)| - 1] == a;
      assert Title(b)[|prefix|..|Title(b)| - 1] == b;
    }
  }

  /** One rendered card and the `type` it is given. */
  datatype Card = Card(item: Media, kind: string)

  /** The card's `type`: the filter type in filter mode, otherwise the item's kind, `movie` by default. */
  function CardKind(query: string, params: Params, m: Media): string {
    if IsFilterMode(query) then FilterType(params) else MediaKind(m)
  }

  /** The items of some cards. */
  function Items(cards: seq<Card>): (r: seq<Media>)
    ensures |r| == |cards| && forall i :: 0 <= i < |cards| ==> r[i] == cards[i].item
  {
    if cards == [] then [] else [cards[0].item] + Items(cards[1..])
  }

  /** `data.results.map(...)`: a card for every result that is not a person. */
  function Cards(results: seq<Media>, query: string, params: Params): seq<Card> {
    if results == [] then []
    else
      var rest := Cards(results[1..], query, params);
      if IsPerson(results[0]) then rest else [Card(results[0], CardKind(query, params, results[0]))] + rest
  }

  /** The cards show exactly the results that are not people, in the API's order. */
  lemma {:induction false} CardsAreTheNonPersons(results: seq<Media>, query: string, params: Params)
    ensures Items(Cards(results, query, params)) == Filter(results, NotPerson)
  {
    if results != [] {
      var rest := Cards(results[1..], query, params);
      CardsAreTheNonPersons(results[1..], query, params);
      assert Filter(results, NotPerson) == (if NotPerson(results[0]) then [results[0]] else []) + Filter(results[1..], NotPerson);
      if !IsPerson(results[0]) {
        var c := Card(results[0], CardKind(query, params, results[0]));
        assert ([c] + rest)[1..] == rest;
      }
    }
  }

  /** Every card carries the type its item is given on this page. */
  lemma {:induction false} CardsHaveTheirKind(results: seq<Media>, query: string, params: Params)
    ensures forall i :: 0 <= i < |Cards(results, query, params)| ==>
              Cards(results, query, params)[i].kind == CardKind(query, params, Cards(results, query, params)[i].item)
  {
    if results != [] {
      var rest := Cards(results[1..], query, params);
      CardsHaveTheirKind(results[1..], query, params);
      if !IsPerson(results[0]) {
        var c := Card(results[0], CardKind(query, params, results[0]));
        assert forall i :: 1 <= i < |[c] + rest| ==> ([c] + rest)[i] == rest[i - 1];
      }
    }
  }

  /** What the page shows under the heading. */
  datatype Body = NoResults | Grid(cards: seq<Card>)

  /** "No results found." when the list is missing or empty; the grid otherwise, which is empty
      when every result is a person. */
  function BodyOf(results: Option<seq<Media>>, query: string, params: Params): (b: Body)
    ensures b.NoResults? <==> results.None? || results.value == []
    ensures b.Grid? ==> b.cards == Cards(results.value, query, params)
  {
    if results.None? || |results.value| == 0 then NoResults else Grid(Cards(results.value, query, params))
  }

  /** No person is ever shown as a card. */
  lemma NoPersonCards(results: seq<Media>, query: string, params: Params)
    ensures forall i :: 0 <= i < |Cards(results, query, params)| ==> !IsPerson(Cards(results, query, params)[i].item)
  {
    var r := Cards(results, query, params);
    CardsAreTheNonPersons(results, query, params);
    forall i | 0 <= i < |r| ensures !IsPerson(r[i].item) {
      assert Items(r)[i] in Filter(results, NotPerson);
    }
  }

  /** In filter mode every card links to the pages of the filter's kind: series pages for `tv`. */
  lemma FilterModeLinks(results: seq<Media>, params: Params)
    requires Get(params, "type") == Some("tv")
    ensures forall i :: 0 <= i < |Cards(results, "filter", params)| ==>
              StartsWith(MovieCard.LinkPath(Cards(results, "filter", params)[i].item, Cards(results, "filter", params)[i].kind), "/tv/")
  {
    CardsHaveTheirKind(results, "filter", params);
  }
}
