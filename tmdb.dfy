/** The catalog API's request targets (`src/api/tmdb.js`) and the movie-then-series lookup.
    Transport is left to the caller: each response arrives as an input, `None` for a failed request. */
module Tmdb {
  import opened Common
  import opened Urls

  const TrendingPath: string := "/trending/movie/week"
  const TrendingTvPath: string := "/trending/tv/week"
  const UpcomingPath: string := "/movie/upcoming"
  const TopRatedPath: string := "/movie/top_rated"

  /** A path stays plain when plain pieces are joined. */
  lemma PlainPathJoin(a: string, b: string)
    requires PlainPath(a) && PlainPath(b)
    ensures PlainPath(a + b)
  {
    var t := a + b;
    forall i | 0 <= i < |t| ensures t[i] != '?' {
      if i >= |a| {
        assert t[i] == b[i - |a|];
      }
    }
  }

  /** The fixed keys hold neither `&` nor `=`. */
  lemma KeysArePlain()
    ensures PlainKey("with_genres") && PlainKey("sort_by") && PlainKey("append_to_response")
    ensures PlainKey("query") && PlainKey("include_adult") && PlainKey("page")
    ensures PlainKey("with_origin_country") && PlainKey("primary_release_year") && PlainKey("first_air_date_year")
  {
  }

  /** The fixed values and paths hold no separator. */
  lemma ValuesArePlain()
    ensures PlainValue("popularity.desc") && PlainValue("videos,credits,similar") && PlainValue("combined_credits")
    ensures PlainValue("false") && PlainValue("1")
    ensures PlainPath("/search/multi") && PlainPath("/discover/") && PlainPath("/person/") && PlainPath("/") && PlainPath("/collection/")
  {
  }

  /** A printed number is a plain value. */
  lemma NumberIsPlain(n: int)
    ensures PlainValue(IntToString(n))
  {
    var s := IntToString(n);
    if n < 0 {
      var t := s[1..];
      assert forall i :: 1 <= i < |s| ==> s[i] == t[i - 1];
    }
  }

  /** `fetchCollectionDetails`: `/collection/{id}`, without a query. */
  function CollectionPath(id: string): (p: string)
    ensures PlainPath(id) ==> Parse(p) == Url("/collection/" + id, [])
  {
    var p := "/collection/" + id;
    assert PlainPath(id) ==> Parse(p) == Url(p, []) by {
      if PlainPath(id) {
        PlainPathJoin("/collection/", id);
        ParseRender(Url(p, []));
      }
    }
    p
  }

  lemma ByGenreParts(kind: string, genreId: int)
    ensures var u := Url("/discover/" + kind, [Param("with_genres", IntToString(genreId)), Param("sort_by", "popularity.desc")]);
            "/discover/" + kind + "?" + "with_genres" + "=" + IntToString(genreId) + "&" + "sort_by" + "=" + "popularity.desc" == Render(u) &&
            (PlainPath(kind) ==> WellFormed(u))
  {
    RenderTwoPairs("/discover/" + kind, "with_genres", IntToString(genreId), "sort_by", "popularity.desc");
    NumberIsPlain(genreId);
    KeysArePlain();
    ValuesArePlain();
    if PlainPath(kind) {
      PlainPathJoin("/discover/", kind);
    }
  }

  /** `fetchByGenre`: the most popular titles of one genre. */
  function ByGenrePath(kind: string, genreId: int): (p: string)
    ensures PlainPath(kind) ==>
      Parse(p) == Url("/discover/" + kind, [Param("with_genres", IntToString(genreId)), Param("sort_by", "popularity.desc")])
  {
    ByGenreParts(kind, genreId);
    var u := Url("/discover/" + kind, [Param("with_genres", IntToString(genreId)), Param("sort_by", "popularity.desc")]);
    assert PlainPath(kind) ==> Parse(Render(u)) == u by {
      if PlainPath(kind) {
        ParseRender(u);
      }
    }
    "/discover/" + kind + "?" + "with_genres" + "=" + IntToString(genreId) + "&" + "sort_by" + "=" + "popularity.desc"
  }

  lemma DetailsParts(id: string, kind: string)
    ensures var u := Url("/" + kind + "/" + id, [Param("append_to_response", "videos,credits,similar")]);
            "/" + kind + "/" + id + "?" + "append_to_response" + "=" + "videos,credits,similar" == Render(u) &&
            (PlainPath(kind) && PlainPath(id) ==> WellFormed(u))
  {
    RenderOnePair("/" + kind + "/" + id, "append_to_response", "videos,credits,similar");
    KeysArePlain();
    ValuesArePlain();
    if PlainPath(kind) && PlainPath(id) {
      PlainPathJoin("/", kind);
      PlainPathJoin("/" + kind, "/");
      PlainPathJoin("/" + kind + "/", id);
    }
  }

  /** `fetchDetails`: the record of one title with its videos, credits and similar titles. */
  function DetailsPath(id: string, kind: string): (p: string)
    ensures PlainPath(kind) && PlainPath(id) ==>
      Parse(p) == Url("/" + kind + "/" + id, [Param("append_to_response", "videos,credits,similar")])
  {
    DetailsParts(id, kind);
    var u := Url("/" + kind + "/" + id, [Param("append_to_response", "videos,credits,similar")]);
    assert PlainPath(kind) && PlainPath(id) ==> Parse(Render(u)) == u by {
      if PlainPath(kind) && PlainPath(id) {
        ParseRender(u);
      }
    }
    "/" + kind + "/" + id + "?" + "append_to_response" + "=" + "videos,credits,similar"
  }

  lemma PersonParts(id: string)
    ensures var u := Url("/person/" + id, [Param("append_to_response", "combined_credits")]);
            "/person/" + id + "?" + "append_to_response" + "=" + "combined_credits" == Render(u) &&
            (PlainPath(id) ==> WellFormed(u))
  {
    RenderOnePair("/person/" + id, "append_to_response", "combined_credits");
    KeysArePlain();
    ValuesArePlain();
    if PlainPath(id) {
      PlainPathJoin("/person/", id);
    }
  }

  /** `fetchPersonDetails`: a person with their combined credits. */
  function PersonPath(id: string): (p: string)
    ensures PlainPath(id) ==> Parse(p) == Url("/person/" + id, [Param("append_to_response", "combined_credits")])
  {
    PersonParts(id);
    var u := Url("/person/" + id, [Param("append_to_response", "combined_credits")]);
    assert PlainPath(id) ==> Parse(Render(u)) == u by {
      if PlainPath(id) {
        ParseRender(u);
      }
    }
    "/person/" + id + "?" + "append_to_response" + "=" + "combined_credits"
  }

  lemma SearchParts(query: string)
    ensures var u := Url("/search/multi", [Param("query", query), Param("include_adult", "false")]);
            "/search/multi" + "?" + "query" + "=" + query + "&" + "include_adult" + "=" + "false" == Render(u) &&
            (PlainValue(query) ==> WellFormed(u))
  {
    var path := "/search/multi";
    RenderTwoPairs(path, "query", query, "include_adult", "false");
    KeysArePlain();
    ValuesArePlain();
  }

  /** `searchMovies` as written: the query is pasted into the target unescaped. Its pairs are
      the query and `include_adult=false` only while the query holds no `&`. */
  function SearchPath(query: string): (p: string)
    ensures PlainValue(query) ==>
      Parse(p) == Url("/search/multi", [Param("query", query), Param("include_adult", "false")])
    ensures QueryPlain(query) ==> Lookup(Parse(p).params, "query") == Some(query)
  {
    SearchParts(query);
    var u := Url("/search/multi", [Param("query", query), Param("include_adult", "false")]);
    assert PlainValue(query) ==> Parse(Render(u)) == u by {
      if PlainValue(query) {
        ParseRender(u);
      }
    }
    "/search/multi" + "?" + "query" + "=" + query + "&" + "include_adult" + "=" + "false"
  }

  lemma JoinThree(x: string, y: string, z: string, c: char)
    ensures Join([x, y, z], c) == x + [c] + y + [c] + z
  {
    assert [x, y, z][1..] == [y, z] && [y, z][1..] == [z];
    assert Join([y, z], c) == y + [c] + z;
    assert Join([x, y, z], c) == x + [c] + (y + [c] + z);
  }

  /** A target whose path holds no `?` and whose pairs hold no `&` reads back pair by pair. */
  lemma ParseQuery(path: string, pairs: seq<string>)
    requires PlainPath(path) && |pairs| > 0 && forall i :: 0 <= i < |pairs| ==> '&' !in pairs[i]
    ensures Parse(path + "?" + Join(pairs, '&')) == Url(path, ParseAll(pairs))
  {
    assert '?' !in path;
    SeparatorSplit(path, '?', Join(pairs, '&'));
    SplitJoin(pairs, '&');
  }

  lemma Regroup(p: string, k: string, a: string, b: string, l1: string, l2: string)
    ensures p + "?" + k + "=" + (a + "&" + b) + "&" + l1 + "=" + l2 ==
            p + "?" + ((k + "=" + a) + ['&'] + b + ['&'] + (l1 + "=" + l2))
  {
  }

  /** The target of a query `a&b`, cut at every `&`. */
  lemma SearchTextOfAmpersand(a: string, b: string)
    ensures SearchPath(a + "&" + b) == "/search/multi" + "?" + Join(["query" + "=" + a, b, "include_adult" + "=" + "false"], '&')
  {
    Regroup("/search/multi", "query", a, b, "include_adult", "false");
    JoinThree("query" + "=" + a, b, "include_adult" + "=" + "false", '&');
  }

  lemma PairsOfAmpersand(a: string, b: string)
    requires '=' !in b
    ensures ParseAll(["query" + "=" + a, b, "include_adult" + "=" + "false"]) ==
            [Param("query", a), Param(b, ""), Param("include_adult", "false")]
  {
    var xs := ["query" + "=" + a, b, "include_adult" + "=" + "false"];
    SeparatorSplit("query", '=', a);
    assert ParseParam(xs[0]) == Param("query", a);
    assert IndexOf(b, '=') == |b| && b[..|b|] == b;
    assert ParseParam(xs[1]) == Param(b, "");
    SeparatorSplit("include_adult", '=', "false");
    assert ParseParam(xs[2]) == Param("include_adult", "false");
  }

  /** A query `a&b` reaches the API as the query `a` followed by a stray pair `b`: the search for
      "Fast & Furious" asks for "Fast ". */
  lemma SearchPathSplitsAtAmpersand(a: string, b: string)
    requires '&' !in a && '&' !in b && '=' !in b
    ensures var ps := Parse(SearchPath(a + "&" + b)).params;
            ps == [Param("query", a), Param(b, ""), Param("include_adult", "false")] &&
            Lookup(ps, "query") == Some(a) != Some(a + "&" + b)
  {
    var pairs := ["query" + "=" + a, b, "include_adult" + "=" + "false"];
    SearchTextOfAmpersand(a, b);
    assert PlainPath("/search/multi") && '&' !in pairs[0] && '&' !in pairs[2];
    ParseQuery("/search/multi", pairs);
    PairsOfAmpersand(a, b);
    assert |a + "&" + b| > |a|;
  }

  /** `searchMovies` with the query escaped: the API reads back exactly the query typed, whatever it holds. */
  function SearchPathEscaped(query: string): (p: string)
    ensures Parse(p) == Url("/search/multi", [Param("query", Escape(query)), Param("include_adult", "false")])
    ensures Unescape(Lookup(Parse(p).params, "query").value) == query
  {
    var e := Escape(query);
    assert PlainValue(e);
    UnescapeEscape(query);
    SearchPath(e)
  }

  /** The filter values of the discover page; each may be absent or empty. */
  datatype Filters = Filters(genre: Option<string>, year: Option<string>, country: Option<string>, sort: Option<string>)

  /** The year filter's key: release year for movies, first-air year for series. */
  function YearKey(kind: string): string {
    if kind == "movie" then "primary_release_year" else "first_air_date_year"
  }

  /** Position of each key in the order `discoverContent` appends them. */
  function KeyRank(key: string): nat {
    if key == "include_adult" then 0
    else if key == "page" then 1
    else if key == "with_genres" then 2
    else if key == "with_origin_country" then 3
    else if key == "sort_by" then 4
    else if key == "primary_release_year" || key == "first_air_date_year" then 5
    else 6
  }

  /** Strictly increasing in that order, so in particular no key twice. */
  predicate InKeyOrder(ps: seq<Param>) {
    forall i, j :: 0 <= i < j < |ps| ==> KeyRank(ps[i].key) < KeyRank(ps[j].key)
  }

  const BaseParams: seq<Param> := [Param("include_adult", "false"), Param("page", "1")]

  /** `if (v) url += '&key=' + v`: the pair, when the filter value is truthy. */
  function Opt(key: string, v: Option<string>): seq<Param> {
    if Truthy(v) then [Param(key, v.value)] else []
  }

  /** The pairs of a discover request, in the order `discoverContent` appends them. */
  function DiscoverParams(kind: string, f: Filters): seq<Param> {
    BaseParams + Opt("with_genres", f.genre) + Opt("with_origin_country", f.country) + Opt("sort_by", f.sort) +
    Opt(YearKey(kind), f.year)
  }

  /** The first pair with a key sits in the first list that has one. */
  lemma {:induction false} LookupConcat(a: seq<Param>, b: seq<Param>, k: string)
    ensures Lookup(a + b, k) == if Lookup(a, k).Some? then Lookup(a, k) else Lookup(b, k)
  {
    if a == [] {
      assert a + b == b;
    } else {
      assert (a + b)[0] == a[0];
      assert (a + b)[1..] == a[1..] + b;
      LookupConcat(a[1..], b, k);
    }
  }

  /** The fixed pairs answer only their own two keys. */
  lemma LookupBase(k: string)
    ensures Lookup(BaseParams, k) ==
              if k == "include_adult" then Some("false") else if k == "page" then Some("1") else None
  {
    var tail := [Param("page", "1")];
    assert BaseParams[0] == Param("include_adult", "false") && BaseParams[1..] == tail;
    assert tail[1..] == [];
    assert Lookup(tail, k) == if k == "page" then Some("1") else None;
    assert Lookup(BaseParams, k) == if k == "include_adult" then Some("false") else Lookup(tail, k);
  }

  /** Looking up a key in a discover request: the first of the fixed pairs and the four filters that has it. */
  lemma LookupDiscover(kind: string, f: Filters, k: string)
    ensures var ps := [BaseParams, Opt("with_genres", f.genre), Opt("with_origin_country", f.country),
                       Opt("sort_by", f.sort), Opt(YearKey(kind), f.year)];
            Lookup(DiscoverParams(kind, f), k) ==
              if Lookup(ps[0], k).Some? then Lookup(ps[0], k)
              else if Lookup(ps[1], k).Some? then Lookup(ps[1], k)
              else if Lookup(ps[2], k).Some? then Lookup(ps[2], k)
              else if Lookup(ps[3], k).Some? then Lookup(ps[3], k)
              else Lookup(ps[4], k)
  {
    var g := Opt("with_genres", f.genre);
    var c := Opt("with_origin_country", f.country);
    var s := Opt("sort_by", f.sort);
    var y := Opt(YearKey(kind), f.year);
    LookupConcat(BaseParams + g + c + s, y, k);
    LookupConcat(BaseParams + g + c, s, k);
    LookupConcat(BaseParams + g, c, k);
    LookupConcat(BaseParams, g, k);
  }

  /** Each filter is sent exactly when it is truthy, with its value, and the year under the key
      of the request's kind: release year for movies, first-air year for series. */
  lemma DiscoverFilters(kind: string, f: Filters)
    ensures Lookup(DiscoverParams(kind, f), "with_genres") == (if Truthy(f.genre) then f.genre else None)
    ensures Lookup(DiscoverParams(kind, f), "with_origin_country") == (if Truthy(f.country) then f.country else None)
    ensures Lookup(DiscoverParams(kind, f), "sort_by") == (if Truthy(f.sort) then f.sort else None)
    ensures Lookup(DiscoverParams(kind, f), YearKey(kind)) == (if Truthy(f.year) then f.year else None)
    ensures Lookup(DiscoverParams(kind, f), "include_adult") == Some("false")
    ensures Lookup(DiscoverParams(kind, f), "page") == Some("1")
  {
    assert YearKey(kind) == "primary_release_year" || YearKey(kind) == "first_air_date_year";
    LookupBase("with_genres");
    LookupBase("with_origin_country");
    LookupBase("sort_by");
    LookupBase(YearKey(kind));
    LookupBase("include_adult");
    LookupBase("page");
    LookupDiscover(kind, f, "with_genres");
    LookupDiscover(kind, f, "with_origin_country");
    LookupDiscover(kind, f, "sort_by");
    LookupDiscover(kind, f, YearKey(kind));
    LookupDiscover(kind, f, "include_adult");
    LookupDiscover(kind, f, "page");
  }

  /** The fixed pairs come first, the year (when set) last, and with no filter set the request is the fixed pairs alone. */
  lemma DiscoverShape(kind: string, f: Filters)
    ensures DiscoverParams(kind, f)[..2] == BaseParams
    ensures Truthy(f.year) ==> DiscoverParams(kind, f)[|DiscoverParams(kind, f)| - 1] == Param(YearKey(kind), f.year.value)
    ensures !Truthy(f.genre) && !Truthy(f.year) && !Truthy(f.country) && !Truthy(f.sort) ==> DiscoverParams(kind, f) == BaseParams
  {
  }

  /** Appending an optional pair whose key ranks after every key so far keeps the order. */
  lemma OptInKeyOrder(ps: seq<Param>, key: string, v: Option<string>)
    requires InKeyOrder(ps) && forall i :: 0 <= i < |ps| ==> KeyRank(ps[i].key) < KeyRank(key)
    ensures InKeyOrder(ps + Opt(key, v))
    ensures forall i :: 0 <= i < |ps + Opt(key, v)| ==> KeyRank((ps + Opt(key, v))[i].key) <= KeyRank(key)
  {
    var r := ps + Opt(key, v);
    forall i | 0 <= i < |r| ensures KeyRank(r[i].key) <= KeyRank(key) {
      if i < |ps| {
        assert r[i] == ps[i];
      }
    }
  }

  /** The keys follow the order: fixed pairs, genre, country, sort, year; so no key is sent twice. */
  lemma DiscoverKeyOrder(kind: string, f: Filters)
    ensures InKeyOrder(DiscoverParams(kind, f))
  {
    assert KeyRank("include_adult") == 0 && KeyRank("page") == 1;
    assert InKeyOrder(BaseParams);
    assert KeyRank("with_genres") == 2;
    OptInKeyOrder(BaseParams, "with_genres", f.genre);
    var p1 := BaseParams + Opt("with_genres", f.genre);
    assert KeyRank("with_origin_country") == 3;
    OptInKeyOrder(p1, "with_origin_country", f.country);
    var p2 := p1 + Opt("with_origin_country", f.country);
    assert KeyRank("sort_by") == 4;
    OptInKeyOrder(p2, "sort_by", f.sort);
    var p3 := p2 + Opt("sort_by", f.sort);
    assert KeyRank(YearKey(kind)) == 5;
    OptInKeyOrder(p3, YearKey(kind), f.year);
  }

  /** The text one `if (v) url += ...` step appends. */
  function OptText(key: string, v: Option<string>): string {
    if Truthy(v) then "&" + key + "=" + v.value else ""
  }

  lemma RenderOpt(path: string, ps: seq<Param>, key: string, v: Option<string>)
    requires ps != []
    ensures Render(Url(path, ps + Opt(key, v))) == Render(Url(path, ps)) + OptText(key, v)
  {
    if Truthy(v) {
      RenderAppendPair(path, ps, key, v.value);
    } else {
      assert ps + Opt(key, v) == ps;
    }
  }

  /** `discoverContent(type, filters)`: the target built by appending to `url` one filter at a time. */
  method DiscoverContent(kind: string, f: Filters) returns (url: string)
    ensures url == Render(Url("/discover/" + kind, DiscoverParams(kind, f)))
    ensures !Truthy(f.genre) && !Truthy(f.year) && !Truthy(f.country) && !Truthy(f.sort) ==>
              url == Render(Url("/discover/" + kind, BaseParams))
  {
    var path := "/discover/" + kind;
    url := path + "?" + "include_adult" + "=" + "false" + "&" + "page" + "=" + "1";
    ghost var ps := BaseParams;
    RenderTwoPairs(path, "include_adult", "false", "page", "1");
    assert url == Render(Url(path, ps));
    if Truthy(f.genre) {
      url := url + ("&" + "with_genres" + "=" + f.genre.value);
    }
    RenderOpt(path, ps, "with_genres", f.genre);
    ps := ps + Opt("with_genres", f.genre);
    assert url == Render(Url(path, ps));
    if Truthy(f.country) {
      url := url + ("&" + "with_origin_country" + "=" + f.country.value);
    }
    RenderOpt(path, ps, "with_origin_country", f.country);
    ps := ps + Opt("with_origin_country", f.country);
    assert url == Render(Url(path, ps));
    if Truthy(f.sort) {
      url := url + ("&" + "sort_by" + "=" + f.sort.value);
    }
    RenderOpt(path, ps, "sort_by", f.sort);
    ps := ps + Opt("sort_by", f.sort);
    assert url == Render(Url(path, ps));
    if Truthy(f.year) {
      if kind == "movie" {
        url := url + ("&" + "primary_release_year" + "=" + f.year.value);
      } else {
        url := url + ("&" + "first_air_date_year" + "=" + f.year.value);
      }
    }
    RenderOpt(path, ps, YearKey(kind), f.year);
    ps := ps + Opt(YearKey(kind), f.year);
    assert ps == DiscoverParams(kind, f);
  }

  /** An absent filter, or one whose value holds no `&`. */
  predicate PlainFilter(v: Option<string>) {
    v.Some? ==> PlainValue(v.value)
  }

  lemma OptWellFormed(path: string, ps: seq<Param>, key: string, v: Option<string>)
    requires WellFormed(Url(path, ps)) && PlainKey(key) && PlainFilter(v)
    ensures WellFormed(Url(path, ps + Opt(key, v)))
  {
    var r := ps + Opt(key, v);
    forall i | 0 <= i < |r| ensures PlainKey(r[i].key) && PlainValue(r[i].value) {
      if i < |ps| {
        assert r[i] == ps[i];
      }
    }
  }

  /** With plain filter values the API reads back exactly the pairs of `DiscoverParams`. */
  lemma DiscoverParses(kind: string, f: Filters)
    requires PlainPath(kind)
    requires PlainFilter(f.genre) && PlainFilter(f.year) && PlainFilter(f.country) && PlainFilter(f.sort)
    ensures Parse(Render(Url("/discover/" + kind, DiscoverParams(kind, f)))) == Url("/discover/" + kind, DiscoverParams(kind, f))
  {
    var path := "/discover/" + kind;
    PlainPathJoin("/discover/", kind);
    KeysArePlain();
    ValuesArePlain();
    assert WellFormed(Url(path, BaseParams));
    OptWellFormed(path, BaseParams, "with_genres", f.genre);
    var p1 := BaseParams + Opt("with_genres", f.genre);
    OptWellFormed(path, p1, "with_origin_country", f.country);
    var p2 := p1 + Opt("with_origin_country", f.country);
    OptWellFormed(path, p2, "sort_by", f.sort);
    var p3 := p2 + Opt("sort_by", f.sort);
    OptWellFormed(path, p3, YearKey(kind), f.year);
    ParseRender(Url(path, DiscoverParams(kind, f)));
  }

  /** What `fetchUniversalDetails` returns, and the targets it requested in order. */
  datatype Universal = Universal(record: Option<Record>, requested: seq<string>)

  /** `{ ...data, media_type: kind }`. */
  function Tag(data: Record, kind: string): (r: Record)
    ensures r.Keys == data.Keys + {"media_type"} && r["media_type"] == Str(kind)
    ensures forall k :: k in data && k != "media_type" ==> r[k] == data[k]
  {
    data["media_type" := Str(kind)]
  }

  /** `fetchUniversalDetails(id)`: the movie record tagged `movie` when `/movie/{id}` answers;
      otherwise `/tv/{id}` is asked and its record is tagged `tv`; when both fail, null. The series
      target is requested only after the movie request failed. */
  function UniversalDetails(id: string, movie: Option<Record>, tv: Option<Record>): (r: Universal)
    ensures r.requested == if movie.Some? then ["/movie/" + id] else ["/movie/" + id, "/tv/" + id]
    ensures r.record.None? <==> movie.None? && tv.None?
    ensures movie.Some? ==> r.record == Some(Tag(movie.value, "movie"))
    ensures movie.None? && tv.Some? ==> r.record == Some(Tag(tv.value, "tv"))
    ensures r.record.Some? ==> r.record.value["media_type"] in {Str("movie"), Str("tv")}
  {
    match movie
    case Some(m) => Universal(Some(Tag(m, "movie")), ["/movie/" + id])
    case None =>
      match tv
      case Some(t) => Universal(Some(Tag(t, "tv")), ["/movie/" + id, "/tv/" + id])
      case None => Universal(None, ["/movie/" + id, "/tv/" + id])
  }
}
