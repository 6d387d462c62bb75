/** Route paths the front end navigates to or links to, and the pages on which
    the navigation bars are hidden. */
module Routes {
  import opened Common

  /** Pages on which both the top bar and the bottom bar are hidden. */
  const AuthPages: seq<string> := ["/login", "/register", "/forgot-password"]

  predicate IsAuthPage(pathname: string) {
    pathname in AuthPages
  }

  /** `/${kind}/${id}`: the detail page of an item. */
  function ItemPath(kind: string, id: int): (p: string)
    ensures StartsWith(p, "/" + kind + "/")
  {
    var p := "/" + kind + "/" + IntToString(id);
    assert p[..|kind| + 2] == "/" + kind + "/";
    p
  }

  /** `/tv/${id}` for a series, `/movie/${id}` otherwise. */
  function DetailPath(isTv: bool, id: int): (p: string)
    ensures StartsWith(p, "/tv/") <==> isTv
    ensures StartsWith(p, "/movie/") <==> !isTv
  {
    var p := ItemPath(if isTv then "tv" else "movie", id);
    assert !isTv ==> p[1] == 'm';
    assert isTv ==> p[1] == 't';
    p
  }

  /** `/search/${query}`: the results page of a free-text query. */
  function SearchPagePath(query: string): (p: string)
    ensures StartsWith(p, "/search/") && p[8..] == query
  {
    var p := "/search/" + query;
    assert p[..8] == "/search/";
    p
  }

  /** An item path names its kind and its id: no two items share a path. */
  lemma ItemPathInjective(k1: string, i1: int, k2: string, i2: int)
    requires '/' !in k1 && '/' !in k2
    requires ItemPath(k1, i1) == ItemPath(k2, i2)
    ensures k1 == k2 && i1 == i2
  {
    var n1 := IntToString(i1);
    var n2 := IntToString(i2);
    ItemPathTail(k1, i1);
    ItemPathTail(k2, i2);
    var t := k1 + "/" + n1;
    assert t == k2 + "/" + n2;
    SeparatorSplit(k1, '/', n1);
    SeparatorSplit(k2, '/', n2);
    assert n1 == n2;
    IntToStringInjective(i1, i2);
  }

  /** Past its leading slash, an item path is the kind, a slash and the id. */
  lemma ItemPathTail(kind: string, id: int)
    ensures ItemPath(kind, id)[1..] == kind + "/" + IntToString(id)
  {
    var p := "/" + kind + "/" + IntToString(id);
    assert p == "/" + (kind + "/" + IntToString(id));
  }
}
