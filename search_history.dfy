/** The rules the two search boxes share (`src/components/Navbar.jsx`, `src/pages/MobileSearch.jsx`):
    the recent-search history, when a search request is sent, which results are kept, and where
    selecting a result leads. */
module SearchHistory {
  import opened Common
  import opened Catalog
  import opened Routes

  /** The history holds at most this many terms. */
  const HistoryCap: nat := 5

  predicate NoDuplicates(s: seq<string>) {
    forall i, j :: 0 <= i < j < |s| ==> s[i] != s[j]
  }

  /** `[term, ...history.filter(t => t !== term)].slice(0, 5)`: moves `term` to the front,
      drops its earlier copies and keeps the five most recent terms. */
  function AddToHistory(history: seq<string>, term: string): (r: seq<string>)
    ensures 1 <= |r| <= HistoryCap && r[0] == term
    ensures multiset(r)[term] == 1
    ensures r[1..] <= Filter(history, Other(term))
    ensures |r| == if 1 + |Filter(history, Other(term))| <= HistoryCap then 1 + |Filter(history, Other(term))| else HistoryCap
    ensures forall t :: t in r ==> t == term || t in history
  {
    var others := Filter(history, Other(term));
    var r := Take([term] + others, HistoryCap);
    assert r == [term] + Take(others, HistoryCap - 1);
    assert !Other(term)(term);
    assert term !in others;
    assert forall t :: t in Take(others, HistoryCap - 1) ==> t in others;
    r
  }

  /** Adding a term twice in a row is the same as adding it once. */
  lemma AddToHistoryIdempotent(history: seq<string>, term: string)
    ensures AddToHistory(AddToHistory(history, term), term) == AddToHistory(history, term)
  {
    var r := AddToHistory(history, term);
    var rest := r[1..];
    assert r == [term] + rest;
    assert term !in rest by {
      assert multiset(r) == multiset{term} + multiset(rest);
    }
    FilterConcat([term], rest, Other(term));
    FilterAll(rest, Other(term));
    assert Filter([term], Other(term)) == [];
    assert Filter(r, Other(term)) == rest;
  }

  /** A history without repeated terms stays without repeats. */
  lemma AddToHistoryKeepsNoDuplicates(history: seq<string>, term: string)
    requires NoDuplicates(history)
    ensures NoDuplicates(AddToHistory(history, term))
  {
    var others := Filter(history, Other(term));
    FilterNoDuplicates(history, Other(term));
    var r := AddToHistory(history, term);
    forall i, j | 0 <= i < j < |r| ensures r[i] != r[j] {
      if i == 0 {
        assert r[j] in r[1..];
        assert r[j] in others;
      } else {
        assert r[i] == others[i - 1] && r[j] == others[j - 1];
      }
    }
  }

  lemma {:induction false} FilterNoDuplicates(s: seq<string>, p: string -> bool)
    requires NoDuplicates(s)
    ensures NoDuplicates(Filter(s, p))
  {
    if s != [] {
      FilterNoDuplicates(s[1..], p);
      var rest := Filter(s[1..], p);
      assert s[0] !in s[1..];
      assert s[0] !in rest;
    }
  }

  /** When nothing has to be dropped, every earlier term stays in the history. */
  lemma AddToHistoryKeepsAll(history: seq<string>, term: string, t: string)
    requires |history| < HistoryCap && t in history
    ensures t in AddToHistory(history, term)
  {
    var others := Filter(history, Other(term));
    var r := AddToHistory(history, term);
    if t != term {
      assert t in others;
      assert |others| <= |history|;
      assert r[1..] == others;
    }
  }

  /** `query.length > 2`: the debounced effect sends a request only for longer queries. The
      length is JavaScript's, in UTF-16 code units. */
  predicate ShouldSearch(query: string) {
    Utf16Length(query) > 2
  }

  /** Three characters always search, one never does; two search exactly when one of them lies
      beyond U+FFFF, as two emoji do. */
  lemma ShouldSearchByCharacters(query: string)
    ensures |query| > 2 ==> ShouldSearch(query)
    ensures |query| <= 1 ==> !ShouldSearch(query)
    ensures |query| == 2 ==> (ShouldSearch(query) <==> query[0] as int > 0xFFFF || query[1] as int > 0xFFFF)
  {
    if |query| == 2 {
      var u0 := if query[0] as int > 0xFFFF then 2 else 1;
      var u1 := if query[1] as int > 0xFFFF then 2 else 1;
      assert query[1..][1..] == [];
      assert Utf16Length(query[1..]) == u1 + Utf16Length(query[1..][1..]);
      assert Utf16Length(query) == u0 + u1;
    }
  }

  /** Two emoji are four code units long, so they are searched for. */
  lemma TwoEmojiSearch()
    ensures ShouldSearch("\U{1F600}\U{1F600}")
  {
    ShouldSearchByCharacters("\U{1F600}\U{1F600}");
  }

  /** The dropdown of the top bar: no people, at most six results, in the API's order. */
  function NavbarResults(results: seq<Media>): (r: seq<Media>)
    ensures |r| <= 6
    ensures forall m :: m in r ==> m in results && !IsPerson(m)
    ensures r <= Filter(results, NotPerson)
    ensures |Filter(results, NotPerson)| >= 6 ==> |r| == 6
    ensures |Filter(results, NotPerson)| <= 6 ==> r == Filter(results, NotPerson)
  {
    var kept := Filter(results, NotPerson);
    assert forall m :: m in Take(kept, 6) ==> m in kept;
    Take(kept, 6)
  }

  /** The mobile page's list: every result that is not a person, uncapped, in the API's order. */
  function MobileResults(results: seq<Media>): (r: seq<Media>)
    ensures forall m :: m in r <==> m in results && !IsPerson(m)
    ensures multiset(r) <= multiset(results)
  {
    Filter(results, NotPerson)
  }

  /** Both boxes show the same results, the top bar cut to its first six. */
  lemma NavbarIsMobileCapped(results: seq<Media>)
    ensures NavbarResults(results) == Take(MobileResults(results), 6)
    ensures NavbarResults(results) <= MobileResults(results)
  {
  }

  /** `handleSelect`: the detail page of the chosen result, a series only when `media_type` is `tv`. */
  function SelectPath(item: Media): (p: string)
    ensures StartsWith(p, "/tv/") <==> item.mediaType == Some("tv")
    ensures StartsWith(p, "/movie/") <==> item.mediaType != Some("tv")
  {
    DetailPath(item.mediaType == Some("tv"), item.id)
  }

  /** Different results lead to different pages, unless they are the same kind with the same id. */
  lemma SelectPathInjective(a: Media, b: Media)
    requires SelectPath(a) == SelectPath(b)
    ensures a.id == b.id && (a.mediaType == Some("tv") <==> b.mediaType == Some("tv"))
  {
    var ka := if a.mediaType == Some("tv") then "tv" else "movie";
    var kb := if b.mediaType == Some("tv") then "tv" else "movie";
    ItemPathInjective(ka, a.id, kb, b.id);
  }
}
