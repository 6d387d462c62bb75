/** A person's page (`src/pages/PersonDetails.jsx`): the credits shown as cards are the person's
    cast credits with a poster and more than fifty votes, most popular first, at most twenty. */
module PersonDetails {
  import opened Common
  import opened Catalog
  import opened KeySort

  /** The page shows at most this many credits. */
  const CreditCap: nat := 20

  /** `item.poster_path && item.vote_count > 50`. */
  predicate Shown(m: Media) {
    Truthy(m.posterPath) && m.voteCount > 50
  }

  /** `(a, b) => b.popularity - a.popularity` orders by this key, ascending. */
  function LessPopular(m: Media): real {
    -m.popularity
  }

  /** A prefix of the sorted shown credits keeps their facts: each is shown and from the cast,
      popularity does not increase, and no credit occurs more often than in the cast. */
  lemma PrefixOfSorted(cast: seq<Media>, sorted: seq<Media>, r: seq<Media>)
    requires multiset(sorted) == multiset(Filter(cast, Shown)) && SortedBy(sorted, LessPopular) && r <= sorted
    ensures forall m :: m in r ==> Shown(m) && m in cast
    ensures multiset(r) <= multiset(cast)
    ensures forall i, j :: 0 <= i < j < |r| ==> r[i].popularity >= r[j].popularity
  {
    assert sorted == r + sorted[|r|..];
    assert multiset(r) <= multiset(sorted);
    forall m | m in r ensures Shown(m) && m in cast {
      assert m in multiset(r);
      assert m in multiset(Filter(cast, Shown));
    }
    forall i, j | 0 <= i < j < |r| ensures r[i].popularity >= r[j].popularity {
      assert r[i] == sorted[i] && r[j] == sorted[j];
      assert LessPopular(sorted[i]) <= LessPopular(sorted[j]);
    }
  }

  /** `credits`: nothing when the person has no cast list; otherwise the shown credits sorted by
      popularity, most popular first, cut to twenty. Every one comes from the cast list. */
  function Credits(cast: Option<seq<Media>>): (r: seq<Media>)
    ensures cast.None? ==> r == []
    ensures |r| <= CreditCap
    ensures forall m :: m in r ==> Shown(m) && cast.Some? && m in cast.value
    ensures cast.Some? ==> multiset(r) <= multiset(cast.value)
    ensures forall i, j :: 0 <= i < j < |r| ==> r[i].popularity >= r[j].popularity
  {
    if cast.None? then []
    else
      var sorted := SortBy(Filter(cast.value, Shown), LessPopular);
      var r := Take(sorted, CreditCap);
      PrefixOfSorted(cast.value, sorted, r);
      r
  }

  /** A shown-worthy credit is left out only when twenty credits at least as popular are shown. */
  lemma LeftOutAreLessPopular(cast: seq<Media>, m: Media)
    requires m in cast && Shown(m) && m !in Credits(Some(cast))
    ensures |Credits(Some(cast))| == CreditCap
    ensures forall x :: x in Credits(Some(cast)) ==> x.popularity >= m.popularity
  {
    var kept := Filter(cast, Shown);
    var sorted := SortBy(kept, LessPopular);
    var r := Take(sorted, CreditCap);
    assert m in multiset(sorted);
    var k :| 0 <= k < |sorted| && sorted[k] == m;
    assert forall i :: 0 <= i < |r| ==> r[i] == sorted[i];
    assert k >= |r|;
    forall x | x in r ensures x.popularity >= m.popularity {
      var i :| 0 <= i < |r| && r[i] == x;
      assert LessPopular(sorted[i]) <= LessPopular(sorted[k]);
    }
  }
}
