/** A collection's page (`src/pages/CollectionDetails.jsx`): "Collection not found" without a
    collection, otherwise its parts that have a poster, oldest release first. */
module CollectionDetails {
  import opened Common
  import opened Catalog
  import opened KeySort

  /** A collection record; its `parts` may be missing. */
  datatype Collection = Collection(parts: Option<seq<Media>>)

  datatype Page = NotFound | Found(parts: seq<Media>)

  /** `p => p.poster_path`. */
  predicate HasPoster(m: Media) {
    Truthy(m.posterPath)
  }

  /** The page for a loaded response. `released` stands for `new Date(release_date)` as a number:
      the parts are sorted ascending by it. Missing parts give an empty list. */
  function PageOf(collection: Option<Collection>, released: Media -> real): (p: Page)
    ensures p.NotFound? <==> collection.None?
    ensures collection.Some? && collection.value.parts.None? ==> p == Found([])
    ensures p.Found? ==> forall m :: m in p.parts ==> HasPoster(m)
    ensures p.Found? ==> SortedBy(p.parts, released)
    ensures p.Found? && collection.value.parts.Some? ==>
              multiset(p.parts) == multiset(Filter(collection.value.parts.value, HasPoster))
  {
    match collection
    case None => NotFound
    case Some(c) =>
      match c.parts
      case None => Found([])
      case Some(ps) =>
        var r := SortBy(Filter(ps, HasPoster), released);
        assert forall m :: m in r ==> m in multiset(Filter(ps, HasPoster)) by {
          forall m | m in r ensures m in multiset(Filter(ps, HasPoster)) {
            assert m in multiset(r);
          }
        }
        Found(r)
  }

  /** Every part with a poster is shown, as often as the collection lists it, and no other. */
  lemma FoundKeepsEveryPosteredPart(ps: seq<Media>, released: Media -> real, m: Media)
    ensures m in PageOf(Some(Collection(Some(ps))), released).parts <==> m in ps && HasPoster(m)
  {
    var r := PageOf(Some(Collection(Some(ps))), released).parts;
    assert m in r <==> m in multiset(r);
    assert m in Filter(ps, HasPoster) <==> m in multiset(Filter(ps, HasPoster));
  }
}
