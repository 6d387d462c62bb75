/** One poster card (`src/components/MovieCard.jsx`): whether it stands for a series, where it
    links, the title and year it shows, and what a click records. */
module MovieCard {
  import opened Common
  import opened Catalog
  import opened Routes
  import opened Recommendations
  import MovieDetails

  /** `isTv`: the item says it is a series, or the card was told so, or it has a name and no title
      (series carry `name`, movies `title`). */
  predicate IsTv(m: Media, kind: string) {
    m.mediaType == Some("tv") || kind == "tv" || (Truthy(m.name) && !Truthy(m.title))
  }

  /** `linkPath`: the series page for a series card, the movie page otherwise. */
  function LinkPath(m: Media, kind: string): (p: string)
    ensures StartsWith(p, "/tv/") <==> IsTv(m, kind)
    ensures StartsWith(p, "/movie/") <==> !IsTv(m, kind)
    ensures p == ItemPath(if IsTv(m, kind) then "tv" else "movie", m.id)
  {
    DetailPath(IsTv(m, kind), m.id)
  }

  /** `year`: the text before the first `-` of the date, or "N/A" when there is no date. */
  function CardYear(m: Media): (r: string)
    ensures Truthy(DateOf(m)) ==> r == FirstSegment(DateOf(m).value, '-')
    ensures !Truthy(DateOf(m)) ==> r == "N/A"
  {
    var date := DateOf(m);
    if Truthy(date) then FirstSegment(date.value, '-') else "N/A"
  }

  /** A card and the detail page of the same dates show the same year, except for a date that
      starts with `-`: the card then shows an empty year and the page "N/A". */
  lemma CardYearMatchesDetails(m: Media)
    ensures FirstSegment(DateOf(m).GetOr(""), '-') != "" ==> CardYear(m) == MovieDetails.DetailsYear(DateOf(m))
    ensures Truthy(DateOf(m)) && FirstSegment(DateOf(m).value, '-') == "" ==>
              CardYear(m) == "" && MovieDetails.DetailsYear(DateOf(m)) == "N/A"
  {
  }

  /** `handleClick`: the card's genres are counted when the item carries a genre list. */
  method HandleClick(m: Media, prefs: PreferenceStore)
    modifies prefs
    ensures m.genreIds.None? || m.genreIds.value == [] ==> prefs.stored == old(prefs.stored)
    ensures m.genreIds.Some? && m.genreIds.value != [] ==> prefs.stored == Some(Recorded(old(prefs.Loaded()), m.genreIds.value))
  {
    if m.genreIds.Some? {
      prefs.TrackInteraction(m.genreIds);
    }
  }
}
