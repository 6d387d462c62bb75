/** The shapes of the catalog API's records that the front end reads. A field the API may
    leave out is an `Option`; popularity and vote averages are the API's floating-point numbers,
    modelled as exact reals (only their order and sign are used). */
module Catalog {
  import opened Common

  /** One movie, series or person in a result list (`results`, `cast`, `parts`). */
  datatype Media = Media(
    id: int,
    title: Option<string>,
    name: Option<string>,
    mediaType: Option<string>,
    releaseDate: Option<string>,
    firstAirDate: Option<string>,
    genreIds: Option<seq<int>>,
    posterPath: Option<string>,
    voteCount: int,
    popularity: real)

  /** One entry of `videos.results`. */
  datatype Video = Video(site: string, kind: string, key: string)

  /** The detail record of a movie or series (`fetchDetails`). */
  datatype Details = Details(
    title: Option<string>,
    name: Option<string>,
    releaseDate: Option<string>,
    firstAirDate: Option<string>,
    runtime: Option<int>,
    episodeRunTime: Option<seq<int>>,
    voteAverage: Option<real>,
    videos: Option<seq<Video>>)

  /** `item.media_type === 'person'`. */
  predicate IsPerson(m: Media) {
    m.mediaType == Some("person")
  }

  /** `item.media_type !== 'person'`. */
  predicate NotPerson(m: Media) {
    !IsPerson(m)
  }

  /** `item.media_type || 'movie'`. */
  function MediaKind(m: Media): (k: string)
    ensures Truthy(m.mediaType) ==> k == m.mediaType.value
    ensures !Truthy(m.mediaType) ==> k == "movie"
  {
    if Truthy(m.mediaType) then m.mediaType.value else "movie"
  }

  /** `movie.release_date || movie.first_air_date`. */
  function DateOf(m: Media): Option<string> {
    Or(m.releaseDate, m.firstAirDate)
  }

  /** `movie.title || movie.name`. */
  function TitleOf(m: Media): Option<string> {
    Or(m.title, m.name)
  }

  /** `vs.find(p)`: the first video satisfying `p`, or none. */
  function FindVideo(vs: seq<Video>, p: Video -> bool): (r: Option<Video>)
    ensures r.None? <==> forall i :: 0 <= i < |vs| ==> !p(vs[i])
    ensures r.Some? ==> exists i :: 0 <= i < |vs| && vs[i] == r.value && p(vs[i]) &&
                                     forall j :: 0 <= j < i ==> !p(vs[j])
  {
    if vs == [] then None
    else if p(vs[0]) then Some(vs[0])
    else
      var r := FindVideo(vs[1..], p);
      assert r.Some? ==> exists i :: 0 <= i < |vs| - 1 && vs[1..][i] == r.value && p(vs[1..][i]) &&
                                     forall j :: 0 <= j < i ==> !p(vs[1..][j]);
      assert r.Some? ==> exists i :: 1 <= i < |vs| && vs[i] == r.value && p(vs[i]) &&
                                     forall j :: 0 <= j < i ==> !p(vs[j]) by {
        if r.Some? {
          var i :| 0 <= i < |vs| - 1 && vs[1..][i] == r.value && p(vs[1..][i]) &&
                   forall j :: 0 <= j < i ==> !p(vs[1..][j]);
          assert vs[i + 1] == r.value && p(vs[i + 1]);
          assert forall j :: 0 <= j < i + 1 ==> !p(vs[j]) by {
            forall j | 0 <= j < i + 1 ensures !p(vs[j]) {
              if j > 0 { assert vs[j] == vs[1..][j - 1]; }
            }
          }
        }
      }
      r
  }

  predicate IsYouTube(v: Video) { v.site == "YouTube" }
  predicate IsYouTubeTrailer(v: Video) { v.site == "YouTube" && v.kind == "Trailer" }
  predicate IsYouTubeTeaser(v: Video) { v.site == "YouTube" && v.kind == "Teaser" }
}
