/** The detail page of one title (`src/pages/MovieDetails.jsx`): which video plays as its trailer,
    how its runtime, year and rating are shown, and the wishlist toggle with its rollback. */
module MovieDetails {
  import opened Common
  import opened Catalog
  import opened AuthStore

  /** How good a video is as the trailer: a YouTube trailer, a YouTube teaser, any other YouTube
      video, or not playable at all. */
  function TrailerRank(v: Video): nat {
    if IsYouTubeTrailer(v) then 0
    else if IsYouTubeTeaser(v) then 1
    else if IsYouTube(v) then 2
    else 3
  }

  /** `vs[i]` is the first video of the best rank in `vs`. */
  ghost predicate FirstOfBest(vs: seq<Video>, rank: Video -> nat, i: int) {
    0 <= i < |vs| &&
    (forall j :: 0 <= j < |vs| ==> rank(vs[i]) <= rank(vs[j])) &&
    (forall j :: 0 <= j < i ==> rank(vs[i]) < rank(vs[j]))
  }

  /** The first video found by `p`, when every video before it fails `p` and every video of a
      better rank than `k` is absent, is the first of the best rank. */
  lemma FoundIsFirstOfBest(vs: seq<Video>, p: Video -> bool, k: nat)
    requires forall v :: TrailerRank(v) >= k ==> (p(v) <==> TrailerRank(v) == k)
    requires forall j :: 0 <= j < |vs| ==> TrailerRank(vs[j]) >= k
    requires FindVideo(vs, p).Some?
    ensures exists i :: FirstOfBest(vs, TrailerRank, i) && vs[i] == FindVideo(vs, p).value
  {
    var i :| 0 <= i < |vs| && vs[i] == FindVideo(vs, p).value && p(vs[i]) && forall j :: 0 <= j < i ==> !p(vs[j]);
    assert TrailerRank(vs[i]) == k;
    forall j | 0 <= j < i ensures TrailerRank(vs[j]) > k {
      assert !p(vs[j]) && TrailerRank(vs[j]) >= k;
    }
    assert FirstOfBest(vs, TrailerRank, i);
  }

  /** The `||` chain of the three `find`s. */
  function ChooseTrailer(vs: seq<Video>): Option<Video> {
    var trailer := FindVideo(vs, IsYouTubeTrailer);
    if trailer.Some? then trailer
    else
      var teaser := FindVideo(vs, IsYouTubeTeaser);
      if teaser.Some? then teaser else FindVideo(vs, IsYouTube)
  }

  lemma ChooseTrailerIsFirstOfBest(vs: seq<Video>)
    ensures ChooseTrailer(vs).None? <==> forall j :: 0 <= j < |vs| ==> TrailerRank(vs[j]) == 3
    ensures ChooseTrailer(vs).Some? ==> exists i :: FirstOfBest(vs, TrailerRank, i) && vs[i] == ChooseTrailer(vs).value
  {
    assert forall v :: IsYouTubeTrailer(v) <==> TrailerRank(v) == 0;
    if FindVideo(vs, IsYouTubeTrailer).Some? {
      FoundIsFirstOfBest(vs, IsYouTubeTrailer, 0);
    } else {
      assert forall v :: IsYouTubeTeaser(v) <==> TrailerRank(v) == 1;
      if FindVideo(vs, IsYouTubeTeaser).Some? {
        FoundIsFirstOfBest(vs, IsYouTubeTeaser, 1);
      } else {
        assert forall j :: 0 <= j < |vs| ==> TrailerRank(vs[j]) >= 2;
        assert forall v :: TrailerRank(v) >= 2 ==> (IsYouTube(v) <==> TrailerRank(v) == 2);
        if FindVideo(vs, IsYouTube).Some? {
          FoundIsFirstOfBest(vs, IsYouTube, 2);
        }
      }
    }
  }

  /** `trailer`: the first YouTube trailer, else the first YouTube teaser, else the first YouTube
      video. It is the first video of the best rank, and there is none exactly when no video of the
      title is on YouTube. */
  function Trailer(d: Details): (r: Option<Video>)
    ensures r.None? <==> d.videos.None? || forall j :: 0 <= j < |d.videos.value| ==> TrailerRank(d.videos.value[j]) == 3
    ensures r.Some? ==> d.videos.Some? && exists i :: FirstOfBest(d.videos.value, TrailerRank, i) && d.videos.value[i] == r.value
  {
    match d.videos
    case None => None
    case Some(vs) =>
      ChooseTrailerIsFirstOfBest(vs);
      ChooseTrailer(vs)
  }

  /** `rawRuntime`: the runtime when it is set and not zero, else the first episode length when
      there is one, else 0. */
  function RawRuntime(d: Details): (r: int)
    ensures d.runtime.Some? && d.runtime.value != 0 ==> r == d.runtime.value
    ensures (d.runtime.None? || d.runtime.value == 0) && d.episodeRunTime.Some? && |d.episodeRunTime.value| > 0 ==>
              r == d.episodeRunTime.value[0]
    ensures (d.runtime.None? || d.runtime.value == 0) && (d.episodeRunTime.None? || d.episodeRunTime.value == []) ==> r == 0
  {
    if d.runtime.Some? && d.runtime.value != 0 then d.runtime.value
    else if d.episodeRunTime.Some? && |d.episodeRunTime.value| > 0 then d.episodeRunTime.value[0]
    else 0
  }

  /** `runtime`: `"{hours}h {minutes}m"` for a positive raw runtime, `"N/A"` otherwise. */
  function FormatRuntime(raw: int): (r: string)
    ensures r == "N/A" <==> raw <= 0
  {
    if raw > 0 then
      var r := NatToString(raw / 60) + "h " + NatToString(raw % 60) + "m";
      assert IsDigit(r[0]);
      r
    else "N/A"
  }

  /** Reads `"{h}h {m}m"` back as its hours and minutes. */
  function ReadRuntime(s: string): Option<(nat, nat)> {
    var i := IndexOf(s, 'h');
    if 0 < i && i + 2 < |s| && s[i + 1] == ' ' && s[|s| - 1] == 'm' && AllDigits(s[..i]) && AllDigits(s[i + 2..|s| - 1]) then
      Some((ParseNat(s[..i]), ParseNat(s[i + 2..|s| - 1])))
    else None
  }

  /** `"{h}h {m}m"` reads back as `h` and `m`. */
  lemma ReadShape(hs: string, ms: string)
    requires |hs| > 0 && AllDigits(hs) && AllDigits(ms)
    ensures ReadRuntime(hs + "h " + ms + "m") == Some((ParseNat(hs), ParseNat(ms)))
  {
    var s := hs + "h " + ms + "m";
    assert s == hs + ['h'] + (" " + ms + "m");
    assert 'h' !in hs by {
      forall k | 0 <= k < |hs| ensures hs[k] != 'h' {
        assert IsDigit(hs[k]);
      }
    }
    SeparatorSplit(hs, 'h', " " + ms + "m");
    assert s[..|hs|] == hs;
    assert s[|hs| + 2..|s| - 1] == ms;
  }

  /** The shown runtime reads back as hours and minutes under sixty that add up to the raw runtime;
      "N/A" reads as nothing. */
  lemma ReadFormatRuntime(raw: int)
    ensures raw > 0 ==> ReadRuntime(FormatRuntime(raw)).Some? &&
                        ReadRuntime(FormatRuntime(raw)).value.0 * 60 + ReadRuntime(FormatRuntime(raw)).value.1 == raw &&
                        ReadRuntime(FormatRuntime(raw)).value.1 < 60
    ensures raw <= 0 ==> ReadRuntime(FormatRuntime(raw)).None?
  {
    if raw > 0 {
      ReadShape(NatToString(raw / 60), NatToString(raw % 60));
      ParseNatToString(raw / 60);
      ParseNatToString(raw % 60);
    } else {
      assert IndexOf("N/A", 'h') == 3;
    }
  }

  /** Different positive runtimes are shown differently. */
  lemma FormatRuntimeInjective(a: int, b: int)
    requires a > 0 && b > 0 && FormatRuntime(a) == FormatRuntime(b)
    ensures a == b
  {
    ReadFormatRuntime(a);
    ReadFormatRuntime(b);
  }

  /** `date?.split('-')[0] || 'N/A'`: the text before the first `-`, or "N/A" when there is no
      date or that text is empty. */
  function DetailsYear(date: Option<string>): (r: string)
    ensures date.Some? && FirstSegment(date.value, '-') != "" ==> r == FirstSegment(date.value, '-')
    ensures date.None? || FirstSegment(date.value, '-') == "" ==> r == "N/A"
  {
    if date.None? then "N/A"
    else
      var year := FirstSegment(date.value, '-');
      if year == "" then "N/A" else year
  }

  /** `releaseYear`: the year of the release date, falling back to the first air date. */
  function ReleaseYear(d: Details): (r: string)
    ensures r != "N/A" ==> var date := Or(d.releaseDate, d.firstAirDate);
                           date.Some? && '-' !in r && r != "" && r <= date.value
    ensures Truthy(d.releaseDate) && IsDigit(d.releaseDate.value[0]) ==>
              r == FirstSegment(d.releaseDate.value, '-')
    ensures Truthy(d.releaseDate) ==> r == DetailsYear(d.releaseDate)
    ensures !Truthy(d.releaseDate) ==> r == DetailsYear(d.firstAirDate)
  {
    var date := Or(d.releaseDate, d.firstAirDate);
    assert Truthy(d.releaseDate) && IsDigit(d.releaseDate.value[0]) ==> FirstSegment(date.value, '-') != "";
    DetailsYear(date)
  }

  /** A series has no release date: its year is read from the first air date. */
  lemma SeriesYear()
    ensures ReleaseYear(Details(None, Some("Sherlock"), None, Some("2010-07-25"), None, None, None, None)) == "2010"
  {
    SeparatorSplit("2010", '-', "07-25");
    assert "2010-07-25" == "2010" + ['-'] + "07-25";
  }

  /** `rating`: the vote average when positive, `NR` when it is absent or not positive. */
  datatype Rating = NR | Stars(average: real)

  function RatingOf(d: Details): (r: Rating)
    ensures r.Stars? <==> d.voteAverage.Some? && d.voteAverage.value > 0.0
    ensures r.Stars? ==> r.average == d.voteAverage.value
  {
    if d.voteAverage.Some? && d.voteAverage.value > 0.0 then Stars(d.voteAverage.value) else NR
  }

  /** The new wishlist: every copy of `id` removed when it was saved, `id` appended otherwise. */
  function ToggledWishlist(list: seq<string>, id: string, wasSaved: bool): (r: seq<string>)
    ensures wasSaved ==> id !in r && forall x :: x in r <==> x in list && x != id
    ensures wasSaved ==> r == Filter(list, Other(id))
    ensures !wasSaved ==> |r| == |list| + 1 && r[..|list|] == list && r[|list|] == id
  {
    if wasSaved then Filter(list, Other(id)) else list + [id]
  }

  /** Saving a title that was not on the list and removing it again gives the list back. */
  lemma ToggleTwice(list: seq<string>, id: string)
    requires id !in list
    ensures ToggledWishlist(ToggledWishlist(list, id, false), id, true) == list
  {
    FilterConcat(list, [id], Other(id));
    FilterAll(list, Other(id));
    assert Filter([id], Other(id)) == [];
  }

  /** `user.wishlist`, when the user record has one. */
  function Wishlist(u: Record): Option<seq<string>> {
    if "wishlist" in u && u["wishlist"].StrList? then Some(u["wishlist"].items) else None
  }

  /** A notification shown by `toast`. */
  datatype Toast = ErrorToast(text: string) | SuccessToast(text: string)

  class DetailsPage {
    /** The route's `id`. */
    const id: string
    var inWishlist: bool
    var toasts: seq<Toast>
    /** The wishlist requests sent, as the user record's `_id` they address. */
    var requests: seq<Option<Value>>

    constructor (id: string)
      ensures this.id == id && !inWishlist && toasts == [] && requests == []
    {
      this.id := id;
      inWishlist := false;
      toasts := [];
      requests := [];
    }

    /** The effect on `[user, id]`: with a wishlist, the flag says whether this title is on it. */
    method SyncWishlist(store: Store)
      modifies this
      ensures store.user.Some? && Wishlist(store.user.value).Some? ==> inWishlist == (id in Wishlist(store.user.value).value)
      ensures !(store.user.Some? && Wishlist(store.user.value).Some?) ==> inWishlist == old(inWishlist)
      ensures toasts == old(toasts) && requests == old(requests)
    {
      if store.user.Some? && Wishlist(store.user.value).Some? {
        inWishlist := id in Wishlist(store.user.value).value;
      }
    }

    /** `toggleWishlist()`. Without a user: "Login required" and nothing else. Otherwise the flag
        flips at once and the request is sent; when it succeeds and the user has a wishlist, the
        toggled list is stored and "Removed" or "Saved" shown. A failed request, or a user without
        a wishlist (whose `filter` throws), rolls the flag back with "Failed to update wishlist". */
    method ToggleWishlist(store: Store, succeeded: bool)
      modifies this, store
      ensures old(store.user).Some? ==> requests == old(requests) + [if "_id" in old(store.user).value then Some(old(store.user).value["_id"]) else None]
      ensures old(store.user).None? ==>
                toasts == old(toasts) + [ErrorToast("Login required")] && inWishlist == old(inWishlist) &&
                requests == old(requests) && store.user == old(store.user) && store.stored == old(store.stored)
      ensures old(store.user).Some? && (!succeeded || Wishlist(old(store.user).value).None?) ==>
                toasts == old(toasts) + [ErrorToast("Failed to update wishlist")] && inWishlist == old(inWishlist) &&
                store.user == old(store.user) && store.stored == old(store.stored)
      ensures old(store.user).Some? && succeeded && Wishlist(old(store.user).value).Some? ==>
                var u := old(store.user).value;
                var next := u["wishlist" := StrList(ToggledWishlist(Wishlist(u).value, id, old(inWishlist)))];
                store.user == Some(next) && store.stored == Some(Serialized(next)) &&
                inWishlist == !old(inWishlist) &&
                toasts == old(toasts) + [SuccessToast(if old(inWishlist) then "Removed" else "Saved")]
    {
      if store.user.None? {
        toasts := toasts + [ErrorToast("Login required")];
        return;
      }
      var u := store.user.value;
      var prevState := inWishlist;
      inWishlist := !prevState;
      requests := requests + [if "_id" in u then Some(u["_id"]) else None];
      if !succeeded || Wishlist(u).None? {
        inWishlist := prevState;
        toasts := toasts + [ErrorToast("Failed to update wishlist")];
        return;
      }
      var newWishlist := ToggledWishlist(Wishlist(u).value, id, prevState);
      store.SetUserData(u["wishlist" := StrList(newWishlist)]);
      toasts := toasts + [SuccessToast(if prevState then "Removed" else "Saved")];
    }
  }

  /** After a successful toggle and the effect it triggers, the flag and the stored wishlist agree:
      the title is on the list exactly when the flag says so. */
  method ToggleAndSync(page: DetailsPage, store: Store)
    requires store.user.Some? && Wishlist(store.user.value).Some?
    modifies page, store
    ensures store.user.Some? && Wishlist(store.user.value).Some?
    ensures page.inWishlist == (page.id in Wishlist(store.user.value).value)
    ensures page.inWishlist == !old(page.inWishlist)
  {
    page.ToggleWishlist(store, true);
    page.SyncWishlist(store);
  }
}
