/** The rotating banner at the top of the home page (`src/components/HeroBanner.jsx`): the slide
    index its timer advances, the slide it renders, and the trailer it plays. */
module HeroBanner {
  import opened Common
  import opened Catalog
  import opened Routes
  import opened Tmdb
  import MovieDetails

  /** The `index` state as a JavaScript number: a slide position, or `NaN`, which `% 0` produces
      when the content is empty and which every later step keeps. */
  datatype Index = At(n: nat) | NaN

  /** `(prev + 1) % content.length`. */
  function Next(i: Index, len: nat): (r: Index)
    ensures len > 0 && i.At? ==> r.At? && r.n < len
    ensures len == 0 || i.NaN? ==> r == NaN
  {
    match i
    case NaN => NaN
    case At(n) => if len == 0 then NaN else At((n + 1) % len)
  }

  /** The index after `k` ticks of the timer with the modal closed. */
  function Ticks(i: Index, len: nat, k: nat): Index {
    if k == 0 then i else Next(Ticks(i, len, k - 1), len)
  }

  /** One tick from a valid index: the next slide, or the first after the last. */
  lemma NextStep(n: nat, len: nat)
    requires n < len
    ensures Next(At(n), len) == if n + 1 < len then At(n + 1) else At(0)
  {
    if n + 1 == len {
      assert (n + 1) % len == 0 by {
        assert len % len == 0;
      }
    }
  }

  /** Ticks run one after another. */
  lemma {:induction false} TicksCompose(i: Index, len: nat, a: nat, b: nat)
    ensures Ticks(i, len, a + b) == Ticks(Ticks(i, len, a), len, b)
  {
    if b > 0 {
      TicksCompose(i, len, a, b - 1);
    }
  }

  /** Until the last slide, each tick moves one slide on. */
  lemma {:induction false} TicksAdvance(n: nat, len: nat, k: nat)
    requires n + k < len
    ensures Ticks(At(n), len, k) == At(n + k)
  {
    if k > 0 {
      TicksAdvance(n, len, k - 1);
      NextStep(n + k - 1, len);
    }
  }

  /** After as many ticks as there are slides, the banner is back at the slide it started from. */
  lemma TicksCycle(n: nat, len: nat)
    requires n < len
    ensures Ticks(At(n), len, len) == At(n)
  {
    TicksAdvance(n, len, len - 1 - n);
    NextStep(len - 1, len);
    TicksCompose(At(n), len, len - 1 - n, 1);
    assert Ticks(At(n), len, len - n) == At(0);
    TicksCompose(At(n), len, len - n, n);
    TicksAdvance(0, len, n);
  }

  /** `linkPath`: `/{type}/{id}` with the type defaulting to `movie`. */
  function LinkPath(m: Media): (p: string)
    ensures StartsWith(p, "/" + MediaKind(m) + "/")
    ensures !Truthy(m.mediaType) ==> StartsWith(p, "/movie/")
  {
    var kind := MediaKind(m);
    assert !Truthy(m.mediaType) ==> "/" + kind + "/" == "/movie/";
    ItemPath(kind, m.id)
  }

  /** The indicator row: one dot per slide, lit exactly at the current index. */
  function Indicators(len: nat, i: Index): (r: seq<bool>)
    ensures |r| == len
    ensures forall k :: 0 <= k < len ==> (r[k] <==> i == At(k))
    ensures i.At? && i.n < len ==> forall k :: 0 <= k < len ==> (r[k] <==> k == i.n)
    ensures i.NaN? ==> forall k :: 0 <= k < len ==> !r[k]
  {
    seq(len, k requires 0 <= k => i == At(k))
  }

  /** What the banner renders: nothing, one slide, or a thrown `TypeError`. */
  datatype Screen = Crash | Nothing | Slide(item: Media, title: Option<string>, link: string, indicators: seq<bool>)

  /** The slide at a valid index. */
  function SlideAt(content: seq<Media>, n: nat): (s: Screen)
    requires n < |content|
    ensures s.Slide? && s.item == content[n] && |s.indicators| == |content|
  {
    var current := content[n];
    Slide(current, TitleOf(current), LinkPath(current), Indicators(|content|, At(n)))
  }

  /** The render as written: the effect's dependency list reads `content.length` before the guard
      on `!content`, so absent content throws; an index outside the content (`NaN`, or a list that
      shrank) makes `current` undefined, and reading its title throws too. */
  function ViewAsWritten(content: Option<seq<Media>>, i: Index): Screen {
    if content.None? then Crash
    else if |content.value| == 0 then Nothing
    else if i.NaN? || i.n >= |content.value| then Crash
    else SlideAt(content.value, i.n)
  }

  /** Absent content throws instead of rendering nothing. */
  lemma AbsentContentCrashes(i: Index)
    ensures ViewAsWritten(None, i) == Crash
    ensures ViewAsWritten(Some([]), i) == Nothing
  {
  }

  /** The render with the guard first: absent or empty content renders nothing; otherwise as written. */
  function View(content: Option<seq<Media>>, i: Index): (s: Screen)
    ensures content.None? || content.value == [] ==> s == Nothing
    ensures content.Some? && content.value != [] ==> s == ViewAsWritten(content, i)
    ensures content.Some? && i.At? && i.n < |content.value| ==>
              s.Slide? && s.item == content.value[i.n] && s.link == LinkPath(content.value[i.n]) &&
              forall k :: 0 <= k < |s.indicators| ==> (s.indicators[k] <==> k == i.n)
  {
    if content.None? || |content.value| == 0 then Nothing else ViewAsWritten(content, i)
  }

  /** How good a video is for the banner: a YouTube trailer, any other YouTube video, or not playable. */
  function BannerRank(v: Video): nat {
    if IsYouTubeTrailer(v) then 0 else if IsYouTube(v) then 1 else 2
  }

  /** `trailer` of `handleWatchTrailer`: the first YouTube trailer, else the first YouTube video;
      teasers have no tier of their own. */
  function BannerTrailer(d: Details): (r: Option<Video>)
    ensures r.None? <==> d.videos.None? || forall j :: 0 <= j < |d.videos.value| ==> !IsYouTube(d.videos.value[j])
    ensures r.Some? ==> d.videos.Some? && exists i :: MovieDetails.FirstOfBest(d.videos.value, BannerRank, i) && d.videos.value[i] == r.value
  {
    match d.videos
    case None => None
    case Some(vs) =>
      var trailer := FindVideo(vs, IsYouTubeTrailer);
      assert trailer.Some? ==> exists i :: MovieDetails.FirstOfBest(vs, BannerRank, i) && vs[i] == trailer.value by {
        if trailer.Some? {
          var i :| 0 <= i < |vs| && vs[i] == trailer.value && IsYouTubeTrailer(vs[i]) &&
                   forall j :: 0 <= j < i ==> !IsYouTubeTrailer(vs[j]);
          assert MovieDetails.FirstOfBest(vs, BannerRank, i);
        }
      }
      var any := FindVideo(vs, IsYouTube);
      assert trailer.None? && any.Some? ==> exists i :: MovieDetails.FirstOfBest(vs, BannerRank, i) && vs[i] == any.value by {
        if trailer.None? && any.Some? {
          var i :| 0 <= i < |vs| && vs[i] == any.value && IsYouTube(vs[i]) &&
                   forall j :: 0 <= j < i ==> !IsYouTube(vs[j]);
          assert MovieDetails.FirstOfBest(vs, BannerRank, i);
        }
      }
      if trailer.Some? then trailer else any
  }

  /** The banner and the detail page can pick different videos: with a YouTube clip listed before a
      YouTube teaser and no trailer, the banner plays the clip and the page the teaser. */
  lemma BannerSkipsTeasers(id: string)
    ensures var clip := Video("YouTube", "Clip", "c");
            var teaser := Video("YouTube", "Teaser", "t");
            var d := Details(None, None, None, None, None, None, None, Some([clip, teaser]));
            BannerTrailer(d) == Some(clip) && MovieDetails.Trailer(d) == Some(teaser)
  {
    var clip := Video("YouTube", "Clip", "c");
    var teaser := Video("YouTube", "Teaser", "t");
    var vs := [clip, teaser];
    assert vs[1..] == [teaser];
    assert FindVideo(vs, IsYouTubeTrailer) == None;
    assert FindVideo(vs, IsYouTube) == Some(clip);
    assert FindVideo(vs, IsYouTubeTeaser) == Some(teaser);
  }

  class Banner {
    var index: Index
    var isModalOpen: bool
    var videoId: Option<string>
    var toasts: seq<string>
    /** The detail targets `handleWatchTrailer` requested, oldest first. */
    var requests: seq<string>

    constructor ()
      ensures index == At(0) && !isModalOpen && videoId == None && toasts == [] && requests == []
    {
      index := At(0);
      isModalOpen := false;
      videoId := None;
      toasts := [];
      requests := [];
    }

    /** One firing of the 8-second interval over the same `content` prop the slide is read from
        (`content.length` wraps the index): the index moves on unless the video modal is open. */
    method Tick(content: seq<Media>)
      modifies this
      ensures old(isModalOpen) ==> index == old(index)
      ensures !old(isModalOpen) ==> index == Next(old(index), |content|)
      ensures old(index).At? && old(index).n < |content| ==> index.At? && index.n < |content|
      ensures isModalOpen == old(isModalOpen) && videoId == old(videoId) && toasts == old(toasts) && requests == old(requests)
    {
      if !isModalOpen {
        index := Next(index, |content|);
      }
    }

    /** `handleWatchTrailer()` on the slide shown, `content[index]` (the button exists only while a
        slide is rendered): that item's details are requested; the trailer found opens the modal,
        "No trailer available" when there is none, "Failed to load trailer" when the request failed. */
    method WatchTrailer(content: seq<Media>, response: Option<Details>)
      requires index.At? && index.n < |content|
      modifies this
      ensures View(Some(content), index).Slide? && View(Some(content), index).item == content[index.n]
      ensures requests == old(requests) + [DetailsPath(IntToString(content[index.n].id), MediaKind(content[index.n]))]
      ensures response.None? ==>
                toasts == old(toasts) + ["Failed to load trailer"] && isModalOpen == old(isModalOpen) && videoId == old(videoId)
      ensures response.Some? && BannerTrailer(response.value).Some? ==>
                isModalOpen && videoId == Some(BannerTrailer(response.value).value.key) && toasts == old(toasts)
      ensures response.Some? && BannerTrailer(response.value).None? ==>
                toasts == old(toasts) + ["No trailer available"] && isModalOpen == old(isModalOpen) && videoId == old(videoId)
      ensures index == old(index)
    {
      var current := content[index.n];
      assert View(Some(content), index) == SlideAt(content, index.n);
      requests := requests + [DetailsPath(IntToString(current.id), MediaKind(current))];
      if response.None? {
        toasts := toasts + ["Failed to load trailer"];
        return;
      }
      var trailer := BannerTrailer(response.value);
      if trailer.Some? {
        videoId := Some(trailer.value.key);
        isModalOpen := true;
      } else {
        toasts := toasts + ["No trailer available"];
      }
    }

    /** The modal's `onClose`. */
    method CloseModal()
      modifies this
      ensures !isModalOpen
      ensures index == old(index) && videoId == old(videoId) && toasts == old(toasts) && requests == old(requests)
    {
      isModalOpen := false;
    }
  }
}
