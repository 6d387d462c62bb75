/** The home page feed (`src/pages/Home.jsx`): a fixed four-row head followed by genre
    sections that grow by two every time the end of the feed is reached. */
module Home {
  import opened Common
  import opened Catalog
  import opened Recommendations

  /** The genres a dynamic section can be drawn from, in their declared order. */
  const GenreBank: seq<Genre> := [
    Genre(28, "Action Thrillers", "movie"),
    Genre(10765, "Sci-Fi & Fantasy TV", "tv"),
    Genre(27, "Horror Hits", "movie"),
    Genre(16, "Animation & Anime", "movie"),
    Genre(35, "Comedy Movies", "movie"),
    Genre(10749, "Romance", "movie"),
    Genre(18, "Critically Acclaimed Dramas", "movie"),
    Genre(10759, "Action & Adventure Series", "tv"),
    Genre(80, "Crime & Mystery", "movie"),
    Genre(10768, "War & Politics", "tv"),
    Genre(9648, "Mystery Thrillers", "movie"),
    Genre(37, "Westerns", "movie"),
    Genre(10762, "Kids' TV", "tv"),
    Genre(10766, "Soap Operas", "tv"),
    Genre(10763, "News & Current Events", "tv"),
    Genre(10764, "Reality TV", "tv"),
    Genre(10767, "Talk Shows", "tv")
  ]

  /** `{ ...randomGenre, uniqueId }`: a genre of the bank plus a render key. */
  datatype Section = Section(id: int, name: string, kind: string, uniqueId: real)

  /** The genre a section was copied from. */
  function GenreOf(s: Section): Genre {
    Genre(s.id, s.name, s.kind)
  }

  /** The three values one iteration of the loop draws: `Math.random()` for the index,
      `Date.now()` and `Math.random()` for the render key. */
  datatype Draw = Draw(pick: real, now: int, salt: real)

  /** `Math.random()` lies in [0, 1). */
  predicate ValidDraw(d: Draw) {
    0.0 <= d.pick < 1.0 && 0.0 <= d.salt < 1.0
  }

  /** `Math.floor(pick * len)`: always a valid index of a non-empty list. */
  function DrawIndex(pick: real, len: nat): (i: nat)
    requires 0.0 <= pick < 1.0 && len > 0
    ensures i < len
  {
    var x := pick * len as real;
    assert x < len as real by {
      assert (1.0 - pick) * len as real > 0.0;
    }
    x.Floor
  }

  /** The `i`-th section of one call: the drawn genre of the ranked bank, keyed by `now + i + salt`. */
  function DrawSection(ranked: seq<Genre>, d: Draw, i: nat): (s: Section)
    requires |ranked| > 0 && ValidDraw(d)
    ensures GenreOf(s) in ranked
  {
    var g := ranked[DrawIndex(d.pick, |ranked|)];
    Section(g.id, g.name, g.kind, d.now as real + i as real + d.salt)
  }

  /** The sections one call of `loadMoreContent` computes from the ranked bank and its draws. */
  function Batch(ranked: seq<Genre>, draws: seq<Draw>): (r: seq<Section>)
    requires |ranked| > 0 && forall i :: 0 <= i < |draws| ==> ValidDraw(draws[i])
    ensures |r| == |draws|
    ensures forall k :: 0 <= k < |r| ==> GenreOf(r[k]) in ranked
  {
    seq(|draws|, i requires 0 <= i < |draws| => DrawSection(ranked, draws[i], i))
  }

  /** Every section a call schedules copies a genre of the bank: ranking only reorders the bank. */
  lemma BatchFromBank(stored: Option<Counter>, bank: seq<Genre>, jitter: nat -> real, draws: seq<Draw>)
    requires JitterInRange(jitter) && |bank| > 0
    requires forall i :: 0 <= i < |draws| ==> ValidDraw(draws[i])
    ensures var r := Batch(GetPersonalizedGenres(stored, bank, jitter), draws);
            |r| == |draws| && forall k :: 0 <= k < |r| ==> GenreOf(r[k]) in bank
  {
    var ranked := GetPersonalizedGenres(stored, bank, jitter);
    var r := Batch(ranked, draws);
    forall k | 0 <= k < |r| ensures GenreOf(r[k]) in bank {
      assert GenreOf(r[k]) in multiset(ranked);
    }
  }

  /** The feed state: the appended sections, and the batches whose 500 ms timer has not fired yet. */
  class Feed {
    /** The bank the feed draws from. */
    const bank: seq<Genre>
    var dynamicSections: seq<Section>
    /** Batches scheduled by `setTimeout`, oldest first. */
    var pending: seq<seq<Section>>

    constructor ()
      ensures bank == GenreBank
      ensures dynamicSections == [] && pending == []
    {
      bank := GenreBank;
      dynamicSections := [];
      pending := [];
    }

    /** `loadMoreContent()`: ranks the bank, draws two genres into `nextSections` and schedules
        their append; the sections already shown are untouched until the timer fires. */
    method LoadMoreContent(prefs: PreferenceStore, jitter: nat -> real, draws: seq<Draw>)
      requires JitterInRange(jitter)
      requires |draws| == 2 && forall i :: 0 <= i < |draws| ==> ValidDraw(draws[i])
      requires |bank| > 0
      modifies this
      ensures dynamicSections == old(dynamicSections)
      ensures pending == old(pending) + [Batch(GetPersonalizedGenres(prefs.stored, bank, jitter), draws)]
    {
      var sortedBank := GetPersonalizedGenres(prefs.stored, bank, jitter);
      var nextSections: seq<Section> := [];
      for i := 0 to 2
        invariant nextSections == Batch(sortedBank, draws[..i])
      {
        nextSections := nextSections + [DrawSection(sortedBank, draws[i], i)];
      }
      assert draws[..2] == draws;
      pending := pending + [nextSections];
    }

    /** Every scheduled timer fires, oldest first (they share the same 500 ms delay). */
    method FireAll()
      modifies this
      ensures dynamicSections == old(dynamicSections) + Concat(old(pending))
      ensures pending == []
    {
      while pending != []
        invariant dynamicSections + Concat(pending) == old(dynamicSections) + Concat(old(pending))
        decreases |pending|
      {
        ghost var done := dynamicSections;
        ghost var rest := pending;
        TimerFires();
        assert done + Concat(rest) == (done + rest[0]) + Concat(rest[1..]);
      }
      assert Concat(pending) == [];
    }

    /** The timer of the oldest scheduled call fires: `setDynamicSections(prev => [...prev, ...nextSections])`. */
    method TimerFires()
      requires pending != []
      modifies this
      ensures dynamicSections == old(dynamicSections) + old(pending)[0]
      ensures pending == old(pending)[1..]
    {
      dynamicSections := dynamicSections + pending[0];
      pending := pending[1..];
    }
  }

  /** An end-reached call (`loadMoreContent`), after which every scheduled 500 ms timer fires in
      the order they were set: the batches still pending from earlier calls (the mount's, say) are
      appended first, then this call's two sections, both from the bank; every earlier section
      stays in place. */
  method EndReached(feed: Feed, prefs: PreferenceStore, jitter: nat -> real, draws: seq<Draw>)
    requires JitterInRange(jitter)
    requires |draws| == 2 && forall i :: 0 <= i < |draws| ==> ValidDraw(draws[i])
    requires |feed.bank| > 0
    modifies feed
    ensures feed.dynamicSections ==
              old(feed.dynamicSections) + Concat(old(feed.pending)) +
              Batch(GetPersonalizedGenres(prefs.stored, feed.bank, jitter), draws)
    ensures |feed.dynamicSections| == |old(feed.dynamicSections)| + |Concat(old(feed.pending))| + 2
    ensures feed.dynamicSections[..|old(feed.dynamicSections)|] == old(feed.dynamicSections)
    ensures forall k :: |feed.dynamicSections| - 2 <= k < |feed.dynamicSections| ==>
              GenreOf(feed.dynamicSections[k]) in feed.bank
    ensures feed.pending == []
  {
    BatchFromBank(prefs.stored, feed.bank, jitter, draws);
    var batch := Batch(GetPersonalizedGenres(prefs.stored, feed.bank, jitter), draws);
    feed.LoadMoreContent(prefs, jitter, draws);
    ConcatAppend(old(feed.pending), batch);
    feed.FireAll();
    ghost var before := old(feed.dynamicSections) + Concat(old(feed.pending));
    assert feed.dynamicSections == before + batch;
    assert forall k :: |before| <= k < |feed.dynamicSections| ==> feed.dynamicSections[k] == batch[k - |before|];
  }

  /** One entry of `dataList`. */
  datatype Row =
    | BannerRow(items: seq<Media>)
    | UpcomingRow(items: seq<Media>)
    | TrendingTvRow(items: seq<Media>)
    | TrendingRow(items: seq<Media>)
    | GenreRow(section: Section)

  /** `dataList`: nothing (the skeleton) until all three lists have loaded; then the banner with the
      first five trending results, the three fixed rows and the dynamic sections in order. */
  function DataList(trending: Option<seq<Media>>, trendingTv: Option<seq<Media>>, upcoming: Option<seq<Media>>,
                    dynamic: seq<Section>): (r: Option<seq<Row>>)
    ensures r.None? <==> trending.None? || trendingTv.None? || upcoming.None?
    ensures r.Some? ==> |r.value| == 4 + |dynamic|
    ensures r.Some? ==> r.value[0].BannerRow? && r.value[0].items <= trending.value
    ensures r.Some? ==> |r.value[0].items| == if |trending.value| < 5 then |trending.value| else 5
    ensures r.Some? ==> r.value[1] == UpcomingRow(upcoming.value) && r.value[2] == TrendingTvRow(trendingTv.value) &&
                        r.value[3] == TrendingRow(trending.value)
    ensures r.Some? ==> forall k :: 0 <= k < |dynamic| ==> r.value[4 + k] == GenreRow(dynamic[k])
  {
    if trending.None? || trendingTv.None? || upcoming.None? then None
    else
      Some([BannerRow(Take(trending.value, 5)), UpcomingRow(upcoming.value), TrendingTvRow(trendingTv.value),
            TrendingRow(trending.value)] + seq(|dynamic|, k requires 0 <= k < |dynamic| => GenreRow(dynamic[k])))
  }

  /** Growing the sections only extends the feed: the rows already shown stay where they are. */
  lemma DataListGrows(trending: Option<seq<Media>>, trendingTv: Option<seq<Media>>, upcoming: Option<seq<Media>>,
                      dynamic: seq<Section>, more: seq<Section>)
    requires trending.Some? && trendingTv.Some? && upcoming.Some?
    ensures DataList(trending, trendingTv, upcoming, dynamic).value <=
            DataList(trending, trendingTv, upcoming, dynamic + more).value
  {
    var a := DataList(trending, trendingTv, upcoming, dynamic).value;
    var b := DataList(trending, trendingTv, upcoming, dynamic + more).value;
    forall k | 0 <= k < |a| ensures a[k] == b[k] {
      if k >= 4 {
        assert (dynamic + more)[k - 4] == dynamic[k - 4];
      }
    }
  }
}
