/** Personalisation: a click counter per genre kept in local storage
    (`src/utils/recommendations.js`), and the ranking of a genre list by that counter with a
    random jitter per comparison. */
module Recommendations {
  import opened Common

  /** One entry of the genre bank: `{ id, name, type }`. */
  datatype Genre = Genre(id: int, name: string, kind: string)

  /** The `user_preferences` object: genre id to click count. */
  type Counter = map<int, nat>

  /** `JSON.parse(localStorage.getItem('user_preferences')) || {}`: a missing entry reads as empty. */
  function LoadCounter(stored: Option<Counter>): (c: Counter)
    ensures stored.None? ==> c == map[]
    ensures stored.Some? ==> c == stored.value
  {
    stored.GetOr(map[])
  }

  /** `userProfile[id] || 0`: a genre never clicked scores 0. */
  function Score(counter: Counter, id: int): nat {
    if id in counter then counter[id] else 0
  }

  /** One step of the `forEach`: `userProfile[id] = (userProfile[id] || 0) + 1`. */
  function Bump(counter: Counter, id: int): (r: Counter)
    ensures Score(r, id) == Score(counter, id) + 1
    ensures r.Keys == counter.Keys + {id}
    ensures forall other :: other != id && other in counter ==> r[other] == counter[other]
  {
    counter[id := Score(counter, id) + 1]
  }

  /** The counter after the `forEach` over `ids`, in order. */
  function Recorded(counter: Counter, ids: seq<int>): Counter
    decreases |ids|
  {
    if ids == [] then counter
    else Bump(Recorded(counter, ids[..|ids| - 1]), ids[|ids| - 1])
  }

  /** Each id's count grows by the number of times it occurs in the call, duplicates included. */
  lemma {:induction false} RecordedCounts(counter: Counter, ids: seq<int>, id: int)
    ensures Score(Recorded(counter, ids), id) == Score(counter, id) + multiset(ids)[id]
    decreases |ids|
  {
    if ids != [] {
      var init := ids[..|ids| - 1];
      assert ids == init + [ids[|ids| - 1]];
      RecordedCounts(counter, init, id);
    }
  }

  /** The recorded counter holds exactly the old keys and the ids of the call. */
  lemma {:induction false} RecordedKeys(counter: Counter, ids: seq<int>)
    ensures Recorded(counter, ids).Keys == counter.Keys + (set i | i in ids)
    decreases |ids|
  {
    if ids != [] {
      var init := ids[..|ids| - 1];
      assert ids == init + [ids[|ids| - 1]];
      RecordedKeys(counter, init);
    }
  }

  /** An id the call does not mention keeps its entry, present or absent, and its count. */
  lemma {:induction false} RecordedFrame(counter: Counter, ids: seq<int>, id: int)
    requires id !in ids
    ensures id in Recorded(counter, ids) <==> id in counter
    ensures id in counter ==> Recorded(counter, ids)[id] == counter[id]
  {
    RecordedKeys(counter, ids);
    RecordedCounts(counter, ids, id);
  }

  /** Two calls in a row count as one call over the concatenated ids. */
  lemma {:induction false} RecordedCompose(counter: Counter, a: seq<int>, b: seq<int>)
    ensures Recorded(Recorded(counter, a), b) == Recorded(counter, a + b)
    decreases |b|
  {
    if b == [] {
      assert a + b == a;
    } else {
      var init := b[..|b| - 1];
      assert (a + b)[..|a + b| - 1] == a + init;
      RecordedCompose(counter, a, init);
    }
  }

  /** The counter after a sequence of `trackInteraction` calls (each call's ids in order). */
  function Replay(counter: Counter, calls: seq<seq<int>>): Counter
    decreases |calls|
  {
    if calls == [] then counter
    else Replay(Recorded(counter, calls[0]), calls[1..])
  }

  /** From an empty counter, each id's count is the number of times it occurred across all calls. */
  lemma {:induction false} ReplayCounts(calls: seq<seq<int>>, id: int)
    ensures Score(Replay(map[], calls), id) == multiset(Concat(calls))[id]
  {
    ReplayIsRecorded(map[], calls);
    RecordedCounts(map[], Concat(calls), id);
  }

  lemma {:induction false} ReplayIsRecorded(counter: Counter, calls: seq<seq<int>>)
    ensures Replay(counter, calls) == Recorded(counter, Concat(calls))
    decreases |calls|
  {
    if calls != [] {
      ReplayIsRecorded(Recorded(counter, calls[0]), calls[1..]);
      RecordedCompose(counter, calls[0], Concat(calls[1..]));
    }
  }

  /** The `user_preferences` storage entry and `trackInteraction`, which updates it. */
  class PreferenceStore {
    /** The stored counter; `None` while the key is absent. */
    var stored: Option<Counter>

    constructor (initial: Option<Counter>)
      ensures stored == initial
    {
      stored := initial;
    }

    function Loaded(): Counter
      reads this
    {
      LoadCounter(stored)
    }

    /** `trackInteraction(genres)`: a missing or empty list is a no-op; otherwise every id of the
        list is counted once per occurrence and the counter is written back. */
    method TrackInteraction(genres: Option<seq<int>>)
      modifies this
      ensures genres.None? || genres.value == [] ==> stored == old(stored)
      ensures genres.Some? && genres.value != [] ==> stored == Some(Recorded(old(Loaded()), genres.value))
    {
      if genres.None? || |genres.value| == 0 {
        return;
      }
      var ids := genres.value;
      var counter := LoadCounter(stored);
      var i := 0;
      while i < |ids|
        invariant 0 <= i <= |ids|
        invariant counter == Recorded(LoadCounter(stored), ids[..i])
      {
        assert ids[..i + 1][..i] == ids[..i];
        counter := Bump(counter, ids[i]);
        i := i + 1;
      }
      assert ids[..i] == ids;
      stored := Some(counter);
    }
  }

  /** `Math.random() - 0.5` lies in [-0.5, 0.5) on every draw. */
  ghost predicate JitterInRange(jitter: nat -> real) {
    forall k :: -0.5 <= jitter(k) < 0.5
  }

  /** The comparator `(scoreB - scoreA) + randomFactor`. With integer scores and the jitter in
      [-0.5, 0.5), two genres with different scores always compare by score. */
  function Compare(counter: Counter, a: Genre, b: Genre, u: real): (c: real)
    ensures -0.5 <= u < 0.5 && Score(counter, a.id) > Score(counter, b.id) ==> c < 0.0
    ensures -0.5 <= u < 0.5 && Score(counter, a.id) < Score(counter, b.id) ==> c > 0.0
  {
    (Score(counter, b.id) as int - Score(counter, a.id) as int) as real + u
  }

  /** Non-increasing by score. */
  ghost predicate Ranked(counter: Counter, s: seq<Genre>) {
    forall i, j :: 0 <= i < j < |s| ==> Score(counter, s[i].id) >= Score(counter, s[j].id)
  }

  lemma AppendRanked(counter: Counter, s: seq<Genre>, g: Genre)
    requires Ranked(counter, s)
    requires forall i :: 0 <= i < |s| ==> Score(counter, s[i].id) >= Score(counter, g.id)
    ensures Ranked(counter, s + [g])
  {
    var t := s + [g];
    forall i, j | 0 <= i < j < |t| ensures Score(counter, t[i].id) >= Score(counter, t[j].id) {
      assert t[i] == s[i];
      if j < |s| {
        assert t[j] == s[j];
      }
    }
  }

  /** Once `g` has been placed among the elements before `last`, all of them still score at least
      as much as `last`. */
  lemma AboveLast(counter: Counter, init: seq<Genre>, last: Genre, g: Genre, p: seq<Genre>)
    requires Ranked(counter, init + [last])
    requires Score(counter, g.id) >= Score(counter, last.id)
    requires multiset(p) == multiset(init) + multiset{g}
    ensures forall i :: 0 <= i < |p| ==> Score(counter, p[i].id) >= Score(counter, last.id)
  {
    var s := init + [last];
    forall i | 0 <= i < |p| ensures Score(counter, p[i].id) >= Score(counter, last.id) {
      assert p[i] in multiset(p);
      if p[i] != g {
        assert p[i] in multiset(init);
        var j :| 0 <= j < |init| && init[j] == p[i];
        assert s[j] == p[i] && s[|init|] == last;
      }
    }
  }

  /** Inserts `g` into the ranked prefix `s`, scanning from the back; each comparison consumes the
      next jitter draw `jitter(k)`, `jitter(k + 1)`, ... The result pairs the list with the next
      unused draw. */
  function InsertRanked(counter: Counter, s: seq<Genre>, g: Genre, jitter: nat -> real, k: nat): (r: (seq<Genre>, nat))
    requires JitterInRange(jitter)
    requires Ranked(counter, s)
    ensures Ranked(counter, r.0)
    ensures multiset(r.0) == multiset(s) + multiset{g}
    decreases |s|
  {
    if s == [] then ([g], k)
    else
      var last := s[|s| - 1];
      var init := s[..|s| - 1];
      assert s == init + [last];
      if Compare(counter, g, last, jitter(k)) < 0.0 then
        var (p, next) := InsertRanked(counter, init, g, jitter, k + 1);
        AboveLast(counter, init, last, g, p);
        AppendRanked(counter, p, last);
        assert multiset(p + [last]) == multiset(p) + multiset{last};
        (p + [last], next)
      else
        AppendRanked(counter, s, g);
        (s + [g], k + 1)
  }

  /** Insertion sort of `s` with the jittered comparator, drawing from `jitter(k)` on. */
  function RankFrom(counter: Counter, s: seq<Genre>, jitter: nat -> real, k: nat): (r: (seq<Genre>, nat))
    requires JitterInRange(jitter)
    ensures Ranked(counter, r.0)
    ensures multiset(r.0) == multiset(s)
    decreases |s|
  {
    if s == [] then ([], k)
    else
      assert s == s[..|s| - 1] + [s[|s| - 1]];
      var (p, next) := RankFrom(counter, s[..|s| - 1], jitter, k);
      InsertRanked(counter, p, s[|s| - 1], jitter, next)
  }

  /** `getPersonalizedGenres(allGenres)`: a sorted copy of the list (the list itself is a value and
      stays as it was); a permutation of it, in non-increasing order of stored counts. */
  function GetPersonalizedGenres(stored: Option<Counter>, allGenres: seq<Genre>, jitter: nat -> real): (r: seq<Genre>)
    requires JitterInRange(jitter)
    ensures multiset(r) == multiset(allGenres)
    ensures |r| == |allGenres|
    ensures Ranked(LoadCounter(stored), r)
  {
    var r := RankFrom(LoadCounter(stored), allGenres, jitter, 0).0;
    assert |r| == |multiset(r)| == |multiset(allGenres)| == |allGenres|;
    r
  }

  /** A genre that scores higher than another comes before it on every draw of the jitter. */
  lemma HigherScoreFirst(stored: Option<Counter>, allGenres: seq<Genre>, jitter: nat -> real, i: nat, j: nat)
    requires JitterInRange(jitter)
    requires var r := GetPersonalizedGenres(stored, allGenres, jitter);
      i < |r| && j < |r| && Score(LoadCounter(stored), r[i].id) > Score(LoadCounter(stored), r[j].id)
    ensures i < j
  {
  }

  /** Removing one element keeps a ranked list ranked. */
  lemma RankedRemove(counter: Counter, s: seq<Genre>, p: nat)
    requires Ranked(counter, s) && p < |s|
    ensures Ranked(counter, s[..p] + s[p + 1..])
  {
    var t := s[..p] + s[p + 1..];
    forall i, j | 0 <= i < j < |t| ensures Score(counter, t[i].id) >= Score(counter, t[j].id) {
      var fi := if i < p then i else i + 1;
      var fj := if j < p then j else j + 1;
      assert t[i] == s[fi] && t[j] == s[fj] && fi < fj;
    }
  }

  /** The element at `p` and the rest of the list make up its multiset. */
  lemma RemoveAtMultiset(s: seq<Genre>, p: nat)
    requires p < |s|
    ensures multiset(s) == multiset{s[p]} + multiset(s[..p] + s[p + 1..])
  {
    assert s == s[..p] + [s[p]] + s[p + 1..];
  }

  lemma MultisetCancel(x: Genre, m1: multiset<Genre>, m2: multiset<Genre>)
    requires multiset{x} + m1 == multiset{x} + m2
    ensures m1 == m2
  {
    assert forall y :: m1[y] == (multiset{x} + m1)[y] - multiset{x}[y];
  }

  /** Two ranked permutations of one list agree on the score at every position. */
  lemma {:induction false} RankedPermutationsAgree(counter: Counter, a: seq<Genre>, b: seq<Genre>)
    requires Ranked(counter, a) && Ranked(counter, b)
    requires multiset(a) == multiset(b)
    ensures |a| == |b|
    ensures forall i :: 0 <= i < |a| ==> Score(counter, a[i].id) == Score(counter, b[i].id)
    decreases |a|
  {
    assert |a| == |multiset(a)| == |multiset(b)| == |b|;
    if a != [] {
      var p := PositionIn(b, a[0]);
      var a' := a[1..];
      var b' := b[..p] + b[p + 1..];
      RemoveMatching(counter, a, b, p);
      RankedPermutationsAgree(counter, a', b');
      var q := PositionIn(a, b[0]);
      AgreeAfterRemoval(counter, a, b, a', b', p);
    }
  }

  /** Removing the first element of `a` and its match in `b` leaves two ranked permutations. */
  lemma RemoveMatching(counter: Counter, a: seq<Genre>, b: seq<Genre>, p: nat)
    requires Ranked(counter, a) && Ranked(counter, b) && multiset(a) == multiset(b)
    requires 0 < |a| && p < |b| && b[p] == a[0]
    ensures Ranked(counter, a[1..]) && Ranked(counter, b[..p] + b[p + 1..])
    ensures multiset(a[1..]) == multiset(b[..p] + b[p + 1..])
  {
    RankedRemove(counter, a, 0);
    assert a[..0] + a[1..] == a[1..];
    RankedRemove(counter, b, p);
    MatchingMultiset(a, b, p);
  }

  lemma MatchingMultiset(a: seq<Genre>, b: seq<Genre>, p: nat)
    requires multiset(a) == multiset(b)
    requires 0 < |a| && p < |b| && b[p] == a[0]
    ensures multiset(a[1..]) == multiset(b[..p] + b[p + 1..])
  {
    assert a == [a[0]] + a[1..];
    RemoveAtMultiset(b, p);
    MultisetCancel(a[0], multiset(a[1..]), multiset(b[..p] + b[p + 1..]));
  }

  /** Where an element of the multiset of a list sits in it. */
  lemma PositionIn(s: seq<Genre>, x: Genre) returns (p: nat)
    requires x in multiset(s)
    ensures p < |s| && s[p] == x
  {
    assert x in s;
    var k :| 0 <= k < |s| && s[k] == x;
    p := k;
  }

  /** The inductive step: `a[0]` sits at `p` in `b`, and the rest agree. */
  lemma AgreeAfterRemoval(counter: Counter, a: seq<Genre>, b: seq<Genre>, a': seq<Genre>, b': seq<Genre>, p: nat)
    requires Ranked(counter, a) && Ranked(counter, b)
    requires 0 < |a| == |b| && p < |b| && b[p] == a[0] && b[0] in a
    requires a' == a[1..] && b' == b[..p] + b[p + 1..]
    requires forall i :: 0 <= i < |a'| ==> Score(counter, a'[i].id) == Score(counter, b'[i].id)
    ensures forall i :: 0 <= i < |a| ==> Score(counter, a[i].id) == Score(counter, b[i].id)
  {
    var top := Score(counter, a[0].id);
    var q :| 0 <= q < |a| && a[q] == b[0];
    assert Score(counter, b[0].id) == top;
    forall i | 0 <= i < |a| ensures Score(counter, a[i].id) == Score(counter, b[i].id) {
      if 0 < i <= p {
        assert a[i] == a'[i - 1] && b'[i - 1] == b[i - 1];
        assert Score(counter, b[i - 1].id) >= Score(counter, b[i].id) >= Score(counter, b[p].id);
      } else if p < i {
        assert a[i] == a'[i - 1] && b'[i - 1] == b[i];
      }
    }
  }

  /** Only ties are left to chance: any two draws of the jitter rank the same scores at every position. */
  lemma OnlyTiesAreRandom(stored: Option<Counter>, allGenres: seq<Genre>, j1: nat -> real, j2: nat -> real)
    requires JitterInRange(j1) && JitterInRange(j2)
    ensures var r1 := GetPersonalizedGenres(stored, allGenres, j1);
            var r2 := GetPersonalizedGenres(stored, allGenres, j2);
            |r1| == |r2| &&
            forall i :: 0 <= i < |r1| ==> Score(LoadCounter(stored), r1[i].id) == Score(LoadCounter(stored), r2[i].id)
  {
    var r1 := GetPersonalizedGenres(stored, allGenres, j1);
    var r2 := GetPersonalizedGenres(stored, allGenres, j2);
    RankedPermutationsAgree(LoadCounter(stored), r1, r2);
  }

  /** When distinct genres of the list have distinct scores, the ranking does not depend on the jitter. */
  lemma DistinctScoresFixTheOrder(stored: Option<Counter>, allGenres: seq<Genre>, j1: nat -> real, j2: nat -> real)
    requires JitterInRange(j1) && JitterInRange(j2)
    requires forall a, b :: a in allGenres && b in allGenres && a != b ==>
               Score(LoadCounter(stored), a.id) != Score(LoadCounter(stored), b.id)
    ensures GetPersonalizedGenres(stored, allGenres, j1) == GetPersonalizedGenres(stored, allGenres, j2)
  {
    var r1 := GetPersonalizedGenres(stored, allGenres, j1);
    var r2 := GetPersonalizedGenres(stored, allGenres, j2);
    OnlyTiesAreRandom(stored, allGenres, j1, j2);
    forall i | 0 <= i < |r1| ensures r1[i] == r2[i] {
      assert r1[i] in multiset(allGenres) && r2[i] in multiset(allGenres);
    }
  }
}
