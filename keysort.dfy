/** `list.sort((a, b) => key(a) - key(b))`: the engine's sort with a numeric key comparator.
    The engine's algorithm is not modelled; this stable insertion sort stands for it, and what
    the front end relies on is stated of its result: ordered by key, and a permutation. */
module KeySort {

  /** Non-decreasing by `key`. */
  ghost predicate SortedBy<T>(s: seq<T>, key: T -> real) {
    forall i, j :: 0 <= i < j < |s| ==> key(s[i]) <= key(s[j])
  }

  /** Places `x`, which follows all of `s` in the original order, after every element whose key is not larger. */
  function Insert<T>(s: seq<T>, x: T, key: T -> real): (r: seq<T>)
    requires SortedBy(s, key)
    ensures SortedBy(r, key)
    ensures multiset(r) == multiset(s) + multiset{x}
    decreases |s|
  {
    if s == [] then [x]
    else
      var last := s[|s| - 1];
      var init := s[..|s| - 1];
      assert s == init + [last];
      if key(x) < key(last) then
        var p := Insert(init, x, key);
        BelowLast(init, last, x, p, key);
        AppendSorted(p, last, key);
        assert multiset(p + [last]) == multiset(p) + multiset{last};
        p + [last]
      else
        AppendSorted(s, x, key);
        s + [x]
  }

  /** Once `x` has been placed among the elements before `last`, none of them has a larger key than `last`. */
  lemma BelowLast<T>(init: seq<T>, last: T, x: T, p: seq<T>, key: T -> real)
    requires SortedBy(init + [last], key)
    requires key(x) < key(last)
    requires multiset(p) == multiset(init) + multiset{x}
    ensures forall i :: 0 <= i < |p| ==> key(p[i]) <= key(last)
  {
    var s := init + [last];
    forall i | 0 <= i < |p| ensures key(p[i]) <= key(last) {
      assert p[i] in multiset(p);
      if p[i] != x {
        assert p[i] in multiset(init);
        var j :| 0 <= j < |init| && init[j] == p[i];
        assert s[j] == p[i] && s[|init|] == last;
      }
    }
  }

  lemma AppendSorted<T>(s: seq<T>, x: T, key: T -> real)
    requires SortedBy(s, key)
    requires forall i :: 0 <= i < |s| ==> key(s[i]) <= key(x)
    ensures SortedBy(s + [x], key)
  {
    var t := s + [x];
    forall i, j | 0 <= i < j < |t| ensures key(t[i]) <= key(t[j]) {
      if j < |s| {
        assert t[i] == s[i] && t[j] == s[j];
      } else {
        assert t[i] == s[i] && t[j] == x;
      }
    }
  }

  /** The sorted permutation of `s`. */
  function SortBy<T>(s: seq<T>, key: T -> real): (r: seq<T>)
    ensures SortedBy(r, key)
    ensures multiset(r) == multiset(s)
    ensures |r| == |s|
  {
    if s == [] then []
    else
      assert s == s[..|s| - 1] + [s[|s| - 1]];
      var r := Insert(SortBy(s[..|s| - 1], key), s[|s| - 1], key);
      assert |r| == |multiset(r)| == |multiset(s)| == |s|;
      r
  }
}
