/** Request targets of the catalog API as text: a path, then `?` and `key=value` pairs joined
    by `&`. Parsing a rendered target gives it back as long as no piece contains the separator
    that ends it. */
module Urls {
  import opened Common

  datatype Param = Param(key: string, value: string)

  datatype Url = Url(path: string, params: seq<Param>)

  /** `xs.join(c)`. */
  function Join(xs: seq<string>, c: char): string
    requires |xs| > 0
    decreases |xs|
  {
    if |xs| == 1 then xs[0] else xs[0] + [c] + Join(xs[1..], c)
  }

  /** `s.split(c)`: the pieces between the separators, always at least one. */
  function Split(s: string, c: char): (r: seq<string>)
    ensures |r| > 0
    ensures forall i :: 0 <= i < |r| ==> c !in r[i]
    decreases |s|
  {
    var i := IndexOf(s, c);
    if i == |s| then [s] else [s[..i]] + Split(s[i + 1..], c)
  }

  /** Splitting a joined list gives the list back when no piece holds the separator. */
  lemma {:induction false} SplitJoin(xs: seq<string>, c: char)
    requires |xs| > 0 && forall i :: 0 <= i < |xs| ==> c !in xs[i]
    ensures Split(Join(xs, c), c) == xs
    decreases |xs|
  {
    if |xs| == 1 {
      assert IndexOf(xs[0], c) == |xs[0]|;
    } else {
      SplitStep(xs[0], c, Join(xs[1..], c));
      SplitJoin(xs[1..], c);
      assert xs == [xs[0]] + xs[1..];
    }
  }

  /** A first piece without the separator splits off by itself. */
  lemma SplitStep(x: string, c: char, t: string)
    requires c !in x
    ensures Split(x + [c] + t, c) == [x] + Split(t, c)
  {
    SeparatorSplit(x, c, t);
  }

  lemma {:induction false} JoinAppend(xs: seq<string>, x: string, c: char)
    requires |xs| > 0
    ensures Join(xs + [x], c) == Join(xs, c) + [c] + x
    decreases |xs|
  {
    if |xs| == 1 {
      assert (xs + [x])[1..] == [x];
    } else {
      assert (xs + [x])[1..] == xs[1..] + [x];
      JoinAppend(xs[1..], x, c);
    }
  }

  /** A target with one pair. */
  lemma RenderOne(path: string, p: Param)
    ensures Render(Url(path, [p])) == path + "?" + RenderParam(p)
  {
    assert Pairs([p]) == [RenderParam(p)];
  }

  /** Appending a pair to a target with pairs appends `&key=value` to its text. */
  lemma RenderAppend(path: string, ps: seq<Param>, p: Param)
    requires ps != []
    ensures Render(Url(path, ps + [p])) == Render(Url(path, ps)) + "&" + RenderParam(p)
  {
    assert Pairs(ps + [p]) == Pairs(ps) + [RenderParam(p)];
    JoinAppend(Pairs(ps), RenderParam(p), '&');
  }

  /** The text of a target with the one pair `k=v`. */
  lemma RenderOnePair(path: string, k: string, v: string)
    ensures Render(Url(path, [Param(k, v)])) == path + "?" + k + "=" + v
  {
    RenderOne(path, Param(k, v));
    Regroup3(path + "?", k, "=", v);
  }

  /** Appending the pair `k=v` appends the text `&k=v`. */
  lemma RenderAppendPair(path: string, ps: seq<Param>, k: string, v: string)
    requires ps != []
    ensures Render(Url(path, ps + [Param(k, v)])) == Render(Url(path, ps)) + ("&" + k + "=" + v)
  {
    RenderAppend(path, ps, Param(k, v));
    Regroup4(Render(Url(path, ps)), "&", k, "=", v);
  }

  /** The text of a target with the two pairs `k1=v1` and `k2=v2`. */
  lemma RenderTwoPairs(path: string, k1: string, v1: string, k2: string, v2: string)
    ensures Render(Url(path, [Param(k1, v1), Param(k2, v2)])) == path + "?" + k1 + "=" + v1 + "&" + k2 + "=" + v2
  {
    RenderOnePair(path, k1, v1);
    RenderAppendPair(path, [Param(k1, v1)], k2, v2);
    assert [Param(k1, v1)] + [Param(k2, v2)] == [Param(k1, v1), Param(k2, v2)];
    Regroup4(path + "?" + k1 + "=" + v1, "&", k2, "=", v2);
  }

  lemma Regroup3(a: string, b: string, c: string, d: string)
    ensures a + (b + c + d) == a + b + c + d
  {
  }

  lemma Regroup4(a: string, b: string, c: string, d: string, e: string)
    ensures a + b + (c + d + e) == a + (b + c + d + e) == a + b + c + d + e
  {
  }

  function RenderParam(p: Param): string {
    p.key + "=" + p.value
  }

  /** A pair without `=` reads as a key with an empty value. */
  function ParseParam(s: string): Param {
    var i := IndexOf(s, '=');
    Param(s[..i], if i < |s| then s[i + 1..] else "")
  }

  /** Each pair as `key=value`. */
  function Pairs(ps: seq<Param>): (r: seq<string>)
    ensures |r| == |ps| && forall i :: 0 <= i < |ps| ==> r[i] == RenderParam(ps[i])
  {
    if ps == [] then [] else [RenderParam(ps[0])] + Pairs(ps[1..])
  }

  /** Each `key=value` text as a pair. */
  function ParseAll(xs: seq<string>): (r: seq<Param>)
    ensures |r| == |xs| && forall i :: 0 <= i < |xs| ==> r[i] == ParseParam(xs[i])
  {
    if xs == [] then [] else [ParseParam(xs[0])] + ParseAll(xs[1..])
  }

  function Render(u: Url): string {
    if u.params == [] then u.path else u.path + "?" + Join(Pairs(u.params), '&')
  }

  /** The path up to the first `?`, then the pairs between the `&`s. */
  function Parse(s: string): Url {
    var q := IndexOf(s, '?');
    if q == |s| then Url(s, [])
    else
      Url(s[..q], ParseAll(Split(s[q + 1..], '&')))
  }

  /** A path without the `?` that ends it. */
  predicate PlainPath(s: string) {
    forall i :: 0 <= i < |s| ==> s[i] != '?'
  }

  /** A key without the `=` or `&` that ends it. */
  predicate PlainKey(s: string) {
    forall i :: 0 <= i < |s| ==> s[i] != '&' && s[i] != '='
  }

  /** A value without the `&` that ends it. */
  predicate PlainValue(s: string) {
    forall i :: 0 <= i < |s| ==> s[i] != '&'
  }

  /** A query value the API receives unchanged when it is pasted raw: no `&` that would end it,
      no `#` where the client cuts the URL, and no `%` or `+` that the server decodes. */
  predicate QueryPlain(s: string) {
    forall i :: 0 <= i < |s| ==> s[i] != '&' && s[i] != '#' && s[i] != '%' && s[i] != '+'
  }

  /** No piece contains the separator that ends it. */
  predicate WellFormed(u: Url) {
    PlainPath(u.path) &&
    forall i :: 0 <= i < |u.params| ==> PlainKey(u.params[i].key) && PlainValue(u.params[i].value)
  }

  lemma ParseRenderParam(p: Param)
    requires '=' !in p.key
    ensures ParseParam(RenderParam(p)) == p
  {
    SeparatorSplit(p.key, '=', p.value);
  }

  /** Reading back a rendered target gives the target. */
  lemma ParseRender(u: Url)
    requires WellFormed(u)
    ensures Parse(Render(u)) == u
  {
    assert '?' !in u.path;
    if u.params == [] {
      assert IndexOf(u.path, '?') == |u.path|;
    } else {
      var pairs := Pairs(u.params);
      SeparatorSplit(u.path, '?', Join(pairs, '&'));
      PairsArePlain(u.params);
      SplitJoin(pairs, '&');
      ParseAllPairs(u.params);
    }
  }

  /** No rendered pair holds `&` when no key or value does. */
  lemma PairsArePlain(ps: seq<Param>)
    requires forall i :: 0 <= i < |ps| ==> PlainKey(ps[i].key) && PlainValue(ps[i].value)
    ensures forall i :: 0 <= i < |Pairs(ps)| ==> '&' !in Pairs(ps)[i]
  {
    var pairs := Pairs(ps);
    forall i | 0 <= i < |pairs| ensures '&' !in pairs[i] {
      assert pairs[i] == ps[i].key + "=" + ps[i].value;
      assert '&' !in ps[i].key && '&' !in ps[i].value;
    }
  }

  /** Each rendered pair reads back as itself when no key holds `=`. */
  lemma ParseAllPairs(ps: seq<Param>)
    requires forall i :: 0 <= i < |ps| ==> PlainKey(ps[i].key)
    ensures ParseAll(Pairs(ps)) == ps
  {
    var pairs := Pairs(ps);
    forall i | 0 <= i < |pairs| ensures ParseParam(pairs[i]) == ps[i] {
      assert '=' !in ps[i].key;
      ParseRenderParam(ps[i]);
    }
  }

  /** The value of the first pair with this key. */
  function Lookup(params: seq<Param>, key: string): Option<string> {
    if params == [] then None
    else if params[0].key == key then Some(params[0].value)
    else Lookup(params[1..], key)
  }

  /** `Lookup` finds a pair with the key exactly when there is one, and it is the first. */
  lemma {:induction false} LookupFinds(params: seq<Param>, key: string)
    ensures Lookup(params, key).None? <==> forall i :: 0 <= i < |params| ==> params[i].key != key
    ensures Lookup(params, key).Some? ==>
              exists i :: 0 <= i < |params| && params[i] == Param(key, Lookup(params, key).value) &&
                          forall j :: 0 <= j < i ==> params[j].key != key
  {
    if params != [] && params[0].key != key {
      LookupFinds(params[1..], key);
      var r := Lookup(params, key);
      assert forall i :: 1 <= i < |params| ==> params[i] == params[1..][i - 1];
      if r.Some? {
        var i :| 0 <= i < |params| - 1 && params[1..][i] == Param(key, r.value) &&
                 forall j :: 0 <= j < i ==> params[1..][j].key != key;
        assert params[i + 1] == Param(key, r.value);
      }
    }
  }

  /** The characters a query value has to escape, and the hex digit after `%2` that stands for each. */
  function EscapeDigit(c: char): Option<char> {
    if c == '%' then Some('5')
    else if c == '&' then Some('6')
    else if c == '#' then Some('3')
    else if c == '+' then Some('B')
    else None
  }

  /** The character an escape `%2d` stands for. */
  function EscapedChar(d: char): Option<char> {
    if d == '5' then Some('%')
    else if d == '6' then Some('&')
    else if d == '3' then Some('#')
    else if d == 'B' then Some('+')
    else None
  }

  /** Percent-escapes the characters that would end, split or re-read a query value. */
  function EscapeChar(c: char): (r: string)
    ensures '&' !in r && '#' !in r && '+' !in r
  {
    match EscapeDigit(c)
    case Some(d) => ['%', '2', d]
    case None => [c]
  }

  /** `encodeURIComponent` restricted to the characters that matter to a query value. */
  function Escape(s: string): (r: string)
    ensures '&' !in r && '#' !in r && '+' !in r
  {
    if s == [] then [] else EscapeChar(s[0]) + Escape(s[1..])
  }

  /** The server's decoding of the escapes `Escape` writes. */
  function Unescape(s: string): string
    decreases |s|
  {
    if s == [] then []
    else if s[0] == '%' && |s| >= 3 && s[1] == '2' && EscapedChar(s[2]).Some? then [EscapedChar(s[2]).value] + Unescape(s[3..])
    else [s[0]] + Unescape(s[1..])
  }

  /** Every text survives escaping and decoding unchanged. */
  lemma {:induction false} UnescapeEscape(s: string)
    ensures Unescape(Escape(s)) == s
  {
    if s != [] {
      var e := EscapeChar(s[0]);
      var rest := Escape(s[1..]);
      UnescapeEscape(s[1..]);
      assert Escape(s) == e + rest;
      if EscapeDigit(s[0]).Some? {
        var t := e + rest;
        assert t[0] == '%' && t[1] == '2' && t[2] == EscapeDigit(s[0]).value && t[3..] == rest;
      } else {
        assert (e + rest)[1..] == rest;
      }
    }
  }
}
