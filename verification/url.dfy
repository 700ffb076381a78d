/**
 * Reading a query parameter from a URL as `URLSearchParams.get` does. The
 * model splits the query at '&' and each pair at its first '='; it leaves
 * out percent-decoding, '+'-to-space decoding and '#' fragments, so it agrees
 * with the browser on names and values that contain none of '%', '+', '#'.
 */
module Url {
  import opened Common
  import opened Text

  /** The position of the first occurrence of `c` in `s`. */
  function IndexOf(s: string, c: char): (k: nat)
    requires c in s
    ensures k < |s| && s[k] == c && c !in s[..k]
  {
    if s[0] == c then 0
    else
      assert s[1..] == s[..][1..];
      var k := 1 + IndexOf(s[1..], c);
      assert s[..k] == [s[0]] + s[1..][..k - 1];
      k
  }

  /** The first `c` of `a + [c] + b` is the one after `a` when `a` has none. */
  lemma {:induction false} IndexOfAfter(a: string, c: char, b: string)
    requires c !in a
    ensures IndexOf(a + [c] + b, c) == |a|
    decreases |a|
  {
    var s := a + [c] + b;
    if |a| > 0 {
      assert s[1..] == a[1..] + [c] + b;
      IndexOfAfter(a[1..], c, b);
    }
  }

  /** The query string: what follows the first '?' of `url`, or "" when there is none. */
  function Query(url: string): string {
    if '?' in url then url[IndexOf(url, '?') + 1..] else ""
  }

  /** The name of a `name=value` pair: the text before its first '=' (all of it when there is none). */
  function PairName(pair: string): string {
    if '=' in pair then pair[..IndexOf(pair, '=')] else pair
  }

  /** The value of a `name=value` pair: the text after its first '=' ("" when there is none). */
  function PairValue(pair: string): string {
    if '=' in pair then pair[IndexOf(pair, '=') + 1..] else ""
  }

  /** `pair` is a non-empty pair called `name` (empty pairs, as in "a=1&&b=2", are skipped). */
  predicate Names(pair: string, name: string) {
    pair != "" && PairName(pair) == name
  }

  /** The value of the first pair called `name`. */
  function Lookup(pairs: seq<string>, name: string): (r: Option<string>)
    ensures r.Some? <==> exists i :: 0 <= i < |pairs| && Names(pairs[i], name)
    ensures r.Some? ==> exists i :: 0 <= i < |pairs| && Names(pairs[i], name) && r.value == PairValue(pairs[i])
                                      && forall j :: 0 <= j < i ==> !Names(pairs[j], name)
    decreases |pairs|
  {
    if |pairs| == 0 then None
    else if Names(pairs[0], name) then Some(PairValue(pairs[0]))
    else
      var r := Lookup(pairs[1..], name);
      assert forall i :: 1 <= i < |pairs| ==> pairs[i] == pairs[1..][i - 1];
      if r.Some? then
        var i :| 0 <= i < |pairs[1..]| && Names(pairs[1..][i], name) && r.value == PairValue(pairs[1..][i])
                  && forall j :: 0 <= j < i ==> !Names(pairs[1..][j], name);
        assert forall j :: 1 <= j < i + 1 ==> pairs[j] == pairs[1..][j - 1];
        assert Names(pairs[i + 1], name) && r.value == PairValue(pairs[i + 1]);
        r
      else
        r
  }

  /** `new URL(url).searchParams.get(name)`. */
  function Param(url: string, name: string): Option<string> {
    Lookup(Split(Query(url), '&'), name)
  }

  /** A URL without '?' before the one that starts its query has exactly that query. */
  lemma QueryAfter(base: string, query: string)
    requires '?' !in base
    ensures Query(base + "?" + query) == query
  {
    IndexOfAfter(base, '?', query);
  }

  /** `name=value` splits back into `name` and `value` when the name has no '='. */
  lemma PairParts(name: string, value: string)
    requires '=' !in name
    ensures PairName(name + "=" + value) == name
    ensures PairValue(name + "=" + value) == value
  {
    IndexOfAfter(name, '=', value);
  }

  /**
   * A URL `base?n1=v1&n2=v2` yields `v1` for `n1` and `v2` for `n2`: the
   * query-string encoding of two parameters is read back unchanged.
   */
  lemma {:induction false} TwoParamsRoundTrip(base: string, n1: string, v1: string, n2: string, v2: string)
    requires '?' !in base
    requires '=' !in n1 && '=' !in n2 && n1 != "" && n2 != "" && n1 != n2
    requires '&' !in n1 && '&' !in v1 && '&' !in n2 && '&' !in v2
    ensures Param(base + "?" + n1 + "=" + v1 + "&" + n2 + "=" + v2, n1) == Some(v1)
    ensures Param(base + "?" + n1 + "=" + v1 + "&" + n2 + "=" + v2, n2) == Some(v2)
  {
    var p1 := n1 + "=" + v1;
    var p2 := n2 + "=" + v2;
    var q := p1 + "&" + p2;
    assert base + "?" + n1 + "=" + v1 + "&" + n2 + "=" + v2 == base + "?" + q;
    QueryAfter(base, q);
    assert '&' !in p1 && '&' !in p2;
    assert Join([p1, p2], "&") == q;
    SplitJoin([p1, p2], '&');
    PairParts(n1, v1);
    PairParts(n2, v2);
    var pairs := Split(q, '&');
    assert pairs == [p1, p2];
    assert Names(pairs[0], n1);
    assert !Names(pairs[0], n2) && Names(pairs[1], n2);
    assert pairs[1..] == [p2];
    assert Lookup(pairs[1..], n2) == Some(v2);
  }
}
