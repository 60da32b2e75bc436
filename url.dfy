/**
 The query part of a request URL, as the view writes it (`k1=v1&k2=v2`)
 and as the server reads it back (split at the first `?`, then at each `&`,
 then at the first `=` of each part).
 */
module Url {
  import opened Lookup

  /** Position of the first `c` in `s`. */
  function IndexOf(s: string, c: char): Option<nat> {
    FindIndex(s, (x: char) => x == c)
  }

  lemma IndexOfAbsent(s: string, c: char)
    requires c !in s
    ensures IndexOf(s, c).None?
  {
  }

  lemma IndexOfJoin(a: string, c: char, b: string)
    requires c !in a
    ensures IndexOf(a + [c] + b, c) == Some(|a|)
  {
    var s := a + [c] + b;
    var r := IndexOf(s, c);
    assert s[|a|] == c;
  }

  /** `k1=v1&k2=v2&…`, as a template literal writes the parameters. */
  function QueryString(query: seq<(string, string)>): string {
    if query == [] then ""
    else if |query| == 1 then query[0].0 + "=" + query[0].1
    else query[0].0 + "=" + query[0].1 + "&" + QueryString(query[1..])
  }

  /** The text after the first `?` of a URL; empty when there is none. */
  function UrlQuery(url: string): string {
    match IndexOf(url, '?')
    case None => ""
    case Some(i) => url[i + 1..]
  }

  /** The parts of `s` between occurrences of `sep`. */
  function Split(s: string, sep: char): (parts: seq<string>)
    ensures |parts| > 0
    decreases |s|
  {
    match IndexOf(s, sep)
    case None => [s]
    case Some(i) => [s[..i]] + Split(s[i + 1..], sep)
  }

  /** A `key=value` part; a part without `=` is a key with an empty value. */
  function Pair(part: string): (string, string) {
    match IndexOf(part, '=')
    case None => (part, "")
    case Some(i) => (part[..i], part[i + 1..])
  }

  function Pairs(parts: seq<string>): seq<(string, string)> {
    if parts == [] then [] else [Pair(parts[0])] + Pairs(parts[1..])
  }

  /** The parameters of a query string, in the order they appear. */
  function ParseQuery(query: string): seq<(string, string)> {
    Pairs(Split(query, '&'))
  }

  /** Parameters whose keys hold neither `&` nor `=` and whose values hold no `&` survive the trip through the text. */
  predicate Writable(query: seq<(string, string)>) {
    forall i :: 0 <= i < |query| ==> '&' !in query[i].0 && '=' !in query[i].0 && '&' !in query[i].1
  }

  lemma {:induction false} ParseQueryString(query: seq<(string, string)>)
    requires |query| > 0 && Writable(query)
    ensures ParseQuery(QueryString(query)) == query
  {
    var (k, v) := query[0];
    var part := k + "=" + v;
    assert '&' !in part;
    IndexOfJoin(k, '=', v);
    assert Pair(part) == (k, v) by {
      assert part == k + ['='] + v;
      assert (k + ['='] + v)[..|k|] == k;
      assert (k + ['='] + v)[|k| + 1..] == v;
    }
    if |query| == 1 {
      IndexOfAbsent(part, '&');
      assert QueryString(query) == part;
      assert Split(part, '&') == [part];
      assert Pairs([part]) == [Pair(part)] by {
        assert [part][1..] == [];
      }
      assert query == [(k, v)];
    } else {
      var rest := QueryString(query[1..]);
      IndexOfJoin(part, '&', rest);
      assert (part + ['&'] + rest)[..|part|] == part;
      assert (part + ['&'] + rest)[|part| + 1..] == rest;
      assert QueryString(query) == part + ['&'] + rest;
      assert Split(QueryString(query), '&') == [part] + Split(rest, '&');
      ParseQueryString(query[1..]);
      assert Pairs([part] + Split(rest, '&')) == [Pair(part)] + Pairs(Split(rest, '&')) by {
        assert ([part] + Split(rest, '&'))[1..] == Split(rest, '&');
      }
    }
  }

  /** The query part of `base?query` is `query` when `base` holds no `?`. */
  lemma UrlQueryOf(base: string, query: string)
    requires '?' !in base
    ensures UrlQuery(base + "?" + query) == query
  {
    IndexOfJoin(base, '?', query);
    assert (base + ['?'] + query)[|base| + 1..] == query;
  }
}
