/** Reading the query of a URL the way the client does, through `URLSearchParams.get`
    (MobileHandover reads `t`, ResetPassword and VerifyEmail read `token`).

    The fragment starts at the first '#'; the query is the text between the first '?'
    before the fragment and the fragment, and is empty when that part of the URL has no
    '?' (a '?' inside the fragment starts no query, as `location.search` reads it). It is cut at
    every '&' into `name=value` pairs (the value is everything after the pair's first
    '='), and `get` answers with the value of the first pair carrying the name, or
    nothing. Percent-decoding and '+'-as-space are not modelled: the lemmas below only
    speak of values that contain neither '%' nor '+'. */
module Url {
  import opened Common

  /** The text before the first `c` (all of `s` when there is none). */
  function Before(s: string, c: char): (r: string)
    ensures r <= s && c !in r
  {
    if s == "" || s[0] == c then "" else [s[0]] + Before(s[1..], c)
  }

  /** The text after the first `c`, if `s` has one. */
  function After(s: string, c: char): (r: Option<string>)
    ensures r.Some? <==> c in s
    ensures r.Some? ==> |r.value| < |s|
  {
    if s == "" then None
    else if s[0] == c then Some(s[1..])
    else After(s[1..], c)
  }

  lemma {:induction false} BeforeAfterSplit(a: string, c: char, b: string)
    requires c !in a
    ensures Before(a + [c] + b, c) == a
    ensures After(a + [c] + b, c) == Some(b)
  {
    if a == "" {
      assert (a + [c] + b)[1..] == b;
    } else {
      assert (a + [c] + b)[1..] == a[1..] + [c] + b;
      BeforeAfterSplit(a[1..], c, b);
      assert [a[0]] + a[1..] == a;
    }
  }

  lemma {:induction false} BeforeAbsent(a: string, c: char)
    requires c !in a
    ensures Before(a, c) == a
  {
    if a != "" {
      BeforeAbsent(a[1..], c);
      assert [a[0]] + a[1..] == a;
    }
  }

  /** The query of a URL, without its '?' and without any fragment: what follows the
      first '?' of the part before the first '#'. */
  function Query(url: string): string {
    match After(Before(url, '#'), '?')
    case None => ""
    case Some(q) => q
  }

  /** The path of a relative URL such as an API endpoint: everything before the '?'. */
  function Path(url: string): string {
    Before(url, '?')
  }

  /** The value of the first pair named `name` among `pairs`. */
  function Lookup(pairs: seq<string>, name: string): Option<string> {
    if pairs == [] then None
    else if Before(pairs[0], '=') == name then Some(After(pairs[0], '=').GetOr(""))
    else Lookup(pairs[1..], name)
  }

  /** `new URLSearchParams(query).get(name)`. */
  function Get(query: string, name: string): Option<string> {
    Lookup(Split(query, '&'), name)
  }

  /** `new URLSearchParams(location.search).get(name)` for the page at `url`. */
  function SearchParam(url: string, name: string): Option<string> {
    Get(Query(url), name)
  }

  /** Characters that survive a query string unchanged and do not end a value. */
  predicate PlainValue(v: string) {
    '&' !in v && '#' !in v && '%' !in v && '+' !in v
  }

  /** A name that is neither empty nor contains a delimiter. */
  predicate PlainName(n: string) {
    n != "" && '=' !in n && PlainValue(n)
  }

  /** The value of a single `name=value` pair is read back unchanged. */
  lemma PairValue(name: string, value: string)
    requires PlainName(name) && PlainValue(value)
    ensures Get(name + "=" + value, name) == Some(value)
  {
    var p := name + "=" + value;
    assert p == name + ['='] + value;
    assert '&' !in p;
    SplitNoSep(p, '&');
    BeforeAfterSplit(name, '=', value);
  }

  /** In `first&rest`, a name other than the first pair's is looked up in `rest`. */
  lemma SkipPair(first: string, rest: string, name: string)
    requires '&' !in first && Before(first, '=') != name
    ensures Get(first + "&" + rest, name) == Get(rest, name)
  {
    assert first + "&" + rest == first + ['&'] + rest;
    SplitAtFirst(first, '&', rest);
  }

  /** In `first&rest`, the first pair's own name is answered from it. */
  lemma FirstPair(name: string, value: string, rest: string)
    requires PlainName(name) && PlainValue(value)
    ensures Get(name + "=" + value + "&" + rest, name) == Some(value)
  {
    var p := name + "=" + value;
    assert p + "&" + rest == p + ['&'] + rest;
    assert p == name + ['='] + value;
    SplitAtFirst(p, '&', rest);
    BeforeAfterSplit(name, '=', value);
  }

  /** The query of `prefix?query` when `prefix` has neither '?' nor '#' and `query`
      no '#'. */
  lemma QueryOf(prefix: string, query: string)
    requires '?' !in prefix && '#' !in prefix && '#' !in query
    ensures Query(prefix + "?" + query) == query
    ensures Path(prefix + "?" + query) == prefix
  {
    var url := prefix + "?" + query;
    assert url == prefix + ['?'] + query;
    assert '#' !in url by {
      assert forall k :: 0 <= k < |url| ==> url[k] == (if k < |prefix| then prefix[k] else if k == |prefix| then '?' else query[k - |prefix| - 1]);
    }
    BeforeAbsent(url, '#');
    BeforeAfterSplit(prefix, '?', query);
  }

  /** A '?' inside the fragment starts no query: in `a#b`, with no '?' or '#' in `a`,
      no parameter is found, whatever `b` holds. */
  lemma QueryInFragmentIgnored(a: string, b: string, name: string)
    requires '?' !in a && '#' !in a && name != ""
    ensures Query(a + "#" + b) == ""
    ensures SearchParam(a + "#" + b, name) == None
    ensures PresentParam(a + "#" + b, name) == None
  {
    assert a + "#" + b == a + ['#'] + b;
    BeforeAfterSplit(a, '#', b);
    SplitNoSep("", '&');
    assert Lookup([""], name) == Lookup([], name);
  }

  /** `searchParams.get(name)` used as a condition: a parameter that is missing or
      empty counts as absent. */
  function PresentParam(url: string, name: string): (v: Option<string>)
    ensures v.Some? <==> SearchParam(url, name).Some? && SearchParam(url, name).value != ""
    ensures v.Some? ==> v.value == SearchParam(url, name).value
  {
    match SearchParam(url, name)
    case Some(x) => if x != "" then Some(x) else None
    case None => None
  }

  /** A link `prefix?name=value` carries `value` in its `name` parameter. */
  lemma LinkParam(prefix: string, name: string, value: string)
    requires '?' !in prefix && '#' !in prefix && PlainName(name) && PlainValue(value) && value != ""
    ensures PresentParam(prefix + "?" + name + "=" + value, name) == Some(value)
  {
    var pair := name + "=" + value;
    assert prefix + "?" + name + "=" + value == prefix + "?" + pair;
    assert pair == name + ['='] + value;
    assert '#' !in pair;
    QueryOf(prefix, pair);
    PairValue(name, value);
  }
}
