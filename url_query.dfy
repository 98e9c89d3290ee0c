/** How the receiving side reads the query of a request URL (section 3.4 of
    RFC 3986 and the `application/x-www-form-urlencoded` convention): the
    text after the first `?` and before any `#`, split at every `&` into
    `name=value` pairs. Percent-decoding is not modelled; the URLs the core
    builds contain no escapes. Used to state what the built URLs carry. */
module UrlQuery {
  import opened Runtime

  /** Splits `s` at every occurrence of `sep`; always at least one part. */
  function Split(s: string, sep: char): (parts: seq<string>)
    ensures |parts| > 0
  {
    if s == [] then [""]
    else
      var rest := Split(s[1..], sep);
      if s[0] == sep then [""] + rest else [[s[0]] + rest[0]] + rest[1..]
  }

  /** The text before the first `sep`, or all of `s` if there is none. */
  function Before(s: string, sep: char): string
  {
    if s == [] || s[0] == sep then [] else [s[0]] + Before(s[1..], sep)
  }

  /** The text after the first `sep`, or the empty text if there is none. */
  function After(s: string, sep: char): string
  {
    if s == [] then [] else if s[0] == sep then s[1..] else After(s[1..], sep)
  }

  datatype Param = Param(name: string, value: string)

  function ParseParam(part: string): Param
  {
    Param(Before(part, '='), After(part, '='))
  }

  function ParseParams(parts: seq<string>): (ps: seq<Param>)
    ensures |ps| == |parts|
  {
    if parts == [] then [] else [ParseParam(parts[0])] + ParseParams(parts[1..])
  }

  /** The query parameters of a URL, in order. */
  function QueryParams(url: string): seq<Param>
  {
    ParseParams(Split(Before(After(url, '?'), '#'), '&'))
  }

  /** The value of the first parameter called `name`. Taking the first
      occurrence is the convention of `URLSearchParams.get`; other servers
      may take the last one or all of them. */
  function Lookup(ps: seq<Param>, name: string): (v: Option<string>)
    ensures v.Some? <==> exists i :: 0 <= i < |ps| && ps[i].name == name
  {
    if ps == [] then None
    else if ps[0].name == name then Some(ps[0].value)
    else
      var v := Lookup(ps[1..], name);
      assert forall i :: 1 <= i < |ps| ==> ps[i] == ps[1..][i - 1];
      v
  }

  /** Text that can stand inside a query value without ending it. */
  predicate QuerySafe(s: string)
  {
    '&' !in s && '#' !in s
  }

  lemma {:induction false} SplitWithout(s: string, sep: char)
    requires sep !in s
    ensures Split(s, sep) == [s]
    decreases |s|
  {
    if s != [] {
      SplitWithout(s[1..], sep);
      assert [s[0]] + s[1..] == s;
    }
  }

  lemma {:induction false} SplitAt(a: string, sep: char, b: string)
    requires sep !in a
    ensures Split(a + [sep] + b, sep) == [a] + Split(b, sep)
    decreases |a|
  {
    if a == [] {
      assert a + [sep] + b == [sep] + b;
    } else {
      assert (a + [sep] + b)[1..] == a[1..] + [sep] + b;
      SplitAt(a[1..], sep, b);
      assert [a[0]] + a[1..] == a;
    }
  }

  lemma {:induction false} BeforeWithout(s: string, sep: char)
    requires sep !in s
    ensures Before(s, sep) == s
    decreases |s|
  {
    if s != [] {
      BeforeWithout(s[1..], sep);
    }
  }

  lemma {:induction false} BeforeAt(a: string, sep: char, b: string)
    requires sep !in a
    ensures Before(a + [sep] + b, sep) == a
    decreases |a|
  {
    if a != [] {
      assert (a + [sep] + b)[1..] == a[1..] + [sep] + b;
      BeforeAt(a[1..], sep, b);
    }
  }

  lemma {:induction false} AfterAt(a: string, sep: char, b: string)
    requires sep !in a
    ensures After(a + [sep] + b, sep) == b
    decreases |a|
  {
    if a == [] {
      assert a + [sep] + b == [sep] + b;
    } else {
      assert (a + [sep] + b)[1..] == a[1..] + [sep] + b;
      AfterAt(a[1..], sep, b);
    }
  }

  /** A `name=value` part with an `=`-free name reads back as that pair. */
  lemma ParseParamAt(name: string, value: string)
    requires '=' !in name
    ensures ParseParam(name + "=" + value) == Param(name, value)
  {
    assert name + "=" + value == name + ['='] + value;
    BeforeAt(name, '=', value);
    AfterAt(name, '=', value);
  }

  /** The parameters of a URL whose path has no `?` are read from the text
      after the `?`, split at `&`. */
  lemma QueryOf(path: string, query: string)
    requires '?' !in path && '#' !in query
    ensures QueryParams(path + "?" + query) == ParseParams(Split(query, '&'))
  {
    assert path + "?" + query == path + ['?'] + query;
    AfterAt(path, '?', query);
    BeforeWithout(query, '#');
  }

  /** Reading a first `name=value` part and then the rest of a query. */
  lemma ParamsCons(name: string, value: string, rest: string)
    requires '=' !in name && '&' !in name && '&' !in value
    ensures ParseParams(Split(name + "=" + value + "&" + rest, '&'))
         == [Param(name, value)] + ParseParams(Split(rest, '&'))
  {
    var part := name + "=" + value;
    assert '&' !in part;
    assert name + "=" + value + "&" + rest == part + ['&'] + rest;
    SplitAt(part, '&', rest);
    ParseParamAt(name, value);
    var parts := [part] + Split(rest, '&');
    assert parts[1..] == Split(rest, '&');
  }

  /** Reading the last `name=value` part of a query. */
  lemma ParamsLast(name: string, value: string)
    requires '=' !in name && '&' !in name && '&' !in value
    ensures ParseParams(Split(name + "=" + value, '&')) == [Param(name, value)]
  {
    var part := name + "=" + value;
    assert '&' !in part;
    SplitWithout(part, '&');
    ParseParamAt(name, value);
  }

  /** Text that can be a parameter name or value without changing how the
      query splits. */
  predicate PlainParam(p: Param)
  {
    '=' !in p.name && QuerySafe(p.name) && QuerySafe(p.value)
  }

  /** The query text `name=value&name=value...` for a non-empty list. */
  function Render(ps: seq<Param>): string
    requires |ps| > 0
  {
    var part := ps[0].name + "=" + ps[0].value;
    if |ps| == 1 then part else part + "&" + Render(ps[1..])
  }

  lemma {:induction false} RenderSafe(ps: seq<Param>)
    requires |ps| > 0
    requires forall i :: 0 <= i < |ps| ==> PlainParam(ps[i])
    ensures '#' !in Render(ps)
    decreases |ps|
  {
    if |ps| > 1 {
      RenderSafe(ps[1..]);
    }
  }

  /** Reading a rendered query gives back the parameters it was made of. */
  lemma {:induction false} ReadRendered(ps: seq<Param>)
    requires |ps| > 0
    requires forall i :: 0 <= i < |ps| ==> PlainParam(ps[i])
    ensures ParseParams(Split(Render(ps), '&')) == ps
    decreases |ps|
  {
    if |ps| == 1 {
      ParamsLast(ps[0].name, ps[0].value);
    } else {
      var rest := Render(ps[1..]);
      ReadRendered(ps[1..]);
      ParamsCons(ps[0].name, ps[0].value, rest);
      assert [ps[0]] + ps[1..] == ps;
    }
  }

  /** The parameters of `path?query` for a rendered query. */
  lemma QueryOfRendered(path: string, ps: seq<Param>)
    requires '?' !in path
    requires |ps| > 0
    requires forall i :: 0 <= i < |ps| ==> PlainParam(ps[i])
    ensures QueryParams(path + "?" + Render(ps)) == ps
  {
    RenderSafe(ps);
    QueryOf(path, Render(ps));
    ReadRendered(ps);
  }
}
