/** Parsing of function paths (gateway/pkg/middleware/resolver.go). */
module Resolver {

  import opened Wrappers
  import opened Service
  import opened ServiceName

  function Optional(present: bool, part: string): string {
    if present then part else ""
  }

  /** The strings that `^/?(?:async-)?function/` matches, by which optional parts are there. */
  datatype Route = Route(slash: bool, async: bool)
  {
    function Text(): string {
      Optional(slash, "/") + (Optional(async, "async-") + "function/")
    }
  }

  /** What `([^/?]+)([^?]*)` captures after a route. */
  datatype Submatch = Submatch(route: Route, name: string, path: string)

  predicate NameChars(s: string) {
    '/' !in s && '?' !in s
  }

  /** The regular expression as a relation; nothing says here which of the possible matches is taken. */
  predicate Matches(s: string, m: Submatch) {
    && m.name != "" && NameChars(m.name) && '?' !in m.path
    && m.route.Text() <= s
    && m.name + m.path <= s[|m.route.Text()|..]
  }

  /** The length of the longest prefix without any of the characters in `stop`. */
  function Span(s: string, stop: set<char>): (n: nat)
    ensures n <= |s|
    ensures forall i :: 0 <= i < n ==> s[i] !in stop
    ensures n < |s| ==> s[n] in stop
  {
    if s == "" || s[0] in stop then 0 else 1 + Span(s[1..], stop)
  }

  /** `(?:part)?` at the start of `s`: taken when it is there. */
  function Strip(s: string, part: string): (r: (bool, string))
    ensures s == Optional(r.0, part) + r.1
  {
    if part <= s then (true, s[|part|..]) else (false, s)
  }

  /** The route that a string starts with. */
  function RouteOf(s: string): Option<Route> {
    var (slash, s1) := Strip(s, "/");
    var (async, s2) := Strip(s1, "async-");
    if "function/" <= s2 then Some(Route(slash, async)) else None
  }

  /** The two captures, each as long as its character class allows. */
  function Captures(tail: string): Option<(string, string)> {
    var n := Span(tail, {'/', '?'});
    var rest := tail[n..];
    if n > 0 then Some((tail[..n], rest[..Span(rest, {'?'})])) else None
  }

  lemma Prefix3(a: string, b: string, c: string, s: string, s1: string, s2: string)
    requires s == a + s1 && s1 == b + s2 && c <= s2
    ensures a + (b + c) <= s
  {
    assert s2 == c + s2[|c|..];
    assert s == (a + (b + c)) + s2[|c|..];
  }

  lemma Suffix(a: string, b: string, s: string)
    requires a + b <= s
    ensures a <= s && b <= s[|a|..]
  {
    assert s == a + (b + s[|a + b|..]);
  }

  lemma RouteOfText(s: string, r: Route)
    ensures RouteOf(s) == Some(r) <==> r.Text() <= s
  {
    var (slash, s1) := Strip(s, "/");
    var (async, s2) := Strip(s1, "async-");
    if "function/" <= s2 {
      Prefix3(Optional(slash, "/"), Optional(async, "async-"), "function/", s, s1, s2);
    }
    if r.Text() <= s {
      TextStrips(s, r);
    }
  }

  /** Nothing else than the optional part itself can stand where it is optional. */
  lemma TextStrips(s: string, r: Route)
    requires r.Text() <= s
    ensures RouteOf(s) == Some(r)
  {
    var tail := Optional(r.async, "async-") + "function/";
    Suffix(Optional(r.slash, "/"), tail, s);
    assert tail[0] == 'a' || tail[0] == 'f';
    var s1 := s[|Optional(r.slash, "/")|..];
    assert Strip(s, "/") == (r.slash, s1);
    Suffix(Optional(r.async, "async-"), "function/", s1);
    var s2 := s1[|Optional(r.async, "async-")|..];
    assert s2[0] == 'f';
    assert Strip(s1, "async-") == (r.async, s2);
  }

  /** `functionMatcher.FindStringSubmatch`. */
  function FindStringSubmatch(s: string): Option<Submatch>
  {
    match RouteOf(s)
    case None => None
    case Some(r) =>
      RouteOfText(s, r);
      match Captures(s[|r.Text()|..])
      case None => None
      case Some((name, path)) => Some(Submatch(r, name, path))
  }

  lemma CapturesAreGreedy(tail: string, name: string, path: string)
    requires name != "" && NameChars(name) && '?' !in path && name + path <= tail
    ensures Captures(tail).Some?
    ensures var (n, p) := Captures(tail).value;
            |name| <= |n| && (name == n ==> |path| <= |p|)
  {
    assert forall i :: 0 <= i < |name| ==> tail[i] == (name + path)[i] == name[i];
    assert forall i :: 0 <= i < |path| ==> tail[|name|..][i] == (name + path)[|name| + i] == path[i];
  }

  lemma CapturesMatch(tail: string)
    ensures Captures(tail).Some? ==>
              var (name, path) := Captures(tail).value;
              name != "" && NameChars(name) && '?' !in path && name + path <= tail
  {
    var n := Span(tail, {'/', '?'});
    assert tail == tail[..n] + tail[n..];
  }

  /**
   The matcher finds a match exactly when there is one, with the only possible route, and then no
   match has a longer name, nor the same name with a longer path.
   */
  lemma FindsTheGreedyMatch(s: string, m: Submatch)
    ensures FindStringSubmatch(s).Some? ==> Matches(s, FindStringSubmatch(s).value)
    ensures Matches(s, m) ==>
              && FindStringSubmatch(s).Some?
              && var f := FindStringSubmatch(s).value;
                 f.route == m.route && |m.name| <= |f.name| && (m.name == f.name ==> |m.path| <= |f.path|)
  {
    if FindStringSubmatch(s).Some? {
      var r := RouteOf(s).value;
      RouteOfText(s, r);
      CapturesMatch(s[|r.Text()|..]);
    }
    if Matches(s, m) {
      RouteOfText(s, m.route);
      CapturesAreGreedy(s[|m.route.Text()|..], m.name, m.path);
    }
  }

  function TrimLeft(s: string, c: char): string {
    if s != "" && s[0] == c then TrimLeft(s[1..], c) else s
  }

  function TrimRight(s: string, c: char): string {
    if s != "" && s[|s| - 1] == c then TrimRight(s[..|s| - 1], c) else s
  }

  function Trim(s: string, c: char): string {
    TrimRight(TrimLeft(s, c), c)
  }

  function GetServiceName(urlValue: string): string {
    if "/function/" <= urlValue then
      match FindStringSubmatch(urlValue)
      case Some(m) => Trim(m.name, '/')
      case None => Trim("", '/')
    else Trim("", '/')
  }

  /** `FunctionPrefixTrimmingURLPathTransformer.Transform` on `r.URL.Path`. */
  function Transform(path: string): string {
    if path != "" then
      match FindStringSubmatch(path)
      case Some(m) => m.path
      case None => path
    else path
  }

  /** The path set by `SingleHostBaseURLResolver.BuildURL` when there is no health path. */
  function BasePath(p: Pair): string {
    "/function/" + CacheKey(p) + "/"
  }

  predicate IsRest(rest: string) {
    '?' !in rest && (rest == "" || rest[0] == '/')
  }

  predicate IsQuery(query: string) {
    query == "" || query[0] == '?'
  }

  lemma SpanOfParts(a: string, b: string, stop: set<char>)
    requires forall i :: 0 <= i < |a| ==> a[i] !in stop
    requires b != "" ==> b[0] in stop
    ensures Span(a + b, stop) == |a|
  {
    assert forall i :: 0 <= i < |a| ==> (a + b)[i] == a[i];
    assert b != "" ==> (a + b)[|a|] == b[0];
  }

  lemma CapturesOfParts(name: string, rest: string, query: string)
    requires name != "" && NameChars(name) && IsRest(rest) && IsQuery(query)
    ensures Captures(name + (rest + query)) == Some((name, rest))
  {
    var tail := name + (rest + query);
    SpanOfParts(name, rest + query, {'/', '?'});
    assert tail[..|name|] == name && tail[|name|..] == rest + query;
    SpanOfParts(rest, query, {'?'});
    assert (rest + query)[..|rest|] == rest;
  }

  lemma OnRoute(r: Route, tail: string)
    ensures FindStringSubmatch(r.Text() + tail) ==
            (match Captures(tail)
             case None => None
             case Some((name, path)) => Some(Submatch(r, name, path)))
  {
    var s := r.Text() + tail;
    RouteOfText(s, r);
    assert s[|r.Text()|..] == tail;
  }

  lemma FunctionRoute()
    ensures Route(true, false).Text() == "/function/"
  {
  }

  /** On a function path both parsers look at what follows "/function/". */
  lemma OnFunctionPath(tail: string)
    ensures FindStringSubmatch("/function/" + tail) ==
            (match Captures(tail)
             case None => None
             case Some((name, path)) => Some(Submatch(Route(true, false), name, path)))
  {
    FunctionRoute();
    OnRoute(Route(true, false), tail);
  }

  lemma TrimOfName(name: string)
    requires '/' !in name
    ensures Trim(name, '/') == name
  {
  }

  /**
   The service name is what stands between "/function/" and the next '/' or '?', for every URL;
   other URLs have none, and a path that is not matched goes through `Transform` untouched.
   */
  lemma ServiceNameIsSpan(url: string)
    ensures GetServiceName(url) ==
            (if "/function/" <= url then url[10..][..Span(url[10..], {'/', '?'})] else "")
    ensures FindStringSubmatch(url).None? ==> Transform(url) == url
  {
    if "/function/" <= url {
      var tail := url[10..];
      assert url == "/function/" + tail;
      OnFunctionPath(tail);
      TrimOfName(tail[..Span(tail, {'/', '?'})]);
    }
  }

  lemma NameOf(tail: string)
    requires Captures(tail).Some?
    ensures GetServiceName("/function/" + tail) == Captures(tail).value.0
  {
    OnFunctionPath(tail);
    CapturesMatch(tail);
    TrimOfName(Captures(tail).value.0);
  }

  lemma PathOf(r: Route, tail: string)
    requires Captures(tail).Some?
    ensures Transform(r.Text() + tail) == Captures(tail).value.1
  {
    OnRoute(r, tail);
  }

  /** The name of a function path comes back, whatever path and query follow it. */
  lemma NameRoundTrip(name: string, rest: string, query: string)
    requires name != "" && NameChars(name) && IsRest(rest) && IsQuery(query)
    ensures GetServiceName("/function/" + (name + (rest + query))) == name
  {
    CapturesOfParts(name, rest, query);
    NameOf(name + (rest + query));
  }

  /** The four ways that a function path can start. */
  lemma RouteTexts(r: Route)
    ensures r.Text() == match (r.slash, r.async)
                        case (true, false) => "/function/"
                        case (true, true) => "/async-function/"
                        case (false, false) => "function/"
                        case (false, true) => "async-function/"
  {
  }

  /** `Transform` leaves the rest of a function path, however it starts. */
  lemma RestRoundTrip(r: Route, name: string, rest: string)
    requires name != "" && NameChars(name) && IsRest(rest)
    ensures Transform(r.Text() + (name + rest)) == rest
  {
    CapturesOfParts(name, rest, "");
    assert rest + "" == rest;
    PathOf(r, name + rest);
  }

  /** The part of a string before its first '?'. */
  function BeforeQuery(s: string): string {
    s[..Span(s, {'?'})]
  }

  lemma CutTwice(s: string, n: nat, m: nat)
    requires n + m <= |s|
    ensures s == (s[..n] + s[n..][..m]) + s[n..][m..]
  {
  }

  lemma NotInEither(a: string, b: string, c: char)
    requires (forall i :: 0 <= i < |a| ==> a[i] != c) && (forall i :: 0 <= i < |b| ==> b[i] != c)
    ensures forall i :: 0 <= i < |a + b| ==> (a + b)[i] != c
  {
  }

  /** What is left of a string after its captures starts with '?'. */
  lemma CapturesRest(tail: string) returns (query: string)
    requires Captures(tail).Some?
    ensures var (name, path) := Captures(tail).value;
            && tail == (name + path) + query && IsQuery(query)
            && forall i :: 0 <= i < |name + path| ==> (name + path)[i] != '?'
  {
    var n := Span(tail, {'/', '?'});
    var rest := tail[n..];
    var m := Span(rest, {'?'});
    query := rest[m..];
    CutTwice(tail, n, m);
    NotInEither(tail[..n], rest[..m], '?');
  }

  lemma CapturesRebuild(tail: string)
    requires Captures(tail).Some?
    ensures Captures(tail).value.0 + Captures(tail).value.1 == BeforeQuery(tail)
  {
    var query := CapturesRest(tail);
    BeforeQueryOf(Captures(tail).value.0 + Captures(tail).value.1, query);
  }

  lemma BeforeQueryOf(path: string, query: string)
    requires IsQuery(query) && forall i :: 0 <= i < |path| ==> path[i] != '?'
    ensures BeforeQuery(path + query) == path
  {
    SpanOfParts(path, query, {'?'});
  }

  /**
   For every function path that the matcher accepts, name and rest rebuild it up to its first
   '?', hence the whole of it exactly when it has none; the rest is the same on every route.
   */
  lemma PiecesRebuildPath(r: Route, tail: string)
    requires Captures(tail).Some?
    ensures GetServiceName("/function/" + tail) + Transform(r.Text() + tail) == BeforeQuery(tail)
    ensures BeforeQuery(tail) == tail <==> '?' !in tail
  {
    NameOf(tail);
    PathOf(r, tail);
    CapturesRebuild(tail);
  }

  /**
   The base path built for a function parses back to it exactly when neither part has a '/' or
   a '?' and the namespace has no dot.
   */
  lemma BasePathRoundTrip(defaultNamespace: string, p: Pair)
    ensures GetNamespace(defaultNamespace, GetServiceName(BasePath(p))) == p
            <==> NameChars(p.name) && NameChars(p.namespace) && DotFree(p.namespace)
  {
    if NameChars(p.name) && NameChars(p.namespace) {
      CleanBasePath(p);
      JoinThenSplit(defaultNamespace, p);
    } else {
      NameOfBasePath(p);
      UncleanBasePath(defaultNamespace, p, GetServiceName(BasePath(p)));
    }
  }

  /** What the function itself sees of its base path. */
  lemma BasePathIsRoot(p: Pair)
    requires NameChars(p.name) && NameChars(p.namespace)
    ensures Transform(BasePath(p)) == "/"
  {
    var r := Route(true, false);
    NameCharsOfKey(p);
    FunctionRoute();
    RestRoundTrip(r, CacheKey(p), "/");
    assert r.Text() + (CacheKey(p) + "/") == BasePath(p);
  }

  lemma CleanBasePath(p: Pair)
    requires NameChars(p.name) && NameChars(p.namespace)
    ensures GetServiceName(BasePath(p)) == CacheKey(p)
  {
    var full := CacheKey(p);
    NameCharsOfKey(p);
    NameRoundTrip(full, "/", "");
    assert "/function/" + (full + ("/" + "")) == BasePath(p);
  }

  lemma NameOfBasePath(p: Pair)
    ensures GetServiceName(BasePath(p)) == (CacheKey(p) + "/")[..Span(CacheKey(p) + "/", {'/', '?'})]
  {
    var rest := CacheKey(p) + "/";
    assert BasePath(p) == "/function/" + rest;
    ServiceNameIsSpan(BasePath(p));
    assert BasePath(p)[10..] == rest;
  }

  lemma NameCharsOfKey(p: Pair)
    ensures NameChars(CacheKey(p)) <==> NameChars(p.name) && NameChars(p.namespace)
  {
    var full := CacheKey(p);
    assert forall c :: c in full <==> c in p.name || c == '.' || c in p.namespace;
  }

  lemma UncleanBasePath(defaultNamespace: string, p: Pair, name: string)
    requires name == (CacheKey(p) + "/")[..Span(CacheKey(p) + "/", {'/', '?'})]
    requires !(NameChars(p.name) && NameChars(p.namespace))
    ensures GetNamespace(defaultNamespace, name) != p
  {
    NameCharsOfKey(p);
    SplitThenJoin(defaultNamespace, name);
    // A name without a dot would be the whole of p.name, and end at the dot that joins it.
    assert (CacheKey(p) + "/")[|p.name|] == '.';
    assert NameChars(name);
  }
}
