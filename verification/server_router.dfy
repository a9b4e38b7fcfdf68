/** `ServerRouter`: the per-request route table. Routes live in a `Map`
    keyed by template string, so lookup follows insertion order and
    re-adding a template replaces its entry in place. */
module ServerRouter {
  import opened Wrappers
  import opened RouteTemplate
  import opened Queries
  import Strings

  type Params = map<string, string>

  /** One compiled entry: the regex (as tokens, base prefix included),
      the ordered parameter names and the handler. */
  datatype Route<H> = Route(template: string, tokens: seq<Token>, paramNames: seq<string>, handler: H)

  datatype Router<H> = Router(baseUrl: string, routes: seq<Route<H>>)

  /** The value `matchRoute` returns on success. */
  datatype RouteMatch<H> = RouteMatch(path: string, params: Params, handler: H, query: Query)

  /** `baseUrl.replace(/\/$/, "")`: drops one trailing `/`, if any. */
  function StripTrailingSlash(s: string): (r: string)
    ensures s == r + "/" || (r == s && (|s| == 0 || s[|s| - 1] != '/'))
  {
    if |s| > 0 && s[|s| - 1] == '/' then s[..|s| - 1] else s
  }

  function NewRouter<H>(baseUrl: string): (r: Router<H>)
    ensures r.routes == []
    ensures baseUrl == r.baseUrl + "/" || (r.baseUrl == baseUrl && (|baseUrl| == 0 || baseUrl[|baseUrl| - 1] != '/'))
  {
    Router(StripTrailingSlash(baseUrl), [])
  }

  function Templates<H>(routes: seq<Route<H>>): (ts: seq<string>)
    ensures |ts| == |routes|
    ensures forall i :: 0 <= i < |routes| ==> ts[i] == routes[i].template
  {
    if |routes| == 0 then [] else [routes[0].template] + Templates(routes[1..])
  }

  /** The entry `addRoute(path, handler)` builds. */
  function Compiled<H>(baseUrl: string, path: string, handler: H): Route<H> {
    Route(path, Literal(baseUrl) + Compile(path), ParamNames(Compile(path)), handler)
  }

  /** The invariant every router built by `NewRouter` and `AddRoute`
      keeps: keys are distinct and each entry is its template compiled
      under the router's base. */
  ghost predicate Valid<H>(r: Router<H>) {
    && (forall i, j :: 0 <= i < j < |r.routes| ==> r.routes[i].template != r.routes[j].template)
    && (forall i :: 0 <= i < |r.routes| ==>
          r.routes[i] == Compiled(r.baseUrl, r.routes[i].template, r.routes[i].handler))
  }

  function IndexOfTemplate<H>(routes: seq<Route<H>>, path: string): (r: Option<nat>)
    ensures r.Some? ==> r.value < |routes| && routes[r.value].template == path
    ensures r.None? ==> forall i :: 0 <= i < |routes| ==> routes[i].template != path
  {
    if |routes| == 0 then None
    else if routes[0].template == path then Some(0)
    else match IndexOfTemplate(routes[1..], path)
      case None => None
      case Some(k) => Some(k + 1)
  }

  /** `addRoute(path, handler)` */
  function AddRoute<H>(r: Router<H>, path: string, handler: H): (r': Router<H>)
    ensures r'.baseUrl == r.baseUrl
    ensures Valid(r) ==> Valid(r')
    ensures Templates(r'.routes) ==
              if path in Templates(r.routes) then Templates(r.routes) else Templates(r.routes) + [path]
    ensures Valid(r) ==> forall i :: 0 <= i < |r'.routes| && r'.routes[i].template == path ==>
              r'.routes[i] == Compiled(r.baseUrl, path, handler)
    ensures forall i :: 0 <= i < |r.routes| && r.routes[i].template != path ==>
              r'.routes[i] == r.routes[i]
  {
    var entry := Compiled(r.baseUrl, path, handler);
    match IndexOfTemplate(r.routes, path)
    case Some(i) =>
      ReplaceKeepsValid(r, i, entry);
      TemplatesReplace(r.routes, i, entry);
      assert Templates(r.routes)[i] == path;
      r.(routes := r.routes[i := entry])
    case None =>
      AppendKeepsValid(r, entry);
      TemplatesAppend(r.routes, entry);
      r.(routes := r.routes + [entry])
  }

  lemma TemplatesReplace<H>(routes: seq<Route<H>>, i: nat, entry: Route<H>)
    requires i < |routes| && entry.template == routes[i].template
    ensures Templates(routes[i := entry]) == Templates(routes)
  {
    assert forall k :: 0 <= k < |routes| ==> Templates(routes[i := entry])[k] == Templates(routes)[k];
  }

  lemma TemplatesAppend<H>(routes: seq<Route<H>>, entry: Route<H>)
    ensures Templates(routes + [entry]) == Templates(routes) + [entry.template]
  {
    var t := Templates(routes + [entry]);
    assert forall k :: 0 <= k < |t| ==> t[k] == (Templates(routes) + [entry.template])[k];
  }

  lemma ReplaceKeepsValid<H>(r: Router<H>, i: nat, entry: Route<H>)
    requires i < |r.routes| && entry.template == r.routes[i].template
    requires entry == Compiled(r.baseUrl, entry.template, entry.handler)
    ensures Valid(r) ==> Valid(r.(routes := r.routes[i := entry]))
  {
    var rs := r.routes[i := entry];
    assert forall k :: 0 <= k < |rs| ==> rs[k].template == r.routes[k].template;
  }

  lemma AppendKeepsValid<H>(r: Router<H>, entry: Route<H>)
    requires forall k :: 0 <= k < |r.routes| ==> r.routes[k].template != entry.template
    requires entry == Compiled(r.baseUrl, entry.template, entry.handler)
    ensures Valid(r) ==> Valid(r.(routes := r.routes + [entry]))
  {
  }

  /** `url.includes("?") ? url.split("?")[0] : url` */
  function PathOf(url: string): (p: string)
    ensures Strings.StartsWith(url, p) && '?' !in p
    ensures |p| < |url| ==> url[|p|] == '?'
  {
    if |url| == 0 || url[0] == '?' then ""
    else
      var rest := PathOf(url[1..]);
      assert url[..1 + |rest|] == [url[0]] + url[1..][..|rest|];
      [url[0]] + rest
  }

  /** Only the part before the first `?` is matched: cutting `url` at its
      first `?` (or at its end) gives the path. */
  lemma PathOfCut(url: string, k: nat)
    requires k <= |url| && '?' !in url[..k]
    requires k == |url| || url[k] == '?'
    ensures PathOf(url) == url[..k]
  {
  }

  /** No later entry repeats `names[i]`. */
  predicate LastOccurrence(names: seq<string>, i: int) {
    0 <= i < |names| && forall j :: i < j < |names| ==> names[j] != names[i]
  }

  /** The loop over `paramNames`: `params[name] = match[index + 1]`; a
      repeated name keeps the value of its last group. */
  function PairParams(names: seq<string>, caps: seq<string>): (p: Params)
    requires |names| == |caps|
    ensures forall x :: x in p <==> x in names
    ensures forall i :: LastOccurrence(names, i) ==> names[i] in p && p[names[i]] == caps[i]
  {
    if |names| == 0 then map[]
    else
      var n := |names| - 1;
      var p := PairParams(names[..n], caps[..n]);
      PairParamsStep(names, caps, p);
      p[names[n] := caps[n]]
  }

  /** One more iteration of the loop: the last name takes the last
      capture, and every earlier name not repeated later keeps its own. */
  lemma PairParamsStep(names: seq<string>, caps: seq<string>, p: Params)
    requires |names| == |caps| > 0
    requires forall y :: y in p <==> y in names[..|names| - 1]
    requires forall i :: LastOccurrence(names[..|names| - 1], i) ==> p[names[i]] == caps[i]
    ensures var p' := p[names[|names| - 1] := caps[|names| - 1]];
            && (forall y :: y in p' <==> y in names)
            && (forall i :: LastOccurrence(names, i) ==> names[i] in p' && p'[names[i]] == caps[i])
  {
    var n := |names| - 1;
    var ns := names[..n];
    var p' := p[names[n] := caps[n]];
    assert names == ns + [names[n]];
    forall i | LastOccurrence(names, i)
      ensures names[i] in p' && p'[names[i]] == caps[i]
    {
      if i < n {
        assert ns[i] == names[i];
        assert LastOccurrence(ns, i);
      }
    }
  }

  /** Route `k` is the first whose regex accepts `pathname`. */
  predicate FirstMatchAt<H>(routes: seq<Route<H>>, pathname: string, k: int) {
    && 0 <= k < |routes|
    && MatchTokens(routes[k].tokens, pathname).Some?
    && forall j :: 0 <= j < k ==> MatchTokens(routes[j].tokens, pathname).None?
  }

  /** The `for … of this.#routes` loop: the index of the first route that
      matches, with its captures. */
  function FindRoute<H>(routes: seq<Route<H>>, pathname: string): (r: Option<(nat, seq<string>)>)
    ensures r.Some? ==> FirstMatchAt(routes, pathname, r.value.0)
                        && MatchTokens(routes[r.value.0].tokens, pathname) == Some(r.value.1)
    ensures r.None? ==> forall k :: 0 <= k < |routes| ==> MatchTokens(routes[k].tokens, pathname).None?
  {
    if |routes| == 0 then None
    else match MatchTokens(routes[0].tokens, pathname)
      case Some(caps) => Some((0, caps))
      case None =>
        match FindRoute(routes[1..], pathname)
        case None => None
        case Some((k, caps)) =>
          assert forall j :: 1 <= j < k + 1 ==> routes[j] == routes[1..][j - 1];
          Some((k + 1, caps))
  }

  lemma {:induction false} ParamNamesLiteral(s: string, toks: seq<Token>)
    ensures ParamNames(Literal(s) + toks) == ParamNames(toks)
  {
    if |s| > 0 {
      var x := Literal(s) + toks;
      assert x[0] == Lit(s[0]);
      assert ParamNames(x) == ParamNames(x[1..]);
      assert Literal(s)[1..] == Literal(s[1..]);
      assert (Literal(s) + toks)[1..] == Literal(s[1..]) + toks;
      ParamNamesLiteral(s[1..], toks);
    } else {
      assert Literal(s) + toks == toks;
    }
  }

  /** `matchRoute(url, query)`: the first route, in insertion order, whose
      regex (run by `MatchTokens`) accepts the part of `url` before the first `?`; its template,
      its handler, its parameters paired with the captures, and the given
      query or `{}`. `None` when no route accepts. */
  function MatchRoute<H>(r: Router<H>, url: string, query: Option<Query>): (m: Option<RouteMatch<H>>)
    requires Valid(r)
    ensures m.None? <==> forall k :: 0 <= k < |r.routes| ==> MatchTokens(r.routes[k].tokens, PathOf(url)).None?
    ensures m.Some? ==>
              exists k :: FirstMatchAt(r.routes, PathOf(url), k)
                          && m.value.path == r.routes[k].template
                          && m.value.handler == r.routes[k].handler
                          && |r.routes[k].paramNames| == |MatchTokens(r.routes[k].tokens, PathOf(url)).value|
                          && m.value.params == PairParams(r.routes[k].paramNames, MatchTokens(r.routes[k].tokens, PathOf(url)).value)
    ensures m.Some? ==> m.value.query == query.GetOr([])
  {
    var pathname := PathOf(url);
    match FindRoute(r.routes, pathname)
    case None => None
    case Some((k, caps)) =>
      var route := r.routes[k];
      MatchTokensSound(route.tokens, pathname);
      ParamNamesLiteral(r.baseUrl, Compile(route.template));
      Some(RouteMatch(route.template, PairParams(route.paramNames, caps), route.handler, query.GetOr([])))
  }

  /** Stated against the regex itself: if route `k` accepts the path with
      captures `caps` and no earlier route accepts it at all, `matchRoute`
      returns route `k`. When route `k`'s parameters each fill a whole
      segment its captures are unique, so they are `caps`, paired to its
      names. */
  lemma MatchRouteFirstAccepting<H>(r: Router<H>, url: string, query: Option<Query>, k: nat, caps: seq<string>)
    requires Valid(r)
    requires k < |r.routes|
    requires Accepts(r.routes[k].tokens, PathOf(url), caps)
    requires forall j, c :: 0 <= j < k ==> !Accepts(r.routes[j].tokens, PathOf(url), c)
    ensures |r.routes[k].paramNames| == |caps|
    ensures var m := MatchRoute(r, url, query);
            && m.Some?
            && m.value.path == r.routes[k].template
            && m.value.handler == r.routes[k].handler
            && m.value.query == query.GetOr([])
    ensures SegmentParams(r.routes[k].tokens) ==>
              MatchRoute(r, url, query) ==
              Some(RouteMatch(r.routes[k].template, PairParams(r.routes[k].paramNames, caps),
                              r.routes[k].handler, query.GetOr([])))
  {
    var pathname := PathOf(url);
    MatchTokensFinds(r.routes[k].tokens, pathname, caps);
    if SegmentParams(r.routes[k].tokens) {
      MatchTokensComplete(r.routes[k].tokens, pathname, caps);
    }
    forall j | 0 <= j < k ensures MatchTokens(r.routes[j].tokens, pathname).None? {
      MatchTokensSound(r.routes[j].tokens, pathname);
    }
    assert FirstMatchAt(r.routes, pathname, k);
    ParamNamesLiteral(r.baseUrl, Compile(r.routes[k].template));
    var m := MatchRoute(r, url, query);
    var k' :| FirstMatchAt(r.routes, pathname, k')
              && m.value.path == r.routes[k'].template
              && m.value.handler == r.routes[k'].handler
              && m.value.params == PairParams(r.routes[k'].paramNames, MatchTokens(r.routes[k'].tokens, pathname).value);
    assert k' == k;
  }

  /** The result is `null` exactly when no route's regex accepts the path. */
  lemma MatchRouteNoneWhenNoneAccepts<H>(r: Router<H>, url: string, query: Option<Query>)
    requires Valid(r)
    ensures MatchRoute(r, url, query) == None <==> NoneAccepts(r.routes, PathOf(url))
  {
    var p := PathOf(url);
    if MatchRoute(r, url, query) == None {
      forall j, c | 0 <= j < |r.routes| ensures !Accepts(r.routes[j].tokens, p, c) {
        if Accepts(r.routes[j].tokens, p, c) {
          MatchTokensFinds(r.routes[j].tokens, p, c);
        }
      }
    } else {
      var k :| 0 <= k < |r.routes| && MatchTokens(r.routes[k].tokens, p).Some?;
      MatchTokensSound(r.routes[k].tokens, p);
      assert Accepts(r.routes[k].tokens, p, MatchTokens(r.routes[k].tokens, p).value);
    }
  }

  /** No route's regex accepts `pathname`, with any captures. */
  ghost predicate NoneAccepts<H>(routes: seq<Route<H>>, pathname: string) {
    forall j, c :: 0 <= j < |routes| ==> !Accepts(routes[j].tokens, pathname, c)
  }
}
