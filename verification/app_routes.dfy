/** The two routes both server renderers register, `"/"` then
    `"/product/:id/"`, and what the resulting router answers. */
module AppRoutes {
  import opened Wrappers
  import opened RouteTemplate
  import opened Queries
  import opened ServerRouter

  /** The page components a route can name. */
  datatype Page = HomePage | ProductDetailPage | NotFoundPage

  const HomeTemplate: string := "/"
  const ProductTemplate: string := "/product/:id/"

  /** The URL of a product page. */
  function ProductUrl(id: string): string {
    "/product/" + id + "/"
  }

  const ProductTokens: seq<Token> := Literal("/product/") + [Param("id"), Lit('/')]

  /** `new ServerRouter("")` followed by the two `addRoute` calls of `render`. */
  function ServerRoutes(): (r: Router<Page>)
    ensures Valid(r)
  {
    AddRoute(AddRoute(NewRouter(""), HomeTemplate, HomePage), ProductTemplate, ProductDetailPage)
  }

  lemma ColonIdTokens()
    ensures Compile(":id/") == [Param("id"), Lit('/')]
  {
    var t := ":id/";
    assert t[1..] == "id" + "/";
    WordRunPrefix("id", "/");
    assert t[1..1 + 2] == "id" && t[1 + 2..] == "/";
    assert Compile("/") == [Lit('/')];
  }

  lemma ProductTemplateTokens()
    ensures Compile(ProductTemplate) == ProductTokens
    ensures ParamNames(ProductTokens) == ["id"]
    ensures SegmentParams(ProductTokens)
  {
    assert ProductTemplate == "/product/" + ":id/";
    CompileLiteralPrefix("/product/", ":id/");
    ColonIdTokens();
    ProductTokensFacts();
  }

  lemma ProductTokensFacts()
    ensures ParamNames(ProductTokens) == ["id"]
    ensures SegmentParams(ProductTokens)
  {
    var tail := [Param("id"), Lit('/')];
    InstantiateLiteral("/product/", tail, ["x"]);
    assert ParamNames(tail[1..]) == [];
    assert ParamNames(tail) == ["id"];
    var lit := Literal("/product/");
    var toks := ProductTokens;
    assert |lit| == 9;
    assert toks == lit + tail;
    assert forall i :: 0 <= i < 9 ==> toks[i] == lit[i];
    assert toks[10] == Lit('/');
  }

  lemma ServerRoutesShape()
    ensures |ServerRoutes().routes| == 2
    ensures ServerRoutes().routes[0] == Route(HomeTemplate, [Lit('/')], [], HomePage)
    ensures ServerRoutes().routes[1] == Route(ProductTemplate, ProductTokens, ["id"], ProductDetailPage)
  {
    var r0: Router<Page> := NewRouter("");
    assert r0 == Router("", []);
    var home := Compiled("", HomeTemplate, HomePage);
    HomeCompiled();
    AddFreshRoute(r0, HomeTemplate, HomePage);
    var r1 := AddRoute(r0, HomeTemplate, HomePage);
    assert r1 == Router("", [home]);
    var product := Compiled("", ProductTemplate, ProductDetailPage);
    ProductCompiled();
    assert IndexOfTemplate(r1.routes, ProductTemplate) == None;
    AddFreshRoute(r1, ProductTemplate, ProductDetailPage);
  }

  lemma HomeCompiled()
    ensures Compiled("", HomeTemplate, HomePage) == Route(HomeTemplate, [Lit('/')], [], HomePage)
  {
    assert Literal("") == [];
    assert Compile(HomeTemplate) == [Lit('/')];
  }

  lemma ProductCompiled()
    ensures Compiled("", ProductTemplate, ProductDetailPage) == Route(ProductTemplate, ProductTokens, ["id"], ProductDetailPage)
  {
    assert Literal("") == [];
    ProductTemplateTokens();
    assert Literal("") + ProductTokens == ProductTokens;
  }

  lemma AddFreshRoute<H>(r: Router<H>, path: string, h: H)
    requires IndexOfTemplate(r.routes, path) == None
    ensures AddRoute(r, path, h) == r.(routes := r.routes + [Compiled(r.baseUrl, path, h)])
  {
  }

  /** Which paths the product route accepts, and with which capture. */
  lemma ProductAccepts(p: string, caps: seq<string>)
    ensures Accepts(ProductTokens, p, caps) <==> |caps| == 1 && Segment(caps[0]) && p == ProductUrl(caps[0])
  {
    ProductTemplateTokens();
    if |caps| == 1 {
      var tail := [Param("id"), Lit('/')];
      InstantiateLiteral("/product/", tail, caps);
      assert Instantiate(tail[1..], caps[1..]) == "/";
      assert Instantiate(tail, caps) == caps[0] + "/";
      assert Segments(caps) <==> Segment(caps[0]);
    }
  }

  /** `render`'s route lookup: `"/"` is the home page, `/product/<id>/`
      with a non-empty, `/`-free id is the detail page with `{id}`, and
      every other path (the query string ignored) has no match. */
  lemma ServerRoutesMatch(url: string, q: Option<Query>)
    ensures PathOf(url) == HomeTemplate ==>
              MatchRoute(ServerRoutes(), url, q) == Some(RouteMatch(HomeTemplate, map[], HomePage, q.GetOr([])))
    ensures forall id :: Segment(id) && PathOf(url) == ProductUrl(id) ==>
              MatchRoute(ServerRoutes(), url, q) ==
                Some(RouteMatch(ProductTemplate, map["id" := id], ProductDetailPage, q.GetOr([])))
    ensures PathOf(url) != HomeTemplate && (forall id :: Segment(id) ==> PathOf(url) != ProductUrl(id)) ==>
              MatchRoute(ServerRoutes(), url, q) == None
  {
    if PathOf(url) == HomeTemplate {
      ServerRoutesMatchHome(url, q);
    }
    forall id | Segment(id) && PathOf(url) == ProductUrl(id)
      ensures MatchRoute(ServerRoutes(), url, q) ==
                Some(RouteMatch(ProductTemplate, map["id" := id], ProductDetailPage, q.GetOr([])))
    {
      ServerRoutesMatchProduct(url, q, id);
    }
    if PathOf(url) != HomeTemplate && (forall id :: Segment(id) ==> PathOf(url) != ProductUrl(id)) {
      ServerRoutesMatchNone(url, q);
    }
  }

  lemma ServerRoutesMatchHome(url: string, q: Option<Query>)
    requires PathOf(url) == HomeTemplate
    ensures MatchRoute(ServerRoutes(), url, q) == Some(RouteMatch(HomeTemplate, map[], HomePage, q.GetOr([])))
  {
    ServerRoutesShape();
    SegmentParamsHome();
    HomeAccepts(PathOf(url), []);
    MatchRouteFirstAccepting(ServerRoutes(), url, q, 0, []);
    assert PairParams([], []) == map[];
  }

  lemma ServerRoutesMatchNone(url: string, q: Option<Query>)
    requires PathOf(url) != HomeTemplate && forall id :: Segment(id) ==> PathOf(url) != ProductUrl(id)
    ensures MatchRoute(ServerRoutes(), url, q) == None
  {
    var r := ServerRoutes();
    var p := PathOf(url);
    ServerRoutesShape();
    forall j, c | 0 <= j < 2 ensures !Accepts(r.routes[j].tokens, p, c) {
      if j == 0 { HomeAccepts(p, c); } else { ProductAccepts(p, c); }
    }
    MatchRouteNoneWhenNoneAccepts(r, url, q);
  }

  lemma ServerRoutesMatchProduct(url: string, q: Option<Query>, id: string)
    requires Segment(id) && PathOf(url) == ProductUrl(id)
    ensures MatchRoute(ServerRoutes(), url, q) ==
              Some(RouteMatch(ProductTemplate, map["id" := id], ProductDetailPage, q.GetOr([])))
  {
    var r := ServerRoutes();
    var p := PathOf(url);
    ServerRoutesShape();
    ProductTemplateTokens();
    ProductAccepts(p, [id]);
    forall j, c | 0 <= j < 1 ensures !Accepts(r.routes[j].tokens, p, c) {
      HomeAccepts(p, c);
      assert |ProductUrl(id)| > 1;
    }
    MatchRouteFirstAccepting(r, url, q, 1, [id]);
    assert PairParams(["id"], [id]) == map["id" := id];
  }

  lemma SegmentParamsHome()
    ensures SegmentParams([Lit('/')])
  {
  }

  lemma HomeAccepts(p: string, c: seq<string>)
    ensures Accepts([Lit('/')], p, c) <==> p == "/" && c == []
  {
    assert ParamCount([Lit('/')]) == 0;
    if |c| == 0 {
      assert Instantiate([Lit('/')], c) == "/";
    }
  }

  /** The examples: `/product/42/` gives `{id: "42"}`; an empty id or a
      missing final slash does not match. */
  lemma ProductExamples(q: Option<Query>)
    ensures MatchRoute(ServerRoutes(), "/product/42/", q) ==
              Some(RouteMatch(ProductTemplate, map["id" := "42"], ProductDetailPage, q.GetOr([])))
    ensures MatchRoute(ServerRoutes(), "/product//", q) == None
    ensures MatchRoute(ServerRoutes(), "/product/42", q) == None
  {
    ProductFortyTwo(q);
    EmptyIdRejected(q);
    MissingSlashRejected(q);
  }

  lemma ProductFortyTwo(q: Option<Query>)
    ensures MatchRoute(ServerRoutes(), "/product/42/", q) ==
              Some(RouteMatch(ProductTemplate, map["id" := "42"], ProductDetailPage, q.GetOr([])))
  {
    assert ProductUrl("42") == "/product/42/";
    ProductPlain("42", q);
  }

  /** A product URL carries no `?` of its own when its id has none. */
  lemma ProductUrlPath(id: string)
    requires '?' !in id
    ensures PathOf(ProductUrl(id)) == ProductUrl(id)
  {
    var url := ProductUrl(id);
    assert url == "/product/" + id + "/";
    assert forall k :: 0 <= k < |url| ==> url[k] == '/' || url[k] in "product" || url[k] in id;
    assert url[..|url|] == url;
    PathOfCut(url, |url|);
  }

  lemma ProductUrlQueryPath(id: string, rest: string)
    requires '?' !in id
    ensures PathOf(ProductUrl(id) + "?" + rest) == ProductUrl(id)
  {
    var u := ProductUrl(id);
    var url := u + "?" + rest;
    ProductUrlPath(id);
    assert url[..|u|] == u;
    PathOfCut(url, |u|);
  }

  /** A product URL without a query string matches with its id. */
  lemma ProductPlain(id: string, q: Option<Query>)
    requires Segment(id) && '?' !in id
    ensures MatchRoute(ServerRoutes(), ProductUrl(id), q) ==
              Some(RouteMatch(ProductTemplate, map["id" := id], ProductDetailPage, q.GetOr([])))
  {
    ProductUrlPath(id);
    ServerRoutesMatchProduct(ProductUrl(id), q, id);
  }

  /** A query string after the product URL changes nothing. */
  lemma ProductWithQueryString(id: string, rest: string, q: Option<Query>)
    requires Segment(id) && '?' !in id
    ensures MatchRoute(ServerRoutes(), ProductUrl(id) + "?" + rest, q) ==
              Some(RouteMatch(ProductTemplate, map["id" := id], ProductDetailPage, q.GetOr([])))
  {
    ProductUrlQueryPath(id, rest);
    ServerRoutesMatchProduct(ProductUrl(id) + "?" + rest, q, id);
  }

  /** `/product//` is neither the home path nor a product URL: its id
      would be empty. */
  lemma EmptyIdPath()
    ensures PathOf("/product//") == "/product//"
    ensures forall id :: Segment(id) ==> "/product//" != ProductUrl(id)
  {
    var u := "/product//";
    assert '?' !in u;
    assert u[..|u|] == u;
    PathOfCut(u, |u|);
    forall id | Segment(id) ensures u != ProductUrl(id) {
      assert |ProductUrl(id)| == 10 + |id|;
    }
  }

  /** `/product/42` is neither the home path nor a product URL: the final
      `/` is missing. */
  lemma MissingSlashPath()
    ensures PathOf("/product/42") == "/product/42"
    ensures forall id :: Segment(id) ==> "/product/42" != ProductUrl(id)
  {
    var w := "/product/42";
    assert '?' !in w;
    assert w[..|w|] == w;
    PathOfCut(w, |w|);
    forall id | Segment(id) ensures w != ProductUrl(id) {
      var v := ProductUrl(id);
      assert v[|v| - 1] == '/';
      assert w[|w| - 1] == '2';
    }
  }

  lemma EmptyIdRejected(q: Option<Query>)
    ensures MatchRoute(ServerRoutes(), "/product//", q) == None
  {
    EmptyIdPath();
    ServerRoutesMatchNone("/product//", q);
  }

  lemma MissingSlashRejected(q: Option<Query>)
    ensures MatchRoute(ServerRoutes(), "/product/42", q) == None
  {
    MissingSlashPath();
    ServerRoutesMatchNone("/product/42", q);
  }
}
