/** The vanilla package's server `render(url, query)`: the store is reset
    first, the loaders `SETUP` the store themselves (with the status
    fields), `global.router` is set only around the page call and the meta
    generation, and the payload is the whole store. */
module VanillaServer {
  import opened Wrappers
  import opened Strings
  import opened Queries
  import opened ItemSort
  import opened Catalog
  import opened RouteTemplate
  import opened ServerRouter
  import opened AppRoutes
  import opened Store
  import opened Prefetch

  /** The store and `global.router` (`None` when deleted). */
  datatype Server = Server(store: State, globalRouter: Option<Router<Page>>)

  /** What the page function sees when called: itself, the store and
      `global.router`. */
  datatype View = View(page: Page, store: State, globalRouter: Option<Router<Page>>)

  /** `{ html, head, initialDataScript }`; `initialData` `None` is "". */
  datatype Output = Output(view: View, head: string, initialData: Option<State>)

  datatype Rendered = Rendered(out: Output, server: Server)

  const NotFoundHead: string := "<title>404 - Not Found</title>"
  const HomeTitle: string := "쇼핑몰 - 홈"
  const DefaultDescription: string := "최고의 쇼핑 경험을 제공합니다."

  /** The `SETUP` payload a loader dispatches: its data with
      `loading: false`, `error: null`, `status: "done"`. */
  function Done(data: State): (p: State)
    ensures p.loading == Some(false) && p.error == Some(None) && p.status == Some("done")
    ensures p.products == data.products && p.totalCount == data.totalCount && p.categories == data.categories
    ensures p.currentProduct == data.currentProduct && p.relatedProducts == data.relatedProducts
  {
    data.(loading := Some(false), error := Some(None), status := Some("done"))
  }

  /** The store after `prefetchData`: home and product data replace it
      with their payload; a missing product or another route leaves it as
      it was. */
  function AfterPrefetch(store: State, f: Fetched): (r: State)
    ensures f.HomeData? ==>
              r == Done(Empty.(products := Some(f.products), totalCount := Some(f.totalCount), categories := Some(f.categories)))
    ensures f.ProductData? ==>
              r == Done(Empty.(currentProduct := Some(f.product), relatedProducts := Some(f.related)))
    ensures f.ProductMissing? || f.NoData? ==> r == store
  {
    match f
    case HomeData(ps, n, c) => Done(Empty.(products := Some(ps), totalCount := Some(n), categories := Some(c)))
    case ProductData(p, rel) => Done(Empty.(currentProduct := Some(p), relatedProducts := Some(rel)))
    case _ => store
  }

  /** The title and description `generateMetaTags` picks. */
  function Meta(path: string, q: Query, d: State): (m: (string, string))
    ensures path == ProductTemplate && d.currentProduct.Some? ==>
              var p := d.currentProduct.value;
              m == (p.item.title + " - 쇼핑몰",
                    if p.description != "" then p.description else p.item.brand + " " + p.item.title)
    ensures path == HomeTemplate && Get(q, "search") != "" ==>
              m == (Get(q, "search") + " 검색 결과 - 쇼핑몰", DefaultDescription)
    ensures path == HomeTemplate && Get(q, "search") == "" && Get(q, "category1") != "" ==>
              m == (Trim(Get(q, "category1") + " " + Get(q, "category2") + " - 쇼핑몰"), DefaultDescription)
    ensures path == HomeTemplate && Get(q, "search") == "" && Get(q, "category1") == "" ==>
              m == (HomeTitle, DefaultDescription)
    ensures path != HomeTemplate && !(path == ProductTemplate && d.currentProduct.Some?) ==>
              m == (HomeTitle, DefaultDescription)
  {
    if path == ProductTemplate && d.currentProduct.Some? then
      var p := d.currentProduct.value;
      (p.item.title + " - 쇼핑몰", if p.description != "" then p.description else p.item.brand + " " + p.item.title)
    else if path == HomeTemplate then
      if Get(q, "search") != "" then (Get(q, "search") + " 검색 결과 - 쇼핑몰", DefaultDescription)
      else if Get(q, "category1") != "" then
        (Trim(Get(q, "category1") + " " + Get(q, "category2") + " - 쇼핑몰"), DefaultDescription)
      else (HomeTitle, DefaultDescription)
    else (HomeTitle, DefaultDescription)
  }

  /** The four tags between the trimmed-away outer white space. */
  function Tags(t: string, d: string): (h: string)
    ensures |h| > 0 && h[0] == '<' && h[|h| - 1] == '>'
  {
    "<title>" + t + "</title>\n    <meta name=\"description\" content=\"" + d
    + "\">\n    <meta property=\"og:title\" content=\"" + t
    + "\">\n    <meta property=\"og:description\" content=\"" + d + "\">"
  }

  /** `generateMetaTags(routeInfo, query, data)`: the template literal,
      trimmed. */
  function Head(path: string, q: Query, d: State): string {
    var m := Meta(path, q, d);
    Trim("\n    " + Tags(m.0, m.1) + "\n  ")
  }

  lemma TrimStartSpaces(ws: string, x: string)
    requires forall i :: 0 <= i < |ws| ==> IsSpace(ws[i])
    requires |x| > 0 && !IsSpace(x[0])
    ensures TrimStart(ws + x) == x
  {
    if |ws| > 0 {
      assert (ws + x)[1..] == ws[1..] + x;
      TrimStartSpaces(ws[1..], x);
    }
  }

  lemma TrimEndSpaces(x: string, ws: string)
    requires forall i :: 0 <= i < |ws| ==> IsSpace(ws[i])
    requires |x| > 0 && !IsSpace(x[|x| - 1])
    ensures TrimEnd(x + ws) == x
  {
    if |ws| > 0 {
      assert (x + ws)[..|x + ws| - 1] == x + ws[..|ws| - 1];
      TrimEndSpaces(x, ws[..|ws| - 1]);
    }
  }

  lemma TrimOuter(x: string)
    requires |x| > 0 && x[0] == '<' && x[|x| - 1] == '>'
    ensures Trim("\n    " + x + "\n  ") == x
  {
    var pre, post := "\n    ", "\n  ";
    assert forall i :: 0 <= i < |pre| ==> IsSpace(pre[i]);
    assert forall i :: 0 <= i < |post| ==> IsSpace(post[i]);
    var xp := x + post;
    assert pre + x + post == pre + xp;
    TrimStartSpaces(pre, xp);
    TrimEndSpaces(x, post);
  }

  /** The trim only removes the template's outer line breaks: the head is
      exactly the four tags. */
  lemma HeadIsTags(path: string, q: Query, d: State)
    ensures var m := Meta(path, q, d);
            Head(path, q, d) == Tags(m.0, m.1)
  {
    var m := Meta(path, q, d);
    TrimOuter(Tags(m.0, m.1));
  }

  /** A product found by `mockGetProduct` always has its generated,
      non-empty description, so the `brand title` fallback never applies
      to it. */
  lemma ProductDescriptionUsed(items: seq<Item>, id: string, q: Query, d: State)
    requires MockGetProduct(items, id).Some? && d.currentProduct == MockGetProduct(items, id)
    ensures Meta(ProductTemplate, q, d).1 == Description(d.currentProduct.value.item)
  {
    var p := d.currentProduct.value;
    assert |Description(p.item)| >= |DescriptionEnd|;
  }

  /** With a `category1` and no `category2` the title keeps the two
      spaces between them: `trim` only works on the ends. */
  lemma CategoryTitleDoubleSpace(q: Query, d: State, c1: string)
    requires Get(q, "search") == "" && Get(q, "category1") == c1 && Get(q, "category2") == ""
    requires |c1| > 0 && !IsSpace(c1[0])
    ensures Meta(HomeTemplate, q, d).0 == c1 + "  - 쇼핑몰"
  {
    var s := c1 + " " + "" + " - 쇼핑몰";
    assert s == c1 + "  - 쇼핑몰";
    assert s[0] == c1[0] && s[|s| - 1] == '몰';
    TrimUnpadded(s);
  }

  /** A string with no white space at either end is its own trim. */
  lemma TrimUnpadded(s: string)
    requires |s| > 0 && !IsSpace(s[0]) && !IsSpace(s[|s| - 1])
    ensures Trim(s) == s
  {
    TrimStartSpaces("", s);
    TrimEndSpaces(s, "");
    assert s + "" == s && "" + s == s;
  }

  /** The 404 answer after the reset: the store is `initialProductState`
      and `global.router` is untouched. */
  function NotFound(init: State, s: Server): Rendered {
    Rendered(Output(View(NotFoundPage, init, s.globalRouter), NotFoundHead, None), s.(store := init))
  }

  /** `render(url, query = {})` with the mock items and the unseen
      `initialProductState` as parameters. */
  function Render(items: seq<Item>, init: State, s: Server, url: string, query: Option<Query>): (r: Rendered)
    ensures r == NotFound(init, s) ||
              (&& r.server.globalRouter.None?
               && r.out.view.globalRouter == Some(ServerRoutes())
               && r.out.initialData == Some(r.server.store)
               && r.out.view.store == r.server.store)
  {
    var q := query.GetOr([]);
    match MatchRoute(ServerRoutes(), url, Some(q))
    case None => NotFound(init, s)
    case Some(ri) =>
      var f := Load(items, ri.path, ri.params, q);
      if f.ProductMissing? then NotFound(init, s) else RenderMatched(init, s, ri, f)
  }

  /** The steps after a load that found something: the loader's `SETUP`
      over the reset store, `global.router` set, the page called, the store
      read, the meta built, `global.router` deleted, the store shipped. */
  function RenderMatched(init: State, s: Server, ri: RouteMatch<Page>, f: Fetched): (r: Rendered)
    ensures var store := AfterPrefetch(init, f);
            && r.server == Server(store, None)
            && r.out.view == View(ri.handler, store, Some(ServerRoutes()))
            && r.out.head == Head(ri.path, ri.query, store)
            && r.out.initialData == Some(store)
  {
    var s0 := s.(store := init);
    var s1 := s0.(store := AfterPrefetch(s0.store, f));
    var s2 := s1.(globalRouter := Some(ServerRoutes()));
    var view := View(ri.handler, s2.store, s2.globalRouter);
    var storeData := s2.store;
    var head := Head(ri.path, ri.query, storeData);
    var s3 := s2.(globalRouter := None);
    Rendered(Output(view, head, Some(storeData)), s3)
  }

  /** `"/"` renders the home page over the `SETUP` home payload and ships
      the whole store, which is that payload. */
  lemma RenderHome(items: seq<Item>, init: State, s: Server, url: string, query: Option<Query>)
    requires PathOf(url) == HomeTemplate
    ensures var q := query.GetOr([]);
            var h := LoadHome(items, q);
            var payload := Done(Empty.(products := Some(h.products), totalCount := Some(h.totalCount),
                                       categories := Some(h.categories)));
            var r := Render(items, init, s, url, query);
            && r.out.view == View(HomePage, payload, Some(ServerRoutes()))
            && r.out.head == Head(HomeTemplate, q, payload)
            && r.out.initialData == Some(payload)
            && r.server == Server(payload, None)
  {
    ServerRoutesMatch(url, Some(query.GetOr([])));
  }

  /** `/product/<id>/` with no item of that id: 404 with the store reset. */
  lemma RenderProductMissing(items: seq<Item>, init: State, s: Server, url: string, query: Option<Query>, id: string)
    requires Segment(id) && PathOf(url) == ProductUrl(id)
    requires forall i :: 0 <= i < |items| ==> items[i].productId != id
    ensures Render(items, init, s, url, query) == NotFound(init, s)
  {
    var q := query.GetOr([]);
    ServerRoutesMatchProduct(url, Some(q), id);
    assert LoadProduct(items, map["id" := id]).ProductMissing?;
  }

  /** `/product/<id>/` with an item of that id renders the detail page
      over the product payload, titled and described after the product. */
  lemma RenderProductFound(items: seq<Item>, init: State, s: Server, url: string, query: Option<Query>, id: string)
    requires Segment(id) && PathOf(url) == ProductUrl(id)
    requires MockGetProduct(items, id).Some?
    ensures var q := query.GetOr([]);
            var p := MockGetProduct(items, id).value;
            var payload := Done(Empty.(currentProduct := Some(p),
                                       relatedProducts := Some(MockGetRelatedProducts(items, p.item.category1, p.item.category2, id, 20))));
            var r := Render(items, init, s, url, query);
            && r.out.view == View(ProductDetailPage, payload, Some(ServerRoutes()))
            && r.out.head == Tags(p.item.title + " - 쇼핑몰", Description(p.item))
            && r.out.initialData == Some(payload)
            && r.server == Server(payload, None)
  {
    var q := query.GetOr([]);
    var p := MockGetProduct(items, id).value;
    var rel := MockGetRelatedProducts(items, p.item.category1, p.item.category2, id, 20);
    var ri := RouteMatch(ProductTemplate, map["id" := id], ProductDetailPage, q);
    ProductRouteRenders(items, init, s, url, query, id);
    var payload := Done(Empty.(currentProduct := Some(p), relatedProducts := Some(rel)));
    assert AfterPrefetch(init, ProductData(p, rel)) == payload;
    ProductHead(items, id, q, payload);
  }

  /** A found product takes the matched path of `Render`. */
  lemma ProductRouteRenders(items: seq<Item>, init: State, s: Server, url: string, query: Option<Query>, id: string)
    requires Segment(id) && PathOf(url) == ProductUrl(id)
    requires MockGetProduct(items, id).Some?
    ensures var p := MockGetProduct(items, id).value;
            Render(items, init, s, url, query)
            == RenderMatched(init, s, RouteMatch(ProductTemplate, map["id" := id], ProductDetailPage, query.GetOr([])),
                             ProductData(p, MockGetRelatedProducts(items, p.item.category1, p.item.category2, id, 20)))
  {
    var q := query.GetOr([]);
    ServerRoutesMatchProduct(url, Some(q), id);
    LoadProductFound(items, id, q);
  }

  /** The product page head: title and description of the product. */
  lemma ProductHead(items: seq<Item>, id: string, q: Query, d: State)
    requires MockGetProduct(items, id).Some? && d.currentProduct == MockGetProduct(items, id)
    ensures var p := d.currentProduct.value;
            Head(ProductTemplate, q, d) == Tags(p.item.title + " - 쇼핑몰", Description(p.item))
  {
    HeadIsTags(ProductTemplate, q, d);
    ProductDescriptionUsed(items, id, q, d);
  }

  /** Every other path: 404 with the store reset. */
  lemma RenderUnmatched(items: seq<Item>, init: State, s: Server, url: string, query: Option<Query>)
    requires PathOf(url) != HomeTemplate && forall id :: Segment(id) ==> PathOf(url) != ProductUrl(id)
    ensures Render(items, init, s, url, query) == NotFound(init, s)
    ensures NotFound(init, s).server.store == init && NotFound(init, s).out.initialData.None?
  {
    ServerRoutesMatch(url, Some(query.GetOr([])));
  }
}
