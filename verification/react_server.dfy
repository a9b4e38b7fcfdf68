/** The React package's server `render(url, query)`: route lookup, data
    load, store `SETUP`, SSR-context bracket around the page render, the
    `<title>` head, store reset and the projection of the hydration
    payload. */
module ReactServer {
  import opened Wrappers
  import opened Strings
  import opened Queries
  import opened ItemSort
  import opened Catalog
  import opened RouteTemplate
  import opened ServerRouter
  import opened AppRoutes
  import opened Store
  import SsrContext
  import opened Prefetch

  /** The module-level state a request sees and leaves behind. */
  datatype Server = Server(store: State, ssr: SsrContext.Slot)

  /** What `renderToString` renders from: the page component, the store
      and the SSR context at that moment. */
  datatype View = View(page: Page, store: State, ssr: Option<SsrContext.Context>)

  /** `{ html, head, initialDataScript }`: the rendered view stands for
      `html`, and `initialData` for the script (`None` is ""). */
  datatype Output = Output(view: View, head: string, initialData: Option<State>)

  datatype Rendered = Rendered(out: Output, server: Server)

  const NotFoundHead: string := "<title>404 - Not Found</title>"
  const HomeTitle: string := "쇼핑몰 - 홈"

  /** `storeData`, the object `prefetchData` resolves to. */
  function StoreData(f: Fetched): (d: State)
    ensures f.HomeData? ==> d.products == Some(f.products) && d.totalCount == Some(f.totalCount)
                            && d.categories == Some(f.categories)
    ensures f.ProductData? ==> d.currentProduct == Some(f.product) && d.relatedProducts == Some(f.related)
    ensures d.error.Some? <==> f.ProductMissing?
    ensures d.query.None? && d.loading.None? && d.status.None?
  {
    match f
    case HomeData(ps, n, c) => Empty.(products := Some(ps), totalCount := Some(n), categories := Some(c))
    case ProductData(p, rel) => Empty.(currentProduct := Some(p), relatedProducts := Some(rel))
    case ProductMissing => Empty.(error := Some(Some("Product not found")))
    case NoData => Empty
  }

  /** `storeData.error` is truthy. */
  predicate HasError(d: State) {
    d.error.Some? && d.error.value.Some? && d.error.value.value != ""
  }

  /** The title `generateMetaTags` picks. */
  function Title(path: string, q: Query, d: State): (t: string)
    ensures path == ProductTemplate && d.currentProduct.Some? ==> t == d.currentProduct.value.item.title + " - 쇼핑몰"
    ensures path == HomeTemplate && Get(q, "search") != "" ==> t == Get(q, "search") + " 검색 결과"
    ensures path == HomeTemplate && Get(q, "search") == "" && Get(q, "category1") != "" ==>
              t == Trim(Get(q, "category1") + " " + Get(q, "category2"))
    ensures path == HomeTemplate && Get(q, "search") == "" && Get(q, "category1") == "" ==> t == HomeTitle
    ensures path != HomeTemplate && !(path == ProductTemplate && d.currentProduct.Some?) ==> t == HomeTitle
  {
    if path == ProductTemplate && d.currentProduct.Some? then d.currentProduct.value.item.title + " - 쇼핑몰"
    else if path == HomeTemplate then
      if Get(q, "search") != "" then Get(q, "search") + " 검색 결과"
      else if Get(q, "category1") != "" then Trim(Get(q, "category1") + " " + Get(q, "category2"))
      else HomeTitle
    else HomeTitle
  }

  /** On the home page a search term decides the title alone: the
      categories in the query do not matter. A category title carries no
      surrounding white space. */
  lemma TitleSearchWins(q: Query, q': Query, d: State)
    requires Get(q, "search") != "" && Get(q, "search") == Get(q', "search")
    ensures Title(HomeTemplate, q, d) == Title(HomeTemplate, q', d)
  {
  }

  lemma CategoryTitleTrimmed(q: Query, d: State)
    requires Get(q, "search") == "" && Get(q, "category1") != ""
    ensures var t := Title(HomeTemplate, q, d);
            |t| > 0 ==> !IsSpace(t[0]) && !IsSpace(t[|t| - 1])
  {
    var t := Trim(Get(q, "category1") + " " + Get(q, "category2"));
    assert Title(HomeTemplate, q, d) == t;
  }

  /** `generateMetaTags(routePath, query, data)` */
  function Head(path: string, q: Query, d: State): string {
    "<title>" + Title(path, q, d) + "</title>"
  }

  /** `initialData`: only what the page needs. The home payload has
      exactly `products`, `categories`, `totalCount` and `query`; the
      product payload exactly `currentProduct` and `relatedProducts`. */
  function InitialData(path: string, q: Query, d: State): (r: State)
    ensures path == HomeTemplate ==>
              r == Empty.(products := d.products, categories := d.categories, totalCount := d.totalCount, query := Some(q))
    ensures path == ProductTemplate ==>
              r == Empty.(currentProduct := d.currentProduct, relatedProducts := d.relatedProducts)
    ensures path != HomeTemplate && path != ProductTemplate ==> r == d
  {
    if path == HomeTemplate then
      Empty.(products := d.products, categories := d.categories, totalCount := d.totalCount, query := Some(q))
    else if path == ProductTemplate then
      Empty.(currentProduct := d.currentProduct, relatedProducts := d.relatedProducts)
    else d
  }

  /** The 404 answer: the state is left as it was. */
  function NotFound(s: Server): Rendered {
    Rendered(Output(View(NotFoundPage, s.store, SsrContext.Get(s.ssr)), NotFoundHead, None), s)
  }

  /** `render(url, query = {})` with the mock items and the unseen
      `initialProductState` as parameters. A 404 (no route, or a missing
      product) leaves the store and the SSR context untouched and ships no
      payload. Otherwise the page renders against
      `{ ...initialProductState, ...storeData }` with the context holding
      the request's query and params, and afterwards the store is back to
      `initialProductState` and the context is `null`. */
  function Render(items: seq<Item>, init: State, s: Server, url: string, query: Option<Query>): (r: Rendered)
    ensures r == NotFound(s) ||
              (&& r.server == Server(init, SsrContext.Slot(None))
               && r.out.initialData.Some?
               && r.out.view.ssr.Some?
               && r.out.view.ssr.value.query == query.GetOr([]))
  {
    var q := query.GetOr([]);
    match MatchRoute(ServerRoutes(), url, Some(q))
    case None => NotFound(s)
    case Some(ri) =>
      var d := StoreData(Load(items, ri.path, ri.params, q));
      if HasError(d) then NotFound(s) else RenderMatched(init, s, ri, d)
  }

  /** The steps after a successful load: `SETUP` with the spread, set the
      context, render, build the head, clear the context, reset the
      store, project the payload. */
  function RenderMatched(init: State, s: Server, ri: RouteMatch<Page>, d: State): (r: Rendered)
    ensures r.server == Server(init, SsrContext.Slot(None))
    ensures r.out.view == View(ri.handler, Merge(init, d), Some(SsrContext.Context(ri.query, ri.params)))
    ensures r.out.initialData == Some(InitialData(ri.path, ri.query, d))
  {
    var s1 := s.(store := Merge(init, d));
    var s2 := s1.(ssr := SsrContext.Set(s1.ssr, Some(SsrContext.Context(ri.query, ri.params))));
    var view := View(ri.handler, s2.store, SsrContext.Get(s2.ssr));
    var head := Head(ri.path, ri.query, d);
    var s3 := s2.(ssr := SsrContext.Clear(s2.ssr));
    var s4 := s3.(store := init);
    Rendered(Output(view, head, Some(InitialData(ri.path, ri.query, d))), s4)
  }

  /** `"/"` (query string ignored) renders the home page over the first
      page of the filtered list and the category tree, and ships exactly
      those with the query. */
  lemma RenderHome(items: seq<Item>, init: State, s: Server, url: string, query: Option<Query>)
    requires PathOf(url) == HomeTemplate
    ensures var q := query.GetOr([]);
            var h := LoadHome(items, q);
            var d := StoreData(h);
            var r := Render(items, init, s, url, query);
            && r.out.view == View(HomePage, Merge(init, d), Some(SsrContext.Context(q, map[])))
            && r.out.head == "<title>" + Title(HomeTemplate, q, d) + "</title>"
            && r.out.initialData == Some(Empty.(products := Some(h.products), categories := Some(h.categories),
                                                totalCount := Some(h.totalCount), query := Some(q)))
            && r.server == Server(init, SsrContext.Slot(None))
  {
    ServerRoutesMatch(url, Some(query.GetOr([])));
  }

  /** `/product/<id>/` with no item of that id is a 404 that changes
      nothing. */
  lemma RenderProductMissing(items: seq<Item>, init: State, s: Server, url: string, query: Option<Query>, id: string)
    requires Segment(id) && PathOf(url) == ProductUrl(id)
    requires forall i :: 0 <= i < |items| ==> items[i].productId != id
    ensures Render(items, init, s, url, query) == NotFound(s)
  {
    var q := query.GetOr([]);
    ServerRoutesMatchProduct(url, Some(q), id);
    assert LoadProduct(items, map["id" := id]).ProductMissing?;
  }

  /** `/product/<id>/` with an item of that id renders the detail page,
      titled after the product, and ships exactly the product and its
      related products. */
  lemma RenderProductFound(items: seq<Item>, init: State, s: Server, url: string, query: Option<Query>, id: string)
    requires Segment(id) && PathOf(url) == ProductUrl(id)
    requires MockGetProduct(items, id).Some?
    ensures var q := query.GetOr([]);
            var p := MockGetProduct(items, id).value;
            var d := Empty.(currentProduct := Some(p),
                            relatedProducts := Some(MockGetRelatedProducts(items, p.item.category1, p.item.category2, id, 20)));
            var r := Render(items, init, s, url, query);
            && r.out.view == View(ProductDetailPage, Merge(init, d), Some(SsrContext.Context(q, map["id" := id])))
            && r.out.head == "<title>" + (p.item.title + " - 쇼핑몰") + "</title>"
            && r.out.initialData == Some(d)
            && r.server == Server(init, SsrContext.Slot(None))
  {
    var q := query.GetOr([]);
    ServerRoutesMatchProduct(url, Some(q), id);
    var ri := RouteMatch(ProductTemplate, map["id" := id], ProductDetailPage, q);
    assert MatchRoute(ServerRoutes(), url, Some(q)) == Some(ri);
    var p := MockGetProduct(items, id).value;
    var rel := MockGetRelatedProducts(items, p.item.category1, p.item.category2, id, 20);
    var f := Load(items, ri.path, ri.params, q);
    LoadProductFound(items, id, q);
    var d := StoreData(f);
    assert d == Empty.(currentProduct := Some(p), relatedProducts := Some(rel));
    assert !HasError(d);
    var r := Render(items, init, s, url, query);
    assert r == RenderMatched(init, s, ri, d);
    assert r.out.head == "<title>" + (p.item.title + " - 쇼핑몰") + "</title>";
    assert InitialData(ri.path, ri.query, d) == d;
  }

  /** Every other path is a 404 that changes nothing. */
  lemma RenderUnmatched(items: seq<Item>, init: State, s: Server, url: string, query: Option<Query>)
    requires PathOf(url) != HomeTemplate && forall id :: Segment(id) ==> PathOf(url) != ProductUrl(id)
    ensures Render(items, init, s, url, query) == NotFound(s)
    ensures NotFound(s).out.head == NotFoundHead && NotFound(s).out.initialData.None?
  {
    ServerRoutesMatch(url, Some(query.GetOr([])));
  }
}
