/** `prefetchData`'s data loading, shared by both renderers: the first
    page of the filtered product list with the category tree for `"/"`,
    the product with its related products for `"/product/:id/"`. */
module Prefetch {
  import opened Wrappers
  import opened Strings
  import opened Seqs
  import opened Numbers
  import opened Queries
  import opened ItemSort
  import opened Catalog
  import opened ServerRouter
  import opened AppRoutes

  /** What the loaders produced for a route. */
  datatype Fetched =
    | HomeData(products: seq<Item>, totalCount: nat, categories: Categories)
    | ProductData(product: Product, related: seq<Item>)
    | ProductMissing
    | NoData

  /** `parseInt(query.limit) || 20`: `NaN` and zero fall back to 20. */
  function LimitOf(q: Query): (limit: int)
    ensures limit != 0
    ensures ParseInt(Get(q, "limit")).None? ==> limit == 20
    ensures ParseInt(Get(q, "limit")).Some? ==>
              limit == if ParseInt(Get(q, "limit")).value == 0 then 20 else ParseInt(Get(q, "limit")).value
  {
    match ParseInt(Get(q, "limit"))
    case None => 20
    case Some(n) => if n == 0 then 20 else n
  }

  /** A limit written as a non-zero integer is read back as that integer;
      a missing one is 20. */
  lemma LimitOfDecimal(q: Query, n: int)
    ensures Get(q, "limit") == ToDecimal(n) && n != 0 ==> LimitOf(q) == n
    ensures Get(q, "limit") == "" ==> LimitOf(q) == 20
  {
    ParseIntToDecimal(n);
    ParseIntEmpty();
  }

  /** `x || fallback` on strings. */
  function OrElse(x: string, fallback: string): (r: string)
    ensures r != "" || fallback == ""
    ensures x != "" ==> r == x
  {
    if x != "" then x else fallback
  }

  /** The arguments of the home route's `mockGetProducts` call: the
      query's limit (or 20), its filters, its sort (or `price_asc`) and
      always page 1. */
  function HomeParams(q: Query): (p: GetProductsParams)
    ensures p.page == Some(1) && PageOf(p) == 1
    ensures p.limit == Some(LimitOf(q))
    ensures QueryOf(p) == ProductQuery(Get(q, "search"), Get(q, "category1"), Get(q, "category2"),
                                       OrElse(Get(q, "sort"), "price_asc"))
  {
    GetProductsParams(Some(LimitOf(q)), Some(Get(q, "search")), Some(Get(q, "category1")),
                      Some(Get(q, "category2")), Some(OrElse(Get(q, "sort"), "price_asc")), Some(1))
  }

  /** The filtered, sorted list the home route pages through. */
  function HomeList(items: seq<Item>, q: Query): seq<Item> {
    FilterProducts(items, QueryOf(HomeParams(q)))
  }

  /** The home route: page 1 of the list, which is its first `limit`
      items for a positive limit and all but its last `-limit` items for a
      negative one, with the total and the category tree. */
  function LoadHome(items: seq<Item>, q: Query): (r: Fetched)
    ensures r.HomeData?
    ensures r.totalCount == |HomeList(items, q)|
    ensures r.categories == GetUniqueCategories(items)
    ensures LimitOf(q) > 0 ==>
              r.products == HomeList(items, q)[..if LimitOf(q) < |HomeList(items, q)| then LimitOf(q) else |HomeList(items, q)|]
    ensures LimitOf(q) < 0 ==>
              r.products == HomeList(items, q)[..if |HomeList(items, q)| + LimitOf(q) < 0 then 0 else |HomeList(items, q)| + LimitOf(q)]
  {
    var p := HomeParams(q);
    var f := HomeList(items, q);
    var page := MockGetProducts(items, p);
    assert page == Paginate(f, 1, LimitOf(q));
    FirstPage(f, LimitOf(q));
    HomeData(page.products, page.pagination.total, GetUniqueCategories(items))
  }

  /** The product route: `ProductMissing` exactly when no item has the
      `id` parameter (or there is none); otherwise that item and its
      related products, at most 20. */
  function LoadProduct(items: seq<Item>, params: Params): (r: Fetched)
    ensures r.ProductData? || r.ProductMissing?
    ensures r.ProductMissing? <==> !("id" in params && exists i :: 0 <= i < |items| && items[i].productId == params["id"])
    ensures r.ProductData? ==>
              && "id" in params
              && r.product.item.productId == params["id"]
              && r.product.item in items
              && MockGetProduct(items, params["id"]) == Some(r.product)
              && r.related == MockGetRelatedProducts(items, r.product.item.category1, r.product.item.category2, params["id"], 20)
  {
    var found := if "id" in params then MockGetProduct(items, params["id"]) else None;
    match found
    case None => ProductMissing
    case Some(p) =>
      ProductData(p, MockGetRelatedProducts(items, p.item.category1, p.item.category2, p.item.productId, 20))
  }

  /** `prefetchData(routePath, params, query)`, loaders only. */
  function Load(items: seq<Item>, path: string, params: Params, q: Query): (r: Fetched)
    ensures path == HomeTemplate ==> r == LoadHome(items, q)
    ensures path == ProductTemplate ==> r == LoadProduct(items, params)
    ensures path != HomeTemplate && path != ProductTemplate ==> r == NoData
  {
    if path == HomeTemplate then LoadHome(items, q)
    else if path == ProductTemplate then LoadProduct(items, params)
    else NoData
  }

  /** A product route whose id some item has loads that item (as
      `mockGetProduct` finds it) and its related products. */
  lemma LoadProductFound(items: seq<Item>, id: string, q: Query)
    requires MockGetProduct(items, id).Some?
    ensures var p := MockGetProduct(items, id).value;
            Load(items, ProductTemplate, map["id" := id], q)
            == ProductData(p, MockGetRelatedProducts(items, p.item.category1, p.item.category2, id, 20))
  {
    var params := map["id" := id];
    assert params["id"] == id;
  }
}
