/** The mock data layer both server renderers share: `filterProducts`,
    `mockGetProducts` (pagination), `mockGetProduct`,
    `mockGetRelatedProducts` and `getUniqueCategories`. */
module Catalog {
  import opened Wrappers
  import opened Strings
  import opened Seqs
  import opened ItemSort

  /** A product as `mockGetProduct` returns it: the item plus the
      generated description. */
  datatype Product = Product(item: Item, description: string)

  /** `{ [category1]: { [category2]: {} } }` */
  type Categories = map<string, set<string>>

  /** The query fields `filterProducts` looks at; "" means unset. */
  datatype ProductQuery = ProductQuery(search: string, category1: string, category2: string, sort: string)

  /** The case-folded search term occurs in the title or the brand. */
  predicate MatchesSearch(item: Item, search: string) {
    Contains(Lower(item.title), Lower(search)) || Contains(Lower(item.brand), Lower(search))
  }

  /** Everything `filterProducts` asks of an item. */
  predicate Keep(q: ProductQuery, item: Item) {
    && (q.search != "" ==> MatchesSearch(item, q.search))
    && (q.category1 != "" ==> item.category1 == q.category1)
    && (q.category2 != "" ==> item.category2 == q.category2)
  }

  function SearchPass(q: ProductQuery): Item -> bool {
    (x: Item) => MatchesSearch(x, q.search)
  }

  function Category1Pass(q: ProductQuery): Item -> bool {
    (x: Item) => x.category1 == q.category1
  }

  function Category2Pass(q: ProductQuery): Item -> bool {
    (x: Item) => x.category2 == q.category2
  }

  function KeepPass(q: ProductQuery): Item -> bool {
    (x: Item) => Keep(q, x)
  }

  /** `if (on) filtered = filtered.filter(p)` */
  function Pass(on: bool, s: seq<Item>, p: Item -> bool): seq<Item> {
    if on then Filter(s, p) else s
  }

  lemma PassCons(on: bool, a: Item, t: seq<Item>, p: Item -> bool)
    ensures Pass(on, [a] + t, p) == (if !on || p(a) then [a] else []) + Pass(on, t, p)
  {
    assert ([a] + t)[1..] == t;
  }

  lemma PassEmpty(on: bool, p: Item -> bool)
    ensures Pass(on, [], p) == []
  {
  }

  /** The three filter passes, in the order the source applies them. */
  function FilterPasses(items: seq<Item>, q: ProductQuery): seq<Item> {
    Pass(q.category2 != "", Pass(q.category1 != "", Pass(q.search != "", items, SearchPass(q)), Category1Pass(q)), Category2Pass(q))
  }

  /** The passes together keep exactly the items satisfying `Keep`, in
      their original order. */
  lemma {:induction false} FilterPassesKeep(items: seq<Item>, q: ProductQuery)
    ensures FilterPasses(items, q) == Filter(items, KeepPass(q))
  {
    if |items| > 0 {
      var a, t := items[0], items[1..];
      assert items == [a] + t;
      FilterPassesKeep(t, q);
      FilterPassesKeepStep(a, t, q);
    }
  }

  lemma FilterPassesKeepStep(a: Item, t: seq<Item>, q: ProductQuery)
    requires FilterPasses(t, q) == Filter(t, KeepPass(q))
    ensures FilterPasses([a] + t, q) == Filter([a] + t, KeepPass(q))
  {
    FilterPassesCons(a, t, q);
    FilterCons(a, t, KeepPass(q));
    assert KeepPass(q)(a) == Keep(q, a);
  }

  /** The passes on one more item: it survives all three exactly when
      `Keep` accepts it. */
  lemma FilterPassesCons(a: Item, t: seq<Item>, q: ProductQuery)
    ensures FilterPasses([a] + t, q) == (if Keep(q, a) then [a] else []) + FilterPasses(t, q)
  {
    var bs, b1, b2 := q.search != "", q.category1 != "", q.category2 != "";
    var x1 := Pass(bs, t, SearchPass(q));
    var x2 := Pass(b1, x1, Category1Pass(q));
    PassCons(bs, a, t, SearchPass(q));
    if !bs || SearchPass(q)(a) {
      PassCons(b1, a, x1, Category1Pass(q));
      if !b1 || Category1Pass(q)(a) {
        PassCons(b2, a, x2, Category2Pass(q));
      } else {
        assert [] + x2 == x2;
      }
    } else {
      assert [] + x1 == x1;
    }
  }

  /** `filterProducts(products, query)`: the items `Keep` accepts, each
      with its original multiplicity and nothing else; sorted by the
      query's key when one is given (items that compare equal staying in
      input order), in input order otherwise. */
  function FilterProducts(items: seq<Item>, q: ProductQuery): (r: seq<Item>)
    ensures forall x :: multiset(r)[x] == if Keep(q, x) then multiset(items)[x] else 0
    ensures forall i :: 0 <= i < |r| ==> Keep(q, r[i])
    ensures q.sort != "" ==> Sorted(OrderOf(q.sort), r)
    ensures q.sort != "" ==> Stable(OrderOf(q.sort), Filter(items, KeepPass(q)), r)
    ensures q.sort == "" ==> r == Filter(items, KeepPass(q))
  {
    var filtered := FilterPasses(items, q);
    FilterPassesKeep(items, q);
    FilterMultiset(items, KeepPass(q));
    if q.sort != "" then Sort(OrderOf(q.sort), filtered) else filtered
  }

  // ---------------------------------------------------------------------
  // mockGetProducts

  /** `totalPages` is `None` where `Math.ceil(total / limit)` is not a
      finite number (a zero limit). */
  datatype Pagination = Pagination(page: int, limit: int, total: nat, totalPages: Option<int>,
                                   hasNext: bool, hasPrev: bool)

  datatype ProductsPage = ProductsPage(products: seq<Item>, pagination: Pagination)

  /** The parameters of `mockGetProducts`; `None` is an omitted field. */
  datatype GetProductsParams = GetProductsParams(
    limit: Option<int>, search: Option<string>, category1: Option<string>,
    category2: Option<string>, sort: Option<string>, page: Option<int>)

  /** `params.page || 1` */
  function PageOf(p: GetProductsParams): int {
    match p.page
    case Some(n) => if n == 0 then 1 else n
    case None => 1
  }

  /** `mockGetProducts(params)`: the page of the filtered items (see
      `Paginate`), with `page` defaulting to 1 and `limit` to 20. */
  function MockGetProducts(items: seq<Item>, p: GetProductsParams): (r: ProductsPage)
    ensures r.pagination.total == |FilterProducts(items, QueryOf(p))|
    ensures r.pagination.page == PageOf(p) && r.pagination.limit == p.limit.GetOr(20)
    ensures r.pagination.hasPrev <==> PageOf(p) > 1
    ensures forall i :: 0 <= i < |r.products| ==> r.products[i] in FilterProducts(items, QueryOf(p))
  {
    Paginate(FilterProducts(items, QueryOf(p)), PageOf(p), p.limit.GetOr(20))
  }

  /** The destructuring defaults: `search`, `category1`, `category2`
      default to "" and `sort` to "price_asc". */
  function QueryOf(p: GetProductsParams): ProductQuery {
    ProductQuery(p.search.GetOr(""), p.category1.GetOr(""), p.category2.GetOr(""), p.sort.GetOr("price_asc"))
  }

  lemma MulMono(a: int, b: int, k: int)
    requires a <= b && k > 0
    ensures a * k <= b * k
  {
  }

  /** The window `slice(start, start + limit)` for a non-negative start. */
  lemma WindowSlice(f: seq<Item>, start: int, limit: int)
    requires start >= 0 && limit > 0
    ensures start <= |f| ==> JsSlice(f, start, start + limit) == f[start..if start + limit < |f| then start + limit else |f|]
    ensures start > |f| ==> JsSlice(f, start, start + limit) == []
    ensures |JsSlice(f, start, start + limit)| <= limit
    ensures start + limit < |f| ==> |JsSlice(f, start, start + limit)| == limit
    ensures |JsSlice(f, start, start + limit)| > 0 <==> start < |f|
  {
  }

  /** With `t` the least page count covering `n` items, page `page`
      (1-based) starts before the end exactly when `page <= t`. */
  lemma PageInRange(n: nat, limit: int, page: int)
    requires limit > 0 && page >= 1
    ensures (page - 1) * limit >= 0
    ensures (page - 1) * limit < n <==> page <= CeilDiv(n, limit)
  {
    var t := CeilDiv(n, limit);
    MulMono(0, page - 1, limit);
    if page <= t {
      MulMono(page - 1, t - 1, limit);
    } else {
      MulMono(t, page - 1, limit);
    }
  }

  /** The pagination of `mockGetProducts` over the filtered list `f`,
      `slice((page - 1) * limit, page * limit)` with `slice`'s clamping.
      For a positive limit and page: the products are exactly that window
      of `f` cut at its end; `hasNext` says items remain after the window
      and then the page is full; `totalPages` is the least page count
      covering every item; and a page is non-empty exactly when it is at
      most `totalPages`. A negative limit gets past `parseInt(…) || 20`
      too: on page 1 it drops that many items from the end of `f`,
      `hasNext` is true and `totalPages` is at most 0. */
  function Paginate(f: seq<Item>, page: int, limit: int): (r: ProductsPage)
    ensures r.pagination == Pagination(page, limit, |f|, r.pagination.totalPages, r.pagination.hasNext, page > 1)
    ensures r.pagination.totalPages.None? <==> limit == 0
    ensures forall i :: 0 <= i < |r.products| ==> r.products[i] in f
    ensures limit > 0 && page >= 1 ==>
              var start := (page - 1) * limit;
              && 0 <= start
              && (start <= |f| ==> r.products == f[start..if start + limit < |f| then start + limit else |f|])
              && (start > |f| ==> r.products == [])
              && |r.products| <= limit
              && (r.pagination.hasNext <==> start + limit < |f|)
              && (r.pagination.hasNext ==> |r.products| == limit)
              && r.pagination.totalPages.Some?
              && (r.pagination.totalPages.value - 1) * limit < |f| <= r.pagination.totalPages.value * limit
              && (|r.products| > 0 <==> page <= r.pagination.totalPages.value)
    ensures r.pagination.hasNext <==> page * limit < |f|
    ensures limit < 0 && page == 1 ==>
              && r.products == f[..if |f| + limit < 0 then 0 else |f| + limit]
              && r.pagination.hasNext
              && r.pagination.totalPages.Some? && r.pagination.totalPages.value <= 0
  {
    var startIndex := (page - 1) * limit;
    var endIndex := startIndex + limit;
    assert endIndex == page * limit;
    var r := ProductsPage(JsSlice(f, startIndex, endIndex),
      Pagination(page, limit, |f|, if limit == 0 then None else Some(CeilDiv(|f|, limit)), endIndex < |f|, page > 1));
    if limit > 0 && page >= 1 then
      PageInRange(|f|, limit, page);
      WindowSlice(f, startIndex, limit);
      r
    else if limit < 0 && page == 1 then
      NegativeFirstPage(f, limit);
      r
    else r
  }

  /** Page 1 under a negative limit: `slice(0, limit)` drops `-limit`
      items from the end, and `Math.ceil(total / limit)` is at most 0. */
  lemma NegativeFirstPage(f: seq<Item>, limit: int)
    requires limit < 0
    ensures JsSlice(f, 0, limit) == f[..if |f| + limit < 0 then 0 else |f| + limit]
    ensures CeilDiv(|f|, limit) <= 0
  {
  }

  /** Page 1 is the first `limit` items; for a negative `limit`, all but
      the last `-limit`. */
  lemma FirstPage(f: seq<Item>, limit: int)
    ensures limit > 0 ==> Paginate(f, 1, limit).products == f[..if limit < |f| then limit else |f|]
    ensures limit < 0 ==> Paginate(f, 1, limit).products == f[..if |f| + limit < 0 then 0 else |f| + limit]
  {
    var r := Paginate(f, 1, limit);
    assert (1 - 1) * limit == 0;
  }

  // ---------------------------------------------------------------------
  // mockGetProduct, mockGetRelatedProducts, getUniqueCategories

  const DescriptionMiddle: string := "에 대한 상세 설명입니다. "
  const DescriptionEnd: string := " 브랜드의 우수한 품질을 자랑하는 상품으로, 고객 만족도가 높은 제품입니다."

  /** The generated `description` of a product. */
  function Description(item: Item): string {
    item.title + DescriptionMiddle + item.brand + DescriptionEnd
  }

  /** `items.find(item => item.productId === productId)` */
  function FindById(items: seq<Item>, id: string): (r: Option<nat>)
    ensures r.Some? ==> r.value < |items| && items[r.value].productId == id
                        && forall j :: 0 <= j < r.value ==> items[j].productId != id
    ensures r.None? ==> forall j :: 0 <= j < |items| ==> items[j].productId != id
  {
    if |items| == 0 then None
    else if items[0].productId == id then Some(0)
    else match FindById(items[1..], id)
      case None => None
      case Some(k) => Some(k + 1)
  }

  /** `mockGetProduct(productId)`: the first item with that id, with its
      description; `null` when no item has it. */
  function MockGetProduct(items: seq<Item>, id: string): (r: Option<Product>)
    ensures r.None? <==> forall j :: 0 <= j < |items| ==> items[j].productId != id
    ensures r.Some? ==> exists i :: 0 <= i < |items| && items[i] == r.value.item && items[i].productId == id
                                    && forall j :: 0 <= j < i ==> items[j].productId != id
    ensures r.Some? ==> r.value.description == Description(r.value.item)
  {
    match FindById(items, id)
    case None => None
    case Some(i) => Some(Product(items[i], Description(items[i])))
  }

  /** The filter of `mockGetRelatedProducts`: another product sharing the
      (set) `category2`, or else the (set) `category1`. */
  predicate IsRelated(category1: string, category2: string, currentId: string, item: Item) {
    item.productId != currentId
    && ((category2 != "" && item.category2 == category2) || (category1 != "" && item.category1 == category1))
  }

  /** `mockGetRelatedProducts(category1, category2, currentProductId, limit)`:
      the first `limit` related items in catalog order; a negative `limit`
      (`slice(0, limit)`) drops that many from the end instead. */
  function MockGetRelatedProducts(items: seq<Item>, category1: string, category2: string,
                                  currentId: string, limit: int): (r: seq<Item>)
    ensures limit >= 0 ==> |r| <= limit
    ensures forall i :: 0 <= i < |r| ==> IsRelated(category1, category2, currentId, r[i])
    ensures forall i :: 0 <= i < |r| ==> r[i].productId != currentId
    ensures Subseq(r, items)
    ensures limit >= 0 && |Filter(items, (x: Item) => IsRelated(category1, category2, currentId, x))| <= limit ==>
              forall i :: 0 <= i < |items| && IsRelated(category1, category2, currentId, items[i]) ==> items[i] in r
    ensures var related := Filter(items, RelatedTo(category1, category2, currentId));
            limit >= 0 ==> r == related[..if limit < |related| then limit else |related|]
    ensures var related := Filter(items, RelatedTo(category1, category2, currentId));
            limit < 0 ==> r == related[..if |related| + limit < 0 then 0 else |related| + limit]
  {
    var related := Filter(items, RelatedTo(category1, category2, currentId));
    var r := JsSlice(related, 0, limit);
    FilterSubseq(items, RelatedTo(category1, category2, currentId));
    assert r == related[..|r|];
    PrefixSubseq(related, items, |r|);
    r
  }

  /** The filter `mockGetRelatedProducts` applies. */
  function RelatedTo(category1: string, category2: string, currentId: string): Item -> bool {
    (x: Item) => IsRelated(category1, category2, currentId, x)
  }

  /** Some item has category `c1`. */
  predicate HasCategory1(items: seq<Item>, c1: string) {
    exists i :: 0 <= i < |items| && items[i].category1 == c1
  }

  /** Some item has categories `c1` and a non-empty `c2`. */
  predicate HasPair(items: seq<Item>, c1: string, c2: string) {
    c2 != "" && exists i :: 0 <= i < |items| && items[i].category1 == c1 && items[i].category2 == c2
  }

  /** `getUniqueCategories()`: every `category1` becomes a key, and every
      non-empty `category2` is recorded under its `category1`. */
  function GetUniqueCategories(items: seq<Item>): (c: Categories)
    ensures forall c1 :: c1 in c <==> HasCategory1(items, c1)
    ensures forall c1, c2 :: c1 in c ==> (c2 in c[c1] <==> HasPair(items, c1, c2))
  {
    if |items| == 0 then map[]
    else
      var n := |items| - 1;
      var it := items[n];
      var m := GetUniqueCategories(items[..n]);
      var m1 := if it.category1 in m then m else m[it.category1 := {}];
      var r := if it.category2 != "" then m1[it.category1 := m1[it.category1] + {it.category2}] else m1;
      CategoriesStep(items, m, r);
      r
  }

  /** One more item of the loop. */
  lemma CategoriesStep(items: seq<Item>, m: Categories, r: Categories)
    requires |items| > 0
    requires forall c1 :: c1 in m <==> HasCategory1(items[..|items| - 1], c1)
    requires forall c1, c2 :: c1 in m ==> (c2 in m[c1] <==> HasPair(items[..|items| - 1], c1, c2))
    requires var it := items[|items| - 1];
             var m1 := if it.category1 in m then m else m[it.category1 := {}];
             r == if it.category2 != "" then m1[it.category1 := m1[it.category1] + {it.category2}] else m1
    ensures forall c1 :: c1 in r <==> HasCategory1(items, c1)
    ensures forall c1, c2 :: c1 in r ==> (c2 in r[c1] <==> HasPair(items, c1, c2))
  {
    var n := |items| - 1;
    var pre := items[..n];
    var it := items[n];
    assert forall i :: 0 <= i < n ==> pre[i] == items[i];
    forall c1 ensures HasCategory1(items, c1) <==> HasCategory1(pre, c1) || c1 == it.category1 {
      if HasCategory1(items, c1) && c1 != it.category1 {
        var i :| 0 <= i < |items| && items[i].category1 == c1;
        assert pre[i].category1 == c1;
      }
    }
    forall c1, c2 ensures HasPair(items, c1, c2) <==> HasPair(pre, c1, c2) || (c2 != "" && c1 == it.category1 && c2 == it.category2) {
      if HasPair(items, c1, c2) && !(c1 == it.category1 && c2 == it.category2) {
        var i :| 0 <= i < |items| && items[i].category1 == c1 && items[i].category2 == c2;
        assert pre[i].category1 == c1 && pre[i].category2 == c2;
      }
    }
  }
}
