/** The product store as both renderers use it: a record of optional
    fields (a missing field is an absent property), a `SETUP` that
    replaces the whole state, and the object spread `{ ...a, ...b }`. */
module Store {
  import opened Wrappers
  import opened Queries
  import opened ItemSort
  import opened Catalog

  datatype State = State(
    products: Option<seq<Item>>,
    totalCount: Option<nat>,
    categories: Option<Categories>,
    currentProduct: Option<Product>,
    relatedProducts: Option<seq<Item>>,
    loading: Option<bool>,
    error: Option<Option<string>>,
    status: Option<string>,
    query: Option<Query>)

  /** `{}` */
  const Empty: State := State(None, None, None, None, None, None, None, None, None)

  function Pick<T>(a: Option<T>, b: Option<T>): Option<T> {
    if b.Some? then b else a
  }

  /** `{ ...a, ...b }`: each property of `b` overrides the one of `a`. */
  function Merge(a: State, b: State): State {
    State(Pick(a.products, b.products), Pick(a.totalCount, b.totalCount),
          Pick(a.categories, b.categories), Pick(a.currentProduct, b.currentProduct),
          Pick(a.relatedProducts, b.relatedProducts), Pick(a.loading, b.loading),
          Pick(a.error, b.error), Pick(a.status, b.status), Pick(a.query, b.query))
  }

  /** Spreading is associative, `{}` is neutral on both sides, and a
      property present in `b` always wins. */
  lemma MergeLaws(a: State, b: State, c: State)
    ensures Merge(Merge(a, b), c) == Merge(a, Merge(b, c))
    ensures Merge(a, Empty) == a && Merge(Empty, a) == a
    ensures Merge(Merge(a, b), b) == Merge(a, b)
    ensures b.products.Some? ==> Merge(a, b).products == b.products
    ensures b.products.None? ==> Merge(a, b).products == a.products
    ensures b.currentProduct.Some? ==> Merge(a, b).currentProduct == b.currentProduct
    ensures b.currentProduct.None? ==> Merge(a, b).currentProduct == a.currentProduct
  {
  }
}
