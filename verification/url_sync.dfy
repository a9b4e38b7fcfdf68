/** The effect of `useProductURLSync`: products are reloaded when the
    query, with its `current` entry left out, serialises differently
    from last time. */
module UrlSync {
  import opened Queries

  /** The remembered `prevQueryString.current`; "" before the first run. */
  const InitialPrev: string := ""

  /** The string the effect compares: the query without `current`. */
  function Key(q: Query): (k: string)
    ensures k != InitialPrev
  {
    Serialize(Omit(q, "current"))
  }

  /** One run of the effect: the new remembered string and whether
      `loadProducts(true)` was called. */
  datatype Step = Step(prev: string, didLoad: bool)

  function Run(prev: string, q: Query): (s: Step)
    ensures s.prev == Key(q)
    ensures s.didLoad <==> prev != Key(q)
  {
    var cur := Key(q);
    if prev != cur then Step(cur, true) else Step(prev, false)
  }

  /** The first run always loads. */
  lemma FirstRunLoads(q: Query)
    ensures Run(InitialPrev, q).didLoad
  {
  }

  /** Running again on the same query does not load again: two
      consecutive runs load at most once. */
  lemma RunIdempotent(prev: string, q: Query)
    ensures var s := Run(prev, q);
            Run(s.prev, q) == Step(s.prev, false)
  {
  }

  /** Only `current` is ignored: queries that agree once `current` is
      left out behave the same, and a query that changes only `current`
      does not reload. */
  lemma CurrentIgnored(prev: string, q: Query, q': Query)
    requires Omit(q, "current") == Omit(q', "current")
    ensures Run(prev, q) == Run(prev, q')
    ensures Run(Run(prev, q).prev, q').didLoad == false
  {
  }

  /** Paging by `current` over a base query: after the first load, only a
      change to another entry reloads. */
  lemma {:induction false} OmitCurrentAppended(q: Query, page: string)
    ensures Omit(q + [("current", page)], "current") == Omit(q, "current")
  {
    if |q| > 0 {
      assert (q + [("current", page)])[1..] == q[1..] + [("current", page)];
      OmitCurrentAppended(q[1..], page);
    } else {
      assert Omit([("current", page)], "current") == Omit([], "current");
    }
  }
}
