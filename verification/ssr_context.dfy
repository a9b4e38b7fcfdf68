/** The module-level SSR context slot: one value, `null` at start, set
    and cleared around a server render. */
module SsrContext {
  import opened Wrappers
  import opened Queries
  import opened ServerRouter

  datatype Context = Context(query: Query, params: Params)

  /** The slot; `None` is `null`. */
  datatype Slot = Slot(current: Option<Context>)

  const Initial: Slot := Slot(None)

  /** `setSSRContext(context)`; `null` is accepted too. */
  function Set(s: Slot, c: Option<Context>): (s': Slot)
    ensures Get(s') == c
  {
    Slot(c)
  }

  /** `getSSRContext()` */
  function Get(s: Slot): Option<Context> {
    s.current
  }

  /** `clearSSRContext()`: the same as setting `null`. */
  function Clear(s: Slot): (s': Slot)
    ensures Get(s') == None
    ensures s' == Set(s, None)
  {
    Slot(None)
  }

  /** The slot only remembers the last write: whatever came before, a set
      then a get returns the value set, and a clear forgets it. */
  lemma SlotLaws(s: Slot, c: Option<Context>, d: Option<Context>)
    ensures Get(Initial) == None
    ensures Set(Set(s, c), d) == Set(s, d)
    ensures Clear(Set(s, c)) == Clear(s)
    ensures Get(Set(Clear(s), c)) == c
  {
  }
}
