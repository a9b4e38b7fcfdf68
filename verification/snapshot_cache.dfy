/** The `getSnapshot` cache of `useUniversalRouter`: the last snapshot is
    kept, and a new selection replaces it only when it is neither the same
    reference nor (for an object) the same JSON. */
module SnapshotCache {
  import opened Wrappers

  /** A JavaScript value as far as the cache can tell them apart: objects
      and functions carry a reference, objects also their current
      `JSON.stringify` text; a primitive is its JSON text (so `"1"` and
      `1` differ). */
  datatype JsVal = Undefined | Null | Prim(text: string) | Obj(ref: nat, json: string) | Func(fref: nat)

  /** `a === b` */
  predicate Same(a: JsVal, b: JsVal) {
    match a
    case Undefined => b.Undefined?
    case Null => b.Null?
    case Prim(t) => b.Prim? && b.text == t
    case Obj(r, _) => b.Obj? && b.ref == r
    case Func(r) => b.Func? && b.fref == r
  }

  /** `JSON.stringify(v)`; `None` is `undefined`. */
  function Json(v: JsVal): (j: Option<string>)
    ensures v.Obj? ==> j == Some(v.json)
    ensures j.None? <==> v.Undefined? || v.Func?
  {
    match v
    case Undefined => None
    case Null => Some("null")
    case Prim(t) => Some(t)
    case Obj(_, j) => Some(j)
    case Func(_) => None
  }

  /** What one `getSnapshot()` call returns and the cache it leaves. */
  datatype Snapshot = Snapshot(result: JsVal, cache: JsVal)

  /** `getSnapshot()` for `router` (`None` is `null`) and `selector`, with
      `cache` the current `getSnapshotRef.current`. */
  function GetSnapshot<R>(cache: JsVal, router: Option<R>, selector: R -> JsVal): (s: Snapshot)
    ensures router.None? ==> s == Snapshot(Null, cache)
    ensures router.Some? && cache.Undefined? ==> s.result == selector(router.value)
    ensures router.Some? ==> s.cache == s.result
    ensures router.Some? && !cache.Undefined? && Same(cache, selector(router.value)) ==> s.result == cache
    ensures (router.Some? && !cache.Undefined? && selector(router.value).Obj?
             && Json(cache) == Json(selector(router.value))) ==> s.result == cache
    ensures s.result == cache || (router.Some? && s.result == selector(router.value)) || s.result.Null?
  {
    match router
    case None => Snapshot(Null, cache)
    case Some(r) =>
      var next := selector(r);
      if cache.Undefined? then Snapshot(next, next)
      else if Same(cache, next) then Snapshot(cache, cache)
      else if next.Obj? && Json(cache) == Some(next.json) then Snapshot(cache, cache)
      else Snapshot(next, next)
  }

  /** The returned snapshot always stands for the current selection: it
      is that value, or an object with the same JSON. */
  lemma ResultRepresentsSelection<R>(cache: JsVal, r: R, selector: R -> JsVal)
    ensures var next := selector(r);
            var s := GetSnapshot(cache, Some(r), selector);
            Same(s.result, next) || (next.Obj? && Json(s.result) == Json(next))
  {
  }

  /** Primitives and functions (a page component, say) are only compared
      by reference: a different one always replaces the cache. */
  lemma NonObjectsByReference<R>(cache: JsVal, r: R, selector: R -> JsVal)
    requires !selector(r).Obj? && !cache.Undefined? && !Same(cache, selector(r))
    ensures GetSnapshot(cache, Some(r), selector) == Snapshot(selector(r), selector(r))
  {
  }

  /** An object with new JSON is a new snapshot; a new reference with the
      old JSON is not. */
  lemma ObjectsByJson<R>(ref: nat, json: string, r: R, selector: R -> JsVal)
    requires selector(r).Obj? && selector(r).ref != ref
    ensures GetSnapshot(Obj(ref, json), Some(r), selector).result
            == if selector(r).json == json then Obj(ref, json) else selector(r)
  {
  }

  /** Asking twice with nothing changed gives the same snapshot and the
      same cache, as `useSyncExternalStore` requires. */
  lemma {:induction false} SecondCallStable<R>(cache: JsVal, router: Option<R>, selector: R -> JsVal)
    ensures var s := GetSnapshot(cache, router, selector);
            GetSnapshot(s.cache, router, selector) == s
  {
    match router
    case None =>
    case Some(r) =>
      var next := selector(r);
      var s := GetSnapshot(cache, router, selector);
      ResultRepresentsSelection(cache, r, selector);
      if Same(s.cache, next) {
      } else {
        assert next.Obj? && Json(s.cache) == Some(next.json);
      }
  }
}
