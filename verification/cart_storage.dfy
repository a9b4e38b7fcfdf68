/** `createDummyStorage`, the cart storage used on the server: one value
    (`null` at start) and a set of listeners told about every write. */
module CartStorage {
  import opened Wrappers

  /** Listeners are function identities; `listeners` is the `Set` in its
      insertion order, so it never holds one twice. */
  datatype Storage<T> = Storage(data: Option<T>, listeners: seq<nat>)

  predicate Distinct(s: seq<nat>) {
    forall i, j :: 0 <= i < j < |s| ==> s[i] != s[j]
  }

  predicate Valid<T>(st: Storage<T>) {
    Distinct(st.listeners)
  }

  function Init<T>(): (st: Storage<T>)
    ensures Valid(st) && Get(st).None?
  {
    Storage(None, [])
  }

  /** `get()` */
  function Get<T>(st: Storage<T>): Option<T> {
    st.data
  }

  /** The result of a write: the new storage and the listeners called, in
      call order. */
  datatype Written<T> = Written(storage: Storage<T>, notified: seq<nat>)

  /** `set(value)` */
  function Set<T>(st: Storage<T>, value: T): (w: Written<T>)
    requires Valid(st)
    ensures Valid(w.storage) && Get(w.storage) == Some(value)
    ensures w.storage.listeners == st.listeners
    ensures w.notified == st.listeners && Distinct(w.notified)
  {
    Written(st.(data := Some(value)), st.listeners)
  }

  /** `reset()` */
  function Reset<T>(st: Storage<T>): (w: Written<T>)
    requires Valid(st)
    ensures Valid(w.storage) && Get(w.storage).None?
    ensures w.storage.listeners == st.listeners
    ensures w.notified == st.listeners && Distinct(w.notified)
  {
    Written(st.(data := None), st.listeners)
  }

  /** `listeners.add(fn)`: a no-op when `fn` is already there. */
  function Subscribe<T>(st: Storage<T>, fn: nat): (st': Storage<T>)
    requires Valid(st)
    ensures Valid(st') && st'.data == st.data
    ensures fn in st'.listeners
    ensures forall l :: l in st'.listeners <==> l in st.listeners || l == fn
    ensures fn in st.listeners ==> st' == st
  {
    if fn in st.listeners then st else st.(listeners := st.listeners + [fn])
  }

  /** The entries of `s` other than `x`, in order. */
  function Remove(s: seq<nat>, x: nat): (r: seq<nat>)
    ensures forall l :: l in r <==> l in s && l != x
    ensures |r| <= |s|
  {
    if |s| == 0 then []
    else if s[0] == x then Remove(s[1..], x)
    else [s[0]] + Remove(s[1..], x)
  }

  lemma {:induction false} RemoveDistinct(s: seq<nat>, x: nat)
    requires Distinct(s)
    ensures Distinct(Remove(s, x))
  {
    if |s| > 0 {
      RemoveDistinct(s[1..], x);
      if s[0] != x {
        var r := Remove(s[1..], x);
        assert s[0] !in r by {
          assert forall k :: 0 < k < |s| ==> s[k] != s[0];
          assert forall l :: l in s[1..] ==> exists k :: 0 < k < |s| && s[k] == l;
        }
        assert forall j :: 0 < j < |[s[0]] + r| ==> ([s[0]] + r)[j] == r[j - 1];
      }
    }
  }

  /** Calling the unsubscribe `subscribe(fn)` returned:
      `listeners.delete(fn)`. */
  function Unsubscribe<T>(st: Storage<T>, fn: nat): (st': Storage<T>)
    requires Valid(st)
    ensures Valid(st') && st'.data == st.data
    ensures fn !in st'.listeners
    ensures forall l :: l != fn ==> (l in st'.listeners <==> l in st.listeners)
  {
    RemoveDistinct(st.listeners, fn);
    st.(listeners := Remove(st.listeners, fn))
  }

  /** Subscribing twice registers once: the next write calls it once. */
  lemma SubscribeTwice<T>(st: Storage<T>, fn: nat, v: T)
    requires Valid(st)
    ensures Subscribe(Subscribe(st, fn), fn) == Subscribe(st, fn)
    ensures var n := Set(Subscribe(st, fn), v).notified;
            exists i :: 0 <= i < |n| && n[i] == fn && forall j :: 0 <= j < |n| && j != i ==> n[j] != fn
  {
  }

  /** After unsubscribing, a write no longer calls that listener, and
      still calls every other one it called before. */
  lemma UnsubscribeStopsOnlyThat<T>(st: Storage<T>, fn: nat, v: T)
    requires Valid(st)
    ensures fn !in Set(Unsubscribe(st, fn), v).notified
    ensures forall l :: l in Set(st, v).notified && l != fn ==> l in Set(Unsubscribe(st, fn), v).notified
  {
  }

  /** The last write wins, and a reset forgets it. */
  lemma SetGetReset<T>(st: Storage<T>, v: T, w: T)
    requires Valid(st)
    ensures Get(Set(Set(st, v).storage, w).storage) == Some(w)
    ensures Get(Reset(Set(st, v).storage).storage).None?
    ensures Get(Init<T>()).None?
  {
  }
}
