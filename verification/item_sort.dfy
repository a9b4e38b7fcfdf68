/** The four sort keys of `filterProducts` and a stable sort, as
    `Array.prototype.sort` is. */
module ItemSort {
  import Strings
  import opened Seqs

  /** A product as the mock data holds it; `lprice` is the integer
      `parseInt` reads from the price text, and "" stands for an absent
      `category2`. */
  datatype Item = Item(productId: string, title: string, brand: string, lprice: int,
                       category1: string, category2: string)

  datatype SortOrder = PriceAsc | PriceDesc | NameAsc | NameDesc

  /** The `switch (query.sort)`: unknown keys fall back to ascending price. */
  function OrderOf(sort: string): SortOrder {
    if sort == "price_asc" then PriceAsc
    else if sort == "price_desc" then PriceDesc
    else if sort == "name_asc" then NameAsc
    else if sort == "name_desc" then NameDesc
    else PriceAsc
  }

  /** `a` may stand before `b`: the comparator returns a value <= 0. */
  predicate Le(o: SortOrder, a: Item, b: Item) {
    match o
    case PriceAsc => a.lprice <= b.lprice
    case PriceDesc => b.lprice <= a.lprice
    case NameAsc => Strings.LexLe(a.title, b.title)
    case NameDesc => Strings.LexLe(b.title, a.title)
  }

  lemma LeTotal(o: SortOrder, a: Item, b: Item)
    ensures Le(o, a, b) || Le(o, b, a)
  {
    Strings.LexLeTotal(a.title, b.title);
  }

  lemma LeTrans(o: SortOrder, a: Item, b: Item, c: Item)
    requires Le(o, a, b) && Le(o, b, c)
    ensures Le(o, a, c)
  {
    match o
    case NameAsc => Strings.LexLeTrans(a.title, b.title, c.title);
    case NameDesc => Strings.LexLeTrans(c.title, b.title, a.title);
    case _ =>
  }

  predicate Sorted(o: SortOrder, s: seq<Item>) {
    forall i, j :: 0 <= i < j < |s| ==> Le(o, s[i], s[j])
  }

  predicate AllAfter(o: SortOrder, x: Item, s: seq<Item>) {
    forall k :: 0 <= k < |s| ==> Le(o, x, s[k])
  }

  /** `a` and `b` compare equal: the comparator returns 0 both ways. */
  predicate Equiv(o: SortOrder, a: Item, b: Item) {
    Le(o, a, b) && Le(o, b, a)
  }

  /** The items that compare equal to `k`. */
  function SameKey(o: SortOrder, k: Item): Item -> bool {
    (y: Item) => Equiv(o, y, k)
  }

  /** `r` keeps the input order of every group of items that compare
      equal: the sort is stable. */
  ghost predicate Stable(o: SortOrder, s: seq<Item>, r: seq<Item>) {
    forall k :: Filter(r, SameKey(o, k)) == Filter(s, SameKey(o, k))
  }

  /** Puts `x` in front of the first element it may precede. */
  function Insert(o: SortOrder, x: Item, s: seq<Item>): (r: seq<Item>)
    ensures multiset(r) == multiset(s) + multiset{x} && |r| == |s| + 1
  {
    if |s| == 0 then [x]
    else if Le(o, x, s[0]) then [x] + s
    else
      assert s == [s[0]] + s[1..];
      [s[0]] + Insert(o, x, s[1..])
  }

  lemma {:induction false} AllAfterByMultiset(o: SortOrder, x: Item, s: seq<Item>, t: seq<Item>)
    requires AllAfter(o, x, s)
    requires multiset(t) <= multiset(s)
    ensures AllAfter(o, x, t)
  {
    forall k | 0 <= k < |t| ensures Le(o, x, t[k]) {
      assert t[k] in multiset(t);
      assert t[k] in multiset(s);
      var m :| 0 <= m < |s| && s[m] == t[k];
    }
  }

  lemma {:induction false} InsertSorted(o: SortOrder, x: Item, s: seq<Item>)
    requires Sorted(o, s)
    ensures Sorted(o, Insert(o, x, s))
  {
    if |s| > 0 {
      if Le(o, x, s[0]) {
        forall k | 0 <= k < |s| ensures Le(o, x, s[k]) {
          if k > 0 { LeTrans(o, x, s[0], s[k]); }
        }
      } else {
        LeTotal(o, x, s[0]);
        var rest := Insert(o, x, s[1..]);
        InsertSorted(o, x, s[1..]);
        assert AllAfter(o, s[0], s[1..] + [x]) by {
          forall k | 0 <= k < |s[1..] + [x]| ensures Le(o, s[0], (s[1..] + [x])[k]) {
            if k < |s| - 1 { assert (s[1..] + [x])[k] == s[k + 1]; }
          }
        }
        assert multiset(rest) == multiset(s[1..] + [x]);
        AllAfterByMultiset(o, s[0], s[1..] + [x], rest);
      }
    }
  }

  /** Inserting `x` puts it ahead of every item equal to it already in
      `t`, as it came first in the input. */
  lemma {:induction false} InsertFilter(o: SortOrder, x: Item, t: seq<Item>, k: Item)
    ensures Filter(Insert(o, x, t), SameKey(o, k)) == (if SameKey(o, k)(x) then [x] else []) + Filter(t, SameKey(o, k))
  {
    var p := SameKey(o, k);
    if |t| == 0 {
      FilterCons(x, [], p);
    } else if Le(o, x, t[0]) {
      FilterCons(x, t, p);
    } else {
      InsertFilter(o, x, t[1..], k);
      InsertPastHead(o, x, t, k);
    }
  }

  /** The step of `InsertFilter` where `x` moves past the head of `t`:
      the head and `x` cannot both compare equal to `k`, so their order
      among the kept items does not matter. */
  lemma InsertPastHead(o: SortOrder, x: Item, t: seq<Item>, k: Item)
    requires |t| > 0 && !Le(o, x, t[0])
    requires Filter(Insert(o, x, t[1..]), SameKey(o, k))
             == (if SameKey(o, k)(x) then [x] else []) + Filter(t[1..], SameKey(o, k))
    ensures Filter(Insert(o, x, t), SameKey(o, k)) == (if SameKey(o, k)(x) then [x] else []) + Filter(t, SameKey(o, k))
  {
    var p := SameKey(o, k);
    assert Insert(o, x, t) == [t[0]] + Insert(o, x, t[1..]);
    if p(x) && p(t[0]) {
      LeTrans(o, x, k, t[0]);
    }
    FilterPastHead(t, x, Insert(o, x, t[1..]), p);
  }

  /** Filtering `[t[0]] + rest`, where `rest` filters like `t[1..]` with
      `x` (if kept) in front, and `t[0]` and `x` are not both kept. */
  lemma FilterPastHead(t: seq<Item>, x: Item, rest: seq<Item>, p: Item -> bool)
    requires |t| > 0 && !(p(t[0]) && p(x))
    requires Filter(rest, p) == (if p(x) then [x] else []) + Filter(t[1..], p)
    ensures Filter([t[0]] + rest, p) == (if p(x) then [x] else []) + Filter(t, p)
  {
    FilterCons(t[0], rest, p);
    FilterCons(t[0], t[1..], p);
    assert t == [t[0]] + t[1..];
    SwapEmpty(if p(t[0]) then [t[0]] else [], if p(x) then [x] else [], Filter(t[1..], p));
  }

  lemma SwapEmpty(a: seq<Item>, b: seq<Item>, f: seq<Item>)
    requires |a| == 0 || |b| == 0
    ensures a + (b + f) == b + (a + f)
  {
    if |a| == 0 {
      assert a + (b + f) == b + f;
    } else {
      assert b + (a + f) == a + f;
    }
  }

  /** The sorted copy `filtered.sort(comparator)` leaves behind: a
      permutation of the input, ordered by `o`, in which items that
      compare equal keep their input order. */
  function Sort(o: SortOrder, s: seq<Item>): (r: seq<Item>)
    ensures multiset(r) == multiset(s) && |r| == |s|
    ensures Sorted(o, r)
    ensures Stable(o, s, r)
  {
    if |s| == 0 then []
    else
      var rest := Sort(o, s[1..]);
      InsertStep(o, s, rest);
      Insert(o, s[0], rest)
  }

  /** One step of `Sort`: inserting the head into the sorted tail. */
  lemma InsertStep(o: SortOrder, s: seq<Item>, rest: seq<Item>)
    requires |s| > 0
    requires multiset(rest) == multiset(s[1..]) && Sorted(o, rest) && Stable(o, s[1..], rest)
    ensures multiset(Insert(o, s[0], rest)) == multiset(s)
    ensures Sorted(o, Insert(o, s[0], rest))
    ensures Stable(o, s, Insert(o, s[0], rest))
  {
    InsertSorted(o, s[0], rest);
    assert s == [s[0]] + s[1..];
    forall k ensures Filter(Insert(o, s[0], rest), SameKey(o, k)) == Filter(s, SameKey(o, k)) {
      InsertFilter(o, s[0], rest, k);
      FilterCons(s[0], s[1..], SameKey(o, k));
    }
  }

  /** Ascending price (also the fallback for unknown keys) never goes
      down; descending price never goes up. */
  lemma PriceOrders(sort: string, s: seq<Item>)
    ensures OrderOf(sort) == PriceAsc ==>
              forall i :: 0 <= i < |s| - 1 ==> Sort(PriceAsc, s)[i].lprice <= Sort(PriceAsc, s)[i + 1].lprice
    ensures OrderOf(sort) == PriceDesc ==>
              forall i :: 0 <= i < |s| - 1 ==> Sort(PriceDesc, s)[i].lprice >= Sort(PriceDesc, s)[i + 1].lprice
  {
    var o := OrderOf(sort);
    var r := Sort(o, s);
    forall i | 0 <= i < |r| - 1 ensures Le(o, r[i], r[i + 1]) {
      assert Sorted(o, r);
    }
  }

  /** Which keys select which order. */
  lemma OrderOfKeys(sort: string)
    ensures OrderOf(sort) == PriceDesc <==> sort == "price_desc"
    ensures OrderOf(sort) == NameAsc <==> sort == "name_asc"
    ensures OrderOf(sort) == NameDesc <==> sort == "name_desc"
    ensures OrderOf(sort) == PriceAsc <==> sort !in {"price_desc", "name_asc", "name_desc"}
  {
  }
}
