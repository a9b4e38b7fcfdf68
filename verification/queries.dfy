/** Query objects (`Record<string, string>`) as ordered key/value entries:
    JavaScript objects remember insertion order, and `JSON.stringify`
    depends on it. */
module Queries {
  import opened Seqs

  type Query = seq<(string, string)>

  /** `query.key || ""`: the value stored under `key`, or "" when absent. */
  function Get(q: Query, key: string): (v: string)
    ensures v != "" ==> exists i :: 0 <= i < |q| && q[i] == (key, v)
    ensures (forall i :: 0 <= i < |q| ==> q[i].0 != key) ==> v == ""
    ensures forall i :: FirstWith(q, key, i) ==> v == q[i].1
  {
    if |q| == 0 then ""
    else if q[0].0 == key then q[0].1
    else
      var v := Get(q[1..], key);
      assert forall i :: FirstWith(q, key, i) ==> i > 0 && FirstWith(q[1..], key, i - 1);
      v
  }

  /** Entry `i` is the first one whose name is `key`. */
  predicate FirstWith(q: Query, key: string, i: int) {
    0 <= i < |q| && q[i].0 == key && forall j :: 0 <= j < i ==> q[j].0 != key
  }

  /** `const { key, ...rest } = query`: the entries without `key`, in order. */
  function Omit(q: Query, key: string): (r: Query)
    ensures forall i :: 0 <= i < |r| ==> r[i].0 != key && r[i] in q
    ensures forall i :: 0 <= i < |q| && q[i].0 != key ==> q[i] in r
    ensures r == Filter(q, OtherKey(key))
  {
    if |q| == 0 then []
    else if q[0].0 == key then Omit(q[1..], key)
    else [q[0]] + Omit(q[1..], key)
  }

  /** The entries `Omit` keeps. */
  function OtherKey(key: string): ((string, string)) -> bool {
    (e: (string, string)) => e.0 != key
  }

  function Quote(s: string): string {
    "\"" + s + "\""
  }

  function Members(q: Query): string {
    if |q| == 0 then ""
    else Quote(q[0].0) + ":" + Quote(q[0].1) + (if |q| == 1 then "" else "," + Members(q[1..]))
  }

  /** `JSON.stringify(query)` for string-valued entries. The only fact the
      rest of the model uses: an object never serialises to "". */
  function Serialize(q: Query): (s: string)
    ensures |s| >= 2 && s[0] == '{' && s[|s| - 1] == '}'
  {
    "{" + Members(q) + "}"
  }
}
