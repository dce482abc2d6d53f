/** The JavaScript `Map` with string keys: a key-value table that remembers the order in which keys were
    first inserted. `set` on a present key replaces the value in place; `delete` removes
    the key; `values()`, `entries()` and `for ... of` visit keys in insertion order. */
module OrderedMaps {
  import opened Wrappers

  predicate Distinct(s: seq<string>) {
    forall i, j :: 0 <= i < j < |s| ==> s[i] != s[j]
  }

  /** `s` with every occurrence of `x` removed, the rest kept in order. */
  function Remove(s: seq<string>, x: string): (r: seq<string>)
    ensures forall y :: y in r <==> y in s && y != x
    ensures |r| <= |s|
  {
    if s == [] then [] else (if s[0] == x then [] else [s[0]]) + Remove(s[1..], x)
  }

  lemma {:induction false} RemoveDistinct(s: seq<string>, x: string)
    requires Distinct(s)
    ensures Distinct(Remove(s, x))
  {
    if s != [] {
      RemoveDistinct(s[1..], x);
      assert s[0] !in s[1..];
    }
  }

  lemma {:induction false} RemoveAbsent(s: seq<string>, x: string)
    requires x !in s
    ensures Remove(s, x) == s
  {
    if s != [] {
      RemoveAbsent(s[1..], x);
    }
  }

  datatype OrderedMap<V> = OrderedMap(keys: seq<string>, entries: map<string, V>) {

    /** The keys are distinct and are exactly the keys of the table. */
    ghost predicate Valid() {
      Distinct(keys) && forall k :: k in entries <==> k in keys
    }

    /** `m.get(k)`. */
    function Get(k: string): Option<V> {
      if k in entries then Some(entries[k]) else None
    }

    /** `m.set(k, v)`: a new key goes last, a present key keeps its position. */
    function Set(k: string, v: V): (r: OrderedMap<V>)
      requires Valid()
      ensures r.Valid()
    {
      OrderedMap(if k in entries then keys else keys + [k], entries[k := v])
    }

    /** `m.delete(k)`. */
    function Delete(k: string): (r: OrderedMap<V>)
      requires Valid()
      ensures r.Valid()
    {
      RemoveDistinct(keys, k);
      OrderedMap(Remove(keys, k), entries - {k})
    }

    /** `Array.from(m.values())`. */
    function Values(): (r: seq<V>)
      requires Valid()
      ensures |r| == |keys|
      ensures forall i :: 0 <= i < |keys| ==> r[i] == entries[keys[i]]
    {
      seq(|keys|, i requires 0 <= i < |keys| && keys[i] in entries => entries[keys[i]])
    }
  }

  function Empty<V>(): (r: OrderedMap<V>)
    ensures r.Valid()
  {
    OrderedMap([], map[])
  }

  /** After `set(k, v)`, `get(k)` is `v` and every other key reads as before. */
  lemma SetGet<V>(m: OrderedMap<V>, k: string, v: V, other: string)
    requires m.Valid()
    ensures m.Set(k, v).Get(k) == Some(v)
    ensures other != k ==> m.Set(k, v).Get(other) == m.Get(other)
  {
  }

  /** Setting a new key appends its value to the iteration order; setting a present key
      replaces its value where it stands and moves nothing. */
  lemma SetValues<V>(m: OrderedMap<V>, k: string, v: V)
    requires m.Valid()
    ensures k !in m.entries ==> m.Set(k, v).Values() == m.Values() + [v]
    ensures k in m.entries ==>
              && |m.Set(k, v).Values()| == |m.Values()|
              && forall i :: 0 <= i < |m.keys| ==>
                   m.Set(k, v).Values()[i] == (if m.keys[i] == k then v else m.Values()[i])
  {
    if k !in m.entries {
      var r := m.Set(k, v);
      assert r.Values() == m.Values() + [v] by {
        forall i | 0 <= i < |r.keys| ensures r.Values()[i] == (m.Values() + [v])[i] {
          if i < |m.keys| { assert m.keys[i] != k; }
        }
      }
    }
  }

  /** After `delete(k)`, `k` is absent and every other key reads as before; deleting an
      absent key changes nothing. */
  lemma {:induction false} DeleteGet<V>(m: OrderedMap<V>, k: string, other: string)
    requires m.Valid()
    ensures m.Delete(k).Get(k) == None
    ensures other != k ==> m.Delete(k).Get(other) == m.Get(other)
    ensures k !in m.entries ==> m.Delete(k) == m
  {
    if k !in m.entries {
      RemoveAbsent(m.keys, k);
      assert m.entries - {k} == m.entries;
    }
  }
}
