/**
 * A Python `dict` with string keys, as the benchmark tools use it: assignment to a new key
 * appends it to the iteration order, assignment to an existing key replaces its value in place,
 * and `.values()` iterates in insertion order.
 */
module PyDict {

  datatype Dict<V> = Dict(keys: seq<string>, items: map<string, V>)

  /** Every key once, in insertion order, and exactly the mapped keys. */
  predicate Valid<V>(d: Dict<V>) {
    (forall i, j :: 0 <= i < j < |d.keys| ==> d.keys[i] != d.keys[j]) &&
    (forall i :: 0 <= i < |d.keys| ==> d.keys[i] in d.items) &&
    (forall k :: k in d.items ==> k in d.keys)
  }

  /** `{}` */
  function Empty<V>(): (d: Dict<V>)
    ensures Valid(d) && |d.keys| == 0
  {
    Dict([], map[])
  }

  /** `d[k] = v` */
  function Set<V>(d: Dict<V>, k: string, v: V): (r: Dict<V>)
    requires Valid(d)
    ensures Valid(r)
    ensures r.items == d.items[k := v]
    ensures k in d.items ==> r.keys == d.keys
    ensures k !in d.items ==> r.keys == d.keys + [k]
  {
    if k in d.items then Dict(d.keys, d.items[k := v]) else Dict(d.keys + [k], d.items[k := v])
  }

  /** `list(d.values())` */
  function Values<V>(d: Dict<V>): (r: seq<V>)
    requires Valid(d)
    ensures |r| == |d.keys|
    ensures forall i :: 0 <= i < |r| ==> r[i] == d.items[d.keys[i]]
  {
    seq(|d.keys|, i requires 0 <= i < |d.keys| => d.items[d.keys[i]])
  }

  /** Assigning a new key appends its value to `.values()`. */
  lemma ValuesAfterInsert<V>(d: Dict<V>, k: string, v: V)
    requires Valid(d) && k !in d.items
    ensures Values(Set(d, k, v)) == Values(d) + [v]
  {
    var r := Set(d, k, v);
    forall i | 0 <= i < |d.keys|
      ensures Values(r)[i] == Values(d)[i]
    {
      assert d.keys[i] != k;
    }
  }

  /** Assigning an existing key replaces its value at its position in `.values()`. */
  lemma ValuesAfterReplace<V>(d: Dict<V>, k: string, v: V)
    requires Valid(d) && k in d.items
    ensures exists i :: 0 <= i < |d.keys| && d.keys[i] == k && Values(Set(d, k, v)) == Values(d)[i := v]
  {
    var i :| 0 <= i < |d.keys| && d.keys[i] == k;
    var r := Set(d, k, v);
    forall j | 0 <= j < |d.keys|
      ensures Values(r)[j] == Values(d)[i := v][j]
    {
      if j != i {
        assert d.keys[j] != k;
      }
    }
  }

  /** After the assignments `items[keys[k]] = vals[k]` for `k < n`, each of them that no later
      one overwrites is still in place. */
  ghost predicate HoldsLatest<V>(items: map<string, V>, keys: seq<string>, vals: seq<V>, n: int)
    requires 0 <= n <= |keys| == |vals|
  {
    forall k :: 0 <= k < n ==>
      (keys[k] in items && items[keys[k]] == vals[k]) || (exists j :: k < j < n && keys[j] == keys[k])
  }

  /** The `n`-th assignment keeps `HoldsLatest`: it is in place itself, and an earlier
      assignment to the same key is now overwritten by a later one. */
  lemma HoldsLatestStep<V>(items: map<string, V>, keys: seq<string>, vals: seq<V>, n: int)
    requires 0 <= n < |keys| == |vals|
    requires HoldsLatest(items, keys, vals, n)
    ensures HoldsLatest(items[keys[n] := vals[n]], keys, vals, n + 1)
  {
    var after := items[keys[n] := vals[n]];
    forall k | 0 <= k < n + 1
      ensures (keys[k] in after && after[keys[k]] == vals[k]) || (exists j :: k < j < n + 1 && keys[j] == keys[k])
    {
      if k < n && keys[k] == keys[n] {
        assert k < n < n + 1 && keys[n] == keys[k];
      }
    }
  }

  /** After assigning to `keys[..n]` starting from `before`: every other key of `before` keeps
      its value, and no key beyond those of `before` and `keys[..n]` exists. */
  ghost predicate OnlyAssigned<V>(items: map<string, V>, before: map<string, V>, keys: seq<string>, n: int)
    requires 0 <= n <= |keys|
  {
    (forall k :: k in before && k !in keys[..n] ==> k in items && items[k] == before[k]) &&
    (forall k :: k in items ==> k in before || k in keys[..n])
  }

  /** Assigning to `keys[n]` keeps `OnlyAssigned` with one more key. */
  lemma OnlyAssignedStep<V>(items: map<string, V>, before: map<string, V>, keys: seq<string>, v: V, n: int)
    requires 0 <= n < |keys| && OnlyAssigned(items, before, keys, n)
    ensures OnlyAssigned(items[keys[n] := v], before, keys, n + 1)
  {
    assert keys[..n + 1] == keys[..n] + [keys[n]];
  }
}
