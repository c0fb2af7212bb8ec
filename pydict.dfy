/**
 * Python's `dict`: a map that remembers the order in which its keys were
 * first inserted. Assigning to a present key keeps its place; iteration
 * (`keys()`, `values()`, `items()`) follows that order.
 */
module PyDict {
  import opened Wrappers
  import opened SeqUtil

  datatype Dict<K(==, !new), V> = Dict(keys: seq<K>, m: map<K, V>)

  /** Every key is listed exactly once, and only keys are listed. */
  ghost predicate Valid<K(!new), V>(d: Dict<K, V>) {
    Distinct(d.keys) && forall k :: k in d.m <==> k in d.keys
  }

  function Empty<K(==, !new), V>(): (d: Dict<K, V>)
    ensures Valid(d) && |d.keys| == 0 && |d.m| == 0
  {
    Dict([], map[])
  }

  /** `d[k] = v`: a new key goes last, a present key keeps its place. */
  function Set<K(==, !new), V>(d: Dict<K, V>, k: K, v: V): (r: Dict<K, V>)
    requires Valid(d)
    ensures Valid(r)
    ensures r.m == d.m[k := v]
    ensures k in d.m ==> r.keys == d.keys
    ensures k !in d.m ==> r.keys == d.keys + [k]
  {
    if k in d.m then Dict(d.keys, d.m[k := v]) else Dict(d.keys + [k], d.m[k := v])
  }

  /** `d[k]`, which raises KeyError for an absent key. */
  function Get<K(==, !new), V>(d: Dict<K, V>, k: K): (r: Result<V>)
    ensures r.Ok? <==> k in d.m
    ensures r.Ok? ==> r.value == d.m[k]
    ensures r.Err? ==> r.error == KeyError
  {
    if k in d.m then Ok(d.m[k]) else Err(KeyError)
  }

  /** `list(d.values())`. */
  function Values<K(==, !new), V>(d: Dict<K, V>): (r: seq<V>)
    requires Valid(d)
    ensures |r| == |d.keys|
    ensures forall i :: 0 <= i < |d.keys| ==> r[i] == d.m[d.keys[i]]
  {
    seq(|d.keys|, i requires 0 <= i < |d.keys| => d.m[d.keys[i]])
  }

  /** `s` with every occurrence of `x` dropped, the rest in order. */
  function Without<K(==, !new)>(s: seq<K>, x: K): (r: seq<K>)
    ensures forall y :: y in r <==> y in s && y != x
    ensures |r| <= |s|
    ensures Distinct(s) ==> Distinct(r)
  {
    if s == [] then []
    else
      var rest := Without(s[1..], x);
      assert forall y :: y in s[1..] ==> y in s;
      if s[0] == x then rest
      else
        assert Distinct(s) ==> s[0] !in s[1..];
        [s[0]] + rest
  }

  /** `d.pop(k)` for a present key: the value is dropped, the other keys keep their order. */
  function Pop<K(==, !new), V>(d: Dict<K, V>, k: K): (r: Dict<K, V>)
    requires Valid(d) && k in d.m
    ensures Valid(r)
    ensures r.m == d.m - {k}
    ensures r.keys == Without(d.keys, k)
  {
    Dict(Without(d.keys, k), d.m - {k})
  }

  /**
   * Assigning to a present key replaces its value where it stands in
   * `values()`; a new key's value goes last.
   */
  lemma ValuesSet<K(!new), V>(d: Dict<K, V>, k: K, v: V)
    requires Valid(d)
    ensures k in d.m ==> |Values(Set(d, k, v))| == |Values(d)|
    ensures k in d.m ==> forall i :: 0 <= i < |d.keys| ==>
      Values(Set(d, k, v))[i] == if d.keys[i] == k then v else Values(d)[i]
    ensures k !in d.m ==> Values(Set(d, k, v)) == Values(d) + [v]
  {
    var r := Set(d, k, v);
    if k !in d.m {
      assert Values(r) == Values(d) + [v] by {
        forall i | 0 <= i < |r.keys| ensures Values(r)[i] == (Values(d) + [v])[i] {
          if i < |d.keys| {
            assert r.keys[i] == d.keys[i] && d.keys[i] != k;
          }
        }
      }
    }
  }
}
