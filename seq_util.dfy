/** Facts about Python lists used by several modules: distinctness, `list.index`, order-keeping removal. */
module SeqUtil {
  import opened Wrappers

  predicate Distinct<T(==)>(s: seq<T>) {
    forall i, j :: 0 <= i < j < |s| ==> s[i] != s[j]
  }

  lemma DistinctTail<T>(s: seq<T>)
    requires Distinct(s) && s != []
    ensures Distinct(s[1..]) && s[0] !in s[1..]
    ensures forall x :: x in s <==> x == s[0] || x in s[1..]
  {
    assert s == [s[0]] + s[1..];
  }

  lemma AppendAssoc<T>(a: seq<T>, b: seq<T>, c: seq<T>)
    ensures a + (b + c) == (a + b) + c
  {
  }

  /** `s.index(x)`: the first position holding `x`. */
  function IndexOf<T(==)>(s: seq<T>, x: T): (r: nat)
    requires x in s
    ensures r < |s| && s[r] == x
    ensures forall j :: 0 <= j < r ==> s[j] != x
  {
    if s[0] == x then 0 else 1 + IndexOf(s[1..], x)
  }

  /** `s` without the element at position `i` (`s.pop(i)` as a value). */
  function RemoveAt<T>(s: seq<T>, i: nat): (r: seq<T>)
    requires i < |s|
    ensures |r| == |s| - 1
    ensures forall k :: 0 <= k < i ==> r[k] == s[k]
    ensures forall k :: i <= k < |r| ==> r[k] == s[k + 1]
  {
    s[..i] + s[i + 1..]
  }

  lemma RemoveAtMultiset<T>(s: seq<T>, i: nat)
    requires i < |s|
    ensures multiset(RemoveAt(s, i)) == multiset(s) - multiset{s[i]}
  {
    assert s == s[..i] + [s[i]] + s[i + 1..];
  }

  lemma IndexOfCons<T>(s: seq<T>, x: T)
    requires x in s && s[0] != x
    ensures x in s[1..] && IndexOf(s, x) == 1 + IndexOf(s[1..], x)
  {
    var i :| 0 <= i < |s| && s[i] == x;
    assert s[1..][i - 1] == x;
  }

  lemma RemoveAtCons<T>(s: seq<T>, i: nat)
    requires 0 < i < |s|
    ensures RemoveAt(s, i) == [s[0]] + RemoveAt(s[1..], i - 1)
  {
    assert s[..i] == [s[0]] + s[1..][..i - 1];
    assert s[i + 1..] == s[1..][i..];
  }

  /**
   * `a` is what remains of `b` after deleting some of its elements:
   * the rest keep their relative order.
   */
  predicate IsSubseq<T(==)>(a: seq<T>, b: seq<T>)
    decreases |b|
  {
    if a == [] then true
    else if b == [] then false
    else if a[0] == b[0] then IsSubseq(a[1..], b[1..])
    else IsSubseq(a, b[1..])
  }

  lemma {:induction false} SubseqRefl<T>(a: seq<T>)
    ensures IsSubseq(a, a)
    decreases |a|
  {
    if a != [] {
      SubseqRefl(a[1..]);
    }
  }

  /** Dropping the first element of a subsequence keeps it a subsequence. */
  lemma {:induction false} SubseqDropHead<T>(a: seq<T>, b: seq<T>)
    requires a != [] && IsSubseq(a, b)
    ensures IsSubseq(a[1..], b)
    decreases |b|, 1
  {
    if a[0] == b[0] {
      SubseqCons(a[1..], b);
    } else {
      SubseqDropHead(a, b[1..]);
      SubseqCons(a[1..], b);
    }
  }

  /** A subsequence of the tail is a subsequence of the whole. */
  lemma {:induction false} SubseqCons<T>(a: seq<T>, b: seq<T>)
    requires b != [] && IsSubseq(a, b[1..])
    ensures IsSubseq(a, b)
    decreases |b|, 0
  {
    if a != [] && a[0] == b[0] {
      SubseqDropHead(a, b[1..]);
    }
  }

  lemma {:induction false} SubseqTrans<T>(a: seq<T>, b: seq<T>, c: seq<T>)
    requires IsSubseq(a, b) && IsSubseq(b, c)
    ensures IsSubseq(a, c)
    decreases |c|
  {
    if a == [] || b == [] || c == [] {
    } else if b[0] == c[0] {
      if a[0] == b[0] {
        SubseqTrans(a[1..], b[1..], c[1..]);
      } else {
        SubseqTrans(a, b[1..], c[1..]);
      }
    } else {
      SubseqTrans(a, b, c[1..]);
      if a[0] == c[0] {
        SubseqDropHead(a, c[1..]);
      }
    }
  }

  /** Removing one element leaves a subsequence. */
  lemma {:induction false} RemoveAtSubseq<T>(s: seq<T>, i: nat)
    requires i < |s|
    ensures IsSubseq(RemoveAt(s, i), s)
    decreases i
  {
    if i == 0 {
      assert RemoveAt(s, 0) == s[1..];
      SubseqRefl(s[1..]);
      SubseqCons(s[1..], s);
    } else {
      RemoveAtSubseq(s[1..], i - 1);
      var r := RemoveAt(s, i);
      assert r[0] == s[0] && r[1..] == RemoveAt(s[1..], i - 1);
    }
  }

  /** The elements of `s` without repeats, each where it first occurs. */
  function Dedup<T(==, !new)>(s: seq<T>): (r: seq<T>)
    ensures Distinct(r)
    ensures forall x :: x in r <==> x in s
  {
    if s == [] then []
    else
      var t := s[..|s| - 1];
      var rest := Dedup(t);
      var x := s[|s| - 1];
      assert s == t + [x];
      if x in rest then rest
      else
        assert forall i :: 0 <= i < |rest| ==> rest[i] != x;
        rest + [x]
  }

  /** The elements of a list, as a set (`set(s)`). */
  function ToSet<T(!new)>(s: seq<T>): (r: set<T>)
    ensures forall x :: x in r <==> x in s
  {
    set i | 0 <= i < |s| :: s[i]
  }

  /** `s.count(x)`. */
  function Count<T(==)>(s: seq<T>, x: T): nat {
    if s == [] then 0 else (if s[0] == x then 1 else 0) + Count(s[1..], x)
  }

  /** The last position whose element has key `k`, if any. */
  function LastIndexWithKey<T, K(==)>(xs: seq<T>, key: T -> K, k: K): (r: Option<nat>)
    ensures r.Some? ==> r.value < |xs| && key(xs[r.value]) == k
    ensures r.Some? ==> forall j :: r.value < j < |xs| ==> key(xs[j]) != k
    ensures r.None? ==> forall j :: 0 <= j < |xs| ==> key(xs[j]) != k
  {
    if xs == [] then None
    else if key(xs[|xs| - 1]) == k then Some(|xs| - 1)
    else LastIndexWithKey(xs[..|xs| - 1], key, k)
  }

  /**
   * `{key(x): x for x in xs}`: the dict built in list order, so for a key
   * shared by several elements the last one wins.
   */
  function MapByKey<T, K(==, !new)>(xs: seq<T>, key: T -> K): (m: map<K, T>)
    ensures forall k :: k in m <==> LastIndexWithKey(xs, key, k).Some?
    ensures forall k :: k in m ==> m[k] == xs[LastIndexWithKey(xs, key, k).value]
  {
    if xs == [] then map[]
    else
      var x := xs[|xs| - 1];
      var m := MapByKey(xs[..|xs| - 1], key)[key(x) := x];
      assert forall k :: k != key(x) ==> LastIndexWithKey(xs, key, k) == LastIndexWithKey(xs[..|xs| - 1], key, k);
      m
  }

  /** An element's key is in the dict, held by the last element with that key, at or after it. */
  lemma MapByKeyHas<T, K(!new)>(xs: seq<T>, key: T -> K, i: nat)
    requires i < |xs|
    ensures var last := LastIndexWithKey(xs, key, key(xs[i]));
      && key(xs[i]) in MapByKey(xs, key) && last.Some? && i <= last.value
      && MapByKey(xs, key)[key(xs[i])] == xs[last.value]
  {
  }

  lemma MapByKeyAppend<T, K(!new)>(xs: seq<T>, key: T -> K, x: T)
    ensures MapByKey(xs + [x], key) == MapByKey(xs, key)[key(x) := x]
  {
    assert (xs + [x])[..|xs|] == xs;
  }

  /**
   * Python's `t[i]` on a sequence: a negative index counts from the end,
   * anything outside `-|t| .. |t| - 1` raises IndexError.
   */
  function PyIndex<T>(t: seq<T>, i: int): (r: Result<T>)
    ensures r.Ok? <==> -|t| <= i < |t|
    ensures r.Ok? && i >= 0 ==> r.value == t[i]
    ensures r.Ok? && i < 0 ==> r.value == t[|t| + i]
    ensures r.Err? ==> r.error == IndexError
  {
    if 0 <= i < |t| then Ok(t[i])
    else if -|t| <= i < 0 then Ok(t[|t| + i])
    else Err(IndexError)
  }
}
