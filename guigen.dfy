/**
 * The dataset run (`guigen.py`): which images are drawn empty, the
 * per-image widget counters, the distribution of widget types over the
 * whole run, and the pre-order build of the widget objects from a tree.
 *
 * Drawing a GUI, rendering it and walking it is Qt's work; here it is the
 * parameter `render`, which gives the geometry distribution of the GUI
 * drawn for an image. The widget factory is the parameter `create`.
 */
module GuiGen {
  import opened Wrappers
  import opened SeqUtil
  import opened TreeDto
  import opened WidgetObjects
  import PyDict

  // ---------------------------------------------------------------------
  // Empty images

  /** Python's `int(x)` on a number: truncation toward zero. */
  function Trunc(x: real): (r: int)
    ensures 0.0 <= x ==> 0 <= r && r as real <= x < r as real + 1.0
    ensures x < 0.0 ==> r <= 0 && r as real - 1.0 < x <= r as real
  {
    if 0.0 <= x then x.Floor else -((-x).Floor)
  }

  /** `get_nmb_of_empty_widgets`: the dataset size times the empty ratio, truncated. */
  function NmbOfEmptyWidgets(datasetSize: nat, ratio: real): (e: int)
    ensures 0.0 <= ratio <= 1.0 ==> 0 <= e <= datasetSize
  {
    var x := datasetSize as real * ratio;
    assert 0.0 <= ratio <= 1.0 ==> 0.0 <= x <= datasetSize as real by {
      if 0.0 <= ratio <= 1.0 {
        assert datasetSize as real * ratio <= datasetSize as real * 1.0;
      }
    }
    Trunc(x)
  }

  /** `is_main_widget_invisible` for image `itemNum`. */
  predicate IsMainWidgetInvisible(itemNum: int, datasetSize: nat, ratio: real) {
    itemNum >= datasetSize - NmbOfEmptyWidgets(datasetSize, ratio)
  }

  /** The flags of the first `n` images. */
  function EmptyFlags(n: nat, datasetSize: nat, ratio: real): (r: seq<bool>)
    ensures |r| == n
    ensures forall k :: 0 <= k < n ==> r[k] == IsMainWidgetInvisible(k, datasetSize, ratio)
  {
    if n == 0 then [] else EmptyFlags(n - 1, datasetSize, ratio) + [IsMainWidgetInvisible(n - 1, datasetSize, ratio)]
  }

  lemma {:induction false} CountSnoc<T>(s: seq<T>, x: T, y: T)
    ensures Count(s + [x], y) == Count(s, y) + (if x == y then 1 else 0)
  {
    if s != [] {
      assert (s + [x])[1..] == s[1..] + [x];
      CountSnoc(s[1..], x, y);
    }
  }

  lemma {:induction false} CountEmptyFlags(n: nat, datasetSize: nat, ratio: real)
    requires 0.0 <= ratio <= 1.0
    ensures var cut := datasetSize - NmbOfEmptyWidgets(datasetSize, ratio);
      Count(EmptyFlags(n, datasetSize, ratio), true) == if n <= cut then 0 else n - cut
  {
    if n > 0 {
      CountEmptyFlags(n - 1, datasetSize, ratio);
      CountSnoc(EmptyFlags(n - 1, datasetSize, ratio), IsMainWidgetInvisible(n - 1, datasetSize, ratio), true);
    }
  }

  /**
   * With a ratio between 0 and 1, exactly `int(size * ratio)` images of
   * the run are drawn empty, and they are the last ones.
   */
  lemma EmptyImagesAreTheLast(datasetSize: nat, ratio: real)
    requires 0.0 <= ratio <= 1.0
    ensures var e := NmbOfEmptyWidgets(datasetSize, ratio);
      var flags := EmptyFlags(datasetSize, datasetSize, ratio);
      && 0 <= e <= datasetSize
      && Count(flags, true) == e
      && (forall k :: 0 <= k < datasetSize ==> (flags[k] <==> datasetSize - e <= k))
  {
    CountEmptyFlags(datasetSize, datasetSize, ratio);
  }

  // ---------------------------------------------------------------------
  // Per-image counters

  /** A geometry distribution: widget name to number of widgets, in the dict's order. */
  type Counter = PyDict.Dict<string, nat>

  /** The counters of a run: an empty image's dict is `create_empty_dict`'s, which counts nothing. */
  function Counters(datasetSize: nat, ratio: real, nWidgets: nat, render: (nat, nat) -> Counter): (r: seq<Counter>)
    ensures |r| == datasetSize
  {
    seq(datasetSize, k requires 0 <= k < datasetSize =>
      if IsMainWidgetInvisible(k, datasetSize, ratio) then PyDict.Empty() else render(nWidgets, k))
  }

  /**
   * `generate`'s loop, as far as the counters go: image `k` is drawn from a
   * tree of `nWidgets` widgets, the size drawn once for the whole run, and
   * contributes its distribution, or the empty one when it is drawn empty.
   */
  method Generate(datasetSize: nat, ratio: real, nWidgets: nat, render: (nat, nat) -> Counter)
    returns (widgetsCounterList: seq<Counter>)
    ensures |widgetsCounterList| == datasetSize
    ensures forall k :: 0 <= k < datasetSize ==>
      widgetsCounterList[k] == (if IsMainWidgetInvisible(k, datasetSize, ratio) then PyDict.Empty() else render(nWidgets, k))
    ensures widgetsCounterList == Counters(datasetSize, ratio, nWidgets, render)
  {
    widgetsCounterList := [];
    var itemNum := 0;
    while itemNum < datasetSize
      invariant 0 <= itemNum <= datasetSize && |widgetsCounterList| == itemNum
      invariant forall k :: 0 <= k < itemNum ==>
        widgetsCounterList[k] == (if IsMainWidgetInvisible(k, datasetSize, ratio) then PyDict.Empty() else render(nWidgets, k))
    {
      var isMainWidgetInvisible := itemNum >= datasetSize - NmbOfEmptyWidgets(datasetSize, ratio);
      var distrib := render(nWidgets, itemNum);
      if isMainWidgetInvisible {
        distrib := PyDict.Empty();
      }
      widgetsCounterList := widgetsCounterList + [distrib];
      itemNum := itemNum + 1;
    }
  }

  // ---------------------------------------------------------------------
  // The distribution over the run

  /** `d[k]` where a missing key counts 0. */
  function Get0(d: Counter, k: string): nat {
    if k in d.m then d.m[k] else 0
  }

  /** The sum of the values stored under `keys`. */
  function SumKeys(keys: seq<string>, m: map<string, nat>): int
    requires forall k :: k in keys ==> k in m
  {
    if keys == [] then 0 else m[keys[0]] + SumKeys(keys[1..], m)
  }

  /** `sum(d.values())`. */
  function SumValues(d: Counter): int
    requires PyDict.Valid(d)
  {
    SumKeys(d.keys, d.m)
  }

  lemma {:induction false} SumKeysFrame(keys: seq<string>, m1: map<string, nat>, m2: map<string, nat>)
    requires forall k :: k in keys ==> k in m1 && k in m2 && m1[k] == m2[k]
    ensures SumKeys(keys, m1) == SumKeys(keys, m2)
  {
    if keys != [] {
      SumKeysFrame(keys[1..], m1, m2);
    }
  }

  lemma {:induction false} SumKeysSnoc(keys: seq<string>, k: string, m: map<string, nat>)
    requires forall x :: x in keys + [k] ==> x in m
    ensures SumKeys(keys + [k], m) == SumKeys(keys, m) + m[k]
  {
    if keys != [] {
      assert (keys + [k])[1..] == keys[1..] + [k];
      SumKeysSnoc(keys[1..], k, m);
    }
  }

  lemma {:induction false} SumKeysUpdate(keys: seq<string>, k: string, v: nat, m: map<string, nat>)
    requires Distinct(keys) && k in keys && forall x :: x in keys ==> x in m
    ensures SumKeys(keys, m[k := v]) == SumKeys(keys, m) - m[k] + v
  {
    if keys[0] == k {
      SumKeysFrame(keys[1..], m[k := v], m);
    } else {
      SumKeysUpdate(keys[1..], k, v, m);
    }
  }

  lemma {:induction false} SumKeysWithout(keys: seq<string>, k: string, m: map<string, nat>)
    requires Distinct(keys) && k in keys && forall x :: x in keys ==> x in m
    ensures SumKeys(PyDict.Without(keys, k), m) == SumKeys(keys, m) - m[k]
  {
    if keys[0] == k {
      assert k !in keys[1..];
      WithoutAbsent(keys[1..], k);
    } else {
      SumKeysWithout(keys[1..], k, m);
    }
  }

  lemma {:induction false} WithoutAbsent(keys: seq<string>, k: string)
    requires k !in keys
    ensures PyDict.Without(keys, k) == keys
  {
    if keys != [] {
      WithoutAbsent(keys[1..], k);
    }
  }

  /** Assigning `v` to `k` changes the sum by `v` less what `k` held. */
  lemma SumValuesSet(d: Counter, k: string, v: nat)
    requires PyDict.Valid(d)
    ensures SumValues(PyDict.Set(d, k, v)) == SumValues(d) - Get0(d, k) + v
  {
    if k in d.m {
      SumKeysUpdate(d.keys, k, v, d.m);
    } else {
      SumKeysSnoc(d.keys, k, d.m[k := v]);
      SumKeysFrame(d.keys, d.m[k := v], d.m);
    }
  }

  /** `pop(k)` takes what `k` held off the sum. */
  lemma SumValuesPop(d: Counter, k: string)
    requires PyDict.Valid(d) && k in d.m
    ensures SumValues(PyDict.Pop(d, k)) == SumValues(d) - d.m[k]
  {
    SumKeysFrame(PyDict.Without(d.keys, k), d.m - {k}, d.m);
    SumKeysWithout(d.keys, k, d.m);
  }

  /**
   * One pass of the inner loop over an image's counter: a name outside
   * the except list adds the count `d` holds for it to the running dict
   * (created at 0 when new) and to `total`.
   */
  function TallyStep(acc: Counter, total: int, d: Counter, name: string, exceptList: seq<string>): (r: (Counter, int))
    requires PyDict.Valid(acc)
    ensures PyDict.Valid(r.0)
  {
    if name in exceptList then (acc, total)
    else (PyDict.Set(acc, name, Get0(acc, name) + Get0(d, name)), total + Get0(d, name))
  }

  /** The step adds the name's count to that name only, and nothing once the name is excepted. */
  lemma TallyStepCount(acc: Counter, total: int, d: Counter, name: string, exceptList: seq<string>, n: string)
    requires PyDict.Valid(acc)
    ensures Get0(TallyStep(acc, total, d, name, exceptList).0, n)
      == Get0(acc, n) + (if n == name && name !in exceptList then Get0(d, name) else 0)
  {
  }

  /** `total` grows by exactly what the dict's values grow by. */
  lemma TallyStepSum(acc: Counter, total: int, d: Counter, name: string, exceptList: seq<string>)
    requires PyDict.Valid(acc)
    ensures var r := TallyStep(acc, total, d, name, exceptList);
      SumValues(r.0) - r.1 == SumValues(acc) - total
  {
    if name !in exceptList {
      SumValuesSet(acc, name, Get0(acc, name) + Get0(d, name));
    }
  }

  /** The step makes no key other than the name, and none for an excepted name. */
  lemma TallyStepKeys(acc: Counter, total: int, d: Counter, name: string, exceptList: seq<string>, n: string)
    requires PyDict.Valid(acc) && n !in acc.m && (n in exceptList || n != name)
    ensures n !in TallyStep(acc, total, d, name, exceptList).0.m
  {
  }

  /** The inner loop over one image's counter, from the key `names[0]` on: the running dict and `total`. */
  function TallyNames(acc: Counter, total: int, d: Counter, names: seq<string>, exceptList: seq<string>): (r: (Counter, int))
    requires PyDict.Valid(acc)
    ensures PyDict.Valid(r.0)
    decreases names
  {
    if names == [] then (acc, total)
    else
      var s := TallyStep(acc, total, d, names[0], exceptList);
      TallyNames(s.0, s.1, d, names[1..], exceptList)
  }

  /** The outer loop over the counters of the run. */
  function TallyAll(acc: Counter, total: int, ds: seq<Counter>, exceptList: seq<string>): (r: (Counter, int))
    requires PyDict.Valid(acc) && forall i :: 0 <= i < |ds| ==> PyDict.Valid(ds[i])
    ensures PyDict.Valid(r.0)
    decreases ds
  {
    if ds == [] then (acc, total)
    else
      assert PyDict.Valid(ds[0]);
      var s := TallyNames(acc, total, ds[0], ds[0].keys, exceptList);
      TallyAll(s.0, s.1, ds[1..], exceptList)
  }

  /** The count of `name` summed over the counters. */
  function SumCount(ds: seq<Counter>, name: string): nat {
    if ds == [] then 0 else Get0(ds[0], name) + SumCount(ds[1..], name)
  }

  lemma {:induction false} TallyNamesCount(acc: Counter, total: int, d: Counter, names: seq<string>,
                                          exceptList: seq<string>, n: string)
    requires PyDict.Valid(acc) && Distinct(names)
    ensures Get0(TallyNames(acc, total, d, names, exceptList).0, n)
      == Get0(acc, n) + (if n in names && n !in exceptList then Get0(d, n) else 0)
    decreases names
  {
    if names != [] {
      DistinctTail(names);
      var s := TallyStep(acc, total, d, names[0], exceptList);
      TallyStepCount(acc, total, d, names[0], exceptList, n);
      TallyNamesCount(s.0, s.1, d, names[1..], exceptList, n);
    }
  }

  /** Each image adds, for every name not in the except list, exactly its count. */
  lemma {:induction false} TallyAllCount(acc: Counter, total: int, ds: seq<Counter>, exceptList: seq<string>, n: string)
    requires PyDict.Valid(acc) && forall i :: 0 <= i < |ds| ==> PyDict.Valid(ds[i])
    ensures Get0(TallyAll(acc, total, ds, exceptList).0, n)
      == Get0(acc, n) + (if n in exceptList then 0 else SumCount(ds, n))
    decreases ds
  {
    if ds != [] {
      var s := TallyNames(acc, total, ds[0], ds[0].keys, exceptList);
      TallyNamesCount(acc, total, ds[0], ds[0].keys, exceptList, n);
      TallyAllCount(s.0, s.1, ds[1..], exceptList, n);
    }
  }

  lemma {:induction false} TallyNamesSum(acc: Counter, total: int, d: Counter, names: seq<string>, exceptList: seq<string>)
    requires PyDict.Valid(acc)
    ensures var r := TallyNames(acc, total, d, names, exceptList);
      SumValues(r.0) - r.1 == SumValues(acc) - total
    decreases names
  {
    if names != [] {
      var s := TallyStep(acc, total, d, names[0], exceptList);
      TallyStepSum(acc, total, d, names[0], exceptList);
      TallyNamesSum(s.0, s.1, d, names[1..], exceptList);
    }
  }

  /** `total` is the sum of the running dict's values, as it stands after every step. */
  lemma {:induction false} TallyAllSum(acc: Counter, total: int, ds: seq<Counter>, exceptList: seq<string>)
    requires PyDict.Valid(acc) && forall i :: 0 <= i < |ds| ==> PyDict.Valid(ds[i])
    ensures var r := TallyAll(acc, total, ds, exceptList);
      SumValues(r.0) - r.1 == SumValues(acc) - total
    decreases ds
  {
    if ds != [] {
      var s := TallyNames(acc, total, ds[0], ds[0].keys, exceptList);
      TallyNamesSum(acc, total, ds[0], ds[0].keys, exceptList);
      TallyAllSum(s.0, s.1, ds[1..], exceptList);
    }
  }

  lemma {:induction false} TallyNamesKeys(acc: Counter, total: int, d: Counter, names: seq<string>,
                                         exceptList: seq<string>, n: string)
    requires PyDict.Valid(acc)
    requires n !in acc.m && (n in exceptList || n !in names)
    ensures n !in TallyNames(acc, total, d, names, exceptList).0.m
    decreases names
  {
    if names != [] {
      var s := TallyStep(acc, total, d, names[0], exceptList);
      assert names[0] in names;
      assert forall x :: x in names[1..] ==> x in names;
      TallyStepKeys(acc, total, d, names[0], exceptList, n);
      TallyNamesKeys(s.0, s.1, d, names[1..], exceptList, n);
    }
  }

  /** A name no counter has, or one in the except list, never becomes a key. */
  lemma {:induction false} TallyAllKeys(acc: Counter, total: int, ds: seq<Counter>, exceptList: seq<string>, n: string)
    requires PyDict.Valid(acc) && forall i :: 0 <= i < |ds| ==> PyDict.Valid(ds[i])
    requires n !in acc.m && (n in exceptList || forall i :: 0 <= i < |ds| ==> n !in ds[i].m)
    ensures n !in TallyAll(acc, total, ds, exceptList).0.m
    decreases ds
  {
    if ds != [] {
      var s := TallyNames(acc, total, ds[0], ds[0].keys, exceptList);
      TallyNamesKeys(acc, total, ds[0], ds[0].keys, exceptList, n);
      assert forall i :: 0 <= i < |ds[1..]| ==> ds[1..][i] == ds[i + 1];
      TallyAllKeys(s.0, s.1, ds[1..], exceptList, n);
    }
  }

  /** Empty counters at the end of the run change nothing. */
  lemma {:induction false} TallyAllEmptyTail(acc: Counter, total: int, ds: seq<Counter>, exceptList: seq<string>, k: nat)
    requires PyDict.Valid(acc) && forall i :: 0 <= i < |ds| ==> PyDict.Valid(ds[i])
    requires k <= |ds| && forall i :: k <= i < |ds| ==> ds[i] == PyDict.Empty()
    ensures TallyAll(acc, total, ds, exceptList) == TallyAll(acc, total, ds[..k], exceptList)
    decreases ds
  {
    if ds != [] {
      if k == 0 {
        assert ds[0].keys == [];
        assert forall i :: 0 <= i < |ds[1..]| ==> ds[1..][i] == ds[i + 1];
        TallyAllEmptyTail(acc, total, ds[1..], exceptList, 0);
        assert ds[1..][..0] == [] && ds[..0] == [];
      } else {
        var s := TallyNames(acc, total, ds[0], ds[0].keys, exceptList);
        assert forall i :: 0 <= i < |ds[1..]| ==> ds[1..][i] == ds[i + 1];
        TallyAllEmptyTail(s.0, s.1, ds[1..], exceptList, k - 1);
        assert ds[..k][0] == ds[0] && ds[..k][1..] == ds[1..][..k - 1];
      }
    }
  }

  /** `d[k] = 0` unless `k` is a key already. */
  function SetDefault(d: Counter, k: string): (r: Counter)
    requires PyDict.Valid(d)
    ensures PyDict.Valid(r) && k in r.m
    ensures forall x :: Get0(r, x) == Get0(d, x)
    ensures forall x :: x != k ==> (x in r.m <==> x in d.m)
    ensures SumValues(r) == SumValues(d)
  {
    if k in d.m then d
    else
      SumValuesSet(d, k, 0);
      PyDict.Set(d, k, 0)
  }

  /** The five keys the merge needs, each defaulting to 0. */
  function WithDefaults(d: Counter): (r: Counter)
    requires PyDict.Valid(d)
    ensures PyDict.Valid(r)
    ensures "Button" in r.m && "HorScrollBar" in r.m && "VertScrollBar" in r.m
    ensures "ScrollBarButton" in r.m && "MenuItem" in r.m
    ensures forall x :: Get0(r, x) == Get0(d, x)
    ensures forall x ::
      (x != "Button" && x != "HorScrollBar" && x != "VertScrollBar" && x != "ScrollBarButton" && x != "MenuItem")
      ==> (x in r.m <==> x in d.m)
    ensures SumValues(r) == SumValues(d)
  {
    MergeKeysDistinct();
    var d1 := SetDefault(d, "Button");
    var d2 := SetDefault(d1, "HorScrollBar");
    var d3 := SetDefault(d2, "VertScrollBar");
    var d4 := SetDefault(d3, "ScrollBarButton");
    SetDefault(d4, "MenuItem")
  }

  /** `d[k] = v` followed by `d.pop(p)`. */
  function SetPop(d: Counter, k: string, v: nat, p: string): (r: Counter)
    requires PyDict.Valid(d) && p in d.m && k != p
    ensures PyDict.Valid(r)
    ensures p !in r.m && k in r.m && r.m[k] == v
    ensures forall x :: x != k && x != p ==> (x in r.m <==> x in d.m) && (x in r.m ==> r.m[x] == d.m[x])
    ensures SumValues(r) == SumValues(d) - Get0(d, k) + v - d.m[p]
  {
    var a := PyDict.Set(d, k, v);
    SumValuesSet(d, k, v);
    SumValuesPop(a, p);
    PyDict.Pop(a, p)
  }

  /** `d[t] = d[k1] + d[k2]`, then `k1` and `k2` popped. */
  function SumInto(d: Counter, t: string, k1: string, k2: string): (r: Counter)
    requires PyDict.Valid(d) && k1 in d.m && k2 in d.m && t != k1 && t != k2 && k1 != k2
    ensures PyDict.Valid(r)
    ensures k1 !in r.m && k2 !in r.m && t in r.m && r.m[t] == d.m[k1] + d.m[k2]
    ensures forall x :: x != t && x != k1 && x != k2 ==> (x in r.m <==> x in d.m) && (x in r.m ==> r.m[x] == d.m[x])
    ensures SumValues(r) == SumValues(d) - Get0(d, t)
  {
    var a := SetPop(d, t, d.m[k1] + d.m[k2], k1);
    assert a.m[k2] == d.m[k2];
    SumValuesPop(a, k2);
    PyDict.Pop(a, k2)
  }

  /**
   * `d[t] += d[k1]`, `d[t] += d[k2]`, then `k1` and `k2` popped; written as
   * one add-and-pop per key, which gives the same dict since `t` keeps its
   * place and neither update reads a popped key.
   */
  function AddInto(d: Counter, t: string, k1: string, k2: string): (r: Counter)
    requires PyDict.Valid(d) && t in d.m && k1 in d.m && k2 in d.m && t != k1 && t != k2 && k1 != k2
    ensures PyDict.Valid(r)
    ensures k1 !in r.m && k2 !in r.m && t in r.m && r.m[t] == d.m[t] + d.m[k1] + d.m[k2]
    ensures forall x :: x != t && x != k1 && x != k2 ==> (x in r.m <==> x in d.m) && (x in r.m ==> r.m[x] == d.m[x])
    ensures SumValues(r) == SumValues(d)
  {
    var a := SetPop(d, t, d.m[t] + d.m[k1], k1);
    assert a.m[k2] == d.m[k2];
    SetPop(a, t, a.m[t] + a.m[k2], k2)
  }

  /** "ScrollBar" becomes the sum of the two scroll bars, which are popped. */
  function MergeScrollBars(d: Counter): (r: Counter)
    requires PyDict.Valid(d) && "HorScrollBar" in d.m && "VertScrollBar" in d.m
    ensures PyDict.Valid(r)
  {
    SumInto(d, "ScrollBar", "HorScrollBar", "VertScrollBar")
  }

  /** The buttons of scroll bars and the menu items are added to "Button" and popped. */
  function MergeButtons(d: Counter): (r: Counter)
    requires PyDict.Valid(d) && "Button" in d.m && "ScrollBarButton" in d.m && "MenuItem" in d.m
    ensures PyDict.Valid(r)
  {
    AddInto(d, "Button", "ScrollBarButton", "MenuItem")
  }

  /** The dict the distribution is printed from, after the defaults and the merge. */
  function Merged(d: Counter): (r: Counter)
    requires PyDict.Valid(d)
    ensures PyDict.Valid(r)
  {
    MergeButtons(MergeScrollBars(WithDefaults(d)))
  }

  /** What the merge does to each key: the four merged keys are gone. */
  lemma MergedDropsMergedKeys(d: Counter)
    requires PyDict.Valid(d)
    ensures var r := Merged(d);
      "HorScrollBar" !in r.m && "VertScrollBar" !in r.m && "ScrollBarButton" !in r.m && "MenuItem" !in r.m
  {
  }

  /** "ScrollBar" holds the two scroll bars' counts. */
  lemma MergedScrollBar(d: Counter)
    requires PyDict.Valid(d)
    ensures var r := Merged(d);
      "ScrollBar" in r.m && r.m["ScrollBar"] == Get0(d, "HorScrollBar") + Get0(d, "VertScrollBar")
  {
    MergeKeysDistinct();
    var w := WithDefaults(d);
    assert Get0(w, "HorScrollBar") == Get0(d, "HorScrollBar") && Get0(w, "VertScrollBar") == Get0(d, "VertScrollBar");
    SumThenAdd(w, "ScrollBar", "HorScrollBar", "VertScrollBar", "Button", "ScrollBarButton", "MenuItem");
  }

  /** A sum stored under `t` survives a later `AddInto` over three other keys. */
  lemma SumThenAdd(w: Counter, t: string, k1: string, k2: string, u: string, j1: string, j2: string)
    requires PyDict.Valid(w) && k1 in w.m && k2 in w.m && t != k1 && t != k2 && k1 != k2
    requires u in w.m && j1 in w.m && j2 in w.m && u != j1 && u != j2 && j1 != j2
    requires u != t && u != k1 && u != k2 && j1 != t && j1 != k1 && j1 != k2 && j2 != t && j2 != k1 && j2 != k2
    ensures var r := AddInto(SumInto(w, t, k1, k2), u, j1, j2);
      t in r.m && r.m[t] == w.m[k1] + w.m[k2]
  {
  }

  /** The keys the merge touches are six different names. */
  lemma MergeKeysDistinct()
    ensures "Button" != "ScrollBarButton" && "Button" != "MenuItem" && "ScrollBarButton" != "MenuItem"
    ensures "ScrollBar" != "HorScrollBar" && "ScrollBar" != "VertScrollBar" && "HorScrollBar" != "VertScrollBar"
    ensures "Button" != "ScrollBar" && "Button" != "HorScrollBar" && "Button" != "VertScrollBar"
    ensures "ScrollBarButton" != "ScrollBar" && "ScrollBarButton" != "HorScrollBar" && "ScrollBarButton" != "VertScrollBar"
    ensures "MenuItem" != "ScrollBar" && "MenuItem" != "HorScrollBar" && "MenuItem" != "VertScrollBar"
  {
    assert |"Button"| == 6 && |"MenuItem"| == 8 && |"ScrollBar"| == 9;
    assert |"HorScrollBar"| == 12 && |"VertScrollBar"| == 13 && |"ScrollBarButton"| == 15;
  }

  /** "Button" holds the buttons, the scroll bar buttons and the menu items. */
  lemma MergedButton(d: Counter)
    requires PyDict.Valid(d)
    ensures var r := Merged(d);
      "Button" in r.m && r.m["Button"] == Get0(d, "Button") + Get0(d, "ScrollBarButton") + Get0(d, "MenuItem")
  {
    MergeKeysDistinct();
    var w := WithDefaults(d);
    assert Get0(w, "Button") == Get0(d, "Button") && Get0(w, "ScrollBarButton") == Get0(d, "ScrollBarButton");
    assert Get0(w, "MenuItem") == Get0(d, "MenuItem");
    var s := MergeScrollBars(w);
    assert s.m["Button"] == w.m["Button"] && s.m["ScrollBarButton"] == w.m["ScrollBarButton"];
    assert s.m["MenuItem"] == w.m["MenuItem"];
  }

  /** Every other key is kept as it is. */
  lemma MergedOther(d: Counter, x: string)
    requires PyDict.Valid(d)
    requires x != "Button" && x != "HorScrollBar" && x != "VertScrollBar"
    requires x != "ScrollBarButton" && x != "MenuItem" && x != "ScrollBar"
    ensures var r := Merged(d);
      (x in r.m <==> x in d.m) && Get0(r, x) == Get0(d, x)
  {
    var w := WithDefaults(d);
    assert Get0(w, x) == Get0(d, x) && (x in w.m <==> x in d.m);
    var s := MergeScrollBars(w);
    assert (x in s.m <==> x in w.m) && Get0(s, x) == Get0(w, x);
  }

  /**
   * The merge keeps the sum of the values, except that a "ScrollBar" key
   * already present is overwritten and so drops out of it.
   */
  lemma MergedSum(d: Counter)
    requires PyDict.Valid(d)
    ensures SumValues(Merged(d)) == SumValues(d) - Get0(d, "ScrollBar")
  {
    var w := WithDefaults(d);
    assert Get0(w, "ScrollBar") == Get0(d, "ScrollBar");
  }

  /** The labels and counts `print_widgets_distribution` plots. */
  function Distribution(counters: seq<Counter>, exceptList: seq<string>): (r: (seq<string>, seq<nat>))
    requires forall i :: 0 <= i < |counters| ==> PyDict.Valid(counters[i])
  {
    var s := TallyAll(PyDict.Empty(), 0, counters, exceptList);
    var merged := Merged(s.0);
    if s.1 != 0 then (merged.keys, PyDict.Values(merged)) else ([], [])
  }

  /**
   * The distribution: a widget type other than the merged ones is plotted
   * with its count summed over the run, and none of the except list.
   */
  lemma DistributionCount(counters: seq<Counter>, exceptList: seq<string>, n: string)
    requires forall i :: 0 <= i < |counters| ==> PyDict.Valid(counters[i])
    requires n != "Button" && n != "HorScrollBar" && n != "VertScrollBar"
    requires n != "ScrollBarButton" && n != "MenuItem" && n != "ScrollBar"
    ensures var merged := Merged(TallyAll(PyDict.Empty(), 0, counters, exceptList).0);
      Get0(merged, n) == if n in exceptList then 0 else SumCount(counters, n)
  {
    var s := TallyAll(PyDict.Empty(), 0, counters, exceptList);
    TallyAllCount(PyDict.Empty(), 0, counters, exceptList, n);
    MergedOther(s.0, n);
  }

  /** The plotted "Button" count is the buttons, scroll bar buttons and menu items of the run. */
  lemma DistributionButtons(counters: seq<Counter>, exceptList: seq<string>)
    requires forall i :: 0 <= i < |counters| ==> PyDict.Valid(counters[i])
    ensures var merged := Merged(TallyAll(PyDict.Empty(), 0, counters, exceptList).0);
      merged.m["Button"] == (if "Button" in exceptList then 0 else SumCount(counters, "Button"))
        + (if "ScrollBarButton" in exceptList then 0 else SumCount(counters, "ScrollBarButton"))
        + (if "MenuItem" in exceptList then 0 else SumCount(counters, "MenuItem"))
  {
    var s := TallyAll(PyDict.Empty(), 0, counters, exceptList);
    TallyAllCount(PyDict.Empty(), 0, counters, exceptList, "Button");
    TallyAllCount(PyDict.Empty(), 0, counters, exceptList, "ScrollBarButton");
    TallyAllCount(PyDict.Empty(), 0, counters, exceptList, "MenuItem");
    MergedButton(s.0);
  }

  /** The plotted counts add up to `total` as long as no widget is called "ScrollBar". */
  lemma DistributionAddsUp(counters: seq<Counter>, exceptList: seq<string>)
    requires forall i :: 0 <= i < |counters| ==> PyDict.Valid(counters[i])
    requires forall i :: 0 <= i < |counters| ==> "ScrollBar" !in counters[i].m
    ensures var s := TallyAll(PyDict.Empty(), 0, counters, exceptList);
      SumValues(Merged(s.0)) == s.1
  {
    var s := TallyAll(PyDict.Empty(), 0, counters, exceptList);
    TallyAllSum(PyDict.Empty(), 0, counters, exceptList);
    TallyAllKeys(PyDict.Empty(), 0, counters, exceptList, "ScrollBar");
    MergedSum(s.0);
  }

  /** Over a run, only the images drawn with widgets count: the empty ones are the last and add nothing. */
  lemma EmptyImagesCountNothing(datasetSize: nat, ratio: real, nWidgets: nat, render: (nat, nat) -> Counter,
                                exceptList: seq<string>)
    requires 0.0 <= ratio <= 1.0
    requires forall i, k :: PyDict.Valid(render(i, k))
    ensures var cs := Counters(datasetSize, ratio, nWidgets, render);
      var visible := datasetSize - NmbOfEmptyWidgets(datasetSize, ratio);
      && 0 <= visible <= datasetSize
      && (forall k :: 0 <= k < visible ==> cs[k] == render(nWidgets, k))
      && TallyAll(PyDict.Empty(), 0, cs, exceptList) == TallyAll(PyDict.Empty(), 0, cs[..visible], exceptList)
  {
    var cs := Counters(datasetSize, ratio, nWidgets, render);
    var visible := datasetSize - NmbOfEmptyWidgets(datasetSize, ratio);
    TallyAllEmptyTail(PyDict.Empty(), 0, cs, exceptList, visible);
  }

  /** The image's counter loop, adding each key of `d` in its order. */
  method TallyCounter(acc: Counter, total: int, d: Counter, exceptList: seq<string>) returns (acc': Counter, total': int)
    requires PyDict.Valid(acc) && PyDict.Valid(d)
    ensures (acc', total') == TallyNames(acc, total, d, d.keys, exceptList)
  {
    acc', total' := acc, total;
    var i := 0;
    while i < |d.keys|
      invariant 0 <= i <= |d.keys| && PyDict.Valid(acc')
      invariant TallyNames(acc', total', d, d.keys[i..], exceptList) == TallyNames(acc, total, d, d.keys, exceptList)
    {
      TallyNamesStep(acc', total', d, d.keys, i, exceptList);
      acc', total' := TallyKey(acc', total', d, d.keys[i], exceptList);
      i := i + 1;
    }
    assert d.keys[i..] == [];
  }

  lemma TallyNamesStep(acc: Counter, total: int, d: Counter, names: seq<string>, i: nat, exceptList: seq<string>)
    requires PyDict.Valid(acc) && i < |names|
    ensures var s := TallyStep(acc, total, d, names[i], exceptList);
      TallyNames(s.0, s.1, d, names[i + 1..], exceptList) == TallyNames(acc, total, d, names[i..], exceptList)
  {
    assert names[i..][0] == names[i] && names[i..][1..] == names[i + 1..];
  }

  /** One pass of the inner loop of `print_widgets_distribution`. */
  method TallyKey(acc: Counter, total: int, d: Counter, name: string, exceptList: seq<string>)
    returns (acc': Counter, total': int)
    requires PyDict.Valid(acc) && name in d.m
    ensures (acc', total') == TallyStep(acc, total, d, name, exceptList)
  {
    var count := d.m[name];
    acc', total' := acc, total;
    if name !in exceptList {
      acc' := AddCount(acc', name, count);
      total' := total' + count;
    }
  }

  /** `widget_distrib[name] = 0` when the name is new, then `widget_distrib[name] += count`. */
  method AddCount(acc: Counter, name: string, count: nat) returns (acc': Counter)
    requires PyDict.Valid(acc)
    ensures acc' == PyDict.Set(acc, name, Get0(acc, name) + count)
  {
    ghost var expected := PyDict.Set(acc, name, Get0(acc, name) + count);
    acc' := acc;
    if name !in acc'.m {
      acc' := PyDict.Set(acc', name, 0);
    }
    acc' := PyDict.Set(acc', name, acc'.m[name] + count);
    assert acc'.keys == expected.keys && acc'.m == expected.m;
  }

  /** `print_widgets_distribution`, returning the labels and counts it plots. */
  method PrintWidgetsDistribution(widgetsCounterList: seq<Counter>, exceptList: seq<string>)
    returns (labels: seq<string>, counts: seq<nat>)
    requires forall i :: 0 <= i < |widgetsCounterList| ==> PyDict.Valid(widgetsCounterList[i])
    ensures (labels, counts) == Distribution(widgetsCounterList, exceptList)
  {
    var widgetDistrib: Counter := PyDict.Empty();
    var total := 0;
    var j := 0;
    while j < |widgetsCounterList|
      invariant 0 <= j <= |widgetsCounterList| && PyDict.Valid(widgetDistrib)
      invariant TallyAll(widgetDistrib, total, widgetsCounterList[j..], exceptList)
        == TallyAll(PyDict.Empty(), 0, widgetsCounterList, exceptList)
    {
      assert widgetsCounterList[j..][0] == widgetsCounterList[j];
      assert widgetsCounterList[j..][1..] == widgetsCounterList[j + 1..];
      widgetDistrib, total := TallyCounter(widgetDistrib, total, widgetsCounterList[j], exceptList);
      j := j + 1;
    }
    assert widgetsCounterList[j..] == [];
    var merged := Merged(widgetDistrib);
    labels, counts := [], [];
    if total != 0 {
      labels, counts := Items(merged);
    }
  }

  /** The `items()` loop that collects the plotted names and counts. */
  method Items(d: Counter) returns (labels: seq<string>, counts: seq<nat>)
    requires PyDict.Valid(d)
    ensures labels == d.keys && counts == PyDict.Values(d)
  {
    labels, counts := [], [];
    var i := 0;
    while i < |d.keys|
      invariant 0 <= i <= |d.keys|
      invariant labels == d.keys[..i] && counts == PyDict.Values(d)[..i]
    {
      labels := labels + [d.keys[i]];
      counts := counts + [d.m[d.keys[i]]];
      i := i + 1;
    }
    assert d.keys[..i] == d.keys;
    assert PyDict.Values(d)[..i] == PyDict.Values(d);
  }

  // ---------------------------------------------------------------------
  // Building the widget objects from a tree

  /** A menu item takes the next id from `MenuItemWidget.n_menu_item`; no other widget does. */
  function MenuStep(name: string): nat {
    if name == "MenuItem" then 1 else 0
  }

  /** The number of menu items among `cs` and below. */
  function MenuCount(cs: seq<NodeDto>): nat
    decreases cs
  {
    if cs == [] then 0 else MenuStep(cs[0].name) + MenuCount(cs[0].children) + MenuCount(cs[1..])
  }

  /**
   * `_create_children` from `parent` with the menu item counter at `next`:
   * the grown object and the counter afterwards. `create(name, id)` is the
   * object the factory builds for `name` (a menu item takes `id` as its
   * own). Adding a child to an object that is not a container raises
   * AttributeError, as the plain widget object has no `add_child`.
   */
  function BuiltAll(cs: seq<NodeDto>, parent: WidgetObject, next: nat, create: (string, nat) -> WidgetObject)
    : Result<(WidgetObject, nat)>
    decreases cs
  {
    if cs == [] then Ok((parent, next))
    else if !parent.isContainer then Err(AttributeError)
    else
      var child := create(cs[0].name, next);
      match BuiltAll(cs[0].children, child, next + MenuStep(cs[0].name), create)
      case Err(e) => Err(e)
      case Ok(c) => BuiltAll(cs[1..], parent.(children := parent.children + [c.0]), c.1, create)
  }

  /** `w`'s last children are built from `node`'s children, name by name and level by level. */
  ghost predicate Grown(w: WidgetObject, node: NodeDto)
    decreases node, 1
  {
    |w.children| >= |node.children| && GrownKids(w.children[|w.children| - |node.children|..], node.children)
  }

  ghost predicate GrownKids(kids: seq<WidgetObject>, cs: seq<NodeDto>)
    decreases cs, 0
  {
    |kids| == |cs| && forall j :: 0 <= j < |cs| ==> kids[j].widgetName == cs[j].name && Grown(kids[j], cs[j])
  }

  /**
   * The build keeps `parent` and its own children and appends one child
   * per node, in order, each grown from its node; the counter goes up by
   * the number of menu items.
   */
  lemma {:induction false} BuiltAllGrows(cs: seq<NodeDto>, parent: WidgetObject, next: nat,
                                         create: (string, nat) -> WidgetObject)
    requires forall n, i :: create(n, i).widgetName == n
    requires BuiltAll(cs, parent, next, create).Ok?
    ensures var r := BuiltAll(cs, parent, next, create).value;
      && r.0 == parent.(children := r.0.children)
      && |r.0.children| == |parent.children| + |cs|
      && r.0.children[..|parent.children|] == parent.children
      && GrownKids(r.0.children[|parent.children|..], cs)
      && r.1 == next + MenuCount(cs)
    decreases cs
  {
    if cs != [] {
      var child := create(cs[0].name, next);
      var c := BuiltAll(cs[0].children, child, next + MenuStep(cs[0].name), create).value;
      BuiltAllGrows(cs[0].children, child, next + MenuStep(cs[0].name), create);
      assert Grown(c.0, cs[0]);
      var p1 := parent.(children := parent.children + [c.0]);
      BuiltAllGrows(cs[1..], p1, c.1, create);
      var r := BuiltAll(cs, parent, next, create).value;
      assert r == BuiltAll(cs[1..], p1, c.1, create).value;
      assert r.0.children[..|p1.children|] == p1.children;
      var kids := r.0.children[|parent.children|..];
      assert kids[0] == c.0 by {
        assert r.0.children[|parent.children|] == p1.children[|parent.children|];
      }
      assert kids[1..] == r.0.children[|p1.children|..];
      assert r.0.children[..|parent.children|] == p1.children[..|parent.children|];
      forall j | 0 <= j < |cs|
        ensures kids[j].widgetName == cs[j].name && Grown(kids[j], cs[j])
      {
        if j > 0 {
          assert kids[j] == kids[1..][j - 1] && cs[j] == cs[1..][j - 1];
        }
      }
    }
  }

  /** The factory step: the counter goes up when a menu item is made. */
  method NewWidgetObject(name: string, counter: MenuItemCounter, create: (string, nat) -> WidgetObject)
    returns (w: WidgetObject)
    modifies counter
    ensures w == create(name, old(counter.nMenuItem))
    ensures counter.nMenuItem == old(counter.nMenuItem) + MenuStep(name)
  {
    if name == "MenuItem" {
      var id := counter.GetId();
      w := create(name, id);
    } else {
      w := create(name, counter.nMenuItem);
    }
  }

  /** `_create_children`: each child is made, attached to its parent and then grown, in order. */
  method CreateChildren(parentTreeNode: NodeDto, parent: WidgetObject, counter: MenuItemCounter,
                        create: (string, nat) -> WidgetObject)
    returns (r: Result<WidgetObject>)
    modifies counter
    ensures var b := BuiltAll(parentTreeNode.children, parent, old(counter.nMenuItem), create);
      && (r.Ok? <==> b.Ok?)
      && (r.Ok? ==> r.value == b.value.0 && counter.nMenuItem == b.value.1)
      && (r.Err? ==> r.error == b.error)
    decreases parentTreeNode
  {
    var cs := parentTreeNode.children;
    var w := parent;
    var k := 0;
    while k < |cs|
      invariant 0 <= k <= |cs|
      invariant BuiltAll(cs[k..], w, counter.nMenuItem, create) == BuiltAll(cs, parent, old(counter.nMenuItem), create)
    {
      assert cs[k..][0] == cs[k] && cs[k..][1..] == cs[k + 1..];
      if !w.isContainer {
        return Err(AttributeError);
      }
      var childTreeNode := cs[k];
      var child := NewWidgetObject(childTreeNode.name, counter, create);
      var grown := CreateChildren(childTreeNode, child, counter, create);
      if grown.Err? {
        return Err(grown.error);
      }
      w := w.(children := w.children + [grown.value]);
      k := k + 1;
    }
    assert cs[k..] == [];
    r := Ok(w);
  }

  /**
   * `_create_gui_from_tree`: the root is made, the menu item counter is
   * reset, and the children are built under the root, so the menu items
   * of a GUI are numbered from 0.
   */
  method CreateGuiFromTree(tree: TreeDto, counter: MenuItemCounter, createRoot: (string, TreeDto) -> WidgetObject,
                           create: (string, nat) -> WidgetObject)
    returns (r: Result<WidgetObject>)
    requires forall n, i :: create(n, i).widgetName == n
    modifies counter
    ensures var b := BuiltAll(tree.rootNode.children, createRoot(tree.rootNode.name, tree), 0, create);
      && (r.Ok? <==> b.Ok?)
      && (r.Ok? ==> r.value == b.value.0 && counter.nMenuItem == MenuCount(tree.rootNode.children))
  {
    var root := createRoot(tree.rootNode.name, tree);
    counter.ResetIdCount();
    r := CreateChildren(tree.rootNode, root, counter, create);
    if r.Ok? {
      BuiltAllGrows(tree.rootNode.children, root, 0, create);
    }
  }
}
