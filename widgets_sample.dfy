/**
 * `WidgetsSample` of `gui_tree_gen.py`: drawing the multiset of catalogue
 * entries a tree is built from, then trimming surplus children of the
 * entries that may hold only one child.
 *
 * Python compares catalogue entries by identity (`list.count`), so a
 * drawn sample is a list of catalogue positions. Each random draw is a
 * caller-supplied position; a finite list of draws stands for the
 * unbounded loop.
 */
module WidgetsSample {
  import opened Wrappers
  import opened SeqUtil
  import opened TreeWidgets

  type Catalogue = seq<TreeWidgetDescription>

  predicate InCatalogue(ref: Catalogue, sample: seq<nat>) {
    forall k :: 0 <= k < |sample| ==> sample[k] < |ref|
  }

  /** The catalogue entries a sample of positions stands for. */
  function Entries(ref: Catalogue, sample: seq<nat>): (r: seq<TreeWidgetDescription>)
    requires InCatalogue(ref, sample)
    ensures |r| == |sample| && forall k :: 0 <= k < |sample| ==> r[k] == ref[sample[k]]
  {
    seq(|sample|, k requires 0 <= k < |sample| => ref[sample[k]])
  }

  /** The union of the accept lists of the sampled entries. */
  function AcceptedNames(ref: Catalogue, sample: seq<nat>): set<string>
    requires InCatalogue(ref, sample)
  {
    if sample == [] then {}
    else AcceptedNames(ref, sample[..|sample| - 1]) + ToSet(ref[sample[|sample| - 1]].acceptList)
  }

  /** `_solo_checked`: a solo entry may be drawn only if it is not in the sample yet. */
  predicate SoloChecked(ref: Catalogue, w: nat, sample: seq<nat>)
    requires w < |ref|
  {
    !ref[w].isSolo || multiset(sample)[w] == 0
  }

  /**
   * What the draw loop keeps: the sample is non-empty and within the
   * catalogue, every entry after the first is accepted by some earlier
   * entry, and a solo entry occurs once.
   */
  predicate WellSampled(ref: Catalogue, sample: seq<nat>) {
    InCatalogue(ref, sample) && |sample| >= 1
    && (forall i :: 1 <= i < |sample| ==> ref[sample[i]].name in AcceptedNames(ref, sample[..i]))
    && (forall i :: 0 <= i < |sample| && ref[sample[i]].isSolo ==> multiset(sample)[sample[i]] == 1)
  }

  /**
   * `_generate_widget_node` with the drawn position `draw`: the entry is
   * appended, and its accept list added to the accepted names, exactly
   * when its name is accepted and the solo rule allows it.
   */
  method GenerateWidgetNode(ref: Catalogue, accepted: set<string>, sample: seq<nat>, draw: nat)
    returns (accepted': set<string>, sample': seq<nat>)
    requires InCatalogue(ref, sample) && draw < |ref|
    ensures ref[draw].name in accepted && SoloChecked(ref, draw, sample) ==>
      sample' == sample + [draw] && accepted' == accepted + ToSet(ref[draw].acceptList)
    ensures !(ref[draw].name in accepted && SoloChecked(ref, draw, sample)) ==>
      sample' == sample && accepted' == accepted
    ensures InCatalogue(ref, sample')
    ensures accepted == AcceptedNames(ref, sample) ==> accepted' == AcceptedNames(ref, sample')
    ensures WellSampled(ref, sample) && accepted == AcceptedNames(ref, sample) ==> WellSampled(ref, sample')
  {
    if ref[draw].name in accepted && SoloChecked(ref, draw, sample) {
      sample' := sample + [draw];
      accepted' := accepted + ToSet(ref[draw].acceptList);
      assert sample'[..|sample'| - 1] == sample;
      if WellSampled(ref, sample) && accepted == AcceptedNames(ref, sample) {
        AppendKeepsWellSampled(ref, sample, draw);
      }
    } else {
      sample', accepted' := sample, accepted;
    }
  }

  /** An accepted draw that the solo rule allows keeps the sample well formed. */
  lemma AppendKeepsWellSampled(ref: Catalogue, sample: seq<nat>, draw: nat)
    requires WellSampled(ref, sample) && draw < |ref|
    requires ref[draw].name in AcceptedNames(ref, sample) && SoloChecked(ref, draw, sample)
    ensures WellSampled(ref, sample + [draw])
  {
    var s' := sample + [draw];
    assert s'[..|s'| - 1] == sample;
    forall i | 1 <= i < |s'|
      ensures ref[s'[i]].name in AcceptedNames(ref, s'[..i])
    {
      if i < |sample| {
        assert s'[..i] == sample[..i];
      }
    }
    forall i | 0 <= i < |s'| && ref[s'[i]].isSolo
      ensures multiset(s')[s'[i]] == 1
    {
      if i < |sample| {
        assert sample[i] in multiset(sample);
      }
    }
  }

  /**
   * The draw loop of `create_sample`: starting from the root entry, keep
   * drawing until the sample holds `numberOfWidgets` entries. `complete`
   * is false when the draws ran out first.
   */
  method DrawSample(ref: Catalogue, root: nat, numberOfWidgets: int, draws: seq<nat>)
    returns (sample: seq<nat>, complete: bool)
    requires root < |ref|
    requires forall k :: 0 <= k < |draws| ==> draws[k] < |ref|
    ensures WellSampled(ref, sample) && sample[0] == root
    ensures complete <==> |sample| >= numberOfWidgets
    ensures |sample| == 1 || |sample| <= numberOfWidgets
    ensures complete ==> |sample| == if numberOfWidgets <= 1 then 1 else numberOfWidgets
    ensures numberOfWidgets <= 1 ==> sample == [root]
  {
    sample := [root];
    var accepted := ToSet(ref[root].acceptList);
    assert sample[..0] == [];
    var k := 0;
    while |sample| < numberOfWidgets && k < |draws|
      invariant 0 <= k <= |draws|
      invariant WellSampled(ref, sample) && sample[0] == root
      invariant accepted == AcceptedNames(ref, sample)
      invariant |sample| == 1 || |sample| <= numberOfWidgets
      invariant numberOfWidgets <= 1 ==> sample == [root]
    {
      accepted, sample := GenerateWidgetNode(ref, accepted, sample, draws[k]);
      k := k + 1;
    }
    complete := |sample| >= numberOfWidgets;
  }

  /** `[widget.name for widget in widgets_sample]`. */
  function Names(s: seq<TreeWidgetDescription>): (r: seq<string>)
    ensures |r| == |s| && forall k :: 0 <= k < |s| ==> r[k] == s[k].name
  {
    seq(|s|, k requires 0 <= k < |s| => s[k].name)
  }

  /** How many entries of `s` are named `x` (`names.count(x)`). */
  function CountNamed(s: seq<TreeWidgetDescription>, x: string): nat {
    if s == [] then 0 else (if s[0].name == x then 1 else 0) + CountNamed(s[1..], x)
  }

  lemma {:induction false} CountNames(s: seq<TreeWidgetDescription>, x: string)
    ensures Count(Names(s), x) == CountNamed(s, x)
  {
    if s != [] {
      assert Names(s)[1..] == Names(s[1..]);
      CountNames(s[1..], x);
    }
  }

  /** Whether every has-only-child entry has a first accepted name to pair with. */
  predicate OnlyChildPairsDefined(s: seq<TreeWidgetDescription>) {
    forall k :: 0 <= k < |s| && s[k].hasOnlyChild ==> |s[k].acceptList| > 0
  }

  /** The `(w.name, w.accept_list[0])` pairs of the has-only-child entries, in sample order. */
  function PairsOf(s: seq<TreeWidgetDescription>): seq<(string, string)>
    requires OnlyChildPairsDefined(s)
  {
    if s == [] then []
    else
      var rest := PairsOf(s[1..]);
      if s[0].hasOnlyChild then [(s[0].name, s[0].acceptList[0])] + rest else rest
  }

  /** `s` without its first entry named `c`, if there is one. */
  function RemoveFirstNamed(s: seq<TreeWidgetDescription>, c: string): seq<TreeWidgetDescription> {
    if s == [] then []
    else if s[0].name == c then s[1..]
    else [s[0]] + RemoveFirstNamed(s[1..], c)
  }

  function RemoveFirstNamedN(s: seq<TreeWidgetDescription>, c: string, n: nat): seq<TreeWidgetDescription>
    decreases n
  {
    if n == 0 then s else RemoveFirstNamedN(RemoveFirstNamed(s, c), c, n - 1)
  }

  /**
   * One round of the fix-up loop for the pair (p, c): the first entries
   * named `c` are dropped until there are no more of them than entries
   * named `p`.
   */
  function FixPair(s: seq<TreeWidgetDescription>, p: string, c: string): seq<TreeWidgetDescription> {
    var excess := CountNamed(s, c) - CountNamed(s, p);
    RemoveFirstNamedN(s, c, if excess > 0 then excess else 0)
  }

  /** The fix-up: one round per pair, in the order the pairs are visited. */
  function FixAll(s: seq<TreeWidgetDescription>, order: seq<(string, string)>): seq<TreeWidgetDescription>
    decreases |order|
  {
    if order == [] then s else FixAll(FixPair(s, order[0].0, order[0].1), order[1..])
  }

  lemma NamesRemoveAt(s: seq<TreeWidgetDescription>, i: nat)
    requires i < |s|
    ensures Names(RemoveAt(s, i)) == RemoveAt(Names(s), i)
  {
  }

  /** `names.index(c)` followed by `pop(index)` removes the first entry named `c`. */
  lemma {:induction false} RemoveFirstNamedIsPop(s: seq<TreeWidgetDescription>, c: string)
    requires c in Names(s)
    ensures RemoveFirstNamed(s, c) == RemoveAt(s, IndexOf(Names(s), c))
  {
    if s[0].name != c {
      assert Names(s)[1..] == Names(s[1..]);
      IndexOfCons(Names(s), c);
      RemoveFirstNamedIsPop(s[1..], c);
      RemoveAtCons(s, IndexOf(Names(s), c));
    }
  }

  /** Removing the first `c` lowers the count of `c` by one and no other count. */
  lemma {:induction false} RemoveFirstNamedCounts(s: seq<TreeWidgetDescription>, c: string)
    requires CountNamed(s, c) > 0
    ensures CountNamed(RemoveFirstNamed(s, c), c) == CountNamed(s, c) - 1
    ensures forall x :: x != c ==> CountNamed(RemoveFirstNamed(s, c), x) == CountNamed(s, x)
    ensures IsSubseq(RemoveFirstNamed(s, c), s)
  {
    var r := RemoveFirstNamed(s, c);
    if s[0].name == c {
      SubseqRefl(s[1..]);
      SubseqCons(s[1..], s);
    } else {
      RemoveFirstNamedCounts(s[1..], c);
      assert r[0] == s[0] && r[1..] == RemoveFirstNamed(s[1..], c);
    }
  }

  /** A positive count means the name occurs. */
  lemma {:induction false} CountNamedOccurs(s: seq<TreeWidgetDescription>, c: string)
    requires CountNamed(s, c) > 0
    ensures c in Names(s)
  {
    if s[0].name != c {
      CountNamedOccurs(s[1..], c);
      assert Names(s)[1..] == Names(s[1..]);
    }
  }

  lemma {:induction false} RemoveFirstNamedNCounts(s: seq<TreeWidgetDescription>, c: string, n: nat)
    requires n <= CountNamed(s, c)
    ensures CountNamed(RemoveFirstNamedN(s, c, n), c) == CountNamed(s, c) - n
    ensures forall x :: x != c ==> CountNamed(RemoveFirstNamedN(s, c, n), x) == CountNamed(s, x)
    ensures IsSubseq(RemoveFirstNamedN(s, c, n), s)
    decreases n
  {
    if n == 0 {
      SubseqRefl(s);
    } else {
      var s1 := RemoveFirstNamed(s, c);
      RemoveFirstNamedCounts(s, c);
      RemoveFirstNamedNCounts(s1, c, n - 1);
      assert RemoveFirstNamedN(s, c, n) == RemoveFirstNamedN(s1, c, n - 1);
      SubseqTrans(RemoveFirstNamedN(s1, c, n - 1), s1, s);
    }
  }

  /**
   * After the round for (p, c) with p and c different, there are no more
   * `c` entries than `p` entries; where there were more, exactly as many.
   * Only entries named `c` are dropped, and the rest keep their order.
   */
  lemma FixPairBalances(s: seq<TreeWidgetDescription>, p: string, c: string)
    requires p != c
    ensures CountNamed(FixPair(s, p, c), p) == CountNamed(s, p)
    ensures CountNamed(FixPair(s, p, c), c)
         == if CountNamed(s, c) > CountNamed(s, p) then CountNamed(s, p) else CountNamed(s, c)
    ensures forall x :: x != c ==> CountNamed(FixPair(s, p, c), x) == CountNamed(s, x)
    ensures IsSubseq(FixPair(s, p, c), s)
  {
    var excess := CountNamed(s, c) - CountNamed(s, p);
    RemoveFirstNamedNCounts(s, c, if excess > 0 then excess else 0);
  }

  /** The fix-up never adds an entry and never reorders the ones it keeps. */
  lemma {:induction false} FixAllSubseq(s: seq<TreeWidgetDescription>, order: seq<(string, string)>)
    ensures IsSubseq(FixAll(s, order), s)
    decreases |order|
  {
    if order == [] {
      SubseqRefl(s);
    } else {
      var (p, c) := order[0];
      var s1 := FixPair(s, p, c);
      var excess := CountNamed(s, c) - CountNamed(s, p);
      RemoveFirstNamedNCounts(s, c, if excess > 0 then excess else 0);
      FixAllSubseq(s1, order[1..]);
      SubseqTrans(FixAll(s1, order[1..]), s1, s);
    }
  }

  /** A name that is no pair's child name keeps all of its entries. */
  lemma {:induction false} FixAllKeepsOthers(s: seq<TreeWidgetDescription>, order: seq<(string, string)>, x: string)
    requires forall j :: 0 <= j < |order| ==> order[j].1 != x
    ensures CountNamed(FixAll(s, order), x) == CountNamed(s, x)
    decreases |order|
  {
    if order != [] {
      var (p, c) := order[0];
      var excess := CountNamed(s, c) - CountNamed(s, p);
      RemoveFirstNamedNCounts(s, c, if excess > 0 then excess else 0);
      FixAllKeepsOthers(FixPair(s, p, c), order[1..], x);
    }
  }

  /**
   * `_fix_only_child_widgets_number_ratio`. Building the pair set raises
   * IndexError when a has-only-child entry has an empty accept list.
   * `order` is the order in which the set of pairs is iterated: any
   * enumeration of that set without repeats.
   */
  method FixOnlyChildWidgetsNumberRatio(s: seq<TreeWidgetDescription>, order: seq<(string, string)>)
    returns (r: Result<seq<TreeWidgetDescription>>)
    requires OnlyChildPairsDefined(s) ==> Distinct(order) && forall q :: q in order <==> q in PairsOf(s)
    ensures r.Err? <==> !OnlyChildPairsDefined(s)
    ensures r.Err? ==> r.error == IndexError
    ensures r.Ok? ==> r.value == FixAll(s, order) && IsSubseq(r.value, s)
  {
    var k := 0;
    while k < |s|
      invariant 0 <= k <= |s|
      invariant forall j :: 0 <= j < k && s[j].hasOnlyChild ==> |s[j].acceptList| > 0
    {
      if s[k].hasOnlyChild && |s[k].acceptList| == 0 {
        return Err(IndexError);
      }
      k := k + 1;
    }
    var names := Names(s);
    var sample := s;
    var t := 0;
    while t < |order|
      invariant 0 <= t <= |order|
      invariant names == Names(sample)
      invariant FixAll(sample, order[t..]) == FixAll(s, order)
    {
      var p := order[t].0;
      var c := order[t].1;
      names, sample := FixPairLoop(names, sample, p, c);
      assert order[t..][1..] == order[t + 1..];
      t := t + 1;
    }
    FixAllSubseq(s, order);
    return Ok(sample);
  }

  /**
   * The inner `while c_count > p_count` loop for one pair, on the names
   * list and the sample it mirrors.
   */
  method FixPairLoop(names: seq<string>, sample: seq<TreeWidgetDescription>, p: string, c: string)
    returns (names': seq<string>, sample': seq<TreeWidgetDescription>)
    requires names == Names(sample)
    ensures sample' == FixPair(sample, p, c)
    ensures names' == Names(sample')
  {
    names', sample' := names, sample;
    CountNames(sample, p);
    CountNames(sample, c);
    var pCount := Count(names, p);
    var cCount := Count(names, c);
    while cCount > pCount
      invariant names' == Names(sample')
      invariant cCount == CountNamed(sample', c)
      invariant RemoveFirstNamedN(sample', c, if cCount > pCount then cCount - pCount else 0)
             == FixPair(sample, p, c)
      decreases cCount
    {
      CountNamedOccurs(sample', c);
      var index := IndexOf(names', c);
      RemoveFirstNamedIsPop(sample', c);
      RemoveFirstNamedCounts(sample', c);
      NamesRemoveAt(sample', index);
      names' := RemoveAt(names', index);
      sample' := RemoveAt(sample', index);
      cCount := cCount - 1;
    }
  }

  /**
   * `create_sample`: the draws, then the fix-up, with the pairs visited in
   * the order they first occur in the sample. `None` when the draws ran
   * out before the sample was complete.
   */
  method CreateSample(ref: Catalogue, root: nat, numberOfWidgets: int, draws: seq<nat>)
    returns (drawn: seq<nat>, r: Option<Result<seq<TreeWidgetDescription>>>)
    requires root < |ref|
    requires forall k :: 0 <= k < |draws| ==> draws[k] < |ref|
    ensures WellSampled(ref, drawn) && drawn[0] == root
    ensures r.None? <==> |drawn| < numberOfWidgets
    ensures r.Some? ==> |drawn| == if numberOfWidgets <= 1 then 1 else numberOfWidgets
    ensures r.Some? ==> (r.value.Err? <==> !OnlyChildPairsDefined(Entries(ref, drawn)))
    ensures r.Some? && r.value.Err? ==> r.value.error == IndexError
    ensures r.Some? && r.value.Ok? ==>
      && r.value.value == FixAll(Entries(ref, drawn), Dedup(PairsOf(Entries(ref, drawn))))
      && IsSubseq(r.value.value, Entries(ref, drawn))
  {
    var complete;
    drawn, complete := DrawSample(ref, root, numberOfWidgets, draws);
    if !complete {
      return drawn, None;
    }
    var s := Entries(ref, drawn);
    var order := if OnlyChildPairsDefined(s) then Dedup(PairsOf(s)) else [];
    var fixed := FixOnlyChildWidgetsNumberRatio(s, order);
    r := Some(fixed);
  }
}
