/**
 * The window size for a grid of central-widget children
 * (`random_numbers_gen.py`): the first side x side children are laid out
 * row-major in a square grid, the rest column-major in extra columns of
 * side cells; the window is as wide as the widest row of the square plus
 * the widest row of the extra columns, as high as the highest column of
 * either, and capped by the given maximum. A child's size is its kind's
 * configured minimum; a group box was meant to be sized by its children.
 */
module RandomNumbersGen {
  import opened Wrappers
  import TreeDto
  import Config
  import WidgetNames

  datatype Size = Size(width: int, height: int)

  /** `(WidgetNames(name).min_width, WidgetNames(name).min_height)` for a name some member has. */
  function MinSize(name: string, descriptions: map<string, Config.WidgetObjectDescription>, defaultPadding: int): Size {
    var d := WidgetNames.ConfiguredDescription(name, descriptions, defaultPadding);
    Size(d.minWidth, d.minHeight)
  }

  /** For a name some member has, its description gives the size `MinSize` does. */
  lemma MinSizeKnown(name: string, descriptions: map<string, Config.WidgetObjectDescription>, defaultPadding: int)
    ensures var d := WidgetNames.DescriptionOfValue(name, descriptions, defaultPadding);
      && (d.Ok? <==> WidgetNames.FromValue(name).Ok?)
      && (d.Ok? ==> Size(d.value.minWidth, d.value.minHeight) == MinSize(name, descriptions, defaultPadding))
  {
  }

  /** Two parts of a group box side by side: the widths add up, the higher part sets the height. */
  function Beside(a: Size, b: Size): (r: Size)
    ensures r.width == a.width + b.width
    ensures r.height >= a.height && r.height >= b.height && (r.height == a.height || r.height == b.height)
  {
    Size(a.width + b.width, if a.height >= b.height then a.height else b.height)
  }

  /** `__generate_groupbox_size_values`: the children's minimum widths side by side, as high as the highest. */
  function GroupBoxSize(children: seq<TreeDto.NodeDto>, descriptions: map<string, Config.WidgetObjectDescription>,
                        defaultPadding: int): (r: Size)
    ensures children == [] ==> r == Size(0, 0)
    ensures r.height >= 0
    ensures forall i :: 0 <= i < |children| ==> MinSize(children[i].name, descriptions, defaultPadding).height <= r.height
    ensures r.height == 0 ||
      exists i :: 0 <= i < |children| && MinSize(children[i].name, descriptions, defaultPadding).height == r.height
    decreases |children|
  {
    if children == [] then Size(0, 0)
    else
      assert forall i :: 1 <= i < |children| ==> children[i] == children[1..][i - 1];
      Beside(MinSize(children[0].name, descriptions, defaultPadding), GroupBoxSize(children[1..], descriptions, defaultPadding))
  }

  /** The width of a group box is the sum of its children's minimum widths. */
  function SumWidths(children: seq<TreeDto.NodeDto>, descriptions: map<string, Config.WidgetObjectDescription>,
                     defaultPadding: int): int
  {
    if children == [] then 0
    else MinSize(children[0].name, descriptions, defaultPadding).width + SumWidths(children[1..], descriptions, defaultPadding)
  }

  lemma {:induction false} GroupBoxWidthIsSum(children: seq<TreeDto.NodeDto>,
                                              descriptions: map<string, Config.WidgetObjectDescription>, defaultPadding: int)
    ensures GroupBoxSize(children, descriptions, defaultPadding).width == SumWidths(children, descriptions, defaultPadding)
    decreases |children|
  {
    if children != [] {
      GroupBoxWidthIsSum(children[1..], descriptions, defaultPadding);
    }
  }

  /** The box of two runs of children is the two boxes side by side. */
  lemma {:induction false} GroupBoxSizeAppend(a: seq<TreeDto.NodeDto>, b: seq<TreeDto.NodeDto>,
                                              descriptions: map<string, Config.WidgetObjectDescription>, defaultPadding: int)
    ensures GroupBoxSize(a + b, descriptions, defaultPadding)
      == Beside(GroupBoxSize(a, descriptions, defaultPadding), GroupBoxSize(b, descriptions, defaultPadding))
    decreases |a|
  {
    if a == [] {
      assert a + b == b;
    } else {
      assert (a + b)[0] == a[0] && (a + b)[1..] == a[1..] + b;
      var first := MinSize(a[0].name, descriptions, defaultPadding);
      var restA := GroupBoxSize(a[1..], descriptions, defaultPadding);
      var boxB := GroupBoxSize(b, descriptions, defaultPadding);
      assert GroupBoxSize(a + b, descriptions, defaultPadding)
        == Beside(first, GroupBoxSize(a[1..] + b, descriptions, defaultPadding));
      GroupBoxSizeAppend(a[1..], b, descriptions, defaultPadding);
      assert GroupBoxSize(a, descriptions, defaultPadding) == Beside(first, restA);
      BesideAssociative(first, restA, boxB);
    }
  }

  /** Placing boxes side by side does not depend on how they are grouped. */
  lemma BesideAssociative(a: Size, b: Size, c: Size)
    ensures Beside(a, Beside(b, c)) == Beside(Beside(a, b), c)
  {
  }

  /**
   * The loop of `__generate_groupbox_size_values` from child `i` on, with
   * `acc` the width and height so far: each child's name is looked up in
   * turn, and the first that is the value of no member raises ValueError.
   */
  function GroupBoxFrom(children: seq<TreeDto.NodeDto>, i: nat, acc: Size,
                        descriptions: map<string, Config.WidgetObjectDescription>, defaultPadding: int): Result<Size>
    requires i <= |children|
    decreases |children| - i
  {
    if i == |children| then Ok(acc)
    else
      match WidgetNames.DescriptionOfValue(children[i].name, descriptions, defaultPadding)
      case Err(e) => Err(e)
      case Ok(d) => GroupBoxFrom(children, i + 1, Beside(acc, Size(d.minWidth, d.minHeight)), descriptions, defaultPadding)
  }

  /**
   * The loop raises exactly when a remaining child's name is the value of no
   * member, with ValueError; otherwise it ends with the box so far beside
   * the group box of the remaining children.
   */
  lemma {:induction false} GroupBoxFromSpec(children: seq<TreeDto.NodeDto>, i: nat, acc: Size,
                                            descriptions: map<string, Config.WidgetObjectDescription>, defaultPadding: int)
    requires i <= |children| && acc.height >= 0
    ensures var r := GroupBoxFrom(children, i, acc, descriptions, defaultPadding);
      && (r.Err? <==> WidgetNames.SomeUnnamed(children[i..]))
      && (r.Err? ==> r.error == ValueError)
      && (r.Ok? ==> r.value == Beside(acc, GroupBoxSize(children[i..], descriptions, defaultPadding)))
    decreases |children| - i
  {
    if i < |children| {
      var rest := children[i..];
      assert rest[0] == children[i] && rest[1..] == children[i + 1..];
      WidgetNames.SomeUnnamedCons(rest);
      MinSizeKnown(children[i].name, descriptions, defaultPadding);
      var d := WidgetNames.DescriptionOfValue(children[i].name, descriptions, defaultPadding);
      if d.Ok? {
        var child := Size(d.value.minWidth, d.value.minHeight);
        var later := GroupBoxSize(rest[1..], descriptions, defaultPadding);
        GroupBoxFromSpec(children, i + 1, Beside(acc, child), descriptions, defaultPadding);
        assert GroupBoxSize(rest, descriptions, defaultPadding) == Beside(child, later);
        BesideAssociative(acc, child, later);
      }
    }
  }

  /** One step of the scan: a named child widens the running size by its own minimum size. */
  lemma GroupBoxFromStep(children: seq<TreeDto.NodeDto>, i: nat, acc: Size, d: Config.WidgetObjectDescription,
                         descriptions: map<string, Config.WidgetObjectDescription>, defaultPadding: int)
    requires i < |children| && WidgetNames.DescriptionOfValue(children[i].name, descriptions, defaultPadding) == Ok(d)
    ensures GroupBoxFrom(children, i, acc, descriptions, defaultPadding)
      == GroupBoxFrom(children, i + 1, Beside(acc, Size(d.minWidth, d.minHeight)), descriptions, defaultPadding)
  {
  }

  /**
   * `__generate_groupbox_size_values`: ValueError at the first child whose
   * name is the value of no member, otherwise the group box size of the
   * children.
   */
  method GenerateGroupboxSizeValues(node: TreeDto.NodeDto, descriptions: map<string, Config.WidgetObjectDescription>,
                                    defaultPadding: int) returns (r: Result<Size>)
    ensures r == GroupBoxFrom(node.children, 0, Size(0, 0), descriptions, defaultPadding)
    ensures r.Err? <==> WidgetNames.SomeUnnamed(node.children)
    ensures r.Err? ==> r.error == ValueError
    ensures r.Ok? ==> r.value == GroupBoxSize(node.children, descriptions, defaultPadding)
  {
    var children := node.children;
    var width := 0;
    var height := 0;
    var i := 0;
    ghost var total := GroupBoxFrom(children, 0, Size(0, 0), descriptions, defaultPadding);
    while i < |children|
      invariant 0 <= i <= |children|
      invariant total == GroupBoxFrom(children, i, Size(width, height), descriptions, defaultPadding)
    {
      var d := WidgetNames.DescriptionOfValue(children[i].name, descriptions, defaultPadding);
      if d.Err? {
        r := Err(d.error);
        break;
      }
      var child := Size(d.value.minWidth, d.value.minHeight);
      GroupBoxFromStep(children, i, Size(width, height), d.value, descriptions, defaultPadding);
      var next := Beside(Size(width, height), child);
      width := next.width;
      height := next.height;
      i := i + 1;
    }
    if i == |children| {
      r := Ok(Size(width, height));
    }
    GroupBoxFromSpec(children, 0, Size(0, 0), descriptions, defaultPadding);
    assert children[0..] == children;
  }

  /**
   * A child's size as written: `child.name == WidgetNames.GROUP_BOX`
   * compares a string with an enum member, which is never equal, so every
   * child, a group box too, has its kind's minimum size.
   */
  function ChildSizeAsWritten(child: TreeDto.NodeDto, descriptions: map<string, Config.WidgetObjectDescription>, defaultPadding: int): (r: Size)
    ensures r == MinSize(child.name, descriptions, defaultPadding)
  {
    MinSize(child.name, descriptions, defaultPadding)
  }

  /** A child's size as intended: a group box is sized by its children. */
  function ChildSize(child: TreeDto.NodeDto, descriptions: map<string, Config.WidgetObjectDescription>, defaultPadding: int): (r: Size)
    ensures child.name == "GroupBox" ==> r.width == SumWidths(child.children, descriptions, defaultPadding)
    ensures child.name != "GroupBox" ==> r == MinSize(child.name, descriptions, defaultPadding)
  {
    if child.name == "GroupBox" then
      GroupBoxWidthIsSum(child.children, descriptions, defaultPadding);
      GroupBoxSize(child.children, descriptions, defaultPadding)
    else MinSize(child.name, descriptions, defaultPadding)
  }

  /** A group box holding one wide label: as written it gets its own minimum size, not its label's. */
  lemma GroupBoxSizeIgnored()
    ensures var descriptions := map[
        "GroupBox" := Config.WidgetObjectDescription("GroupBox", true, 40, 20, ["Label"], true, 0),
        "Label" := Config.WidgetObjectDescription("Label", false, 120, 30, [], true, 0)];
      var box := TreeDto.NodeDto("GroupBox", [TreeDto.NodeDto("Label", [])]);
      ChildSizeAsWritten(box, descriptions, 0) == Size(40, 20) && ChildSize(box, descriptions, 0) == Size(120, 30)
  {
    var descriptions := map[
        "GroupBox" := Config.WidgetObjectDescription("GroupBox", true, 40, 20, ["Label"], true, 0),
        "Label" := Config.WidgetObjectDescription("Label", false, 120, 30, [], true, 0)];
    var labelNode := TreeDto.NodeDto("Label", []);
    assert [labelNode][..0] == [];
    assert GroupBoxSize([labelNode], descriptions, 0) == Size(120, 30);
  }

  // ---------------------------------------------------------------------
  // Bucket sums

  /** The sum of `vals[i]` over `lo <= i < hi` with `(i - lo) div side == b`: a row of a row-major fill. */
  function SumByDiv(vals: seq<int>, lo: nat, hi: nat, side: int, b: int): int
    requires lo <= hi <= |vals| && side > 0
    decreases hi
  {
    if hi == lo then 0
    else SumByDiv(vals, lo, hi - 1, side, b) + (if (hi - 1 - lo) / side == b then vals[hi - 1] else 0)
  }

  /** The sum of `vals[i]` over `lo <= i < hi` with `(i - lo) mod side == b`: a column of a row-major fill. */
  function SumByMod(vals: seq<int>, lo: nat, hi: nat, side: int, b: int): int
    requires lo <= hi <= |vals| && side > 0
    decreases hi
  {
    if hi == lo then 0
    else SumByMod(vals, lo, hi - 1, side, b) + (if (hi - 1 - lo) % side == b then vals[hi - 1] else 0)
  }

  /** With non-negative values, a bucket's sum holds each of its values. */
  lemma {:induction false} SumByDivCovers(vals: seq<int>, lo: nat, hi: nat, side: int, i: nat)
    requires lo <= i < hi <= |vals| && side > 0
    requires forall k :: lo <= k < hi ==> vals[k] >= 0
    ensures SumByDiv(vals, lo, hi, side, (i - lo) / side) >= vals[i]
    decreases hi
  {
    if i < hi - 1 {
      SumByDivCovers(vals, lo, hi - 1, side, i);
    } else {
      SumByDivNonNeg(vals, lo, hi - 1, side, (i - lo) / side);
    }
  }

  lemma {:induction false} SumByDivNonNeg(vals: seq<int>, lo: nat, hi: nat, side: int, b: int)
    requires lo <= hi <= |vals| && side > 0
    requires forall k :: lo <= k < hi ==> vals[k] >= 0
    ensures SumByDiv(vals, lo, hi, side, b) >= 0
    decreases hi
  {
    if hi > lo {
      SumByDivNonNeg(vals, lo, hi - 1, side, b);
    }
  }

  lemma {:induction false} SumByModCovers(vals: seq<int>, lo: nat, hi: nat, side: int, i: nat)
    requires lo <= i < hi <= |vals| && side > 0
    requires forall k :: lo <= k < hi ==> vals[k] >= 0
    ensures SumByMod(vals, lo, hi, side, (i - lo) % side) >= vals[i]
    decreases hi
  {
    if i < hi - 1 {
      SumByModCovers(vals, lo, hi - 1, side, i);
    } else {
      SumByModNonNeg(vals, lo, hi - 1, side, (i - lo) % side);
    }
  }

  lemma {:induction false} SumByModNonNeg(vals: seq<int>, lo: nat, hi: nat, side: int, b: int)
    requires lo <= hi <= |vals| && side > 0
    requires forall k :: lo <= k < hi ==> vals[k] >= 0
    ensures SumByMod(vals, lo, hi, side, b) >= 0
    decreases hi
  {
    if hi > lo {
      SumByModNonNeg(vals, lo, hi - 1, side, b);
    }
  }

  /** Python's `max` of a non-empty list. */
  function MaxOf(s: seq<int>): (m: int)
    requires s != []
    ensures forall i :: 0 <= i < |s| ==> s[i] <= m
    ensures exists i :: 0 <= i < |s| && s[i] == m
  {
    if |s| == 1 then s[0]
    else
      var rest := MaxOf(s[1..]);
      assert forall i :: 1 <= i < |s| ==> s[i] == s[1..][i - 1];
      if s[0] >= rest then s[0] else rest
  }

  function Min(a: int, b: int): int {
    if a <= b then a else b
  }

  function Max(a: int, b: int): int {
    if a >= b then a else b
  }

  // ---------------------------------------------------------------------
  // The grid

  /**
   * `[child for child in node.children if WidgetNames(child.name).is_central_widget_child]`:
   * ValueError when some child's name is the value of no member, otherwise
   * the central-widget children in order.
   */
  function GridChildren(children: seq<TreeDto.NodeDto>, descriptions: map<string, Config.WidgetObjectDescription>,
                        defaultPadding: int): (r: Result<seq<TreeDto.NodeDto>>)
    ensures r.Err? <==> WidgetNames.SomeUnnamed(children)
    ensures r.Err? ==> r.error == ValueError
    ensures r.Ok? ==> |r.value| <= |children|
    ensures r.Ok? ==> forall c :: c in r.value <==>
      c in children && WidgetNames.ConfiguredDescription(c.name, descriptions, defaultPadding).centralWidgetChild
  {
    if children == [] then Ok([])
    else
      assert forall c :: c in children <==> c == children[0] || c in children[1..];
      assert forall i :: 1 <= i < |children| ==> children[i] == children[1..][i - 1];
      WidgetNames.SomeUnnamedCons(children);
      match WidgetNames.DescriptionOfValue(children[0].name, descriptions, defaultPadding)
      case Err(e) => Err(e)
      case Ok(d) =>
        match GridChildren(children[1..], descriptions, defaultPadding)
        case Err(e) => Err(e)
        case Ok(rest) => Ok((if d.centralWidgetChild then [children[0]] else []) + rest)
  }

  function Widths(sizes: seq<Size>): (r: seq<int>)
    ensures |r| == |sizes| && forall i :: 0 <= i < |r| ==> r[i] == sizes[i].width
  {
    seq(|sizes|, i requires 0 <= i < |sizes| => sizes[i].width)
  }

  function Heights(sizes: seq<Size>): (r: seq<int>)
    ensures |r| == |sizes| && forall i :: 0 <= i < |r| ==> r[i] == sizes[i].height
  {
    seq(|sizes|, i requires 0 <= i < |sizes| => sizes[i].height)
  }

  /** The sums of the first `n` buckets by quotient. */
  function DivSums(vals: seq<int>, lo: nat, hi: nat, side: int, n: nat): (r: seq<int>)
    requires lo <= hi <= |vals| && side > 0
    ensures |r| == n && forall b :: 0 <= b < n ==> r[b] == SumByDiv(vals, lo, hi, side, b)
  {
    seq(n, b requires 0 <= b < n => SumByDiv(vals, lo, hi, side, b))
  }

  /** The sums of the first `n` buckets by remainder. */
  function ModSums(vals: seq<int>, lo: nat, hi: nat, side: int, n: nat): (r: seq<int>)
    requires lo <= hi <= |vals| && side > 0
    ensures |r| == n && forall b :: 0 <= b < n ==> r[b] == SumByMod(vals, lo, hi, side, b)
  {
    seq(n, b requires 0 <= b < n => SumByMod(vals, lo, hi, side, b))
  }

  /** `ceil(k / side)` for non-negative `k` and positive `side`. */
  function CeilDiv(k: nat, side: int): nat
    requires side > 0
  {
    (k + side - 1) / side
  }

  /** The widest row and the highest column of the square grid of the first `side * side` children. */
  function FirstGrid(sizes: seq<Size>, side: int): (r: Size)
    requires side > 0
  {
    var m := Min(side * side, |sizes|);
    Size(MaxOf(DivSums(Widths(sizes), 0, m, side, side)), MaxOf(ModSums(Heights(sizes), 0, m, side, side)))
  }

  /** The widest row and the highest column of the extra columns, (0, 0) without extra children. */
  function SecondGrid(sizes: seq<Size>, side: int): (r: Size)
    requires side > 0
  {
    var sq := side * side;
    if |sizes| <= sq then Size(0, 0)
    else
      var cols := CeilDiv(|sizes| - sq, side);
      CeilDivPositive(|sizes| - sq, side);
      Size(MaxOf(ModSums(Widths(sizes), sq, |sizes|, side, side)),
           MaxOf(DivSums(Heights(sizes), sq, |sizes|, side, cols)))
  }

  lemma CeilDivPositive(k: nat, side: int)
    requires side > 0 && k > 0
    ensures CeilDiv(k, side) > 0
  {
  }

  /**
   * `generate_widget_size_values_for_grid` on the children's sizes: the
   * square's widest row plus the extra columns' widest row, capped by
   * `maxW`, and the higher of the two highest columns, capped by `maxH`;
   * for a side of 0 `max` of an empty list raises ValueError, and for a
   * negative side the first child's row is out of range (IndexError).
   */
  function GridSize(sizes: seq<Size>, maxW: int, maxH: int, side: int): (r: Result<Size>)
    ensures r.Err? <==> side <= 0
    ensures r.Ok? ==> r.value.width <= maxW && r.value.height <= maxH
  {
    if side <= 0 then Err(if side < 0 && |sizes| > 0 then IndexError else ValueError)
    else
      var first := FirstGrid(sizes, side);
      var second := SecondGrid(sizes, side);
      Ok(Size(Min(maxW, first.width + second.width), Min(maxH, Max(first.height, second.height))))
  }

  /** Every grid child fits in the window: its width and height are within the result, or the cap is reached. */
  lemma GridSizeHoldsEachChild(sizes: seq<Size>, maxW: int, maxH: int, side: int, i: nat)
    requires side > 0 && i < |sizes|
    requires forall k :: 0 <= k < |sizes| ==> sizes[k].width >= 0 && sizes[k].height >= 0
    ensures var r := GridSize(sizes, maxW, maxH, side).value;
      r.width >= Min(maxW, sizes[i].width) && r.height >= Min(maxH, sizes[i].height)
  {
    if i < side * side {
      FirstGridHolds(sizes, side, i);
      SecondGridNonNeg(sizes, side);
    } else {
      SecondGridHolds(sizes, side, i);
      FirstGridNonNeg(sizes, side);
    }
  }

  lemma FirstGridHolds(sizes: seq<Size>, side: int, i: nat)
    requires side > 0 && i < |sizes| && i < side * side
    requires forall k :: 0 <= k < |sizes| ==> sizes[k].width >= 0 && sizes[k].height >= 0
    ensures FirstGrid(sizes, side).width >= sizes[i].width && FirstGrid(sizes, side).height >= sizes[i].height
  {
    var m := Min(side * side, |sizes|);
    DivBound(i, side);
    BucketHoldsByDiv(Widths(sizes), 0, m, side, side, i);
    BucketHoldsByMod(Heights(sizes), 0, m, side, side, i);
  }

  lemma SecondGridHolds(sizes: seq<Size>, side: int, i: nat)
    requires side > 0 && side * side <= i < |sizes|
    requires forall k :: 0 <= k < |sizes| ==> sizes[k].width >= 0 && sizes[k].height >= 0
    ensures SecondGrid(sizes, side).width >= sizes[i].width && SecondGrid(sizes, side).height >= sizes[i].height
  {
    SecondGridHoldsWidth(sizes, side, i);
    SecondGridHoldsHeight(sizes, side, i);
  }

  lemma SecondGridHoldsWidth(sizes: seq<Size>, side: int, i: nat)
    requires side > 0 && side * side <= i < |sizes|
    requires forall k :: 0 <= k < |sizes| ==> sizes[k].width >= 0
    ensures SecondGrid(sizes, side).width >= sizes[i].width
  {
    var sq := side * side;
    BucketHoldsByMod(Widths(sizes), sq, |sizes|, side, side, i);
  }

  lemma SecondGridHoldsHeight(sizes: seq<Size>, side: int, i: nat)
    requires side > 0 && side * side <= i < |sizes|
    requires forall k :: 0 <= k < |sizes| ==> sizes[k].height >= 0
    ensures SecondGrid(sizes, side).height >= sizes[i].height
  {
    var sq := side * side;
    var cols := CeilDiv(|sizes| - sq, side);
    CeilDivBound(i - sq, |sizes| - sq, side);
    BucketHoldsByDiv(Heights(sizes), sq, |sizes|, side, cols, i);
  }

  /** The largest of the quotient buckets holds each value it covers. */
  lemma BucketHoldsByDiv(vals: seq<int>, lo: nat, hi: nat, side: int, n: nat, i: nat)
    requires lo <= i < hi <= |vals| && side > 0 && (i - lo) / side < n
    requires forall k :: lo <= k < hi ==> vals[k] >= 0
    ensures MaxOf(DivSums(vals, lo, hi, side, n)) >= vals[i]
  {
    SumByDivCovers(vals, lo, hi, side, i);
    assert DivSums(vals, lo, hi, side, n)[(i - lo) / side] >= vals[i];
  }

  /** The largest of the remainder buckets holds each value it covers. */
  lemma BucketHoldsByMod(vals: seq<int>, lo: nat, hi: nat, side: int, n: nat, i: nat)
    requires lo <= i < hi <= |vals| && side > 0 && (i - lo) % side < n
    requires forall k :: lo <= k < hi ==> vals[k] >= 0
    ensures MaxOf(ModSums(vals, lo, hi, side, n)) >= vals[i]
  {
    SumByModCovers(vals, lo, hi, side, i);
    assert ModSums(vals, lo, hi, side, n)[(i - lo) % side] >= vals[i];
  }

  lemma FirstGridNonNeg(sizes: seq<Size>, side: int)
    requires side > 0
    requires forall k :: 0 <= k < |sizes| ==> sizes[k].width >= 0 && sizes[k].height >= 0
    ensures FirstGrid(sizes, side).width >= 0
  {
    var m := Min(side * side, |sizes|);
    var rows := DivSums(Widths(sizes), 0, m, side, side);
    SumByDivNonNeg(Widths(sizes), 0, m, side, 0);
    assert rows[0] >= 0;
  }

  lemma SecondGridNonNeg(sizes: seq<Size>, side: int)
    requires side > 0
    requires forall k :: 0 <= k < |sizes| ==> sizes[k].width >= 0 && sizes[k].height >= 0
    ensures SecondGrid(sizes, side).width >= 0 && SecondGrid(sizes, side).height >= 0
  {
    var sq := side * side;
    if |sizes| > sq {
      var cols := CeilDiv(|sizes| - sq, side);
      CeilDivPositive(|sizes| - sq, side);
      var rows := ModSums(Widths(sizes), sq, |sizes|, side, side);
      var colsH := DivSums(Heights(sizes), sq, |sizes|, side, cols);
      SumByModNonNeg(Widths(sizes), sq, |sizes|, side, 0);
      SumByDivNonNeg(Heights(sizes), sq, |sizes|, side, 0);
      assert rows[0] >= 0 && colsH[0] >= 0;
    }
  }

  /** A child of the square is in a row of it: `i < side * side` gives `i div side < side`. */
  lemma DivBound(i: nat, side: int)
    requires side > 0 && i < side * side
    ensures i / side < side
  {
  }

  /** An extra child is in one of the extra columns: `j < k` gives `j div side < ceil(k / side)`. */
  lemma CeilDivBound(j: nat, k: nat, side: int)
    requires side > 0 && j < k
    ensures j / side < CeilDiv(k, side)
  {
  }

  /** The updates of the square's loop: child `i` adds to row `i div side` and column `i mod side`. */
  method FirstGridSums(ws: seq<int>, hs: seq<int>, side: int, m: nat)
    returns (rowWidths: seq<int>, colHeights: seq<int>)
    requires side > 0 && |ws| == |hs| && m <= |ws| && m <= side * side
    ensures |rowWidths| == side && |colHeights| == side
    ensures forall r :: 0 <= r < side ==> rowWidths[r] == SumByDiv(ws, 0, m, side, r)
    ensures forall c :: 0 <= c < side ==> colHeights[c] == SumByMod(hs, 0, m, side, c)
  {
    rowWidths := seq(side, _ => 0);
    colHeights := seq(side, _ => 0);
    var i := 0;
    while i < m
      invariant 0 <= i <= m
      invariant |rowWidths| == side && |colHeights| == side
      invariant forall r :: 0 <= r < side ==> rowWidths[r] == SumByDiv(ws, 0, i, side, r)
      invariant forall c :: 0 <= c < side ==> colHeights[c] == SumByMod(hs, 0, i, side, c)
    {
      DivBound(i, side);
      rowWidths := rowWidths[i / side := rowWidths[i / side] + ws[i]];
      colHeights := colHeights[i % side := colHeights[i % side] + hs[i]];
      i := i + 1;
    }
  }

  /** The updates of the extra columns' loop: child `i` adds to row `(i - sq) mod side` and column `(i - sq) div side`. */
  method SecondGridSums(ws: seq<int>, hs: seq<int>, side: int, sq: nat, cols: nat)
    returns (rowWidths: seq<int>, colHeights: seq<int>)
    requires side > 0 && |ws| == |hs| && sq < |ws| && cols == CeilDiv(|ws| - sq, side)
    ensures |rowWidths| == side && |colHeights| == cols
    ensures forall r :: 0 <= r < side ==> rowWidths[r] == SumByMod(ws, sq, |ws|, side, r)
    ensures forall c :: 0 <= c < cols ==> colHeights[c] == SumByDiv(hs, sq, |hs|, side, c)
  {
    rowWidths := seq(side, _ => 0);
    colHeights := seq(cols, _ => 0);
    var i := sq;
    while i < |ws|
      invariant sq <= i <= |ws|
      invariant |rowWidths| == side && |colHeights| == cols
      invariant forall r :: 0 <= r < side ==> rowWidths[r] == SumByMod(ws, sq, i, side, r)
      invariant forall c :: 0 <= c < cols ==> colHeights[c] == SumByDiv(hs, sq, i, side, c)
    {
      CeilDivBound(i - sq, |ws| - sq, side);
      rowWidths := rowWidths[(i - sq) % side := rowWidths[(i - sq) % side] + ws[i]];
      colHeights := colHeights[(i - sq) / side := colHeights[(i - sq) / side] + hs[i]];
      i := i + 1;
    }
  }

  /** The first grid's loop and the maxima after it. */
  method FirstGridSize(sizes: seq<Size>, side: int) returns (r: Size)
    requires side > 0
    ensures r == FirstGrid(sizes, side)
  {
    var ws := Widths(sizes);
    var hs := Heights(sizes);
    var m := Min(side * side, |sizes|);
    var rowWidths, colHeights := FirstGridSums(ws, hs, side, m);
    assert rowWidths == DivSums(ws, 0, m, side, side);
    assert colHeights == ModSums(hs, 0, m, side, side);
    r := Size(MaxOf(rowWidths), MaxOf(colHeights));
  }

  /** The extra columns' loop and the maxima after it, (0, 0) without extra children. */
  method SecondGridSize(sizes: seq<Size>, side: int) returns (r: Size)
    requires side > 0
    ensures r == SecondGrid(sizes, side)
  {
    var sq := side * side;
    if |sizes| <= sq {
      return Size(0, 0);
    }
    var ws := Widths(sizes);
    var hs := Heights(sizes);
    var cols := CeilDiv(|sizes| - sq, side);
    CeilDivPositive(|sizes| - sq, side);
    var rowWidths, colHeights := SecondGridSums(ws, hs, side, sq, cols);
    assert rowWidths == ModSums(ws, sq, |sizes|, side, side);
    assert colHeights == DivSums(hs, sq, |sizes|, side, cols);
    r := Size(MaxOf(rowWidths), MaxOf(colHeights));
  }

  /** The grid's size from the two parts' sizes. */
  lemma GridSizeOfParts(sizes: seq<Size>, maxW: int, maxH: int, side: int, first: Size, second: Size)
    requires side > 0 && first == FirstGrid(sizes, side) && second == SecondGrid(sizes, side)
    ensures GridSize(sizes, maxW, maxH, side)
      == Ok(Size(Min(maxW, first.width + second.width), Min(maxH, Max(first.height, second.height))))
  {
  }

  /** The sizes of the grid children, in order. */
  function SizesOf(nodes: seq<TreeDto.NodeDto>, size: TreeDto.NodeDto -> Size): (r: seq<Size>)
    ensures |r| == |nodes| && forall i :: 0 <= i < |nodes| ==> r[i] == size(nodes[i])
  {
    seq(|nodes|, i requires 0 <= i < |nodes| => size(nodes[i]))
  }

  /**
   * `generate_widget_size_values_for_grid(node, max_w, max_h, side_size)`
   * with `size` giving each grid child's size: ValueError first when a
   * child's name is the value of no member, then the grid size.
   */
  method GenerateWidgetSizeValuesForGrid(node: TreeDto.NodeDto, maxW: int, maxH: int, sideSize: int,
                                         descriptions: map<string, Config.WidgetObjectDescription>,
                                         defaultPadding: int, size: TreeDto.NodeDto -> Size)
    returns (r: Result<Size>)
    ensures WidgetNames.SomeUnnamed(node.children) ==> r == Err(ValueError)
    ensures !WidgetNames.SomeUnnamed(node.children) ==>
      var g := GridChildren(node.children, descriptions, defaultPadding).value;
      r == GridSize(SizesOf(g, size), maxW, maxH, sideSize)
  {
    var grid := GridChildren(node.children, descriptions, defaultPadding);
    if grid.Err? {
      return Err(grid.error);
    }
    var gridChildren := grid.value;
    var sizes := SizesOf(gridChildren, size);
    if sideSize <= 0 {
      return Err(if sideSize < 0 && |sizes| > 0 then IndexError else ValueError);
    }
    var first := FirstGridSize(sizes, sideSize);
    var second := SecondGridSize(sizes, sideSize);
    GridSizeOfParts(sizes, maxW, maxH, sideSize, first, second);
    r := Ok(Size(Min(maxW, first.width + second.width), Min(maxH, Max(first.height, second.height))));
  }
}
