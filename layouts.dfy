/**
 * The layouts the main window and flow containers use (`layouts.py`): the
 * grid layout object that walks a row/column cursor as children are
 * added (row-major up to a threshold, then column-major in fresh columns),
 * its label variant (column-major first, then an undefined method), and
 * the flow layout's item list and line-wrapping placement.
 */
module Layouts {
  import opened Wrappers
  import TreeDto
  import Config
  import WidgetNames

  // ---------------------------------------------------------------------
  // Grid layout

  /** Where the next child goes. */
  datatype Cursor = Cursor(row: int, col: int)

  /** Which way a grid fills before its threshold. */
  datatype FillOrder = LeftToRightFirst | TopToBottomFirst

  /** One `addWidget` call on the Qt grid: its widget, cell and whether it spans the rest (-1, -1). */
  datatype Placement = Placement(widget: nat, row: int, col: int, spansRest: bool)

  /** `_update_from_left_to_right`. */
  function LeftToRight(c: Cursor, maxCol: int): (r: Cursor)
    ensures c.col + 1 < maxCol ==> r == Cursor(c.row, c.col + 1)
    ensures c.col + 1 >= maxCol ==> r == Cursor(c.row + 1, 0)
  {
    if c.col + 1 >= maxCol then Cursor(c.row + 1, 0) else Cursor(c.row, c.col + 1)
  }

  /** `_update_from_top_to_bottom`. */
  function TopToBottom(c: Cursor, maxRow: int): (r: Cursor)
    ensures c.row + 1 < maxRow ==> r == Cursor(c.row + 1, c.col)
    ensures c.row + 1 >= maxRow ==> r == Cursor(0, c.col + 1)
  {
    if c.row + 1 >= maxRow then Cursor(0, c.col + 1) else Cursor(c.row + 1, c.col)
  }

  /**
   * `_update_row_col` once `added` children have been added: up to the
   * threshold (max_col * max_row) the order's own step, after it
   * column-major (the label variant calls an undefined method there and
   * fails with AttributeError), and at the threshold a jump to row 0 of
   * column max_col + 1.
   */
  function NextCursor(order: FillOrder, added: nat, c: Cursor, maxCol: int, maxRow: int): Result<Cursor> {
    var threshold := maxCol * maxRow;
    if added <= threshold then
      var moved := if order == LeftToRightFirst then LeftToRight(c, maxCol) else TopToBottom(c, maxRow);
      Ok(if added == threshold then Cursor(0, maxCol + 1) else moved)
    else if order == LeftToRightFirst then Ok(TopToBottom(c, maxRow))
    else Err(AttributeError)
  }

  /** The cursor after `k` children, starting at (0, 0). */
  function CursorAfter(order: FillOrder, k: nat, maxCol: int, maxRow: int): Result<Cursor> {
    if k == 0 then Ok(Cursor(0, 0))
    else
      match CursorAfter(order, k - 1, maxCol, maxRow)
      case Err(e) => Err(e)
      case Ok(c) => NextCursor(order, k, c, maxCol, maxRow)
  }

  /**
   * The grid of the main window, with positive dimensions: the first
   * max_col * max_row children fill rows of max_col cells (child k at row
   * k div max_col, column k mod max_col), the rest fill columns of
   * max_row cells starting at column max_col + 1.
   */
  ghost predicate GridPlace(k: nat, c: Cursor, maxCol: int, maxRow: int)
    requires maxCol > 0 && maxRow > 0
  {
    var threshold := maxCol * maxRow;
    if k < threshold then c.row * maxCol + c.col == k && 0 <= c.col < maxCol && 0 <= c.row
    else c.col > maxCol && (c.col - maxCol - 1) * maxRow + c.row == k - threshold && 0 <= c.row < maxRow
  }

  lemma {:induction false} GridCursorClosedForm(k: nat, maxCol: int, maxRow: int)
    requires maxCol > 0 && maxRow > 0
    ensures CursorAfter(LeftToRightFirst, k, maxCol, maxRow).Ok?
    ensures GridPlace(k, CursorAfter(LeftToRightFirst, k, maxCol, maxRow).value, maxCol, maxRow)
  {
    var threshold := maxCol * maxRow;
    if k > 0 {
      GridCursorClosedForm(k - 1, maxCol, maxRow);
      var c := CursorAfter(LeftToRightFirst, k - 1, maxCol, maxRow).value;
      var d := CursorAfter(LeftToRightFirst, k, maxCol, maxRow).value;
      if k < threshold {
        if c.col + 1 >= maxCol {
          assert (c.row + 1) * maxCol == c.row * maxCol + maxCol;
        }
      } else if k == threshold {
        assert d == Cursor(0, maxCol + 1);
      } else {
        if c.row + 1 >= maxRow {
          assert (c.col + 1 - maxCol - 1) * maxRow == (c.col - maxCol - 1) * maxRow + maxRow;
        }
      }
    }
  }

  /** The main window's grid leaves column max_col empty: no child is ever placed there. */
  lemma GridSkipsColumn(k: nat, maxCol: int, maxRow: int)
    requires maxCol > 0 && maxRow > 0
    ensures CursorAfter(LeftToRightFirst, k, maxCol, maxRow).Ok?
    ensures CursorAfter(LeftToRightFirst, k, maxCol, maxRow).value.col != maxCol
  {
    GridCursorClosedForm(k, maxCol, maxRow);
  }

  /** The label grid fails once a child is added past its threshold, and succeeds until then. */
  lemma {:induction false} LabelGridFailsPastThreshold(k: nat, maxCol: int, maxRow: int)
    requires maxCol > 0 && maxRow > 0
    ensures CursorAfter(TopToBottomFirst, k, maxCol, maxRow).Ok? <==> k <= maxCol * maxRow
  {
    if k > 0 {
      LabelGridFailsPastThreshold(k - 1, maxCol, maxRow);
    }
  }

  /** The `is_central_widget_child` flag of the member whose value is `name`. */
  function IsCentral(name: string, descriptions: map<string, Config.WidgetObjectDescription>, defaultPadding: int): bool {
    WidgetNames.ConfiguredDescription(name, descriptions, defaultPadding).centralWidgetChild
  }

  /**
   * `__count_grid_children`: the root's direct children whose kind is a
   * central-widget child; ValueError when a child's name is the value of no
   * member of `WidgetNames`.
   */
  function CountGridChildren(children: seq<TreeDto.NodeDto>, descriptions: map<string, Config.WidgetObjectDescription>,
                             defaultPadding: int): (r: Result<nat>)
    ensures r.Err? <==> WidgetNames.SomeUnnamed(children)
    ensures r.Err? ==> r.error == ValueError
    ensures r.Ok? ==> r.value <= |children|
    ensures r.Ok? ==>
      (r.value == |children| <==> forall i :: 0 <= i < |children| ==> IsCentral(children[i].name, descriptions, defaultPadding))
    ensures r.Ok? ==>
      (r.value == 0 <==> forall i :: 0 <= i < |children| ==> !IsCentral(children[i].name, descriptions, defaultPadding))
  {
    if children == [] then Ok(0)
    else
      assert forall i :: 1 <= i < |children| ==> children[i] == children[1..][i - 1];
      WidgetNames.SomeUnnamedCons(children);
      match WidgetNames.DescriptionOfValue(children[0].name, descriptions, defaultPadding)
      case Err(e) => Err(e)
      case Ok(d) =>
        match CountGridChildren(children[1..], descriptions, defaultPadding)
        case Err(e) => Err(e)
        case Ok(rest) => Ok((if d.centralWidgetChild then 1 else 0) + rest)
  }

  /** The loop of `__count_grid_children`, over the root's children in order. */
  method CountGridChildrenOf(tree: TreeDto.TreeDto, descriptions: map<string, Config.WidgetObjectDescription>,
                             defaultPadding: int) returns (r: Result<nat>)
    ensures r == CountGridChildren(tree.rootNode.children, descriptions, defaultPadding)
  {
    var children := tree.rootNode.children;
    var result := 0;
    var k := 0;
    while k < |children|
      invariant 0 <= k <= |children|
      invariant CountGridChildren(children, descriptions, defaultPadding).Ok? <==>
        CountGridChildren(children[k..], descriptions, defaultPadding).Ok?
      invariant CountGridChildren(children, descriptions, defaultPadding).Ok? ==>
        CountGridChildren(children, descriptions, defaultPadding).value
          == result + CountGridChildren(children[k..], descriptions, defaultPadding).value
    {
      assert children[k..][0] == children[k] && children[k..][1..] == children[k + 1..];
      var d := WidgetNames.DescriptionOfValue(children[k].name, descriptions, defaultPadding);
      if d.Err? {
        return Err(d.error);
      }
      if d.value.centralWidgetChild {
        result := result + 1;
      }
      k := k + 1;
    }
    assert children[k..] == [];
    r := Ok(result);
  }

  /**
   * `GridLayoutObject` (fill order left-to-right first) and
   * `LabelGridLayoutObject` (top-to-bottom first); the Qt grid is the list
   * of its `addWidget` calls.
   */
  class GridLayoutObject {
    const order: FillOrder
    const maxColBeforeChangingAddingOrder: int
    const maxRow: int
    const childrenCount: nat
    var childrenAdded: nat
    var row: int
    var col: int
    var placements: seq<Placement>

    /**
     * The cursor has followed the fill order for every child added, each
     * add is recorded, and only the add that reached the number of grid
     * children spans the rest.
     */
    ghost predicate Valid()
      reads this
    {
      && CursorAfter(order, childrenAdded, maxColBeforeChangingAddingOrder, maxRow) == Ok(Cursor(row, col))
      && |placements| == childrenAdded
      && forall j :: 0 <= j < |placements| ==> placements[j].spansRest == (childrenCount == j + 1)
    }

    /** The state `GridLayoutObject.__init__` leaves once the grid children are counted. */
    constructor (order: FillOrder, childrenCount: nat, maxColBeforeChangingAddingOrder: int, maxRow: int)
      ensures Valid()
      ensures this.order == order && this.maxRow == maxRow
      ensures this.maxColBeforeChangingAddingOrder == maxColBeforeChangingAddingOrder
      ensures this.childrenCount == childrenCount
      ensures childrenAdded == 0 && row == 0 && col == 0 && placements == []
    {
      this.order := order;
      this.maxColBeforeChangingAddingOrder := maxColBeforeChangingAddingOrder;
      this.maxRow := maxRow;
      this.childrenCount := childrenCount;
      childrenAdded := 0;
      row := 0;
      col := 0;
      placements := [];
    }

    /**
     * `add_child`: the widget goes into the current cell, spanning the
     * rest only when it is the last of the counted children, then the
     * cursor moves on (for the label grid past its threshold this raises
     * AttributeError after the widget has been placed).
     */
    method AddChild(widget: nat) returns (r: Result<()>)
      requires Valid()
      modifies this
      ensures childrenAdded == old(childrenAdded) + 1
      ensures placements == old(placements) + [Placement(widget, old(row), old(col), childrenCount == childrenAdded)]
      ensures r.Ok? <==> CursorAfter(order, childrenAdded, maxColBeforeChangingAddingOrder, maxRow).Ok?
      ensures r.Ok? ==> Valid()
      ensures r.Err? ==> r.error == AttributeError && row == old(row) && col == old(col)
    {
      childrenAdded := childrenAdded + 1;
      placements := placements + [Placement(widget, row, col, childrenCount == childrenAdded)];
      var next := NextCursor(order, childrenAdded, Cursor(row, col), maxColBeforeChangingAddingOrder, maxRow);
      if next.Err? {
        return Err(next.error);
      }
      row := next.value.row;
      col := next.value.col;
      r := Ok(());
    }
  }

  /**
   * `GridLayoutObject(tree, max_col_before_changing_adding_order, max_row)`
   * (or the label variant): the grid children are counted first, which
   * raises ValueError for a child of unknown name; otherwise a new grid at
   * (0, 0) with nothing added.
   */
  method NewGridLayoutObject(order: FillOrder, tree: TreeDto.TreeDto, maxColBeforeChangingAddingOrder: int,
                             maxRow: int, descriptions: map<string, Config.WidgetObjectDescription>,
                             defaultPadding: int)
    returns (r: Result<GridLayoutObject>)
    ensures r.Err? <==> WidgetNames.SomeUnnamed(tree.rootNode.children)
    ensures r.Err? ==> r.error == ValueError
    ensures r.Ok? ==> var g := r.value;
      && fresh(g) && g.Valid() && g.order == order && g.maxRow == maxRow
      && g.maxColBeforeChangingAddingOrder == maxColBeforeChangingAddingOrder
      && g.childrenCount == CountGridChildren(tree.rootNode.children, descriptions, defaultPadding).value
      && g.childrenAdded == 0 && g.row == 0 && g.col == 0 && g.placements == []
  {
    var n := CountGridChildrenOf(tree, descriptions, defaultPadding);
    if n.Err? {
      return Err(n.error);
    }
    var g := new GridLayoutObject(order, n.value, maxColBeforeChangingAddingOrder, maxRow);
    r := Ok(g);
  }

  /**
   * `MainWindowWidget` builds its grid as `GridLayoutObject(tree, max_row,
   * max_col_before_changing_adding_order)`, so its max_row becomes the
   * grid's row width and its column setting the grid's row count.
   */
  method MainWindowGrid(tree: TreeDto.TreeDto, maxRow: int, maxColBeforeChangingAddingOrder: int,
                        descriptions: map<string, Config.WidgetObjectDescription>, defaultPadding: int)
    returns (r: Result<GridLayoutObject>)
    ensures r.Err? <==> WidgetNames.SomeUnnamed(tree.rootNode.children)
    ensures r.Err? ==> r.error == ValueError
    ensures r.Ok? ==> var g := r.value;
      && fresh(g) && g.Valid() && g.order == LeftToRightFirst
      && g.maxColBeforeChangingAddingOrder == maxRow && g.maxRow == maxColBeforeChangingAddingOrder
      && g.childrenAdded == 0 && g.placements == []
  {
    r := NewGridLayoutObject(LeftToRightFirst, tree, maxRow, maxColBeforeChangingAddingOrder, descriptions, defaultPadding);
  }

  /** At most one widget of a grid spans the rest of it. */
  lemma AtMostOneSpans(g: GridLayoutObject, i: nat, j: nat)
    requires g.Valid() && i < j < |g.placements|
    ensures !(g.placements[i].spansRest && g.placements[j].spansRest)
  {
  }

  // ---------------------------------------------------------------------
  // Flow layout

  /** A layout item: its size hint and the horizontal and vertical spacing its style asks for. */
  datatype FlowItem = FlowItem(id: nat, hintWidth: int, hintHeight: int, layoutSpacingX: int, layoutSpacingY: int)

  datatype Rect = Rect(x: int, y: int, width: int, height: int)

  /** `QRect.right()`: the last column inside the rectangle. */
  function Right(r: Rect): int {
    r.x + r.width - 1
  }

  /** The running state of `_do_layout`: the next item's position and the current line's height. */
  datatype FlowState = FlowState(x: int, y: int, lineHeight: int)

  /** Where one item goes: on this line, or at the start of the next when it would pass the right edge. */
  function ItemPos(s: FlowState, item: FlowItem, rect: Rect, spacing: int): (p: FlowState)
    ensures p.lineHeight == 0 || p == s
    ensures p != s ==> p.x == rect.x && p.y == s.y + s.lineHeight + spacing + item.layoutSpacingY
  {
    var spaceX := spacing + item.layoutSpacingX;
    var nextX := s.x + item.hintWidth + spaceX;
    if nextX - spaceX > Right(rect) && s.lineHeight > 0 then
      FlowState(rect.x, s.y + s.lineHeight + spacing + item.layoutSpacingY, 0)
    else s
  }

  /** The state after an item: just past it (with its spacing), the line as tall as its tallest item. */
  function AfterItem(p: FlowState, item: FlowItem, spacing: int): FlowState {
    FlowState(p.x + item.hintWidth + spacing + item.layoutSpacingX, p.y,
              if p.lineHeight >= item.hintHeight then p.lineHeight else item.hintHeight)
  }

  /** The positions of the items, in order, from a state. */
  function Positions(items: seq<FlowItem>, s: FlowState, rect: Rect, spacing: int): (r: seq<FlowState>)
    ensures |r| == |items|
    decreases |items|
  {
    if items == [] then []
    else
      var p := ItemPos(s, items[0], rect, spacing);
      [p] + Positions(items[1..], AfterItem(p, items[0], spacing), rect, spacing)
  }

  /** The state after all items. */
  function FinalState(items: seq<FlowItem>, s: FlowState, rect: Rect, spacing: int): FlowState
    decreases |items|
  {
    if items == [] then s
    else FinalState(items[1..], AfterItem(ItemPos(s, items[0], rect, spacing), items[0], spacing), rect, spacing)
  }

  /** One item of a flow from the k-th on: its position, then the rest from the state after it. */
  lemma FlowStepAt(items: seq<FlowItem>, k: nat, s: FlowState, rect: Rect, spacing: int)
    requires k < |items|
    ensures var p := ItemPos(s, items[k], rect, spacing);
      && FinalState(items[k..], s, rect, spacing) == FinalState(items[k + 1..], AfterItem(p, items[k], spacing), rect, spacing)
      && Positions(items[k..], s, rect, spacing) == [p] + Positions(items[k + 1..], AfterItem(p, items[k], spacing), rect, spacing)
  {
    assert items[k..][0] == items[k] && items[k..][1..] == items[k + 1..];
  }

  lemma DropOne<T>(ps: seq<T>, k: nat, q: T, rest: seq<T>)
    requires k < |ps| && ps[k..] == [q] + rest
    ensures ps[k] == q && ps[k + 1..] == rest
  {
    assert ps[k..][0] == ps[k] && ps[k..][1..] == ps[k + 1..];
  }

  /** The geometry an item is given: its position and its size hint. */
  datatype ItemGeometry = ItemGeometry(id: nat, rect: Rect)

  function Geometries(items: seq<FlowItem>, rect: Rect, spacing: int): (r: seq<ItemGeometry>)
    ensures |r| == |items|
  {
    var ps := Positions(items, FlowState(rect.x, rect.y, 0), rect, spacing);
    seq(|items|, i requires 0 <= i < |items| =>
      ItemGeometry(items[i].id, Rect(ps[i].x, ps[i].y, items[i].hintWidth, items[i].hintHeight)))
  }

  /** The geometries of the first k items, then the k-th at its position, are those of the first k + 1. */
  lemma GeometriesStep(items: seq<FlowItem>, rect: Rect, spacing: int, k: nat, placed: seq<ItemGeometry>, p: FlowState)
    requires k < |items|
    requires placed == Geometries(items, rect, spacing)[..k]
    requires Positions(items, FlowState(rect.x, rect.y, 0), rect, spacing)[k] == p
    ensures placed + [ItemGeometry(items[k].id, Rect(p.x, p.y, items[k].hintWidth, items[k].hintHeight))]
            == Geometries(items, rect, spacing)[..k + 1]
  {
    var g := Geometries(items, rect, spacing);
    assert g[..k + 1] == g[..k] + [g[k]];
  }

  /**
   * With items of positive height, every item starts at the left edge or
   * ends before the right edge: an item that would pass it starts a new
   * line.
   */
  lemma {:induction false} FlowItemsFit(items: seq<FlowItem>, s: FlowState, rect: Rect, spacing: int, i: nat)
    requires forall j :: 0 <= j < |items| ==> items[j].hintHeight > 0
    requires s.lineHeight > 0 || s.x == rect.x
    requires i < |items|
    ensures var p := Positions(items, s, rect, spacing)[i];
      p.x == rect.x || p.x + items[i].hintWidth <= Right(rect)
    decreases i
  {
    var p := ItemPos(s, items[0], rect, spacing);
    if i > 0 {
      assert forall j :: 1 <= j < |items| ==> items[j] == items[1..][j - 1];
      FlowItemsFit(items[1..], AfterItem(p, items[0], spacing), rect, spacing, i - 1);
    }
  }

  /** With non-negative sizes and spacings, lines never go up: positions are ordered by y. */
  lemma {:induction false} FlowRowsDescend(items: seq<FlowItem>, s: FlowState, rect: Rect, spacing: int, i: nat)
    requires forall j :: 0 <= j < |items| ==> items[j].hintHeight >= 0 && spacing + items[j].layoutSpacingY >= 0
    requires s.lineHeight >= 0
    requires i < |items|
    ensures Positions(items, s, rect, spacing)[i].y >= s.y
    ensures FinalState(items, s, rect, spacing).y >= s.y && FinalState(items, s, rect, spacing).lineHeight >= 0
    decreases |items|
  {
    var p := ItemPos(s, items[0], rect, spacing);
    var a := AfterItem(p, items[0], spacing);
    if |items| > 1 {
      assert forall j :: 1 <= j < |items| ==> items[j] == items[1..][j - 1];
      FlowRowsDescend(items[1..], a, rect, spacing, if i > 0 then i - 1 else 0);
    }
  }

  /** `FlowLayout`: the list of its items. */
  class FlowLayout {
    var itemList: seq<FlowItem>

    constructor ()
      ensures itemList == []
    {
      itemList := [];
    }

    /** `addItem`: appends. */
    method AddItem(item: FlowItem)
      modifies this
      ensures itemList == old(itemList) + [item]
    {
      itemList := itemList + [item];
    }

    /** `count`. */
    function Count(): (n: nat)
      reads this
      ensures n == |itemList|
    {
      |itemList|
    }

    /** `itemAt`: the item at a valid index, else None. */
    function ItemAt(index: int): (r: Option<FlowItem>)
      reads this
      ensures r.Some? <==> 0 <= index < |itemList|
      ensures r.Some? ==> r.value == itemList[index]
    {
      if 0 <= index < |itemList| then Some(itemList[index]) else None
    }

    /** `takeAt`: removes and returns the item at a valid index; None and no change otherwise. */
    method TakeAt(index: int) returns (r: Option<FlowItem>)
      modifies this
      ensures r == old(ItemAt(index))
      ensures r.Some? ==> itemList == old(itemList[..index] + itemList[index + 1..])
      ensures r.None? ==> itemList == old(itemList)
    {
      if 0 <= index < |itemList| {
        r := Some(itemList[index]);
        itemList := itemList[..index] + itemList[index + 1..];
      } else {
        r := None;
      }
    }

    /** `__del__`: takes the first item until there is none. */
    method TakeAll() returns (taken: seq<FlowItem>)
      modifies this
      ensures taken == old(itemList) && itemList == []
    {
      ghost var orig := itemList;
      taken := [];
      var item := TakeAt(0);
      while item.Some?
        invariant item.Some? ==> taken + [item.value] + itemList == orig
        invariant item.None? ==> taken == orig && itemList == []
        decreases |itemList| + (if item.Some? then 1 else 0)
      {
        taken := taken + [item.value];
        ghost var before := itemList;
        item := TakeAt(0);
        assert item.Some? ==> before == [item.value] + itemList;
      }
    }

    /**
     * `_do_layout(rect, test_only)`: each item after the last on its line,
     * on a new line when it would pass the right edge of a non-empty line;
     * the items are given their geometries unless only testing, and the
     * result is the height used.
     */
    method DoLayout(rect: Rect, testOnly: bool, spacing: int) returns (height: int, placed: seq<ItemGeometry>)
      ensures height == FinalState(itemList, FlowState(rect.x, rect.y, 0), rect, spacing).y
                        + FinalState(itemList, FlowState(rect.x, rect.y, 0), rect, spacing).lineHeight - rect.y
      ensures testOnly ==> placed == []
      ensures !testOnly ==> placed == Geometries(itemList, rect, spacing)
    {
      var x := rect.x;
      var y := rect.y;
      var lineHeight := 0;
      placed := [];
      ghost var start := FlowState(rect.x, rect.y, 0);
      var k := 0;
      while k < |itemList|
        invariant 0 <= k <= |itemList|
        invariant FinalState(itemList[k..], FlowState(x, y, lineHeight), rect, spacing)
                  == FinalState(itemList, start, rect, spacing)
        invariant Positions(itemList, start, rect, spacing)[k..]
                  == Positions(itemList[k..], FlowState(x, y, lineHeight), rect, spacing)
        invariant testOnly ==> placed == []
        invariant !testOnly ==> placed == Geometries(itemList, rect, spacing)[..k]
      {
        var item := itemList[k];
        ghost var before := FlowState(x, y, lineHeight);
        ghost var p := ItemPos(before, item, rect, spacing);
        FlowStepAt(itemList, k, before, rect, spacing);
        var spaceX := spacing + item.layoutSpacingX;
        var spaceY := spacing + item.layoutSpacingY;
        var nextX := x + item.hintWidth + spaceX;
        if nextX - spaceX > Right(rect) && lineHeight > 0 {
          x := rect.x;
          y := y + lineHeight + spaceY;
          nextX := x + item.hintWidth + spaceX;
          lineHeight := 0;
        }
        assert FlowState(x, y, lineHeight) == p;
        ghost var after := AfterItem(p, item, spacing);
        DropOne(Positions(itemList, start, rect, spacing), k, p, Positions(itemList[k + 1..], after, rect, spacing));
        if !testOnly {
          GeometriesStep(itemList, rect, spacing, k, placed, p);
          placed := placed + [ItemGeometry(item.id, Rect(x, y, item.hintWidth, item.hintHeight))];
        }
        x := nextX;
        lineHeight := if lineHeight >= item.hintHeight then lineHeight else item.hintHeight;
        k := k + 1;
        assert FlowState(x, y, lineHeight) == after;
      }
      assert itemList[k..] == [];
      height := y + lineHeight - rect.y;
    }

    /** `heightForWidth`: the height a test layout in a rectangle of that width at the origin uses. */
    method HeightForWidth(width: int, spacing: int) returns (height: int)
      ensures height == FinalState(itemList, FlowState(0, 0, 0), Rect(0, 0, width, 0), spacing).y
                        + FinalState(itemList, FlowState(0, 0, 0), Rect(0, 0, width, 0), spacing).lineHeight
    {
      var placed;
      height, placed := DoLayout(Rect(0, 0, width, 0), true, spacing);
    }
  }
}
