/**
 * Widget objects (`wo_abc.py`, `wo_concrete.py`): the tree of widget
 * objects a GUI is drawn from, the children operations of containers, the
 * child-slot conventions, the fixed child composition of the concrete
 * widgets and the cases whose geometry is null or which raise.
 *
 * A widget object is a value: its Python class, its description name,
 * its attribute list and content values, the geometry Qt gives it in the
 * output format in use, and its children. A container whose children are
 * changed in place is the class `ContainerObject`.
 */
module WidgetObjects {
  import opened Wrappers
  import opened SeqUtil
  import opened Attributes
  import opened WidgetGeometry
  import PyDict
  import WidgetVals

  type Values = PyDict.Dict<WidgetVals.WidgetContentName, WidgetVals.PyValue>

  datatype WidgetObject = WidgetObject(
    className: string,
    widgetName: string,
    isContainer: bool,
    attrs: seq<Attr>,
    values: Option<Values>,
    geometry: Geometry,
    children: seq<WidgetObject>)

  /**
   * `isinstance(w, cls)` for the concrete classes: the class itself, or
   * `ButtonWidget` for a scroll bar button, the one concrete subclass of
   * another concrete class.
   */
  predicate IsInstance(w: WidgetObject, cls: string) {
    w.className == cls || (cls == "ButtonWidget" && w.className == "ScrollBarButtonWidget")
  }

  /** `is_label_input_container`: overridden to True by the three label+input form items only. */
  predicate IsLabelInputContainer(w: WidgetObject) {
    w.className in {"LabeledInputHFormItemWidget", "RevInputEditHFormItemWidget", "TopLabeledInputVFormItemWidget"}
  }

  // ---------------------------------------------------------------------
  // Searching children and descendants

  /** The least index of a child that is an instance of `cls`, or -1. */
  function ChildIndex(children: seq<WidgetObject>, cls: string): (r: int)
    ensures -1 <= r < |children|
    ensures r >= 0 ==> IsInstance(children[r], cls)
    ensures forall j :: 0 <= j < |children| && (r == -1 || j < r) ==> !IsInstance(children[j], cls)
  {
    if children == [] then -1
    else if IsInstance(children[0], cls) then 0
    else
      var r := ChildIndex(children[1..], cls);
      assert forall j :: 1 <= j < |children| ==> children[j] == children[1..][j - 1];
      if r == -1 then -1 else r + 1
  }

  /** `find_child_index`: the source's scan over the children. */
  method FindChildIndex(children: seq<WidgetObject>, cls: string) returns (r: int)
    ensures r == ChildIndex(children, cls)
  {
    var index := 0;
    while index < |children|
      invariant 0 <= index <= |children|
      invariant forall j :: 0 <= j < index ==> !IsInstance(children[j], cls)
    {
      if IsInstance(children[index], cls) {
        ChildIndexUnique(children, cls, index);
        return index;
      }
      index := index + 1;
    }
    ChildIndexUnique(children, cls, -1);
    r := -1;
  }

  /** The contract of `ChildIndex` pins its value down. */
  lemma ChildIndexUnique(children: seq<WidgetObject>, cls: string, r: int)
    requires -1 <= r < |children|
    requires r >= 0 ==> IsInstance(children[r], cls)
    requires forall j :: 0 <= j < |children| && (r == -1 || j < r) ==> !IsInstance(children[j], cls)
    ensures r == ChildIndex(children, cls)
  {
  }

  /**
   * `find_descendants`: in pre-order, each child if it is an instance,
   * then, for a container child, that child's own matches.
   */
  function Descendants(children: seq<WidgetObject>, cls: string): seq<WidgetObject>
    decreases children
  {
    if children == [] then []
    else
      var c := children[0];
      (if IsInstance(c, cls) then [c] else [])
      + (if c.isContainer then Descendants(c.children, cls) else [])
      + Descendants(children[1..], cls)
  }

  /** `x` lies in the forest `children`, reached through containers only. */
  predicate Reachable(children: seq<WidgetObject>, x: WidgetObject)
    decreases children
  {
    exists i :: 0 <= i < |children| && (children[i] == x || (children[i].isContainer && Reachable(children[i].children, x)))
  }

  /** `find_descendants` returns exactly the reachable instances (and never the object itself). */
  lemma {:induction false} DescendantsExact(children: seq<WidgetObject>, cls: string, x: WidgetObject)
    ensures x in Descendants(children, cls) <==> IsInstance(x, cls) && Reachable(children, x)
    decreases children
  {
    if children != [] {
      var c := children[0];
      if c.isContainer {
        DescendantsExact(c.children, cls, x);
      }
      DescendantsExact(children[1..], cls, x);
      ReachableCons(children, x);
      var own := if IsInstance(c, cls) then [c] else [];
      var below := if c.isContainer then Descendants(c.children, cls) else [];
      var rest := Descendants(children[1..], cls);
      assert Descendants(children, cls) == own + below + rest;
      assert x in own + below + rest <==> x in own || x in below || x in rest;
    } else {
      assert !Reachable(children, x);
    }
  }

  /** Reaching `x` from a forest: from its first tree, or from the others. */
  lemma ReachableCons(children: seq<WidgetObject>, x: WidgetObject)
    requires children != []
    ensures Reachable(children, x) <==>
      (children[0] == x || (children[0].isContainer && Reachable(children[0].children, x)))
      || Reachable(children[1..], x)
  {
    if Reachable(children[1..], x) {
      var i :| 0 <= i < |children[1..]| && (children[1..][i] == x || (children[1..][i].isContainer && Reachable(children[1..][i].children, x)));
      assert children[i + 1] == children[1..][i];
    }
    if Reachable(children, x) {
      var i :| 0 <= i < |children| && (children[i] == x || (children[i].isContainer && Reachable(children[i].children, x)));
      if i > 0 {
        assert children[1..][i - 1] == children[i];
      }
    }
  }

  /** `find_descendants`, the source's loop with its recursive calls. */
  method FindDescendants(children: seq<WidgetObject>, cls: string) returns (result: seq<WidgetObject>)
    ensures result == Descendants(children, cls)
    decreases children
  {
    result := [];
    var k := 0;
    while k < |children|
      invariant 0 <= k <= |children|
      invariant result + Descendants(children[k..], cls) == Descendants(children, cls)
    {
      var child := children[k];
      var found: seq<WidgetObject> := [];
      if IsInstance(child, cls) {
        found := [child];
      }
      var more: seq<WidgetObject> := [];
      if child.isContainer {
        more := FindDescendants(child.children, cls);
      }
      DescendantsStep(result, found, more, children, cls, k);
      result := result + found + more;
      k := k + 1;
    }
    assert children[k..] == [];
  }

  /** One pass of the loop: the child's own match and its matches below. */
  lemma DescendantsStep(done: seq<WidgetObject>, found: seq<WidgetObject>, more: seq<WidgetObject>,
                        children: seq<WidgetObject>, cls: string, k: nat)
    requires k < |children|
    requires found == (if IsInstance(children[k], cls) then [children[k]] else [])
    requires more == (if children[k].isContainer then Descendants(children[k].children, cls) else [])
    requires done + Descendants(children[k..], cls) == Descendants(children, cls)
    ensures done + found + more + Descendants(children[k + 1..], cls) == Descendants(children, cls)
  {
    var ck := children[k..];
    var rest := Descendants(children[k + 1..], cls);
    assert ck[0] == children[k] && ck[1..] == children[k + 1..];
    assert Descendants(ck, cls) == found + more + rest;
    AppendAssoc(done, found, more);
    AppendAssoc(done, found + more, rest);
  }

  // ---------------------------------------------------------------------
  // A container's children, changed in place

  predicate IsMenuItem(c: WidgetObject) {
    c.widgetName == "MenuItem"
  }

  /** The children without the menu items, the rest in their order. */
  function NonMenu(s: seq<WidgetObject>): (r: seq<WidgetObject>)
    ensures |r| <= |s|
    ensures forall c :: c in r ==> c in s && !IsMenuItem(c)
    ensures forall c :: !IsMenuItem(c) ==> Count(r, c) == Count(s, c)
    ensures IsSubseq(r, s)
  {
    if s == [] then []
    else
      var rest := NonMenu(s[1..]);
      assert forall c :: c in s[1..] ==> c in s;
      if IsMenuItem(s[0]) then
        SubseqCons(rest, s);
        rest
      else
        assert ([s[0]] + rest)[1..] == rest;
        [s[0]] + rest
  }

  /** Every entry raised by one. */
  function Inc(p: seq<nat>): (r: seq<nat>)
    ensures |r| == |p|
    ensures forall t :: 0 <= t < |p| ==> r[t] == p[t] + 1
  {
    seq(|p|, t requires 0 <= t < |p| => p[t] + 1)
  }

  /**
   * The positions `clear_menubar` collects: for each menu item, its index
   * minus the number of menu items before it, i.e. where it stands once
   * those have been popped.
   */
  function Poses(s: seq<WidgetObject>): seq<nat> {
    if s == [] then []
    else if IsMenuItem(s[0]) then [0] + Poses(s[1..])
    else Inc(Poses(s[1..]))
  }

  /** `list.pop(p)` as a value; an index out of range leaves the list alone. */
  function PopAt(l: seq<WidgetObject>, p: nat): seq<WidgetObject> {
    if p < |l| then RemoveAt(l, p) else l
  }

  /** Popping the positions one after another. */
  function PopAll(l: seq<WidgetObject>, ps: seq<nat>): seq<WidgetObject>
    decreases |ps|
  {
    if ps == [] then l else PopAll(PopAt(l, ps[0]), ps[1..])
  }

  /** Every pop is in range when it happens (so none raises IndexError). */
  predicate PopsInRange(l: seq<WidgetObject>, ps: seq<nat>)
    decreases |ps|
  {
    ps == [] || (ps[0] < |l| && PopsInRange(RemoveAt(l, ps[0]), ps[1..]))
  }

  lemma {:induction false} PopAllCons(x: WidgetObject, r: seq<WidgetObject>, ps: seq<nat>)
    ensures PopAll([x] + r, Inc(ps)) == [x] + PopAll(r, ps)
    ensures PopsInRange(r, ps) ==> PopsInRange([x] + r, Inc(ps))
    decreases |ps|
  {
    if ps != [] {
      assert Inc(ps)[1..] == Inc(ps[1..]);
      if ps[0] < |r| {
        assert RemoveAt([x] + r, ps[0] + 1) == [x] + RemoveAt(r, ps[0]);
      }
      PopAllCons(x, PopAt(r, ps[0]), ps[1..]);
    }
  }

  /** Popping what `clear_menubar` collects leaves exactly the other children. */
  lemma {:induction false} PopPosesIsNonMenu(s: seq<WidgetObject>)
    ensures PopsInRange(s, Poses(s))
    ensures PopAll(s, Poses(s)) == NonMenu(s)
  {
    if s != [] {
      PopPosesIsNonMenu(s[1..]);
      if IsMenuItem(s[0]) {
        assert ([0] + Poses(s[1..]))[1..] == Poses(s[1..]);
        assert RemoveAt(s, 0) == s[1..];
      } else {
        PopAllCons(s[0], s[1..], Poses(s[1..]));
        assert [s[0]] + s[1..] == s;
      }
    }
  }

  /** The positions grow as the source's enumeration appends them. */
  lemma {:induction false} PosesSnoc(p: seq<WidgetObject>, x: WidgetObject)
    ensures |Poses(p)| <= |p|
    ensures Poses(p + [x]) == Poses(p) + (if IsMenuItem(x) then [|p| - |Poses(p)|] else [])
  {
    if p == [] {
      assert [x][1..] == [];
    } else {
      var q := p + [x];
      assert q[0] == p[0] && q[1..] == p[1..] + [x];
      PosesSnoc(p[1..], x);
      var rest := Poses(p[1..]);
      var tail := if IsMenuItem(x) then [|p[1..]| - |rest|] else [];
      assert Poses(p[1..] + [x]) == rest + tail;
      if IsMenuItem(p[0]) {
        assert Poses(q) == [0] + (rest + tail);
        assert Poses(p) == [0] + rest;
        AppendAssoc([0], rest, tail);
      } else {
        assert Poses(q) == Inc(rest + tail);
        assert Poses(p) == Inc(rest);
        IncAppend(rest, tail);
      }
    }
  }

  lemma IncAppend(a: seq<nat>, b: seq<nat>)
    ensures Inc(a + b) == Inc(a) + Inc(b)
  {
    assert forall t :: 0 <= t < |a + b| ==> Inc(a + b)[t] == (Inc(a) + Inc(b))[t];
  }

  class ContainerObject {
    const className: string
    const widgetName: string
    var children: seq<WidgetObject>

    constructor (className: string, widgetName: string)
      ensures this.className == className && this.widgetName == widgetName && children == []
    {
      this.className := className;
      this.widgetName := widgetName;
      children := [];
    }

    /** `add_child`: at the end. */
    method AddChild(child: WidgetObject)
      modifies this
      ensures children == old(children) + [child]
    {
      children := children + [child];
    }

    /** `remove_child`: the first equal child goes; an absent one raises ValueError. */
    method RemoveChild(child: WidgetObject) returns (r: Result<()>)
      modifies this
      ensures r.Ok? <==> child in old(children)
      ensures r.Ok? ==> children == RemoveAt(old(children), IndexOf(old(children), child))
      ensures r.Err? ==> r.error == ValueError && children == old(children)
    {
      if child !in children {
        return Err(ValueError);
      }
      children := RemoveAt(children, IndexOf(children, child));
      r := Ok(());
    }

    /** `get_child`: Python indexing of the children. */
    function GetChild(index: int): (r: Result<WidgetObject>)
      reads this
      ensures r == PyIndex(children, index)
    {
      PyIndex(children, index)
    }

    /**
     * `clear_menubar`: the first loop collects, for each menu item, its
     * position less the number collected so far; the second pops them in
     * that order. What remains is the other children, in their order.
     */
    method ClearMenubar()
      modifies this
      ensures children == NonMenu(old(children))
    {
      ghost var s := children;
      var poses: seq<nat> := [];
      var pos := 0;
      while pos < |children|
        invariant 0 <= pos <= |children| && children == s
        invariant poses == Poses(children[..pos])
      {
        var child := children[pos];
        PosesSnoc(children[..pos], child);
        assert children[..pos + 1] == children[..pos] + [child];
        if IsMenuItem(child) {
          poses := poses + [pos - |poses|];
        }
        pos := pos + 1;
      }
      assert children[..pos] == s;
      PopPosesIsNonMenu(s);
      var j := 0;
      while j < |poses|
        invariant 0 <= j <= |poses|
        invariant PopsInRange(children, poses[j..])
        invariant PopAll(children, poses[j..]) == NonMenu(s)
      {
        assert poses[j..][0] == poses[j] && poses[j..][1..] == poses[j + 1..];
        children := RemoveAt(children, poses[j]);
        j := j + 1;
      }
      assert poses[j..] == [];
    }

    /** The container as a widget-object value. */
    function AsValue(attrs: seq<Attr>, values: Option<Values>, geometry: Geometry): (w: WidgetObject)
      reads this
      ensures w.className == className && w.widgetName == widgetName && w.isContainer && w.children == children
    {
      WidgetObject(className, widgetName, true, attrs, values, geometry, children)
    }
  }

  // ---------------------------------------------------------------------
  // Child slots

  /** `checkbox` of a checkable widget: child 0. */
  function Checkbox(w: WidgetObject): (r: Result<WidgetObject>)
    ensures r == PyIndex(w.children, 0)
  {
    PyIndex(w.children, 0)
  }

  /** `widget_child1` of a form item (its left or top widget): child 0. */
  function FormChild1(w: WidgetObject): (r: Result<WidgetObject>)
    ensures r == PyIndex(w.children, 0)
  {
    PyIndex(w.children, 0)
  }

  /** `widget_child2` of a form item (its right or bottom widget): child 1. */
  function FormChild2(w: WidgetObject): (r: Result<WidgetObject>)
    ensures r == PyIndex(w.children, 1)
  {
    PyIndex(w.children, 1)
  }

  /** `vertical_scroll_bar` of a scrollable: child 0. */
  function VerticalScrollBar(w: WidgetObject): (r: Result<WidgetObject>)
    ensures r == PyIndex(w.children, 0)
  {
    PyIndex(w.children, 0)
  }

  /** `horizontal_scroll_bar` of a scrollable: child 1. */
  function HorizontalScrollBar(w: WidgetObject): (r: Result<WidgetObject>)
    ensures r == PyIndex(w.children, 1)
  {
    PyIndex(w.children, 1)
  }

  // ---------------------------------------------------------------------
  // Fixed child composition

  /** `init_form_item(widget1, widget2)` on a new form item: the two become children 0 and 1. */
  function FormItem(className: string, widgetName: string, attrs: seq<Attr>, values: Option<Values>,
                    geometry: Geometry, widget1: WidgetObject, widget2: WidgetObject): (w: WidgetObject)
    ensures w.isContainer && w.className == className && w.widgetName == widgetName
    ensures FormChild1(w) == Ok(widget1) && FormChild2(w) == Ok(widget2)
    ensures |w.children| == 2
  {
    WidgetObject(className, widgetName, true, attrs, values, geometry, [widget1, widget2])
  }

  /**
   * A form item's COCO geometry: the merged box of the Qt widgets of
   * children 0 and 1 with the item's padding. `qt` gives each child's Qt
   * widget rectangle (None when it has none, so `widget` raises). Child 0
   * and its widget are read before child 1 is looked up, so a missing or
   * widgetless child 0 decides the error before child 1 is reached; a
   * missing child raises IndexError.
   */
  function FormItemCocoGeometry(w: WidgetObject, qt: WidgetObject -> Option<Rect>, padding: int,
                                frame: (int, int), margin: int): (r: Result<Geometry>)
    ensures |w.children| == 0 ==> r == Err(IndexError)
    ensures |w.children| >= 1 && (IsButton(w.children[0]) || qt(w.children[0]).None?) ==> r == Err(RuntimeError)
    ensures |w.children| == 1 && !IsButton(w.children[0]) && qt(w.children[0]).Some? ==> r == Err(IndexError)
    ensures |w.children| >= 2 ==>
      var a := qt(w.children[0]);
      var b := qt(w.children[1]);
      && (r.Ok? <==> a.Some? && b.Some? && !IsButton(w.children[0]) && !IsButton(w.children[1]))
      && (r.Err? ==> r.error == RuntimeError)
      && (r.Ok? ==> r.value == CocoMergedGeometry(Point(a.value.x, a.value.y), a.value.width, a.value.height,
                                                  Point(b.value.x, b.value.y), b.value.width, b.value.height,
                                                  padding, frame, margin))
  {
    match FormChild1(w)
    case Err(e) => Err(e)
    case Ok(c1) =>
      if IsButton(c1) then Err(RuntimeError)
      else
        match qt(c1)
        case None => Err(RuntimeError)
        case Some(a) =>
          match FormChild2(w)
          case Err(e) => Err(e)
          case Ok(c2) =>
            if IsButton(c2) then Err(RuntimeError)
            else
              match qt(c2)
              case None => Err(RuntimeError)
              case Some(b) =>
                Ok(CocoMergedGeometry(Point(a.x, a.y), a.width, a.height, Point(b.x, b.y), b.width, b.height,
                                      padding, frame, margin))
  }

  /** The label (a `LabelWidget`) and the input (an `InputWidget`) of a label+input form item. */
  predicate LabelAndInput(labelWidget: WidgetObject, inputWidget: WidgetObject) {
    labelWidget.className == "LabelWidget" && inputWidget.className == "InputWidget"
  }

  /** `LabeledInputHFormItemWidget`: label left, input right. */
  function LabeledInput(widgetName: string, attrs: seq<Attr>, values: Option<Values>, geometry: Geometry,
                        labelWidget: WidgetObject, inputWidget: WidgetObject): (w: WidgetObject)
    requires LabelAndInput(labelWidget, inputWidget)
    ensures IsLabelInputContainer(w) && w.children == [labelWidget, inputWidget]
    ensures ChildIndex(w.children, "LabelWidget") == 0
  {
    FormItem("LabeledInputHFormItemWidget", widgetName, attrs, values, geometry, labelWidget, inputWidget)
  }

  /** `RevInputEditHFormItemWidget`: input left, label right. */
  function RevInputEdit(widgetName: string, attrs: seq<Attr>, values: Option<Values>, geometry: Geometry,
                        labelWidget: WidgetObject, inputWidget: WidgetObject): (w: WidgetObject)
    requires LabelAndInput(labelWidget, inputWidget)
    ensures IsLabelInputContainer(w) && w.children == [inputWidget, labelWidget]
    ensures ChildIndex(w.children, "LabelWidget") == 1
  {
    var w := FormItem("RevInputEditHFormItemWidget", widgetName, attrs, values, geometry, inputWidget, labelWidget);
    assert w.children[1..] == [labelWidget];
    w
  }

  /** `TopLabeledInputVFormItemWidget`: label on top, input below. */
  function TopLabeledInput(widgetName: string, attrs: seq<Attr>, values: Option<Values>, geometry: Geometry,
                           labelWidget: WidgetObject, inputWidget: WidgetObject): (w: WidgetObject)
    requires LabelAndInput(labelWidget, inputWidget)
    ensures IsLabelInputContainer(w) && w.children == [labelWidget, inputWidget]
    ensures ChildIndex(w.children, "LabelWidget") == 0
  {
    FormItem("TopLabeledInputVFormItemWidget", widgetName, attrs, values, geometry, labelWidget, inputWidget)
  }

  /** The four widgets an `InputWidget` can stand for. */
  datatype InputProxy = ComboBox | CheckableComboBox | LineEdit | CheckableLineEdit

  function ProxyClassName(p: InputProxy): string {
    match p
    case ComboBox => "ComboBoxWidget"
    case CheckableComboBox => "CheckableComboBoxWidget"
    case LineEdit => "LineEditWidget"
    case CheckableLineEdit => "CheckableLineEditWidget"
  }

  predicate IsCheckableProxy(p: InputProxy) {
    p == CheckableComboBox || p == CheckableLineEdit
  }

  /**
   * The attributes of an `InputWidget`, in the order its builder sets
   * them: TYPE (1 for the combo boxes, 0 for the line edits), CHECKABLE
   * for the checkable proxies only, then ENABLEABLE and HAS_TEXT copied
   * from the proxy (whose states are given).
   */
  function InputAttrs(p: InputProxy, checked: int, enabled: int, hasText: int): (r: seq<Attr>)
    ensures |r| == if IsCheckableProxy(p) then 4 else 3
    ensures r[0] == Attr(TYPE, IntState(if p == ComboBox || p == CheckableComboBox then 1 else 0))
    ensures IsCheckableProxy(p) ==> r[1] == Attr(CHECKABLE, IntState(checked))
    ensures !IsCheckableProxy(p) ==> forall a :: a in r ==> a.name != CHECKABLE
    ensures r[|r| - 2] == Attr(ENABLEABLE, IntState(enabled)) && r[|r| - 1] == Attr(HAS_TEXT, IntState(hasText))
  {
    var t := Attr(TYPE, IntState(if p == ComboBox || p == CheckableComboBox then 1 else 0));
    (if IsCheckableProxy(p) then [t, Attr(CHECKABLE, IntState(checked))] else [t])
    + [Attr(ENABLEABLE, IntState(enabled)), Attr(HAS_TEXT, IntState(hasText))]
  }

  /** `InputWidget`: one child, the proxy widget, and the attributes above. */
  function InputWidget(widgetName: string, p: InputProxy, proxy: WidgetObject, checked: int, enabled: int,
                       hasText: int, geometry: Geometry): (w: WidgetObject)
    requires proxy.className == ProxyClassName(p)
    ensures w.className == "InputWidget" && w.isContainer && w.children == [proxy]
    ensures w.attrs == InputAttrs(p, checked, enabled, hasText)
  {
    WidgetObject("InputWidget", widgetName, true, InputAttrs(p, checked, enabled, hasText),
      Some(PyDict.Empty()), geometry, [proxy])
  }

  /** A scroll bar button of the given type. */
  predicate IsButton(w: WidgetObject) {
    w.className == "ScrollBarButtonWidget"
  }

  /** `VertScrollBarWidget`: children up button, then down button. */
  function VertScrollBar(widgetName: string, attrs: seq<Attr>, geometry: Geometry, up: WidgetObject,
                         down: WidgetObject): (w: WidgetObject)
    requires IsButton(up) && IsButton(down)
    ensures w.className == "VertScrollBarWidget" && w.children == [up, down]
  {
    WidgetObject("VertScrollBarWidget", widgetName, true, attrs, None, geometry, [up, down])
  }

  /** `HorScrollBarWidget`: children left button, then right button. */
  function HorScrollBar(widgetName: string, attrs: seq<Attr>, geometry: Geometry, left: WidgetObject,
                        right: WidgetObject): (w: WidgetObject)
    requires IsButton(left) && IsButton(right)
    ensures w.className == "HorScrollBarWidget" && w.children == [left, right]
  {
    WidgetObject("HorScrollBarWidget", widgetName, true, attrs, None, geometry, [left, right])
  }

  /** `_init_scrollable`: the vertical bar, then the horizontal bar. */
  function Scrollable(className: string, widgetName: string, attrs: seq<Attr>, values: Option<Values>,
                      geometry: Geometry, vert: WidgetObject, hor: WidgetObject): (w: WidgetObject)
    requires vert.className == "VertScrollBarWidget" && hor.className == "HorScrollBarWidget"
    ensures VerticalScrollBar(w) == Ok(vert) && HorizontalScrollBar(w) == Ok(hor)
  {
    WidgetObject(className, widgetName, true, attrs, values, geometry, [vert, hor])
  }

  // ---------------------------------------------------------------------
  // Geometry and the cases that raise

  /** A widget object's Qt widget: unset, or a handle to one. */
  datatype QtHandle = NoWidget | QtWidget(isScrollArea: bool)

  /**
   * `widget`: raises RuntimeError when unset; a scroll bar button's
   * `widget` always raises, because Qt does not expose it.
   */
  function Widget(className: string, h: QtHandle): (r: Result<QtHandle>)
    ensures r.Err? <==> className == "ScrollBarButtonWidget" || h == NoWidget
    ensures r.Err? ==> r.error == RuntimeError
    ensures r.Ok? ==> r.value == h
  {
    if className == "ScrollBarButtonWidget" || h == NoWidget then Err(RuntimeError) else Ok(h)
  }

  /** The scrollable constructor accepts no widget or a `QAbstractScrollArea`, else raises RuntimeError. */
  function ScrollableWidget(h: QtHandle): (r: Result<QtHandle>)
    ensures r.Ok? <==> h == NoWidget || h.isScrollArea
    ensures r.Ok? ==> r.value == h
    ensures r.Err? ==> r.error == RuntimeError
  {
    if h == NoWidget || h.isScrollArea then Ok(h) else Err(RuntimeError)
  }

  /** The abstract default `get_relative_geometry`, which `TabWidget` keeps: the null geometry. */
  function DefaultGeometry(): (g: Geometry)
    ensures !NotNull(g)
  {
    NullGeometry()
  }

  /** A scroll bar's geometry: its drawn box when it is visible, else the null geometry. */
  function ScrollBarGeometry(visible: bool, drawn: Geometry): (g: Geometry)
    ensures visible ==> g == drawn
    ensures !visible ==> g == NullGeometry() && !NotNull(g)
  {
    if visible then drawn else DefaultGeometry()
  }

  /**
   * A scroll bar button's COCO geometry: the button's box within its bar
   * when the bar is visible, else the null geometry.
   */
  function ScrollBarButtonCocoGeometry(parentVisible: bool, padding: int, btnType: ScrollbarButtonType,
                                       barTopLeft: Point, barW: int, barH: int, frame: (int, int),
                                       margin: int): (r: Result<Geometry>)
    ensures !parentVisible ==> r == Ok(NullGeometry())
    ensures parentVisible ==> r == CocoScrollbarButtonGeometry(padding, btnType, barTopLeft, barW, barH, frame, margin)
  {
    if parentVisible then CocoScrollbarButtonGeometry(padding, btnType, barTopLeft, barW, barH, frame, margin)
    else Ok(DefaultGeometry())
  }

  /** `TabButtonWidget`'s geometry raises RuntimeError when no tab rectangle was given. */
  function TabButtonGeometry(tabRect: Option<Rect>, padding: int, frame: (int, int), margin: int): (r: Result<Geometry>)
    ensures r.Err? <==> tabRect.None?
    ensures r.Err? ==> r.error == RuntimeError
    ensures r.Ok? ==> r.value == StandardGeometry(tabRect.value.x, tabRect.value.y, tabRect.value.width,
                                                  tabRect.value.height, padding, frame, margin)
  {
    match tabRect
    case None => Err(RuntimeError)
    case Some(t) => Ok(StandardGeometry(t.x, t.y, t.width, t.height, padding, frame, margin))
  }

  // ---------------------------------------------------------------------
  // Menu item ids

  /** `MenuItemWidget.n_menu_item`, the class-level counter behind menu item ids. */
  class MenuItemCounter {
    var nMenuItem: nat

    constructor ()
      ensures nMenuItem == 0
    {
      nMenuItem := 0;
    }

    /** `_get_id`: the current count, which then goes up by one. */
    method GetId() returns (id: nat)
      modifies this
      ensures id == old(nMenuItem) && nMenuItem == old(nMenuItem) + 1
    {
      id := nMenuItem;
      nMenuItem := nMenuItem + 1;
    }

    /** `reset_id_count`. */
    method ResetIdCount()
      modifies this
      ensures nMenuItem == 0
    {
      nMenuItem := 0;
    }

    /** After a reset, the menu items created next get the ids 0, 1, 2, ... */
    method CreateAfterReset(k: nat) returns (ids: seq<nat>)
      modifies this
      ensures |ids| == k && forall i :: 0 <= i < k ==> ids[i] == i
      ensures nMenuItem == k
    {
      ResetIdCount();
      ids := [];
      while |ids| < k
        invariant |ids| <= k && nMenuItem == |ids|
        invariant forall i :: 0 <= i < |ids| ==> ids[i] == i
      {
        var id := GetId();
        ids := ids + [id];
      }
    }
  }
}
