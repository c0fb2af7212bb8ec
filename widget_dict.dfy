/**
 * The per-image annotation accumulator (`widget_dict.py`): four dicts keyed
 * by widget name and then by widget id (geometry, attribute list, content
 * values, and geometry with attributes), a widget id counter that goes up
 * by one per recorded widget object, and the list of label/input id links.
 * The factory walks a widget-object tree in pre-order and records each
 * object; a label+input form item records itself and its two children and
 * then links the two ids.
 */
module WidgetDict {
  import opened Wrappers
  import opened SeqUtil
  import opened Attributes
  import opened WidgetGeometry
  import opened WidgetObjects

  /** A label/input link: the ids of a label and of the input it labels. */
  datatype LinkIds = LinkIds(labelId: int, inputId: int)

  /** `LabelInputIds`, whose two ids are overwritten by the exporter. */
  class LabelInputIds {
    var labelId: int
    var inputId: int

    constructor (labelId: int, inputId: int)
      ensures this.labelId == labelId && this.inputId == inputId
    {
      this.labelId := labelId;
      this.inputId := inputId;
    }

    function Value(): (l: LinkIds)
      reads this
      ensures l.labelId == labelId && l.inputId == inputId
    {
      LinkIds(labelId, inputId)
    }

    /** `have_id`: the id is one of the two. */
    function HaveId(id: int): (r: bool)
      reads this
      ensures r <==> id == labelId || id == inputId
      ensures r == HasId(Value(), id)
    {
      id == labelId || id == inputId
    }

    /** `replace_label_id`: the input id is kept. */
    method ReplaceLabelId(id: int)
      modifies this
      ensures labelId == id && inputId == old(inputId)
      ensures Value() == WithLabelId(old(Value()), id)
    {
      labelId := id;
    }

    /** `replace_input_id`: the label id is kept. */
    method ReplaceInputId(id: int)
      modifies this
      ensures inputId == id && labelId == old(labelId)
      ensures Value() == WithInputId(old(Value()), id)
    {
      inputId := id;
    }
  }

  predicate HasId(l: LinkIds, id: int) {
    id == l.labelId || id == l.inputId
  }

  function WithLabelId(l: LinkIds, id: int): LinkIds {
    l.(labelId := id)
  }

  function WithInputId(l: LinkIds, id: int): LinkIds {
    l.(inputId := id)
  }

  // ---------------------------------------------------------------------
  // The accumulator's state as a value

  datatype State = State(
    geom: map<string, map<nat, Geometry>>,
    attr: map<string, map<nat, seq<Attr>>>,
    content: map<string, map<nat, Values>>,
    geomAttr: map<string, map<nat, (Geometry, seq<Attr>)>>,
    links: seq<LinkIds>,
    id: nat)

  /** A new accumulator: empty dicts, no links, the counter at 0. */
  function EmptyState(): (s: State)
    ensures s.geom == map[] && s.attr == map[] && s.content == map[] && s.geomAttr == map[]
    ensures s.links == [] && s.id == 0
    ensures Consistent(s)
  {
    State(map[], map[], map[], map[], [], 0)
  }

  /** `d[name][id] = v`, creating the inner dict when the name is new. */
  function Put<V>(d: map<string, map<nat, V>>, name: string, id: nat, v: V): map<string, map<nat, V>> {
    d[name := (if name in d then d[name] else map[])[id := v]]
  }

  /**
   * `add_geometry_attributes_values`: the geometry, attribute and
   * geometry+attribute entries for a non-null geometry, the content entry
   * whenever there are values, all under the current id, which then goes
   * up by one.
   */
  function Add(s: State, w: WidgetObject): State {
    var g := w.geometry;
    State(
      if NotNull(g) then Put(s.geom, w.widgetName, s.id, g) else s.geom,
      if NotNull(g) then Put(s.attr, w.widgetName, s.id, w.attrs) else s.attr,
      if w.values.Some? then Put(s.content, w.widgetName, s.id, w.values.value) else s.content,
      if NotNull(g) then Put(s.geomAttr, w.widgetName, s.id, (g, w.attrs)) else s.geomAttr,
      s.links,
      s.id + 1)
  }

  /**
   * `add_two_last_added_as_label_input_link`: label index 0 links the
   * two ids before the current one as (label, input), index 1 as (input,
   * label); any other index raises RuntimeError.
   */
  function AddLink(s: State, labelIndex: int): (r: Result<State>)
    ensures r.Ok? <==> labelIndex == 0 || labelIndex == 1
    ensures r.Err? ==> r.error == RuntimeError
    ensures labelIndex == 0 ==> r == Ok(s.(links := s.links + [LinkIds(s.id - 2, s.id - 1)]))
    ensures labelIndex == 1 ==> r == Ok(s.(links := s.links + [LinkIds(s.id - 1, s.id - 2)]))
  {
    if labelIndex == 0 then Ok(s.(links := s.links + [LinkIds(s.id - 2, s.id - 1)]))
    else if labelIndex == 1 then Ok(s.(links := s.links + [LinkIds(s.id - 1, s.id - 2)]))
    else Err(RuntimeError)
  }

  /** Recording several objects in order. */
  function AddAll(s: State, ws: seq<WidgetObject>): State
    decreases |ws|
  {
    if ws == [] then s else AddAll(Add(s, ws[0]), ws[1..])
  }

  /**
   * `__update_dict_with_widget_tree`: record the object; for a label+input
   * container record its children and link the two; for another container
   * walk its children in order.
   */
  function Walk(s: State, w: WidgetObject): Result<State>
    decreases w, 1
  {
    var s1 := Add(s, w);
    if IsLabelInputContainer(w) then AddLink(AddAll(s1, w.children), ChildIndex(w.children, "LabelWidget"))
    else if w.isContainer then WalkAll(s1, w.children)
    else Ok(s1)
  }

  function WalkAll(s: State, cs: seq<WidgetObject>): Result<State>
    decreases cs, 0
  {
    if cs == [] then Ok(s)
    else
      match Walk(s, cs[0])
      case Err(e) => Err(e)
      case Ok(t) => WalkAll(t, cs[1..])
  }

  /** The objects the walk records, in the order it records them. */
  function Recorded(w: WidgetObject): seq<WidgetObject>
    decreases w, 1
  {
    [w] + (if IsLabelInputContainer(w) then w.children
           else if w.isContainer then RecordedAll(w.children)
           else [])
  }

  function RecordedAll(cs: seq<WidgetObject>): seq<WidgetObject>
    decreases cs, 0
  {
    if cs == [] then [] else Recorded(cs[0]) + RecordedAll(cs[1..])
  }

  /** Every label+input container in the walked part of the tree has its label at index 0 or 1. */
  predicate WellFormed(w: WidgetObject)
    decreases w, 1
  {
    if IsLabelInputContainer(w) then ChildIndex(w.children, "LabelWidget") in {0, 1}
    else w.isContainer ==> WellFormedAll(w.children)
  }

  predicate WellFormedAll(cs: seq<WidgetObject>)
    decreases cs, 0
  {
    cs == [] || (WellFormed(cs[0]) && WellFormedAll(cs[1..]))
  }

  // ---------------------------------------------------------------------
  // The invariant of the dicts

  /** Every id stored in a dict is below `bound`. */
  ghost predicate IdsBelow<V>(d: map<string, map<nat, V>>, bound: nat) {
    forall n, i :: n in d && i in d[n] ==> i < bound
  }

  /** An id is stored under one name only. */
  ghost predicate IdsUnderOneName<V>(d: map<string, map<nat, V>>) {
    forall n1, n2, i :: n1 in d && n2 in d && i in d[n1] && i in d[n2] ==> n1 == n2
  }

  /** `b` holds every entry of `a`. */
  ghost predicate Extends<V>(a: map<string, map<nat, V>>, b: map<string, map<nat, V>>) {
    forall n, i :: n in a && i in a[n] ==> n in b && i in b[n] && b[n][i] == a[n][i]
  }

  /** A fresh id put under a name: stored there only, the rest kept, the id invariants kept. */
  lemma PutFresh<V>(d: map<string, map<nat, V>>, name: string, id: nat, v: V)
    requires IdsBelow(d, id) && IdsUnderOneName(d)
    ensures var r := Put(d, name, id, v);
      && IdsBelow(r, id + 1) && IdsUnderOneName(r) && Extends(d, r)
      && name in r && id in r[name] && r[name][id] == v
      && forall n :: n in r && id in r[n] ==> n == name
  {
  }

  /** Dicts left alone keep their invariants under a higher bound. */
  lemma BelowRaised<V>(d: map<string, map<nat, V>>, id: nat)
    requires IdsBelow(d, id)
    ensures IdsBelow(d, id + 1) && Extends(d, d) && forall n :: n in d ==> id !in d[n]
  {
  }

  /** The geometry, attribute and geometry+attribute dicts hold the same names and ids, the third pairing the others. */
  ghost predicate Aligned(s: State) {
    AlignedDicts(s.geom, s.attr, s.geomAttr)
  }

  ghost predicate AlignedDicts<A, B>(g: map<string, map<nat, A>>, a: map<string, map<nat, B>>,
                                     ga: map<string, map<nat, (A, B)>>) {
    && g.Keys == a.Keys == ga.Keys
    && (forall n :: n in g ==> g[n].Keys == a[n].Keys == ga[n].Keys)
    && (forall n, i :: n in g && i in g[n] ==> ga[n][i] == (g[n][i], a[n][i]))
  }

  /**
   * The invariant of the dicts: the geometry-keyed ones aligned, every id
   * used below the counter, and an id stored under one name only.
   */
  ghost predicate Consistent(s: State) {
    && Aligned(s)
    && IdsBelow(s.geom, s.id) && IdsUnderOneName(s.geom)
    && IdsBelow(s.content, s.id) && IdsUnderOneName(s.content)
  }

  lemma AddAligned(s: State, w: WidgetObject)
    requires Aligned(s)
    ensures Aligned(Add(s, w))
  {
    if NotNull(w.geometry) {
      PutAligned(s.geom, s.attr, s.geomAttr, w.widgetName, s.id, w.geometry, w.attrs);
    }
  }

  /** Storing a geometry, its attributes and the pair under one name and id keeps the three dicts aligned. */
  lemma PutAligned<A, B>(g: map<string, map<nat, A>>, a: map<string, map<nat, B>>, ga: map<string, map<nat, (A, B)>>,
                         name: string, id: nat, x: A, y: B)
    requires AlignedDicts(g, a, ga)
    ensures AlignedDicts(Put(g, name, id, x), Put(a, name, id, y), Put(ga, name, id, (x, y)))
  {
    var g', a', ga' := Put(g, name, id, x), Put(a, name, id, y), Put(ga, name, id, (x, y));
    forall n | n in g'
      ensures g'[n].Keys == a'[n].Keys == ga'[n].Keys
    {
      if n != name {
        assert g'[n] == g[n] && a'[n] == a[n] && ga'[n] == ga[n];
      }
    }
  }

  /**
   * One record: the new id is stored under the object's name in the
   * geometry dicts iff its geometry is non-null, and in the content dict
   * iff it has values; what was stored before stays; the invariant holds.
   */
  lemma AddRecords(s: State, w: WidgetObject)
    requires Consistent(s)
    ensures var t := Add(s, w);
      && Consistent(t) && t.id == s.id + 1 && t.links == s.links
      && ((exists n :: n in t.geom && s.id in t.geom[n]) <==> NotNull(w.geometry))
      && (NotNull(w.geometry) ==>
            w.widgetName in t.geom && s.id in t.geom[w.widgetName]
            && t.geom[w.widgetName][s.id] == w.geometry && t.attr[w.widgetName][s.id] == w.attrs)
      && ((exists n :: n in t.content && s.id in t.content[n]) <==> w.values.Some?)
      && (w.values.Some? ==>
            w.widgetName in t.content && s.id in t.content[w.widgetName]
            && t.content[w.widgetName][s.id] == w.values.value)
      && Extends(s.geom, t.geom) && Extends(s.content, t.content)
  {
    var t := Add(s, w);
    AddAligned(s, w);
    if NotNull(w.geometry) {
      PutFresh(s.geom, w.widgetName, s.id, w.geometry);
    } else {
      BelowRaised(s.geom, s.id);
    }
    if w.values.Some? {
      PutFresh(s.content, w.widgetName, s.id, w.values.value);
    } else {
      BelowRaised(s.content, s.id);
    }
  }

  /** Recording keeps the invariant; the counter goes up by the number of objects. */
  lemma {:induction false} AddAllConsistent(s: State, ws: seq<WidgetObject>)
    requires Consistent(s)
    ensures Consistent(AddAll(s, ws)) && AddAll(s, ws).id == s.id + |ws| && AddAll(s, ws).links == s.links
    decreases |ws|
  {
    if ws != [] {
      AddRecords(s, ws[0]);
      AddAllConsistent(Add(s, ws[0]), ws[1..]);
    }
  }

  lemma {:induction false} AddAllAppend(s: State, a: seq<WidgetObject>, b: seq<WidgetObject>)
    ensures AddAll(s, a + b) == AddAll(AddAll(s, a), b)
    decreases |a|
  {
    if a == [] {
      assert a + b == b;
    } else {
      assert (a + b)[0] == a[0] && (a + b)[1..] == a[1..] + b;
      AddAllAppend(Add(s, a[0]), a[1..], b);
    }
  }

  /** The link list does not affect recording. */
  lemma {:induction false} AddAllLinks(s: State, ws: seq<WidgetObject>, l: seq<LinkIds>)
    ensures AddAll(s.(links := l), ws) == AddAll(s, ws).(links := l)
    decreases |ws|
  {
    if ws != [] {
      assert Add(s.(links := l), ws[0]) == Add(s, ws[0]).(links := l);
      AddAllLinks(Add(s, ws[0]), ws[1..], l);
    }
  }

  /**
   * The walk is the pre-order recording of `Recorded(w)` (so its k-th
   * object gets the id `s.id + k`), plus links appended to the old ones,
   * one per label+input container.
   */
  lemma {:induction false} WalkIsRecording(s: State, w: WidgetObject)
    requires Walk(s, w).Ok?
    ensures var t := Walk(s, w).value;
      && t == AddAll(s, Recorded(w)).(links := t.links)
      && s.links <= t.links
    decreases w, 1
  {
    var s1 := Add(s, w);
    assert AddAll(s, [w]) == s1;
    if IsLabelInputContainer(w) {
      AddAllAppend(s, [w], w.children);
      AddAllConsistentIds(s1, w.children);
    } else if w.isContainer {
      WalkAllIsRecording(s1, w.children);
      AddAllAppend(s, [w], RecordedAll(w.children));
    } else {
      assert Recorded(w) == [w];
    }
  }

  lemma {:induction false} WalkAllIsRecording(s: State, cs: seq<WidgetObject>)
    requires WalkAll(s, cs).Ok?
    ensures var t := WalkAll(s, cs).value;
      && t == AddAll(s, RecordedAll(cs)).(links := t.links)
      && s.links <= t.links
    decreases cs, 0
  {
    if cs != [] {
      var t1 := Walk(s, cs[0]).value;
      WalkIsRecording(s, cs[0]);
      WalkAllIsRecording(t1, cs[1..]);
      var t := WalkAll(s, cs).value;
      var a := AddAll(s, Recorded(cs[0]));
      assert t1 == a.(links := t1.links);
      AddAllLinks(a, RecordedAll(cs[1..]), t1.links);
      AddAllAppend(s, Recorded(cs[0]), RecordedAll(cs[1..]));
    }
  }

  /** A walk over a well-formed tree never raises. */
  lemma {:induction false} WellFormedWalkOk(s: State, w: WidgetObject)
    requires WellFormed(w)
    ensures Walk(s, w).Ok?
    decreases w, 1
  {
    if !IsLabelInputContainer(w) && w.isContainer {
      WellFormedWalkAllOk(Add(s, w), w.children);
    }
  }

  lemma {:induction false} WellFormedWalkAllOk(s: State, cs: seq<WidgetObject>)
    requires WellFormedAll(cs)
    ensures WalkAll(s, cs).Ok?
    decreases cs, 0
  {
    if cs != [] {
      WellFormedWalkOk(s, cs[0]);
      WellFormedWalkAllOk(Walk(s, cs[0]).value, cs[1..]);
    }
  }

  /** A walk that fails raises RuntimeError, from a label+input container without a label at 0 or 1. */
  lemma {:induction false} WalkFailsWithRuntimeError(s: State, w: WidgetObject)
    requires Walk(s, w).Err?
    ensures Walk(s, w).error == RuntimeError && !WellFormed(w)
    decreases w, 1
  {
    if WellFormed(w) {
      WellFormedWalkOk(s, w);
    }
    if !IsLabelInputContainer(w) && w.isContainer {
      WalkAllFailsWithRuntimeError(Add(s, w), w.children);
    }
  }

  lemma {:induction false} WalkAllFailsWithRuntimeError(s: State, cs: seq<WidgetObject>)
    requires WalkAll(s, cs).Err?
    ensures WalkAll(s, cs).error == RuntimeError
    decreases cs, 0
  {
    if cs != [] {
      match Walk(s, cs[0])
      case Err(_) => WalkFailsWithRuntimeError(s, cs[0]);
      case Ok(t) => WalkAllFailsWithRuntimeError(t, cs[1..]);
    }
  }

  /** The walk keeps the invariant and advances the counter once per recorded object. */
  lemma WalkConsistent(s: State, w: WidgetObject)
    requires Consistent(s) && Walk(s, w).Ok?
    ensures Consistent(Walk(s, w).value) && Walk(s, w).value.id == s.id + |Recorded(w)|
  {
    WalkIsRecording(s, w);
    AddAllConsistent(s, Recorded(w));
  }

  /** The objects the walk records for the label+input form items of `WidgetObjects`. */
  lemma LabelInputWalk(s: State, w: WidgetObject)
    requires IsLabelInputContainer(w) && |w.children| == 2
    requires ChildIndex(w.children, "LabelWidget") == 0
    ensures Recorded(w) == [w] + w.children
    ensures Walk(s, w) == Ok(AddAll(s, [w] + w.children).(links := s.links + [LinkIds(s.id + 1, s.id + 2)]))
  {
    AddAllAppend(s, [w], w.children);
    AddAllConsistentIds(Add(s, w), w.children);
  }

  lemma {:induction false} AddAllConsistentIds(s: State, ws: seq<WidgetObject>)
    ensures AddAll(s, ws).id == s.id + |ws| && AddAll(s, ws).links == s.links
    decreases |ws|
  {
    if ws != [] {
      AddAllConsistentIds(Add(s, ws[0]), ws[1..]);
    }
  }

  // ---------------------------------------------------------------------
  // The accumulator, updated in place

  class WidgetDataDict {
    var geomDict: map<string, map<nat, Geometry>>
    var attrDict: map<string, map<nat, seq<Attr>>>
    var contentDict: map<string, map<nat, Values>>
    var geomAttrDict: map<string, map<nat, (Geometry, seq<Attr>)>>
    var labelInputLinkIds: seq<LinkIds>
    var widgetId: nat
    const maxWidth: int
    const maxHeight: int

    function Value(): State
      reads this
    {
      State(geomDict, attrDict, contentDict, geomAttrDict, labelInputLinkIds, widgetId)
    }

    /** `WidgetDataDict(root)`: empty, with the root's frame size as the maximum size. */
    constructor (rootWidth: int, rootHeight: int, frame: (int, int))
      ensures Value() == EmptyState()
      ensures maxWidth == RelativeWidgetFrameGeometry(rootWidth, rootHeight, frame).width
      ensures maxHeight == RelativeWidgetFrameGeometry(rootWidth, rootHeight, frame).height
    {
      geomDict := map[];
      attrDict := map[];
      contentDict := map[];
      geomAttrDict := map[];
      labelInputLinkIds := [];
      widgetId := 0;
      maxWidth := RelativeWidgetFrameGeometry(rootWidth, rootHeight, frame).width;
      maxHeight := RelativeWidgetFrameGeometry(rootWidth, rootHeight, frame).height;
    }

    /** `add_geometry_attributes_values`. */
    method AddGeometryAttributesValues(w: WidgetObject)
      modifies this
      ensures Value() == Add(old(Value()), w)
    {
      var geometry := w.geometry;
      if NotNull(geometry) {
        geomDict := Put(geomDict, w.widgetName, widgetId, geometry);
        attrDict := Put(attrDict, w.widgetName, widgetId, w.attrs);
        geomAttrDict := Put(geomAttrDict, w.widgetName, widgetId, (geometry, w.attrs));
      }
      if w.values.Some? {
        contentDict := Put(contentDict, w.widgetName, widgetId, w.values.value);
      }
      widgetId := widgetId + 1;
    }

    /** `add_two_last_added_as_label_input_link`. */
    method AddTwoLastAddedAsLabelInputLink(labelIndex: int) returns (r: Result<()>)
      modifies this
      ensures r.Ok? <==> AddLink(old(Value()), labelIndex).Ok?
      ensures r.Ok? ==> Value() == AddLink(old(Value()), labelIndex).value
      ensures r.Err? ==> r.error == RuntimeError && Value() == old(Value())
    {
      if labelIndex == 0 {
        labelInputLinkIds := labelInputLinkIds + [LinkIds(widgetId - 2, widgetId - 1)];
      } else if labelIndex == 1 {
        labelInputLinkIds := labelInputLinkIds + [LinkIds(widgetId - 1, widgetId - 2)];
      } else {
        return Err(RuntimeError);
      }
      r := Ok(());
    }

    /** `get_geometry_distrib`: each name with its number of geometry entries. */
    method GetGeometryDistrib() returns (res: map<string, nat>)
      ensures res.Keys == geomDict.Keys
      ensures forall n :: n in res ==> res[n] == |geomDict[n]|
    {
      res := map[];
      var todo := geomDict.Keys;
      while todo != {}
        invariant todo <= geomDict.Keys
        invariant res.Keys == geomDict.Keys - todo
        invariant forall n :: n in res ==> res[n] == |geomDict[n]|
        decreases |todo|
      {
        var name :| name in todo;
        res := res[name := |geomDict[name]|];
        todo := todo - {name};
      }
    }
  }

  /**
   * `__update_dict_with_widget_tree`: the recursive walk, recording into
   * `d` as it goes. When it raises, the records made so far stay.
   */
  method UpdateDictWithWidgetTree(d: WidgetDataDict, w: WidgetObject) returns (r: Result<()>)
    modifies d
    ensures r.Ok? <==> Walk(old(d.Value()), w).Ok?
    ensures r.Ok? ==> d.Value() == Walk(old(d.Value()), w).value
    ensures r.Err? ==> r.error == RuntimeError
    decreases w
  {
    ghost var s := d.Value();
    d.AddGeometryAttributesValues(w);
    ghost var s1 := d.Value();
    if IsLabelInputContainer(w) {
      var k := 0;
      while k < |w.children|
        invariant 0 <= k <= |w.children|
        invariant AddAll(d.Value(), w.children[k..]) == AddAll(s1, w.children)
      {
        assert w.children[k..][1..] == w.children[k + 1..];
        d.AddGeometryAttributesValues(w.children[k]);
        k := k + 1;
      }
      assert w.children[k..] == [];
      var labelIndex := FindChildIndex(w.children, "LabelWidget");
      r := d.AddTwoLastAddedAsLabelInputLink(labelIndex);
    } else if w.isContainer {
      var k := 0;
      while k < |w.children|
        invariant 0 <= k <= |w.children|
        invariant WalkAll(d.Value(), w.children[k..]) == WalkAll(s1, w.children)
      {
        assert w.children[k..][0] == w.children[k] && w.children[k..][1..] == w.children[k + 1..];
        var child := w.children[k];
        var rc := UpdateDictWithWidgetTree(d, child);
        if rc.Err? {
          return rc;
        }
        k := k + 1;
      }
      assert w.children[k..] == [];
      r := Ok(());
    } else {
      r := Ok(());
    }
  }

  /** `create_dict`: a new accumulator filled by the walk from the root. */
  method CreateDict(root: WidgetObject, rootWidth: int, rootHeight: int, frame: (int, int))
    returns (d: WidgetDataDict, r: Result<()>)
    ensures fresh(d)
    ensures r.Ok? <==> Walk(EmptyState(), root).Ok?
    ensures r.Ok? ==> d.Value() == Walk(EmptyState(), root).value && Consistent(d.Value())
    ensures r.Err? ==> r.error == RuntimeError
  {
    d := new WidgetDataDict(rootWidth, rootHeight, frame);
    r := UpdateDictWithWidgetTree(d, root);
    if r.Ok? {
      WalkConsistent(EmptyState(), root);
    }
  }

  /** `create_empty_dict`: the dict for an image drawn without widgets. */
  method CreateEmptyDict(rootWidth: int, rootHeight: int, frame: (int, int)) returns (d: WidgetDataDict)
    ensures fresh(d) && d.Value() == EmptyState()
  {
    d := new WidgetDataDict(rootWidth, rootHeight, frame);
  }
}
