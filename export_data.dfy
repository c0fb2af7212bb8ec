/**
 * Exporting the accumulated annotations (`export_data.py`): the names and
 * indices of the widget kinds that are exported, the YOLO label file and
 * geometry lines, the COCO export with its category, image and annotation
 * numbering and the renumbering of the label/input links, the CSV rows of
 * attributes and contents, and the quality tag dropped from file names.
 *
 * The dicts of an accumulator are iterated in Python's insertion order; an
 * exporter here takes their entries as a sequence in that order.
 */
module ExportData {
  import opened Wrappers
  import opened SeqUtil
  import opened PyStr
  import opened Attributes
  import opened WidgetGeometry
  import opened WidgetDict
  import opened CocoDto
  import WidgetNames
  import PyDict
  import WidgetVals
  import WidgetObjects

  // ---------------------------------------------------------------------
  // Acceptable names and their indices

  /** The names of `possible` not in the except list, in their order. */
  function Acceptable(possible: seq<string>, exceptList: seq<string>): (r: seq<string>)
    ensures forall x :: x in r <==> x in possible && x !in exceptList
    ensures IsSubseq(r, possible)
    ensures Distinct(possible) ==> Distinct(r)
  {
    if possible == [] then []
    else
      var rest := Acceptable(possible[1..], exceptList);
      assert forall x :: x in possible <==> x == possible[0] || x in possible[1..];
      if possible[0] in exceptList then
        SubseqCons(rest, possible);
        rest
      else
        assert ([possible[0]] + rest)[1..] == rest;
        [possible[0]] + rest
  }

  /** `_get_acceptable_widget_names_for_geometry`: every widget name's value not excepted, in declaration order. */
  function AcceptableGeometryNames(exceptList: seq<string>): (r: seq<string>)
    ensures forall x :: x in r <==> (exists w :: WidgetNames.Value(w) == x) && x !in exceptList
    ensures IsSubseq(r, WidgetNames.GetPossibleEnumNames())
  {
    var possible := WidgetNames.GetPossibleEnumNames();
    var r := Acceptable(possible, exceptList);
    forall x ensures x in possible <==> exists w :: WidgetNames.Value(w) == x {
      if x in possible {
        var i :| 0 <= i < |possible| && possible[i] == x;
        assert WidgetNames.Value(WidgetNames.Members()[i]) == x;
      }
    }
    r
  }

  /** Each name with its position plus `offset`; for a repeated name the last position. */
  function IndexMap(names: seq<string>, offset: nat): (m: map<string, nat>)
    ensures forall n :: n in m <==> n in names
    ensures forall n :: n in m ==> offset <= m[n] < offset + |names| && names[m[n] - offset] == n
  {
    if names == [] then map[]
    else
      var prev := IndexMap(names[..|names| - 1], offset);
      IndexMapStep(names, offset, prev);
      prev[names[|names| - 1] := |names| - 1 + offset]
  }

  lemma IndexMapStep(names: seq<string>, offset: nat, prev: map<string, nat>)
    requires names != []
    requires forall n :: n in prev <==> n in names[..|names| - 1]
    requires forall n :: n in prev ==> offset <= prev[n] < offset + |names| - 1 && names[..|names| - 1][prev[n] - offset] == n
    ensures var m := prev[names[|names| - 1] := |names| - 1 + offset];
      && (forall n :: n in m <==> n in names)
      && (forall n :: n in m ==> offset <= m[n] < offset + |names| && names[m[n] - offset] == n)
  {
    var last := |names| - 1;
    var init := names[..last];
    assert names == init + [names[last]];
  }

  /** A repeated name maps to its last position: no later position holds it. */
  lemma {:induction false} IndexMapLast(names: seq<string>, offset: nat, n: string, j: nat)
    requires n in IndexMap(names, offset) && IndexMap(names, offset)[n] - offset < j < |names|
    ensures names[j] != n
  {
    var last := |names| - 1;
    var init := names[..last];
    var m := IndexMap(names, offset);
    var prev := IndexMap(init, offset);
    assert m == prev[names[last] := last + offset];
    if n != names[last] {
      assert n in prev && m[n] == prev[n];
      if j < last {
        IndexMapLast(init, offset, n, j);
        assert init[j] == names[j];
      }
    }
  }

  /** With distinct names every name maps to its own position plus `offset`. */
  lemma IndexMapOfDistinct(names: seq<string>, offset: nat, i: nat)
    requires Distinct(names) && i < |names|
    ensures names[i] in IndexMap(names, offset) && IndexMap(names, offset)[names[i]] == i + offset
  {
    var m := IndexMap(names, offset);
    assert names[i] in m;
    var k := m[names[i]] - offset;
    assert names[k] == names[i];
  }

  /** The loop `for index, name in enumerate(names): d[name] = index + offset`. */
  method EnumerateIntoDict(names: seq<string>, offset: nat) returns (d: map<string, nat>)
    ensures d == IndexMap(names, offset)
  {
    d := map[];
    var k := 0;
    while k < |names|
      invariant 0 <= k <= |names|
      invariant d == IndexMap(names[..k], offset)
    {
      assert names[..k + 1][..k] == names[..k];
      d := d[names[k] := k + offset];
      k := k + 1;
    }
    assert names[..k] == names;
  }

  /** The class-level `_widget_name_to_index_dict`, filled on first use. */
  class NameIndexCache {
    var cached: Option<map<string, nat>>

    constructor ()
      ensures cached == None
    {
      cached := None;
    }

    /** `_get_widget_name_to_index_dict`: the acceptable names with their 0-based positions, built once. */
    method GetWidgetNameToIndexDict(acceptable: seq<string>) returns (m: map<string, nat>)
      modifies this
      ensures old(cached).Some? ==> m == old(cached).value && cached == old(cached)
      ensures old(cached).None? ==> m == IndexMap(acceptable, 0) && cached == Some(m)
    {
      if cached.None? {
        var d := EnumerateIntoDict(acceptable, 0);
        cached := Some(d);
      }
      m := cached.value;
    }
  }

  // ---------------------------------------------------------------------
  // YOLO

  /** `_create_label_text`: the acceptable names, one per line, each line ended. */
  function LabelText(names: seq<string>): string {
    Join(names, "\n") + "\n"
  }

  /** The label file lists the names one per line: split on newlines it gives them back, then an empty last piece. */
  lemma LabelTextLines(names: seq<string>)
    requires names != []
    requires forall i :: 0 <= i < |names| ==> '\n' !in names[i]
    ensures Split(LabelText(names), "\n") == names + [""]
  {
    JoinSnoc(names, "\n");
    SplitJoinChar(names + [""], '\n');
  }

  lemma {:induction false} JoinSnoc(xs: seq<string>, sep: string)
    requires xs != []
    ensures Join(xs + [""], sep) == Join(xs, sep) + sep
    decreases |xs|
  {
    if |xs| == 1 {
      assert (xs + [""])[1..] == [""];
    } else {
      assert (xs + [""])[1..] == xs[1..] + [""];
      JoinSnoc(xs[1..], sep);
    }
  }

  /** Joining pieces free of a one-character separator and splitting on it gives the pieces back. */
  lemma {:induction false} SplitJoinChar(xs: seq<string>, c: char)
    requires xs != []
    requires forall i :: 0 <= i < |xs| ==> c !in xs[i]
    ensures Split(Join(xs, [c]), [c]) == xs
    decreases |xs|
  {
    if |xs| == 1 {
      SplitNoSeparator(xs[0], c);
    } else {
      var s := Join(xs, [c]);
      var n := |xs[0]|;
      JoinFirstCut(xs, c);
      assert Split(s, [c]) == [s[..n]] + Split(s[n + 1..], [c]);
      assert forall i :: 0 <= i < |xs[1..]| ==> xs[1..][i] == xs[i + 1];
      SplitJoinChar(xs[1..], c);
      assert xs == [xs[0]] + xs[1..];
    }
  }

  /** A text without the separator splits into itself. */
  lemma SplitNoSeparator(t: string, c: char)
    requires c !in t
    ensures Split(t, [c]) == [t]
  {
    match FindFrom(t, [c], 0)
    case None =>
    case Some(i) =>
      assert t == t + [];
      CharNotAt(t, [], c, i);
      assert false;
  }

  /** The first separator of a join is the one after the first part. */
  lemma JoinFirstCut(xs: seq<string>, c: char)
    requires |xs| > 1
    requires forall i :: 0 <= i < |xs| ==> c !in xs[i]
    ensures var s := Join(xs, [c]); var n := |xs[0]|;
      && FindFrom(s, [c], 0) == Some(n) && s[..n] == xs[0] && s[n + 1..] == Join(xs[1..], [c])
  {
    var s := Join(xs, [c]);
    var rest := Join(xs[1..], [c]);
    var n := |xs[0]|;
    assert s == xs[0] + ([c] + rest);
    assert OccursAt(s, [c], n) by {
      assert s[n..n + 1] == [c];
    }
    var f := FindFrom(s, [c], 0);
    assert f.Some? && f.value <= n;
    if f.value < n {
      CharNotAt(xs[0], [c] + rest, c, f.value);
      assert false;
    }
  }

  lemma CharNotAt(t: string, rest: string, c: char, i: nat)
    requires c !in t && i < |t|
    ensures !OccursAt(t + rest, [c], i)
  {
    assert (t + rest)[i..i + 1][0] == t[i];
  }

  /** One YOLO geometry line: the class index, a space, the geometry's text, a newline. */
  function GeometryLine(index: nat, geometryText: string): string {
    NatToString(index) + " " + geometryText + "\n"
  }

  /** The lines a name contributes: one per geometry when the name has an index, none otherwise. */
  function NameLines(name: string, geometries: seq<Geometry>, nameToIndex: map<string, nat>,
                     show: Geometry -> string): seq<string>
  {
    if name in nameToIndex then
      seq(|geometries|, i requires 0 <= i < |geometries| => GeometryLine(nameToIndex[name], show(geometries[i])))
    else []
  }

  lemma NameLinesEach(name: string, geometries: seq<Geometry>, nameToIndex: map<string, nat>,
                      show: Geometry -> string)
    ensures var r := NameLines(name, geometries, nameToIndex, show);
      && (name !in nameToIndex ==> r == [])
      && (name in nameToIndex ==> (|r| == |geometries| &&
            forall i :: 0 <= i < |r| ==> r[i] == GeometryLine(nameToIndex[name], show(geometries[i]))))
  {
  }

  /** `_create_geometry_text_for_all_widgets_of_this_name`. */
  method CreateGeometryTextForAllWidgetsOfThisName(name: string, geometries: seq<Geometry>,
                                                   nameToIndex: map<string, nat>, show: Geometry -> string)
    returns (textList: seq<string>)
    ensures textList == NameLines(name, geometries, nameToIndex, show)
    ensures name !in nameToIndex ==> textList == []
    ensures name in nameToIndex ==>
      && |textList| == |geometries|
      && forall i :: 0 <= i < |textList| ==> textList[i] == GeometryLine(nameToIndex[name], show(geometries[i]))
  {
    textList := [];
    var k := 0;
    while k < |geometries|
      invariant 0 <= k <= |geometries|
      invariant name !in nameToIndex ==> textList == []
      invariant name in nameToIndex ==> (|textList| == k &&
        forall i :: 0 <= i < k ==> textList[i] == GeometryLine(nameToIndex[name], show(geometries[i])))
    {
      if name in nameToIndex {
        textList := textList + [GeometryLine(nameToIndex[name], show(geometries[k]))];
      }
      k := k + 1;
    }
    NameLinesEach(name, geometries, nameToIndex, show);
  }

  /** The concatenation of a list of strings (`''.join(parts)`). */
  function Concat(parts: seq<string>): string {
    if parts == [] then "" else parts[0] + Concat(parts[1..])
  }

  lemma {:induction false} ConcatAppend(a: seq<string>, b: seq<string>)
    ensures Concat(a + b) == Concat(a) + Concat(b)
    decreases |a|
  {
    if a == [] {
      assert a + b == b;
    } else {
      assert (a + b)[1..] == a[1..] + b;
      ConcatAppend(a[1..], b);
    }
  }

  /** All lines of an image, name group after name group. */
  function AllLines(groups: seq<(string, seq<Geometry>)>, nameToIndex: map<string, nat>,
                    show: Geometry -> string): seq<string>
  {
    if groups == [] then []
    else NameLines(groups[0].0, groups[0].1, nameToIndex, show) + AllLines(groups[1..], nameToIndex, show)
  }

  /** The number of lines: the geometries of the names that have an index. */
  function IndexedCount(groups: seq<(string, seq<Geometry>)>, nameToIndex: map<string, nat>): nat {
    if groups == [] then 0
    else (if groups[0].0 in nameToIndex then |groups[0].1| else 0) + IndexedCount(groups[1..], nameToIndex)
  }

  lemma {:induction false} AllLinesCount(groups: seq<(string, seq<Geometry>)>, nameToIndex: map<string, nat>,
                                         show: Geometry -> string)
    ensures |AllLines(groups, nameToIndex, show)| == IndexedCount(groups, nameToIndex)
    decreases |groups|
  {
    if groups != [] {
      NameLinesEach(groups[0].0, groups[0].1, nameToIndex, show);
      AllLinesCount(groups[1..], nameToIndex, show);
    }
  }

  /** One pass of the loop of `_get_geometry_text`: the lines gathered so far grow by one name's lines. */
  lemma CollectStep(done: seq<string>, lines: seq<string>, groups: seq<(string, seq<Geometry>)>,
                    nameToIndex: map<string, nat>, show: Geometry -> string, k: nat)
    requires k < |groups| && lines == NameLines(groups[k].0, groups[k].1, nameToIndex, show)
    requires done + AllLines(groups[k..], nameToIndex, show) == AllLines(groups, nameToIndex, show)
    ensures (done + lines) + AllLines(groups[k + 1..], nameToIndex, show) == AllLines(groups, nameToIndex, show)
  {
    assert groups[k..][0] == groups[k] && groups[k..][1..] == groups[k + 1..];
    var rest := AllLines(groups[k + 1..], nameToIndex, show);
    assert AllLines(groups[k..], nameToIndex, show) == lines + rest;
    assert done + (lines + rest) == (done + lines) + rest;
  }

  /** `_get_geometry_text`: the lines of every name group, in the order the groups are given, joined. */
  method GetGeometryText(groups: seq<(string, seq<Geometry>)>, nameToIndex: map<string, nat>,
                         show: Geometry -> string) returns (text: string)
    ensures text == Concat(AllLines(groups, nameToIndex, show))
  {
    var resultText := CollectLines(groups, nameToIndex, show);
    text := Concat(resultText);
  }

  /** The loop of `_get_geometry_text` that gathers the lines name by name. */
  method CollectLines(groups: seq<(string, seq<Geometry>)>, nameToIndex: map<string, nat>,
                      show: Geometry -> string) returns (resultText: seq<string>)
    ensures resultText == AllLines(groups, nameToIndex, show)
  {
    resultText := [];
    var k := 0;
    while k < |groups|
      invariant 0 <= k <= |groups|
      invariant resultText + AllLines(groups[k..], nameToIndex, show) == AllLines(groups, nameToIndex, show)
    {
      var lines := CreateGeometryTextForAllWidgetsOfThisName(groups[k].0, groups[k].1, nameToIndex, show);
      CollectStep(resultText, lines, groups, nameToIndex, show, k);
      resultText := resultText + lines;
      k := k + 1;
    }
    assert groups[k..] == [];
  }

  // ---------------------------------------------------------------------
  // COCO

  /** One geometry+attribute entry of an accumulator: its name, id, geometry and attribute list. */
  datatype Item = Item(name: string, id: nat, geometry: Geometry, attrs: seq<Attr>)

  /** An image to export: its screenshot's size and file name, its entries in the order they are given, and its links. */
  datatype ImageData = ImageData(width: int, height: int, fileName: string, items: seq<Item>, links: seq<LinkIds>)

  datatype Category = Category(id: nat, name: string)
  datatype ImageDto = ImageDto(id: nat, width: int, height: int, fileName: string)
  datatype LabelInputDto = LabelInputDto(imageId: nat, labelId: int, inputId: int)

  /** `CategoryDto(i + 1, name)` for each acceptable name. */
  function Categories(names: seq<string>): (r: seq<Category>)
    ensures |r| == |names| && forall i :: 0 <= i < |r| ==> r[i] == Category(i + 1, names[i])
  {
    seq(|names|, i requires 0 <= i < |names| => Category(i + 1, names[i]))
  }

  /** The first link holding `id`, if any (the `for ... break` over the original links). */
  function FirstLink(links: seq<LinkIds>, id: int): (r: Option<nat>)
    ensures r.Some? ==> r.value < |links| && HasId(links[r.value], id)
    ensures r.Some? ==> forall j :: 0 <= j < r.value ==> !HasId(links[j], id)
    ensures r.None? ==> forall j :: 0 <= j < |links| ==> !HasId(links[j], id)
  {
    if links == [] then None
    else if HasId(links[0], id) then Some(0)
    else
      var r := FirstLink(links[1..], id);
      assert forall j :: 1 <= j < |links| ==> links[j] == links[1..][j - 1];
      if r.None? then None else Some(r.value + 1)
  }

  /** The search of the original links for a record id. */
  method FindFirstLink(links: seq<LinkIds>, id: int) returns (r: Option<nat>)
    ensures r == FirstLink(links, id)
  {
    var index := 0;
    while index < |links|
      invariant 0 <= index <= |links|
      invariant forall j :: 0 <= j < index ==> !HasId(links[j], id)
    {
      if HasId(links[index], id) {
        FirstLinkUnique(links, id, Some(index));
        return Some(index);
      }
      index := index + 1;
    }
    FirstLinkUnique(links, id, None);
    r := None;
  }

  lemma FirstLinkUnique(links: seq<LinkIds>, id: int, r: Option<nat>)
    requires r.Some? ==> r.value < |links| && HasId(links[r.value], id)
    requires r.Some? ==> forall j :: 0 <= j < r.value ==> !HasId(links[j], id)
    requires r.None? ==> forall j :: 0 <= j < |links| ==> !HasId(links[j], id)
    ensures r == FirstLink(links, id)
  {
  }

  /**
   * The renumbering for one record: in the copy, the link that first
   * holds the record's id in the originals gets the annotation id as its
   * label id (for a "Label" record) or its input id (any other name).
   */
  function Renumber(result: seq<LinkIds>, original: seq<LinkIds>, name: string, id: int, annotationId: int)
    : (r: seq<LinkIds>)
    ensures |r| == |result|
    ensures forall k :: 0 <= k < |r| && FirstLink(original, id) != Some(k) ==> r[k] == result[k]
    ensures forall k :: 0 <= k < |r| && FirstLink(original, id) == Some(k) ==>
      r[k] == (if name == "Label" then WithLabelId(result[k], annotationId) else WithInputId(result[k], annotationId))
  {
    match FirstLink(original, id)
    case None => result
    case Some(k) =>
      if k < |result| then
        result[k := if name == "Label" then WithLabelId(result[k], annotationId) else WithInputId(result[k], annotationId)]
      else result
  }

  /**
   * `annotDto.attributes.update({fancy_name: state_name ...})`: the first
   * failing `state_name` raises before anything is stored; otherwise each
   * attribute's fancy name holds its state name (a later attribute of the
   * same name winning), and every other key keeps its value.
   */
  function UpdateAttrs(d: AttrMap, attrs: seq<Attr>): (r: Result<AttrMap>)
    requires PyDict.Valid(d)
    ensures r.Ok? ==> PyDict.Valid(r.value)
    decreases |attrs|
  {
    if attrs == [] then Ok(d)
    else
      match StateName(attrs[0])
      case Err(e) => Err(e)
      case Ok(s) => UpdateAttrs(PyDict.Set(d, FancyName(attrs[0].name), StateVal(s)), attrs[1..])
  }

  /** What the update does, for every starting dictionary and attribute list. */
  lemma {:induction false} UpdateAttrsMeaning(d: AttrMap, attrs: seq<Attr>)
    requires PyDict.Valid(d)
    ensures var r := UpdateAttrs(d, attrs);
      && (r.Ok? <==> forall i :: 0 <= i < |attrs| ==> StateName(attrs[i]).Ok?)
      && (r.Err? ==> exists k :: FirstFailing(attrs, k) && r.error == StateName(attrs[k]).error)
      && (r.Ok? ==> forall k :: k in d.m ==> k in r.value.m)
      && (r.Ok? ==> forall i :: 0 <= i < |attrs| && LastOfName(attrs, i) ==>
            FancyName(attrs[i].name) in r.value.m && r.value.m[FancyName(attrs[i].name)] == StateVal(StateName(attrs[i]).value))
      && (r.Ok? ==> forall k :: k in d.m && !IsFancyNameOf(attrs, k) ==> r.value.m[k] == d.m[k])
      && (r.Ok? ==> forall k :: k in r.value.m ==> k in d.m || IsFancyNameOf(attrs, k))
    decreases |attrs|, 1
  {
    if attrs != [] {
      match StateName(attrs[0])
      case Err(e) =>
        assert FirstFailing(attrs, 0);
      case Ok(s) =>
        UpdateAttrsStep(d, attrs, s, UpdateAttrs(PyDict.Set(d, FancyName(attrs[0].name), StateVal(s)), attrs[1..]));
    }
  }

  /** No later attribute of the list has the same name as the one at `i`. */
  predicate LastOfName(attrs: seq<Attr>, i: int)
    requires 0 <= i < |attrs|
  {
    forall j :: i < j < |attrs| ==> attrs[j].name != attrs[i].name
  }

  /** `k` is the fancy name of some attribute of the list. */
  predicate IsFancyNameOf(attrs: seq<Attr>, k: string) {
    exists i :: 0 <= i < |attrs| && FancyName(attrs[i].name) == k
  }

  lemma FancyNameInjective(a: AttrName, b: AttrName)
    ensures FancyName(a) == FancyName(b) ==> a == b
  {
    match a
    case CHECKABLE => assert FancyName(a)[0] == 'c';
    case ENABLEABLE => assert FancyName(a)[0] == 'e';
    case VSCROLABLE => assert FancyName(a)[0] == 'v';
    case HSCROLABLE => assert FancyName(a)[0] == 'h' && FancyName(a)[1] == 's';
    case HAS_TEXT => assert FancyName(a)[0] == 'h' && FancyName(a)[1] == 'a';
    case ICONED => assert FancyName(a)[0] == 'i';
    case TYPE => assert |FancyName(a)| == 4 && FancyName(a)[1] == 'y';
    case TEXT => assert |FancyName(a)| == 4 && FancyName(a)[1] == 'e';
  }

  /** A fancy name of the rest of the list is one of the whole list. */
  lemma FancyNameOfTail(attrs: seq<Attr>, k: string)
    requires |attrs| > 0
    ensures IsFancyNameOf(attrs[1..], k) ==> IsFancyNameOf(attrs, k)
  {
    if IsFancyNameOf(attrs[1..], k) {
      var j :| 0 <= j < |attrs[1..]| && FancyName(attrs[1..][j].name) == k;
      assert attrs[j + 1] == attrs[1..][j];
    }
  }

  /** The first attribute, when no later one shares its name, is not a fancy name of the rest. */
  lemma LastOfNameFirst(attrs: seq<Attr>)
    requires |attrs| > 0 && LastOfName(attrs, 0)
    ensures !IsFancyNameOf(attrs[1..], FancyName(attrs[0].name))
  {
    forall j | 0 <= j < |attrs[1..]| ensures FancyName(attrs[1..][j].name) != FancyName(attrs[0].name) {
      assert attrs[1..][j] == attrs[j + 1];
      FancyNameInjective(attrs[j + 1].name, attrs[0].name);
    }
  }

  /** Errors of the rest of the list: the first failing one there is the first failing one of the whole. */
  lemma FirstFailingOfTail(attrs: seq<Attr>, k: int)
    requires |attrs| > 0 && StateName(attrs[0]).Ok? && FirstFailing(attrs[1..], k)
    ensures FirstFailing(attrs, k + 1) && StateName(attrs[k + 1]) == StateName(attrs[1..][k])
  {
    assert forall i :: 1 <= i < |attrs| ==> attrs[i] == attrs[1..][i - 1];
  }

  /** Storing the first attribute, then the rest, leaves every last attribute of a name in place. */
  lemma StepLastOfName(attrs: seq<Attr>, m: map<string, AttrValue>, rm: map<string, AttrValue>)
    requires |attrs| > 0 && forall i :: 0 <= i < |attrs| ==> StateName(attrs[i]).Ok?
    requires FancyName(attrs[0].name) in m && m[FancyName(attrs[0].name)] == StateVal(StateName(attrs[0]).value)
    requires forall k :: k in m ==> k in rm
    requires forall k :: k in m && !IsFancyNameOf(attrs[1..], k) ==> rm[k] == m[k]
    requires forall i :: 0 <= i < |attrs[1..]| && LastOfName(attrs[1..], i) ==>
      FancyName(attrs[1..][i].name) in rm && rm[FancyName(attrs[1..][i].name)] == StateVal(StateName(attrs[1..][i]).value)
    ensures forall i :: 0 <= i < |attrs| && LastOfName(attrs, i) ==>
      FancyName(attrs[i].name) in rm && rm[FancyName(attrs[i].name)] == StateVal(StateName(attrs[i]).value)
  {
    forall i | 0 <= i < |attrs| && LastOfName(attrs, i)
      ensures FancyName(attrs[i].name) in rm && rm[FancyName(attrs[i].name)] == StateVal(StateName(attrs[i]).value)
    {
      if i == 0 {
        LastOfNameFirst(attrs);
      } else {
        assert attrs[1..][i - 1] == attrs[i];
        assert LastOfName(attrs[1..], i - 1);
      }
    }
  }

  /** A key that is no attribute's fancy name keeps its value through both steps. */
  lemma StepKept(attrs: seq<Attr>, dm: map<string, AttrValue>, v: AttrValue, rm: map<string, AttrValue>)
    requires |attrs| > 0 && forall k :: k in dm ==> k in rm
    requires forall k :: k in dm[FancyName(attrs[0].name) := v] && !IsFancyNameOf(attrs[1..], k) ==>
      k in rm && rm[k] == dm[FancyName(attrs[0].name) := v][k]
    ensures forall k :: k in dm && !IsFancyNameOf(attrs, k) ==> rm[k] == dm[k]
  {
    forall k | k in dm && !IsFancyNameOf(attrs, k) ensures rm[k] == dm[k] {
      FancyNameOfTail(attrs, k);
      assert k != FancyName(attrs[0].name);
    }
  }

  /** Every key after both steps was there before or is an attribute's fancy name. */
  lemma StepFrom(attrs: seq<Attr>, dm: map<string, AttrValue>, v: AttrValue, rm: map<string, AttrValue>)
    requires |attrs| > 0
    requires forall k :: k in rm ==> k in dm[FancyName(attrs[0].name) := v] || IsFancyNameOf(attrs[1..], k)
    ensures forall k :: k in rm ==> k in dm || IsFancyNameOf(attrs, k)
  {
    forall k | k in rm ensures k in dm || IsFancyNameOf(attrs, k) {
      FancyNameOfTail(attrs, k);
      if k == FancyName(attrs[0].name) {
        assert FancyName(attrs[0].name) == k;
      }
    }
  }

  /** The first attribute stored, the rest of the update carries the contract over. */
  lemma UpdateAttrsStep(d: AttrMap, attrs: seq<Attr>, s: AttrState, r: Result<AttrMap>)
    requires PyDict.Valid(d) && |attrs| > 0 && StateName(attrs[0]) == Ok(s)
    requires r == UpdateAttrs(PyDict.Set(d, FancyName(attrs[0].name), StateVal(s)), attrs[1..])
    ensures r.Ok? <==> forall i :: 0 <= i < |attrs| ==> StateName(attrs[i]).Ok?
    ensures r.Err? ==> exists k :: FirstFailing(attrs, k) && r.error == StateName(attrs[k]).error
    ensures r.Ok? ==> PyDict.Valid(r.value)
    ensures r.Ok? ==> forall k :: k in d.m ==> k in r.value.m
    ensures r.Ok? ==> forall i :: 0 <= i < |attrs| && LastOfName(attrs, i) ==>
      FancyName(attrs[i].name) in r.value.m && r.value.m[FancyName(attrs[i].name)] == StateVal(StateName(attrs[i]).value)
    ensures r.Ok? ==> forall k :: k in d.m && !IsFancyNameOf(attrs, k) ==> r.value.m[k] == d.m[k]
    ensures r.Ok? ==> forall k :: k in r.value.m ==> k in d.m || IsFancyNameOf(attrs, k)
    decreases |attrs|, 0
  {
    UpdateAttrsMeaning(PyDict.Set(d, FancyName(attrs[0].name), StateVal(s)), attrs[1..]);
    assert forall i :: 1 <= i < |attrs| ==> attrs[i] == attrs[1..][i - 1];
    if r.Err? {
      var k :| FirstFailing(attrs[1..], k) && r.error == StateName(attrs[1..][k]).error;
      FirstFailingOfTail(attrs, k);
    } else {
      var m := PyDict.Set(d, FancyName(attrs[0].name), StateVal(s)).m;
      StepLastOfName(attrs, m, r.value.m);
      StepKept(attrs, d.m, StateVal(s), r.value.m);
      StepFrom(attrs, d.m, StateVal(s), r.value.m);
    }
  }

  /** The running part of the export within one image. */
  datatype ItemAcc = ItemAcc(annotationId: nat, annotations: seq<Annotation>, links: seq<LinkIds>)

  function BBox(g: Geometry): seq<real> {
    [g.x, g.y, g.width, g.height]
  }

  /** Attributes are exported iff the list is non-empty and the name is in the attribute export list. */
  predicate ExportsAttributes(item: Item, attrExport: seq<string>) {
    |item.attrs| > 0 && item.name in attrExport
  }

  /**
   * One entry: skipped without using an id unless its name is acceptable;
   * otherwise the links are renumbered, an annotation with the current id
   * is added, and the id goes up by one.
   */
  function ExportItem(acc: ItemAcc, item: Item, imageId: nat, original: seq<LinkIds>, acceptable: seq<string>,
                      categories: map<string, nat>, attrExport: seq<string>): Result<ItemAcc>
  {
    if item.name !in acceptable then Ok(acc)
    else if item.name !in categories then Err(KeyError)
    else
      var links := Renumber(acc.links, original, item.name, item.id, acc.annotationId);
      var annot := NewAnnotation(acc.annotationId, imageId, categories[item.name], BBox(item.geometry), -1.0, 0, None, None).value;
      var attributes := if ExportsAttributes(item, attrExport) then UpdateAttrs(annot.attributes, item.attrs)
                        else Ok(annot.attributes);
      match attributes
      case Err(e) => Err(e)
      case Ok(a) => Ok(ItemAcc(acc.annotationId + 1, acc.annotations + [annot.(attributes := a)], links))
  }

  function ExportItems(acc: ItemAcc, items: seq<Item>, imageId: nat, original: seq<LinkIds>, acceptable: seq<string>,
                       categories: map<string, nat>, attrExport: seq<string>): Result<ItemAcc>
    decreases |items|
  {
    if items == [] then Ok(acc)
    else
      match ExportItem(acc, items[0], imageId, original, acceptable, categories, attrExport)
      case Err(e) => Err(e)
      case Ok(a) => ExportItems(a, items[1..], imageId, original, acceptable, categories, attrExport)
  }

  /** The entries that are exported: those with an acceptable name, in order. */
  function AcceptedItems(items: seq<Item>, acceptable: seq<string>): seq<Item> {
    if items == [] then []
    else (if items[0].name in acceptable then [items[0]] else []) + AcceptedItems(items[1..], acceptable)
  }

  /**
   * The annotation of an accepted entry: the given id and image, the
   * category of its name, its box with area width times height, not a
   * crowd, and only "occluded" as attribute unless its attributes are
   * exported, in which case they are "occluded" updated with the state
   * names of its attributes.
   */
  ghost predicate Annotates(ann: Annotation, item: Item, id: nat, imageId: nat, categories: map<string, nat>,
                            attrExport: seq<string>)
  {
    && ann.id == id && ann.imageId == imageId
    && item.name in categories && ann.categoryId == categories[item.name]
    && ann.bbox == BBox(item.geometry) && ann.area == item.geometry.width * item.geometry.height
    && ann.iscrowd == 0 && ann.segmentation == []
    && (!ExportsAttributes(item, attrExport) ==> ann.attributes == DefaultAttributes(None))
    && (ExportsAttributes(item, attrExport) ==> UpdateAttrs(DefaultAttributes(None), item.attrs) == Ok(ann.attributes))
  }

  /**
   * Within an image: the annotations so far stay, one annotation follows
   * per accepted entry, in order, with consecutive ids from the current
   * one; the links keep their number.
   */
  lemma {:induction false} ExportItemsNumbering(acc: ItemAcc, items: seq<Item>, imageId: nat, original: seq<LinkIds>,
                                                acceptable: seq<string>, categories: map<string, nat>,
                                                attrExport: seq<string>)
    requires ExportItems(acc, items, imageId, original, acceptable, categories, attrExport).Ok?
    ensures var r := ExportItems(acc, items, imageId, original, acceptable, categories, attrExport).value;
      var accepted := AcceptedItems(items, acceptable);
      var n := |acc.annotations|;
      && |r.annotations| == n + |accepted|
      && r.annotations[..n] == acc.annotations
      && r.annotationId == acc.annotationId + |accepted|
      && |r.links| == |acc.links|
      && forall j :: 0 <= j < |accepted| ==>
           Annotates(r.annotations[n..][j], accepted[j], acc.annotationId + j, imageId, categories, attrExport)
    decreases |items|
  {
    if items != [] {
      var a := ExportItem(acc, items[0], imageId, original, acceptable, categories, attrExport).value;
      ExportItemsNumbering(a, items[1..], imageId, original, acceptable, categories, attrExport);
      var r := ExportItems(acc, items, imageId, original, acceptable, categories, attrExport).value;
      assert r == ExportItems(a, items[1..], imageId, original, acceptable, categories, attrExport).value;
      var accepted := AcceptedItems(items, acceptable);
      var rest := AcceptedItems(items[1..], acceptable);
      var n := |acc.annotations|;
      if items[0].name in acceptable {
        assert accepted == [items[0]] + rest;
        assert |a.annotations| == n + 1 && a.annotations[..n] == acc.annotations;
        assert r.annotations[..n + 1] == a.annotations;
        assert r.annotations[..n] == acc.annotations by {
          assert r.annotations[..n] == r.annotations[..n + 1][..n];
        }
        ExportItemAnnotates(acc, items[0], imageId, original, acceptable, categories, attrExport);
        DescribedCons((ann: Annotation, it: Item, k: nat) => Annotates(ann, it, k, imageId, categories, attrExport),
                      r.annotations, a.annotations, n, items[0], rest, acc.annotationId);
      } else {
        assert a == acc;
        assert accepted == rest;
      }
    }
  }

  /**
   * A run of records described one by one under consecutive ids: the record
   * at position `n` describes `x` under `id`, and the records after it
   * describe `xs` from `id + 1` on.
   */
  lemma DescribedCons<A, B>(P: (A, B, nat) -> bool, s: seq<A>, prefix: seq<A>, n: nat, x: B, xs: seq<B>, id: nat)
    requires |prefix| == n + 1 && n + 1 <= |s| && s[..n + 1] == prefix
    requires P(prefix[n], x, id)
    requires |s| == n + 1 + |xs|
    requires forall j :: 0 <= j < |xs| ==> P(s[n + 1..][j], xs[j], id + 1 + j)
    ensures forall j :: 0 <= j < 1 + |xs| ==> P(s[n..][j], ([x] + xs)[j], id + j)
  {
    assert s[n..][0] == prefix[n];
    forall j | 1 <= j < 1 + |xs|
      ensures P(s[n..][j], ([x] + xs)[j], id + j)
    {
      assert s[n..][j] == s[n + 1..][j - 1] && ([x] + xs)[j] == xs[j - 1];
    }
  }

  /** An accepted entry adds one annotation, which describes it, under the current id. */
  lemma ExportItemAnnotates(acc: ItemAcc, item: Item, imageId: nat, original: seq<LinkIds>, acceptable: seq<string>,
                            categories: map<string, nat>, attrExport: seq<string>)
    requires item.name in acceptable
    requires ExportItem(acc, item, imageId, original, acceptable, categories, attrExport).Ok?
    ensures var a := ExportItem(acc, item, imageId, original, acceptable, categories, attrExport).value;
      && |a.annotations| == |acc.annotations| + 1 && a.annotations[..|acc.annotations|] == acc.annotations
      && Annotates(a.annotations[|acc.annotations|], item, acc.annotationId, imageId, categories, attrExport)
  {
    ExportedBoxDefaults(acc.annotationId, imageId, categories[item.name], item.geometry.x,
                        item.geometry.y, item.geometry.width, item.geometry.height);
    var annot := NewAnnotation(acc.annotationId, imageId, categories[item.name], BBox(item.geometry), -1.0, 0,
                               None, None).value;
    var attributes := if ExportsAttributes(item, attrExport) then UpdateAttrs(annot.attributes, item.attrs)
                      else Ok(annot.attributes);
    assert attributes.Ok?;
    assert annot.attributes == DefaultAttributes(None);
    var added := annot.(attributes := attributes.value);
    var a := ExportItem(acc, item, imageId, original, acceptable, categories, attrExport).value;
    assert a.annotations == acc.annotations + [added];
    assert a.annotations[|acc.annotations|] == added;
    assert a.annotations[..|acc.annotations|] == acc.annotations;
    assert Annotates(added, item, acc.annotationId, imageId, categories, attrExport);
  }

  /**
   * Links that no accepted entry's id reaches first keep the ids they had
   * before the image's entries were exported.
   */
  lemma {:induction false} UnmatchedLinksKept(acc: ItemAcc, items: seq<Item>, imageId: nat, original: seq<LinkIds>,
                                              acceptable: seq<string>, categories: map<string, nat>,
                                              attrExport: seq<string>, k: nat)
    requires ExportItems(acc, items, imageId, original, acceptable, categories, attrExport).Ok?
    requires k < |acc.links|
    requires forall i :: 0 <= i < |items| && items[i].name in acceptable ==> FirstLink(original, items[i].id) != Some(k)
    ensures var r := ExportItems(acc, items, imageId, original, acceptable, categories, attrExport).value;
      k < |r.links| && r.links[k] == acc.links[k]
    decreases |items|
  {
    ExportItemsNumbering(acc, items, imageId, original, acceptable, categories, attrExport);
    if items != [] {
      var a := ExportItem(acc, items[0], imageId, original, acceptable, categories, attrExport).value;
      assert forall i :: 1 <= i < |items| ==> items[i] == items[1..][i - 1];
      UnmatchedLinksKept(a, items[1..], imageId, original, acceptable, categories, attrExport, k);
    }
  }

  /** The whole export's running state. */
  datatype ExportAcc = ExportAcc(annotationId: nat, images: seq<ImageDto>, annotations: seq<Annotation>,
                                 labelInputs: seq<LabelInputDto>)

  function LinkDtos(imageId: nat, links: seq<LinkIds>): (r: seq<LabelInputDto>)
    ensures |r| == |links| && forall i :: 0 <= i < |r| ==> r[i] == LabelInputDto(imageId, links[i].labelId, links[i].inputId)
  {
    seq(|links|, i requires 0 <= i < |links| => LabelInputDto(imageId, links[i].labelId, links[i].inputId))
  }

  /** One image: its record, its entries' annotations, and its renumbered links (a copy of the originals). */
  function ExportImage(acc: ExportAcc, img: ImageData, imageId: nat, acceptable: seq<string>,
                       categories: map<string, nat>, attrExport: seq<string>): Result<ExportAcc>
  {
    match ExportItems(ItemAcc(acc.annotationId, acc.annotations, img.links), img.items, imageId, img.links,
                      acceptable, categories, attrExport)
    case Err(e) => Err(e)
    case Ok(r) =>
      Ok(ExportAcc(r.annotationId, acc.images + [ImageDto(imageId, img.width, img.height, img.fileName)],
                   r.annotations, acc.labelInputs + LinkDtos(imageId, r.links)))
  }

  function ExportImages(acc: ExportAcc, imgs: seq<ImageData>, firstImageId: nat, acceptable: seq<string>,
                        categories: map<string, nat>, attrExport: seq<string>): Result<ExportAcc>
    decreases |imgs|
  {
    if imgs == [] then Ok(acc)
    else
      match ExportImage(acc, imgs[0], firstImageId, acceptable, categories, attrExport)
      case Err(e) => Err(e)
      case Ok(a) => ExportImages(a, imgs[1..], firstImageId + 1, acceptable, categories, attrExport)
  }

  /** Image ids are 1, 2, ... and annotation ids 1, 2, ... continuing from image to image. */
  ghost predicate Numbered(acc: ExportAcc) {
    && acc.annotationId == |acc.annotations| + 1
    && (forall j :: 0 <= j < |acc.annotations| ==> acc.annotations[j].id == j + 1)
    && (forall i :: 0 <= i < |acc.images| ==> acc.images[i].id == i + 1)
  }

  lemma {:induction false} ExportImagesNumbered(acc: ExportAcc, imgs: seq<ImageData>, acceptable: seq<string>,
                                                categories: map<string, nat>, attrExport: seq<string>)
    requires Numbered(acc)
    requires ExportImages(acc, imgs, |acc.images| + 1, acceptable, categories, attrExport).Ok?
    ensures var r := ExportImages(acc, imgs, |acc.images| + 1, acceptable, categories, attrExport).value;
      Numbered(r) && |r.images| == |acc.images| + |imgs|
    decreases |imgs|
  {
    if imgs != [] {
      ExportImageNumbered(acc, imgs[0], acceptable, categories, attrExport);
      var a := ExportImage(acc, imgs[0], |acc.images| + 1, acceptable, categories, attrExport).value;
      ExportImagesNumbered(a, imgs[1..], acceptable, categories, attrExport);
    }
  }

  /** One image keeps the numbering: its id is the next one and its annotations continue the ids. */
  lemma ExportImageNumbered(acc: ExportAcc, img: ImageData, acceptable: seq<string>,
                            categories: map<string, nat>, attrExport: seq<string>)
    requires Numbered(acc)
    requires ExportImage(acc, img, |acc.images| + 1, acceptable, categories, attrExport).Ok?
    ensures var a := ExportImage(acc, img, |acc.images| + 1, acceptable, categories, attrExport).value;
      Numbered(a) && |a.images| == |acc.images| + 1
  {
    var id := |acc.images| + 1;
    var start := ItemAcc(acc.annotationId, acc.annotations, img.links);
    ExportItemsNumbering(start, img.items, id, img.links, acceptable, categories, attrExport);
    var r := ExportItems(start, img.items, id, img.links, acceptable, categories, attrExport).value;
    var a := ExportImage(acc, img, id, acceptable, categories, attrExport).value;
    var n := |acc.annotations|;
    assert a.annotations == r.annotations && a.annotationId == r.annotationId;
    forall j | 0 <= j < |a.annotations| ensures a.annotations[j].id == j + 1 {
      if j < n {
        assert a.annotations[j] == r.annotations[..n][j];
      } else {
        assert a.annotations[j] == r.annotations[n..][j - n];
      }
    }
  }

  /** The body of the loop over one image's entries: renumber the copy, add the annotation, advance the id. */
  method ExportOneItem(annotationId: nat, annotationList: seq<Annotation>, result: seq<LinkIds>, item: Item,
                       imageId: nat, original: seq<LinkIds>, acceptable: seq<string>,
                       categoryDict: map<string, nat>, attrExport: seq<string>)
    returns (r: Result<ItemAcc>)
    ensures r == ExportItem(ItemAcc(annotationId, annotationList, result), item, imageId, original, acceptable,
                            categoryDict, attrExport)
  {
    if item.name !in acceptable {
      return Ok(ItemAcc(annotationId, annotationList, result));
    }
    var links := result;
    var k := FindFirstLink(original, item.id);
    if k.Some? && k.value < |links| {
      if item.name == "Label" {
        links := links[k.value := WithLabelId(links[k.value], annotationId)];
      } else {
        links := links[k.value := WithInputId(links[k.value], annotationId)];
      }
    }
    if item.name !in categoryDict {
      return Err(KeyError);
    }
    var annot := NewAnnotation(annotationId, imageId, categoryDict[item.name], BBox(item.geometry), -1.0, 0,
                               None, None).value;
    if ExportsAttributes(item, attrExport) {
      var updated := UpdateAttrs(annot.attributes, item.attrs);
      if updated.Err? {
        return Err(updated.error);
      }
      annot := annot.(attributes := updated.value);
    }
    r := Ok(ItemAcc(annotationId + 1, annotationList + [annot], links));
  }

  /** The loop over one image's entries, the running ids and the copy of its links. */
  method ExportImageItems(start: ItemAcc, items: seq<Item>, imageId: nat, acceptable: seq<string>,
                          categoryDict: map<string, nat>, attrExport: seq<string>)
    returns (r: Result<ItemAcc>)
    ensures r == ExportItems(start, items, imageId, start.links, acceptable, categoryDict, attrExport)
  {
    var original := start.links;
    var acc := start;
    var t := 0;
    while t < |items|
      invariant 0 <= t <= |items|
      invariant ExportItems(acc, items[t..], imageId, original, acceptable, categoryDict, attrExport)
                == ExportItems(start, items, imageId, original, acceptable, categoryDict, attrExport)
    {
      assert items[t..][0] == items[t] && items[t..][1..] == items[t + 1..];
      var step := ExportOneItem(acc.annotationId, acc.annotations, acc.links, items[t], imageId, original,
                                acceptable, categoryDict, attrExport);
      if step.Err? {
        return Err(step.error);
      }
      acc := step.value;
      t := t + 1;
    }
    assert items[t..] == [];
    r := Ok(acc);
  }

  /**
   * `CocoGeomDataExporter.export` without the file writing: the categories
   * from the acceptable names, then per image (ids from 1) its record, its
   * annotations (ids from 1, running across images) and its links
   * renumbered in a copy, so the accumulator's own links stay as they are.
   */
  method CocoExport(images: seq<ImageData>, acceptable: seq<string>, attrExport: seq<string>)
    returns (categories: seq<Category>, r: Result<ExportAcc>)
    ensures categories == Categories(acceptable)
    ensures r == ExportImages(ExportAcc(1, [], [], []), images, 1, acceptable, IndexMap(acceptable, 1), attrExport)
    ensures r.Ok? ==> Numbered(r.value) && |r.value.images| == |images|
  {
    var categoryDict := EnumerateIntoDict(acceptable, 1);
    categories := [];
    var c := 0;
    while c < |acceptable|
      invariant 0 <= c <= |acceptable|
      invariant categories == Categories(acceptable[..c])
    {
      categories := categories + [Category(c + 1, acceptable[c])];
      c := c + 1;
    }
    assert acceptable[..c] == acceptable;
    var acc0 := ExportAcc(1, [], [], []);
    var acc := acc0;
    var m := 0;
    while m < |images|
      invariant 0 <= m <= |images|
      invariant ExportImages(acc, images[m..], m + 1, acceptable, categoryDict, attrExport)
                == ExportImages(acc0, images, 1, acceptable, categoryDict, attrExport)
    {
      assert images[m..][0] == images[m] && images[m..][1..] == images[m + 1..];
      var img := images[m];
      var imageId := m + 1;
      var items := ExportImageItems(ItemAcc(acc.annotationId, acc.annotations, img.links), img.items, imageId,
                                    acceptable, categoryDict, attrExport);
      if items.Err? {
        return categories, Err(items.error);
      }
      acc := ExportAcc(items.value.annotationId, acc.images + [ImageDto(imageId, img.width, img.height, img.fileName)],
                       items.value.annotations, acc.labelInputs + LinkDtos(imageId, items.value.links));
      m := m + 1;
    }
    assert images[m..] == [];
    r := Ok(acc);
    ExportImagesNumbered(acc0, images, acceptable, categoryDict, attrExport);
  }

  // ---------------------------------------------------------------------
  // CSV

  /** `widget_name + '-' + stem + '-' + str(widget_id) + suffix`: the name of a widget's crop of the screenshot. */
  function CropName(name: string, fileName: string, id: nat): string {
    name + "-" + Stem(fileName) + "-" + NatToString(id) + Suffix(fileName)
  }

  /** Different widgets of one name and one screenshot get different crop names. */
  lemma CropNamesDistinct(name: string, fileName: string, i: nat, j: nat)
    requires CropName(name, fileName, i) == CropName(name, fileName, j)
    ensures i == j
  {
    var p := name + "-" + Stem(fileName) + "-";
    var s := Suffix(fileName);
    var a := NatToString(i);
    var b := NatToString(j);
    assert p + a + s == p + b + s;
    assert |a| == |b|;
    assert a == (p + a + s)[|p|..|p| + |a|];
    assert b == (p + b + s)[|p|..|p| + |b|];
    NatToStringValue(i);
    NatToStringValue(j);
  }

  /**
   * A CSV cell: the crop name of a widget (written as `CropName(name,
   * fileName, id)`), an attribute's state name, or a content value.
   */
  datatype Cell = CropCell(name: string, fileName: string, id: nat) | StateCell(st: AttrState) | Content(v: WidgetVals.PyValue)

  /** `[attr.state_name for attr in attrs]`, evaluated front to back, raising what the first failing `state_name` raises. */
  function StateCells(attrs: seq<Attr>): (r: Result<seq<Cell>>)
    ensures r.Ok? <==> forall i :: 0 <= i < |attrs| ==> StateName(attrs[i]).Ok?
    ensures r.Err? ==> exists k :: FirstFailing(attrs, k) && r.error == StateName(attrs[k]).error
    ensures r.Ok? ==> |r.value| == |attrs|
    ensures r.Ok? ==> forall i :: 0 <= i < |attrs| ==> r.value[i] == StateCell(StateName(attrs[i]).value)
    decreases |attrs|
  {
    if attrs == [] then Ok([])
    else
      assert forall i :: 1 <= i < |attrs| ==> attrs[i] == attrs[1..][i - 1];
      match StateName(attrs[0])
      case Err(e) =>
        assert FirstFailing(attrs, 0);
        Err(e)
      case Ok(st) =>
        var rest := StateCells(attrs[1..]);
        assert rest.Err? ==> exists k :: FirstFailing(attrs, k) && rest.error == StateName(attrs[k]).error by {
          if rest.Err? {
            var k :| FirstFailing(attrs[1..], k) && rest.error == StateName(attrs[1..][k]).error;
            assert FirstFailing(attrs, k + 1);
          }
        }
        match rest
        case Err(e) => Err(e)
        case Ok(cells) => Ok([StateCell(st)] + cells)
  }

  /** `[crop name] + [attr.state_name for attr in attrs]`, raising what the first failing `state_name` raises. */
  function AttrRow(crop: Cell, attrs: seq<Attr>): (r: Result<seq<Cell>>)
    ensures r.Ok? <==> forall i :: 0 <= i < |attrs| ==> StateName(attrs[i]).Ok?
    ensures r.Err? ==> exists k :: FirstFailing(attrs, k) && r.error == StateName(attrs[k]).error
    ensures r.Ok? ==> |r.value| == |attrs| + 1 && r.value[0] == crop
    ensures r.Ok? ==> forall i :: 0 <= i < |attrs| ==> r.value[i + 1] == StateCell(StateName(attrs[i]).value)
  {
    match StateCells(attrs)
    case Err(e) => Err(e)
    case Ok(cells) => Ok([crop] + cells)
  }

  /** The attribute rows of the widgets of one name, in order; the first failing row's error, if any. */
  function AttrRows(name: string, fileName: string, entries: seq<(nat, seq<Attr>)>): Result<seq<seq<Cell>>> {
    if entries == [] then Ok([])
    else
      var row := AttrRow(CropCell(name, fileName, entries[0].0), entries[0].1);
      var rest := AttrRows(name, fileName, entries[1..]);
      if row.Err? then Err(row.error)
      else if rest.Err? then Err(rest.error)
      else Ok([row.value] + rest.value)
  }

  /** The rows are there iff every widget's row is, and then they are those rows in the widgets' order. */
  lemma {:induction false} AttrRowsEach(name: string, fileName: string, entries: seq<(nat, seq<Attr>)>)
    ensures var r := AttrRows(name, fileName, entries);
      && (r.Ok? <==> forall e :: 0 <= e < |entries| ==> AttrRow(CropCell(name, fileName, entries[e].0), entries[e].1).Ok?)
      && (r.Ok? ==> (
            && |r.value| == |entries|
            && forall e :: 0 <= e < |entries| ==> r.value[e] == AttrRow(CropCell(name, fileName, entries[e].0), entries[e].1).value))
  {
    if entries != [] {
      AttrRowsEach(name, fileName, entries[1..]);
      assert forall e :: 0 < e < |entries| ==> entries[e] == entries[1..][e - 1];
    }
  }

  /** The rows from widget `k` on: its row, then the rows of the widgets after it. */
  lemma AttrRowsAt(name: string, fileName: string, entries: seq<(nat, seq<Attr>)>, k: nat)
    requires k < |entries|
    ensures var row := AttrRow(CropCell(name, fileName, entries[k].0), entries[k].1);
      var rest := AttrRows(name, fileName, entries[k + 1..]);
      AttrRows(name, fileName, entries[k..])
        == if row.Err? then Err(row.error) else if rest.Err? then Err(rest.error) else Ok([row.value] + rest.value)
  {
    assert entries[k..][0] == entries[k] && entries[k..][1..] == entries[k + 1..];
  }

  /**
   * `CSVAttrDataExporter.export` for one name of one screenshot: no rows
   * unless the name is exported, else one row per widget id, in order.
   */
  method CsvAttrRows(name: string, fileName: string, entries: seq<(nat, seq<Attr>)>, widgetsForExport: seq<string>)
    returns (r: Result<seq<seq<Cell>>>)
    ensures r.Ok? <==> name !in widgetsForExport || AttrRows(name, fileName, entries).Ok?
    ensures r.Ok? ==> r.value == if name in widgetsForExport then AttrRows(name, fileName, entries).value else []
  {
    if name !in widgetsForExport {
      return Ok([]);
    }
    var outLines: seq<seq<Cell>> := [];
    var k := 0;
    while k < |entries|
      invariant 0 <= k <= |entries|
      invariant AttrRows(name, fileName, entries).Ok? <==> AttrRows(name, fileName, entries[k..]).Ok?
      invariant AttrRows(name, fileName, entries).Ok? ==>
        outLines + AttrRows(name, fileName, entries[k..]).value == AttrRows(name, fileName, entries).value
    {
      AttrRowsAt(name, fileName, entries, k);
      var row := AttrRow(CropCell(name, fileName, entries[k].0), entries[k].1);
      if row.Err? {
        return Err(row.error);
      }
      ghost var rest := AttrRows(name, fileName, entries[k + 1..]);
      if rest.Ok? {
        assert outLines + ([row.value] + rest.value) == (outLines + [row.value]) + rest.value;
      }
      outLines := outLines + [row.value];
      k := k + 1;
    }
    assert entries[k..] == [];
    r := Ok(outLines);
  }

  /** The content rows of one widget: `[crop name, str(value)]` per stored value, in the dict's order. */
  function ContentRows(crop: Cell, values: WidgetObjects.Values): (r: seq<seq<Cell>>)
    requires PyDict.Valid(values)
    ensures |r| == |values.keys|
    ensures forall i :: 0 <= i < |r| ==> r[i] == [crop, Content(values.m[values.keys[i]])]
  {
    seq(|values.keys|, i requires 0 <= i < |values.keys| => [crop, Content(values.m[values.keys[i]])])
  }

  /** The content rows of the widgets of one name, widget by widget. */
  function AllContentRows(name: string, fileName: string, entries: seq<(nat, WidgetObjects.Values)>): seq<seq<Cell>>
    requires forall e :: 0 <= e < |entries| ==> PyDict.Valid(entries[e].1)
  {
    if entries == [] then []
    else ContentRows(CropCell(name, fileName, entries[0].0), entries[0].1) + AllContentRows(name, fileName, entries[1..])
  }

  /** The inner loop over one widget's values. */
  method AppendContentRows(outLines: seq<seq<Cell>>, crop: Cell, values: WidgetObjects.Values)
    returns (r: seq<seq<Cell>>)
    requires PyDict.Valid(values)
    ensures r == outLines + ContentRows(crop, values)
  {
    var rows: seq<seq<Cell>> := [];
    var j := 0;
    while j < |values.keys|
      invariant 0 <= j <= |values.keys| && |rows| == j
      invariant forall i :: 0 <= i < j ==> rows[i] == [crop, Content(values.m[values.keys[i]])]
    {
      rows := rows + [[crop, Content(values.m[values.keys[j]])]];
      j := j + 1;
    }
    assert rows == ContentRows(crop, values);
    r := outLines + rows;
  }

  /** `CSVWidgetContentExporter.export` for one name of one screenshot. */
  method CsvContentRows(name: string, fileName: string, entries: seq<(nat, WidgetObjects.Values)>,
                        widgetsForExport: seq<string>)
    returns (outLines: seq<seq<Cell>>)
    requires forall e :: 0 <= e < |entries| ==> PyDict.Valid(entries[e].1)
    ensures name !in widgetsForExport ==> outLines == []
    ensures name in widgetsForExport ==> outLines == AllContentRows(name, fileName, entries)
  {
    outLines := [];
    if name !in widgetsForExport {
      return;
    }
    var k := 0;
    while k < |entries|
      invariant 0 <= k <= |entries|
      invariant outLines + AllContentRows(name, fileName, entries[k..]) == AllContentRows(name, fileName, entries)
    {
      assert entries[k..][0] == entries[k] && entries[k..][1..] == entries[k + 1..];
      var crop := CropCell(name, fileName, entries[k].0);
      ghost var rows := ContentRows(crop, entries[k].1);
      ghost var rest := AllContentRows(name, fileName, entries[k + 1..]);
      assert AllContentRows(name, fileName, entries[k..]) == rows + rest;
      assert outLines + (rows + rest) == (outLines + rows) + rest;
      outLines := AppendContentRows(outLines, crop, entries[k].1);
      k := k + 1;
    }
    assert entries[k..] == [];
  }

  // ---------------------------------------------------------------------
  // File names

  /**
   * `__add_quality_to_filename`: with a "-q" in the name, the text before
   * the first one followed by the suffix of the piece after it (up to the
   * next "-q"); without one, the name itself.
   */
  function AddQualityToFilename(fileName: string): (r: string)
    ensures FindFrom(fileName, "-q", 0).None? ==> r == fileName
    ensures FindFrom(fileName, "-q", 0).Some? ==>
      var i := FindFrom(fileName, "-q", 0).value;
      r == fileName[..i] + Suffix(Split(fileName[i + 2..], "-q")[0])
  {
    var parts := Split(fileName, "-q");
    if |parts| > 1 then parts[0] + Suffix(parts[1]) else fileName
  }

  /** The part kept in front holds no "-q", and what follows it is a suffix: empty or a dot and no further dot. */
  lemma QualityDropped(fileName: string)
    requires FindFrom(fileName, "-q", 0).Some?
    ensures var i := FindFrom(fileName, "-q", 0).value;
      var r := AddQualityToFilename(fileName);
      && fileName[..i] <= r
      && (forall k :: !OccursAt(fileName[..i], "-q", k))
      && (|r| == i || (|r| >= i + 2 && r[i] == '.' && '.' !in r[i + 1..]))
  {
    var i := FindFrom(fileName, "-q", 0).value;
    SplitFirstPiece(fileName, "-q");
    SplitPiecesFree(fileName, "-q", 0);
    var suf := Suffix(Split(fileName, "-q")[1]);
    KeptThenSuffix(fileName[..i], suf, AddQualityToFilename(fileName));
  }

  /** A prefix followed by a suffix: the prefix is kept, and what follows is empty or a dot and no further dot. */
  lemma KeptThenSuffix(kept: string, suf: string, r: string)
    requires r == kept + suf
    requires suf == [] || (|suf| >= 2 && suf[0] == '.' && '.' !in suf[1..])
    ensures kept <= r
    ensures |r| == |kept| || (|r| >= |kept| + 2 && r[|kept|] == '.' && '.' !in r[|kept| + 1..])
  {
    if suf != [] {
      assert r[|kept| + 1..] == suf[1..];
    }
  }
}
