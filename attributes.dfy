/**
 * Widget attributes: the `AttrName` table (a value, a fancy name and the
 * names of the two states), one `Attr`, and the builder and holder that
 * collect attributes by name in a Python dict.
 */
module Attributes {
  import opened Wrappers
  import opened SeqUtil
  import PyDict

  datatype AttrName = CHECKABLE | ENABLEABLE | VSCROLABLE | HSCROLABLE | HAS_TEXT | ICONED | TYPE | TEXT

  /** The enum value of each member, 0 to 7 in declaration order. */
  function Value(n: AttrName): (v: nat)
    ensures v < 8
    ensures FromValue(v) == Some(n)
  {
    match n
    case CHECKABLE => 0
    case ENABLEABLE => 1
    case VSCROLABLE => 2
    case HSCROLABLE => 3
    case HAS_TEXT => 4
    case ICONED => 5
    case TYPE => 6
    case TEXT => 7
  }

  /** `AttrName(v)`: the member with value `v`, if there is one. */
  function FromValue(v: nat): (r: Option<AttrName>)
    ensures r.Some? <==> v < 8
  {
    if v == 0 then Some(CHECKABLE)
    else if v == 1 then Some(ENABLEABLE)
    else if v == 2 then Some(VSCROLABLE)
    else if v == 3 then Some(HSCROLABLE)
    else if v == 4 then Some(HAS_TEXT)
    else if v == 5 then Some(ICONED)
    else if v == 6 then Some(TYPE)
    else if v == 7 then Some(TEXT)
    else None
  }

  /** Distinct members have distinct values. */
  lemma ValueInjective(a: AttrName, b: AttrName)
    requires Value(a) == Value(b)
    ensures a == b
  {
    assert FromValue(Value(a)) == Some(a) && FromValue(Value(b)) == Some(b);
  }

  function FancyName(n: AttrName): string {
    match n
    case CHECKABLE => "checkable"
    case ENABLEABLE => "enableable"
    case VSCROLABLE => "vscrolable"
    case HSCROLABLE => "hscrolable"
    case HAS_TEXT => "has_text"
    case ICONED => "iconed"
    case TYPE => "type"
    case TEXT => "text"
  }

  /** The state names: two for every member but TEXT, which has none. */
  function StateNames(n: AttrName): (r: Option<seq<string>>)
    ensures r.None? <==> n == TEXT
    ensures r.Some? ==> |r.value| == 2 && r.value[0] != r.value[1]
  {
    match n
    case CHECKABLE => Some(["unchecked", "checked"])
    case ENABLEABLE => Some(["disabled", "enabled"])
    case VSCROLABLE => Some(["vert_unscrollable", "vert_scrollable"])
    case HSCROLABLE => Some(["hor_unscrollable", "hor_scrollable"])
    case HAS_TEXT => Some(["not_has_text", "has_text"])
    case ICONED => Some(["not_iconed", "iconed"])
    case TYPE => Some(["text", "combobox"])
    case TEXT => None
  }

  /**
   * `get_state_name_by_index`: indexing the state names, which raises
   * TypeError for TEXT (whose state names are None).
   */
  function GetStateNameByIndex(n: AttrName, index: int): (r: Result<string>)
    ensures n == TEXT ==> r == Err(TypeError)
    ensures n != TEXT ==> r == PyIndex(StateNames(n).value, index)
  {
    match StateNames(n)
    case None => Err(TypeError)
    case Some(names) => PyIndex(names, index)
  }

  /**
   * `get_state_index_by_name`: the first position holding `name`, found by
   * the source's scan; an absent name raises RuntimeError, and TEXT (whose
   * state names are None) cannot be iterated and raises TypeError. On the
   * valid indices it inverts `get_state_name_by_index`.
   */
  method GetStateIndexByName(n: AttrName, name: string) returns (r: Result<nat>)
    ensures n == TEXT ==> r == Err(TypeError)
    ensures n != TEXT ==> (r.Ok? <==> name in StateNames(n).value)
    ensures r.Ok? ==> r.value < |StateNames(n).value| && StateNames(n).value[r.value] == name
    ensures r.Ok? ==> forall j :: 0 <= j < r.value ==> StateNames(n).value[j] != name
    ensures n != TEXT && r.Err? ==> r.error == RuntimeError
    ensures forall i: nat :: GetStateNameByIndex(n, i) == Ok(name) ==> r == Ok(i)
  {
    var names := StateNames(n);
    if names.None? {
      return Err(TypeError);
    }
    var t := names.value;
    var k := 0;
    while k < |t|
      invariant 0 <= k <= |t|
      invariant forall j :: 0 <= j < k ==> t[j] != name
    {
      if t[k] == name {
        return Ok(k);
      }
      k := k + 1;
    }
    return Err(RuntimeError);
  }

  /** An attribute's state: an int (a Python bool is passed as 0 or 1) or, for TEXT, a string. */
  datatype AttrState = IntState(i: int) | StrState(s: string)

  datatype Attr = Attr(name: AttrName, state: AttrState)

  /**
   * `Attr.state_name`: the raw state when the name has no state names,
   * else the state name the state indexes (Python indexing, so -1 and -2
   * are accepted); indexing with a string raises TypeError.
   */
  function StateName(a: Attr): (r: Result<AttrState>)
    ensures a.name == TEXT ==> r == Ok(a.state)
    ensures a.name != TEXT && a.state.IntState? ==>
      r == (match PyIndex(StateNames(a.name).value, a.state.i)
            case Ok(s) => Ok(StrState(s))
            case Err(e) => Err(e))
    ensures a.name != TEXT && a.state.StrState? ==> r == Err(TypeError)
  {
    match StateNames(a.name)
    case None => Ok(a.state)
    case Some(names) =>
      match a.state
      case StrState(_) => Err(TypeError)
      case IntState(i) =>
        match PyIndex(names, i)
        case Ok(s) => Ok(StrState(s))
        case Err(e) => Err(e)
  }

  /** Position `k` holds the first attribute of the list whose `state_name` raises. */
  predicate FirstFailing(attrs: seq<Attr>, k: int) {
    0 <= k < |attrs| && StateName(attrs[k]).Err? && forall j :: 0 <= j < k ==> StateName(attrs[j]).Ok?
  }

  /** A state name of a two-state attribute names the state back. */
  lemma StateNameRoundTrip(n: AttrName, state: nat)
    requires n != TEXT && state < 2
    ensures StateName(Attr(n, IntState(state))).Ok?
    ensures var s := StateName(Attr(n, IntState(state))).value;
      s.StrState? && GetStateNameByIndex(n, state) == Ok(s.s)
  {
  }

  /** The Python dict an attribute builder or holder stores its attributes in; shared by reference. */
  class AttrDict {
    var d: PyDict.Dict<AttrName, Attr>

    ghost predicate Valid()
      reads this
    {
      PyDict.Valid(d) && forall k :: k in d.m ==> d.m[k].name == k
    }

    constructor ()
      ensures d == PyDict.Empty() && Valid()
    {
      d := PyDict.Empty();
    }

    /** `self[attr.name] = attr`. */
    method Put(attr: Attr)
      requires Valid()
      modifies this
      ensures d == PyDict.Set(old(d), attr.name, attr) && Valid()
    {
      d := PyDict.Set(d, attr.name, attr);
    }
  }

  /**
   * `AttrHolderBuilder`: each setter stores `Attr(name, state)` under its
   * name, a later call for the same name replacing the earlier one, and
   * returns the builder so calls chain, except `type`, which returns None.
   */
  class AttrHolderBuilder {
    const attrs: AttrDict

    constructor ()
      ensures fresh(attrs) && attrs.d == PyDict.Empty() && attrs.Valid()
    {
      attrs := new AttrDict();
    }

    method HasText(state: int) returns (self: AttrHolderBuilder)
      requires attrs.Valid()
      modifies attrs
      ensures attrs.d == PyDict.Set(old(attrs.d), HAS_TEXT, Attr(HAS_TEXT, IntState(state))) && attrs.Valid()
      ensures self == this
    {
      attrs.Put(Attr(HAS_TEXT, IntState(state)));
      self := this;
    }

    method Text(state: string) returns (self: AttrHolderBuilder)
      requires attrs.Valid()
      modifies attrs
      ensures attrs.d == PyDict.Set(old(attrs.d), TEXT, Attr(TEXT, StrState(state))) && attrs.Valid()
      ensures self == this
    {
      attrs.Put(Attr(TEXT, StrState(state)));
      self := this;
    }

    method Iconed(state: int) returns (self: AttrHolderBuilder)
      requires attrs.Valid()
      modifies attrs
      ensures attrs.d == PyDict.Set(old(attrs.d), ICONED, Attr(ICONED, IntState(state))) && attrs.Valid()
      ensures self == this
    {
      attrs.Put(Attr(ICONED, IntState(state)));
      self := this;
    }

    method Checkable(state: int) returns (self: AttrHolderBuilder)
      requires attrs.Valid()
      modifies attrs
      ensures attrs.d == PyDict.Set(old(attrs.d), CHECKABLE, Attr(CHECKABLE, IntState(state))) && attrs.Valid()
      ensures self == this
    {
      attrs.Put(Attr(CHECKABLE, IntState(state)));
      self := this;
    }

    method Enableable(state: int) returns (self: AttrHolderBuilder)
      requires attrs.Valid()
      modifies attrs
      ensures attrs.d == PyDict.Set(old(attrs.d), ENABLEABLE, Attr(ENABLEABLE, IntState(state))) && attrs.Valid()
      ensures self == this
    {
      attrs.Put(Attr(ENABLEABLE, IntState(state)));
      self := this;
    }

    method Vscrollable(state: int) returns (self: AttrHolderBuilder)
      requires attrs.Valid()
      modifies attrs
      ensures attrs.d == PyDict.Set(old(attrs.d), VSCROLABLE, Attr(VSCROLABLE, IntState(state))) && attrs.Valid()
      ensures self == this
    {
      attrs.Put(Attr(VSCROLABLE, IntState(state)));
      self := this;
    }

    method Hscrollable(state: int) returns (self: AttrHolderBuilder)
      requires attrs.Valid()
      modifies attrs
      ensures attrs.d == PyDict.Set(old(attrs.d), HSCROLABLE, Attr(HSCROLABLE, IntState(state))) && attrs.Valid()
      ensures self == this
    {
      attrs.Put(Attr(HSCROLABLE, IntState(state)));
      self := this;
    }

    /** `type` stores its attribute like the others but returns None, so it ends a chain. */
    method Type(state: int) returns (self: Option<AttrHolderBuilder>)
      requires attrs.Valid()
      modifies attrs
      ensures attrs.d == PyDict.Set(old(attrs.d), TYPE, Attr(TYPE, IntState(state))) && attrs.Valid()
      ensures self == None
    {
      attrs.Put(Attr(TYPE, IntState(state)));
      self := None;
    }

    /** `build` hands the builder's own dict to the holder: the two alias each other. */
    method Build() returns (h: AttrHolder)
      ensures fresh(h) && h.attrs == attrs
    {
      h := new AttrHolder(Some(attrs));
    }
  }

  class AttrHolder {
    const attrs: AttrDict

    /** `AttrHolder(attrs)`: the given dict itself, or a new empty one for None. */
    constructor (given: Option<AttrDict>)
      ensures given.Some? ==> attrs == given.value
      ensures given.None? ==> fresh(attrs) && attrs.d == PyDict.Empty() && attrs.Valid()
    {
      if given.Some? {
        attrs := given.value;
      } else {
        attrs := new AttrDict();
      }
    }

    /** `add_attr`: store under the attribute's name, replacing any earlier one. */
    method AddAttr(attr: Attr)
      requires attrs.Valid()
      modifies attrs
      ensures attrs.d == PyDict.Set(old(attrs.d), attr.name, attr) && attrs.Valid()
    {
      attrs.Put(attr);
    }

    /** `get_attr_list`: the stored attributes in first-insertion order of their names. */
    function GetAttrList(): (r: seq<Attr>)
      reads this, attrs
      requires attrs.Valid()
      ensures |r| == |attrs.d.keys|
      ensures forall i :: 0 <= i < |r| ==> r[i] == attrs.d.m[attrs.d.keys[i]] && r[i].name == attrs.d.keys[i]
    {
      PyDict.Values(attrs.d)
    }

    /** `get_attr`: the attribute stored under `name`; an absent name raises KeyError. */
    function GetAttr(name: AttrName): (r: Result<Attr>)
      reads this, attrs
      requires attrs.Valid()
      ensures r.Ok? <==> name in attrs.d.keys
      ensures r.Ok? ==> r.value.name == name && r.value in GetAttrList()
      ensures r.Err? ==> r.error == KeyError
    {
      var g := PyDict.Get(attrs.d, name);
      if g.Ok? then
        assert attrs.d.keys[IndexOf(attrs.d.keys, name)] == name;
        g
      else g
    }
  }

  /**
   * Setting an attribute through the builder after `build` is visible
   * through the holder, because both share one dict.
   */
  method BuildThenSet(state: int) returns (h: AttrHolder)
    ensures h.attrs.Valid() && h.GetAttrList() == [Attr(HAS_TEXT, IntState(state))]
  {
    var b := new AttrHolderBuilder();
    h := b.Build();
    var _ := b.HasText(state);
    PyDict.ValuesSet(PyDict.Empty<AttrName, Attr>(), HAS_TEXT, Attr(HAS_TEXT, IntState(state)));
  }

  /** A later store under the same name replaces the attribute in place in `get_attr_list`. */
  lemma ListAfterPut(d: PyDict.Dict<AttrName, Attr>, attr: Attr)
    requires PyDict.Valid(d)
    ensures attr.name in d.m ==> |PyDict.Values(PyDict.Set(d, attr.name, attr))| == |PyDict.Values(d)|
    ensures attr.name !in d.m ==> PyDict.Values(PyDict.Set(d, attr.name, attr)) == PyDict.Values(d) + [attr]
    ensures attr in PyDict.Values(PyDict.Set(d, attr.name, attr))
  {
    PyDict.ValuesSet(d, attr.name, attr);
    var r := PyDict.Set(d, attr.name, attr);
    if attr.name in d.m {
      var i := IndexOf(d.keys, attr.name);
      assert PyDict.Values(r)[i] == attr;
    } else {
      assert PyDict.Values(r)[|d.keys|] == attr;
    }
  }
}
