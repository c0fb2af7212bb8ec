/**
 * Widget content values: the `WidgetContentName` table (each name with the
 * Python type its value must have), and the builder and holder that keep
 * values by name in a Python dict.
 */
module WidgetVals {
  import opened Wrappers
  import PyDict

  datatype WidgetContentName = TEXT

  /** The Python types a content value can have. */
  datatype PyType = StrType | IntType | BoolType | NoneType | OtherType(name: string)

  /** A Python value, seen through its type. */
  datatype PyValue = PyStr(s: string) | PyInt(i: int) | PyBool(b: bool) | PyNone | PyOther(typeName: string)

  /** `type(v)`. */
  function TypeOf(v: PyValue): (t: PyType)
    ensures v.PyStr? <==> t == StrType
  {
    match v
    case PyStr(_) => StrType
    case PyInt(_) => IntType
    case PyBool(_) => BoolType
    case PyNone => NoneType
    case PyOther(n) => OtherType(n)
  }

  /** The `data_type` of each name: TEXT holds a `str`. */
  function DataType(n: WidgetContentName): PyType {
    match n
    case TEXT => StrType
  }

  /** A value may be stored under a name iff its exact type is the name's data type. */
  predicate Conforms(n: WidgetContentName, v: PyValue) {
    TypeOf(v) == DataType(n)
  }

  /** The Python dict a values builder or holder stores into; shared by reference. */
  class ValsDict {
    var d: PyDict.Dict<WidgetContentName, PyValue>

    ghost predicate Valid()
      reads this
    {
      PyDict.Valid(d)
    }

    constructor ()
      ensures d == PyDict.Empty() && Valid()
    {
      d := PyDict.Empty();
    }
  }

  /** Every stored value has its name's data type. */
  predicate AllConform(d: PyDict.Dict<WidgetContentName, PyValue>) {
    forall k :: k in d.m ==> Conforms(k, d.m[k])
  }

  /**
   * The check in the holder's constructor: a scan over the items that
   * stops at the first value whose type differs from its name's.
   */
  method CheckTypes(d: PyDict.Dict<WidgetContentName, PyValue>) returns (ok: bool)
    requires PyDict.Valid(d)
    ensures ok <==> AllConform(d)
  {
    var k := 0;
    while k < |d.keys|
      invariant 0 <= k <= |d.keys|
      invariant forall j :: 0 <= j < k ==> Conforms(d.keys[j], d.m[d.keys[j]])
    {
      if !Conforms(d.keys[k], d.m[d.keys[k]]) {
        return false;
      }
      k := k + 1;
    }
    ok := true;
    forall n | n in d.m ensures Conforms(n, d.m[n]) {
      var j :| 0 <= j < |d.keys| && d.keys[j] == n;
    }
  }

  class WidgetValsHolder {
    const vals: ValsDict

    /** The holder around a dict whose values have been checked. */
    constructor (given: ValsDict)
      ensures vals == given
    {
      vals := given;
    }

    /** `get_vals_dict`: the stored dict itself. */
    function GetValsDict(): (r: ValsDict)
      reads this
      ensures r == vals
    {
      vals
    }

    /** `get_attr`: the value stored under `name`; an absent name raises KeyError. */
    function GetAttr(name: WidgetContentName): (r: Result<PyValue>)
      reads this, vals
      ensures r.Ok? <==> name in vals.d.m
      ensures r.Ok? ==> r.value == vals.d.m[name]
      ensures r.Err? ==> r.error == KeyError
    {
      PyDict.Get(vals.d, name)
    }

    /**
     * `add_val` as written: it compares the value's type with the
     * class-level `WidgetContentName.data_type`, which is the property
     * object and never a type, so every call raises RuntimeError and
     * nothing is stored.
     */
    method AddValAsWritten(valName: WidgetContentName, val: PyValue) returns (r: Result<()>)
      ensures r == Err(RuntimeError)
      ensures vals.d == old(vals.d)
    {
      r := Err(RuntimeError);
    }

    /**
     * `add_val` checking `val_name.data_type`, as evidently intended: a
     * conforming value is stored under its name, any other raises
     * RuntimeError; the dict keeps every value conforming.
     */
    method AddVal(valName: WidgetContentName, val: PyValue) returns (r: Result<()>)
      requires vals.Valid() && AllConform(vals.d)
      modifies vals
      ensures r.Ok? <==> Conforms(valName, val)
      ensures r.Err? ==> r.error == RuntimeError && vals.d == old(vals.d)
      ensures r.Ok? ==> vals.d == PyDict.Set(old(vals.d), valName, val)
      ensures vals.Valid() && AllConform(vals.d)
    {
      if !Conforms(valName, val) {
        return Err(RuntimeError);
      }
      vals.d := PyDict.Set(vals.d, valName, val);
      r := Ok(());
    }
  }

  /**
   * `WidgetValsHolder(vals)`: the given dict, or a new empty one for None;
   * a value whose type is not its name's data type raises RuntimeError.
   */
  method NewWidgetValsHolder(given: Option<ValsDict>) returns (r: Result<WidgetValsHolder>)
    requires given.Some? ==> given.value.Valid()
    ensures given.Some? ==> (r.Ok? <==> AllConform(given.value.d))
    ensures given.Some? && r.Ok? ==> r.value.vals == given.value
    ensures given.None? ==> r.Ok? && fresh(r.value.vals) && r.value.vals.d == PyDict.Empty()
    ensures r.Err? ==> r.error == RuntimeError
  {
    if given.None? {
      var d := new ValsDict();
      var h := new WidgetValsHolder(d);
      return Ok(h);
    }
    var ok := CheckTypes(given.value.d);
    if !ok {
      return Err(RuntimeError);
    }
    var h := new WidgetValsHolder(given.value);
    r := Ok(h);
  }

  /** `WidgetValsHolderBuilder`: `text` stores a string under TEXT and returns the builder. */
  class WidgetValsHolderBuilder {
    const vals: ValsDict

    constructor ()
      ensures fresh(vals) && vals.d == PyDict.Empty() && vals.Valid()
    {
      vals := new ValsDict();
    }

    /** `text(val="")`. */
    method Text(val: string) returns (self: WidgetValsHolderBuilder)
      requires vals.Valid() && AllConform(vals.d)
      modifies vals
      ensures vals.d == PyDict.Set(old(vals.d), TEXT, PyStr(val)) && vals.Valid() && AllConform(vals.d)
      ensures self == this
    {
      vals.d := PyDict.Set(vals.d, TEXT, PyStr(val));
      self := this;
    }

    /** `build`: a holder around the builder's own dict, which never fails the type check. */
    method Build() returns (h: WidgetValsHolder)
      requires vals.Valid() && AllConform(vals.d)
      ensures h.vals == vals
    {
      var r := NewWidgetValsHolder(Some(vals));
      h := r.value;
    }
  }

  /** The one stored value of a builder that set only the text is that text. */
  lemma TextOnly(val: string)
    ensures var d := PyDict.Set(PyDict.Empty<WidgetContentName, PyValue>(), TEXT, PyStr(val));
      AllConform(d) && PyDict.Values(d) == [PyStr(val)]
  {
    PyDict.ValuesSet(PyDict.Empty<WidgetContentName, PyValue>(), TEXT, PyStr(val));
  }
}
